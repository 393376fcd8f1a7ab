/**
 * Plan subscription: the requested plan name is lower-cased, checked against
 * the three offered plans and upserted as the user's single plan row.
 */
module PlanController {
  import opened Wrappers
  import opened Text
  import opened Records

  const ValidPlans: seq<string> := ["starter", "growth", "pro"]

  /** HTTP status of the JSON answer: 200 after the upsert, 400 for an unknown plan. */
  datatype Reply = Reply(status: nat)

  /** `strtolower($request->input('plan'))`; a missing plan reads as "". */
  function RequestedPlan(plan: Option<string>): (r: string)
    ensures |r| == |plan.GetOr("")|
    ensures forall i :: 0 <= i < |r| ==> !('A' <= r[i] <= 'Z')
  {
    Lower(plan.GetOr(""))
  }

  /** The plan rows after a subscription request: the upsert, or no change for an unknown plan. */
  function Subscribed(plans: map<nat, string>, userId: nat, plan: Option<string>): (r: map<nat, string>)
    ensures RequestedPlan(plan) !in ValidPlans ==> r == plans
    ensures RequestedPlan(plan) in ValidPlans ==> userId in r && r[userId] == RequestedPlan(plan)
    ensures r.Keys == plans.Keys || r.Keys == plans.Keys + {userId}
  {
    if RequestedPlan(plan) in ValidPlans then plans[userId := RequestedPlan(plan)] else plans
  }

  /**
   * `subscribe()`: 400 and no change for a plan outside the three; otherwise
   * the user's row (keyed on the user id) holds the lower-cased plan name.
   */
  method Subscribe(db: Database, userId: nat, plan: Option<string>) returns (reply: Reply)
    modifies db`plans
    ensures db.plans == Subscribed(old(db.plans), userId, plan)
    ensures RequestedPlan(plan) !in ValidPlans ==> reply.status == 400 && db.plans == old(db.plans)
    ensures RequestedPlan(plan) in ValidPlans ==>
      reply.status == 200 && db.plans == old(db.plans)[userId := RequestedPlan(plan)]
  {
    var planType := Lower(plan.GetOr(""));
    if planType !in ValidPlans {
      return Reply(400);
    }
    db.plans := db.plans[userId := planType];
    reply := Reply(200);
  }

  /** A plan name is accepted however its ASCII letters are cased. */
  lemma AcceptsAnyCase(s: string, p: string)
    requires p in ValidPlans
    requires |s| == |p| && forall i :: 0 <= i < |s| ==> LowerChar(s[i]) == p[i]
    ensures RequestedPlan(Some(s)) == p
  {
    LowerWord(s, p);
  }

  /** "GrOwTh" is the growth plan; a request without a plan is refused. */
  lemma PlanExamples()
    ensures RequestedPlan(Some("GrOwTh")) == "growth"
    ensures RequestedPlan(None) !in ValidPlans
  {
    LowerWord("GrOwTh", "growth");
  }

  /** `t` is `s` lower-cased when they agree letter by letter. */
  lemma LowerWord(s: string, t: string)
    requires |s| == |t| && forall i :: 0 <= i < |s| ==> LowerChar(s[i]) == t[i]
    ensures Lower(s) == t
  {
  }

  /** Every stored plan row names one of the offered plans. */
  predicate AllValid(plans: map<nat, string>) {
    forall u :: u in plans ==> plans[u] in ValidPlans
  }

  /** A subscription, accepted or refused, keeps every stored plan one of the three. */
  lemma StoredPlanIsValid(plans: map<nat, string>, userId: nat, plan: Option<string>)
    requires AllValid(plans)
    ensures AllValid(Subscribed(plans, userId, plan))
  {
  }

  /** Sending the same subscription twice leaves the rows as sending it once. */
  lemma SubscribeIdempotent(plans: map<nat, string>, userId: nat, plan: Option<string>)
    ensures Subscribed(Subscribed(plans, userId, plan), userId, plan) == Subscribed(plans, userId, plan)
  {
  }

  /** Other users' rows are untouched: present exactly when they were, with the same plan. */
  lemma SubscribeFrame(plans: map<nat, string>, userId: nat, plan: Option<string>, other: nat)
    requires other != userId
    ensures other in Subscribed(plans, userId, plan) <==> other in plans
    ensures other in plans ==> Subscribed(plans, userId, plan)[other] == plans[other]
  {
  }
}
