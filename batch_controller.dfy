/**
 * The batch endpoints: `store` validates a request, creates a pending batch
 * and queues its job; `index` lists the user's batches newest first, ten per
 * page, queueing an expiry sweep for every listed batch whose expiry date has
 * come; `show` pages through one owned batch's cards; `download` serves the
 * stored report.
 *
 * Dates are millisecond timestamps: `today` is the start of the current day
 * and an expiry date is the start of its day. `isEmail` stands for Laravel's
 * `email` rule and `fileExists` for `file_exists` on the public disk.
 */
module GiftCardBatchController {
  import opened Wrappers
  import opened Text
  import opened Records
  import opened CreateGiftCards

  // ---------------------------------------------------------------------------
  // store
  // ---------------------------------------------------------------------------

  /** A request field: missing (or null), of the wrong kind, or a value of the right kind. */
  datatype Field<T> = Absent | Malformed | Given(value: T)

  /** The request body; money in cents, dates as timestamps. */
  datatype StoreRequest = StoreRequest(
    cardValue: Field<int>,
    count: Field<int>,
    length: Field<int>,
    expiry: Field<int>,
    prefix: Field<string>,
    emailList: Field<seq<Option<string>>>,
    note: Field<string>)

  /** `required|...|min:m` on a number. */
  predicate RequiredAtLeast(f: Field<int>, min: int) {
    f.Given? && f.value >= min
  }

  /** `nullable|string|max:n`. */
  predicate OptionalStringAtMost(f: Field<string>, max: nat) {
    f.Absent? || (f.Given? && |f.value| <= max)
  }

  /** The error keys the validator reports; empty when the request passes. */
  function FailedFields(req: StoreRequest, today: int, isEmail: string -> bool): (failed: set<string>)
    ensures failed == {} <==>
      && req.cardValue.Given? && req.cardValue.value >= 100
      && req.count.Given? && req.count.value >= 1
      && req.length.Given? && 4 <= req.length.value <= 30
      && (req.expiry.Absent? || (req.expiry.Given? && req.expiry.value > today))
      && (req.prefix.Absent? || (req.prefix.Given? && |req.prefix.value| <= 50))
      && (req.emailList.Absent? || (req.emailList.Given? &&
            forall i :: 0 <= i < |req.emailList.value| && req.emailList.value[i].Some? ==>
              isEmail(req.emailList.value[i].value)))
      && (req.note.Absent? || (req.note.Given? && |req.note.value| <= 1000))
  {
    (if RequiredAtLeast(req.cardValue, 100) then {} else {"card_value"})
    + (if RequiredAtLeast(req.count, 1) then {} else {"gift_card_count"})
    + (if req.length.Given? && 4 <= req.length.value <= 30 then {} else {"gift_card_length"})
    + (if req.expiry.Absent? || (req.expiry.Given? && req.expiry.value > today) then {}
       else {"gift_card_expiry"})
    + (if OptionalStringAtMost(req.prefix, 50) then {} else {"prefix"})
    + (if req.emailList.Absent? || req.emailList.Given? then {} else {"email_list"})
    + BadEmails(req.emailList, isEmail)
    + (if OptionalStringAtMost(req.note, 1000) then {} else {"note"})
  }

  /** The `email_list.i` keys of the entries that fail `nullable|email`. */
  function BadEmails(list: Field<seq<Option<string>>>, isEmail: string -> bool): (keys: set<string>)
    ensures keys == {} <==>
      (!list.Given? ||
       forall i :: 0 <= i < |list.value| && list.value[i].Some? ==> isEmail(list.value[i].value))
  {
    if !list.Given? then {}
    else
      var l := list.value;
      var keys := set i | 0 <= i < |l| && l[i].Some? && !isEmail(l[i].value) :: "email_list." + NatToString(i);
      assert forall i :: 0 <= i < |l| && l[i].Some? && !isEmail(l[i].value) ==>
        "email_list." + NatToString(i) in keys;
      keys
  }

  /** The batch row `store` creates from an accepted request. */
  function NewBatch(id: nat, userId: nat, req: StoreRequest, today: int, now: int,
                    isEmail: string -> bool): (b: Batch)
    requires FailedFields(req, today, isEmail) == {}
    ensures b.id == id && b.userId == userId && b.status == Pending && b.createdAt == now
    ensures b.cardValue >= 100 && b.count >= 1 && 4 <= b.length <= 30
    ensures b.expiry.Some? ==> b.expiry.value > today
    ensures b.prefix.Some? ==> |b.prefix.value| <= 50
    ensures b.emailList.Some? <==> req.emailList.Given? && req.emailList.value != []
    ensures b.emailList.Some? ==> b.emailList.value == req.emailList.value
  {
    Batch(id, userId, req.cardValue.value, req.count.value, req.length.value,
          if req.expiry.Given? then Some(req.expiry.value) else None,
          if req.prefix.Given? then Some(req.prefix.value) else None,
          if req.emailList.Given? && req.emailList.value != [] then Some(req.emailList.value) else None,
          if req.note.Given? then Some(req.note.value) else None,
          Pending, now)
  }

  datatype StoreReply = Invalid(status: nat, errors: set<string>) | Queued(batchId: nat)

  /**
   * `store()`: 422 with the failed keys and no change, or one new pending
   * batch, one queued CreateGiftCards job for it, and its id.
   */
  method Store(db: Database, userId: nat, req: StoreRequest, today: int, now: int,
               isEmail: string -> bool)
    returns (reply: StoreReply)
    requires db.Valid()
    modifies db`batches, db`queue
    ensures db.Valid()
    ensures FailedFields(req, today, isEmail) != {} ==>
      && reply == Invalid(422, FailedFields(req, today, isEmail))
      && db.batches == old(db.batches) && db.queue == old(db.queue)
    ensures FailedFields(req, today, isEmail) == {} ==>
      var id := |old(db.batches)| + 1;
      && reply == Queued(id)
      && db.batches == old(db.batches) + [NewBatch(id, userId, req, today, now, isEmail)]
      && db.queue == old(db.queue) + [CreateGiftCardsJob(id)]
  {
    var failed := FailedFields(req, today, isEmail);
    if failed != {} {
      return Invalid(422, failed);
    }
    var id := |db.batches| + 1;
    var batch := NewBatch(id, userId, req, today, now, isEmail);
    db.batches := db.batches + [batch];
    db.queue := db.queue + [CreateGiftCardsJob(id)];
    reply := Queued(id);
  }

  // ---------------------------------------------------------------------------
  // index
  // ---------------------------------------------------------------------------

  const PerPage: nat := 10

  /** Ids strictly increase along the table, as auto-increment ids do. */
  predicate IdsIncreasing(batches: seq<Batch>) {
    forall i, j :: 0 <= i < j < |batches| ==> batches[i].id < batches[j].id
  }

  predicate IdsDecreasing(batches: seq<Batch>) {
    forall i, j :: 0 <= i < j < |batches| ==> batches[i].id > batches[j].id
  }

  /** `where('user_id', userId)->orderBy('created_at', 'desc')`. */
  function OwnedNewestFirst(batches: seq<Batch>, userId: nat): (r: seq<Batch>)
    ensures forall i :: 0 <= i < |r| ==> r[i].userId == userId && r[i] in batches
    ensures forall b :: b in batches && b.userId == userId ==> b in r
  {
    if batches == [] then []
    else
      var rest := OwnedNewestFirst(batches[1..], userId);
      assert forall b :: b in batches[1..] ==> b in batches;
      if batches[0].userId == userId then rest + [batches[0]] else rest
  }

  /** When ids grow with creation, the listing is newest first. */
  lemma {:induction false} OwnedNewestFirstOrdered(batches: seq<Batch>, userId: nat)
    requires IdsIncreasing(batches)
    ensures IdsDecreasing(OwnedNewestFirst(batches, userId))
  {
    if batches != [] {
      var rest := OwnedNewestFirst(batches[1..], userId);
      OwnedNewestFirstOrdered(batches[1..], userId);
      if batches[0].userId == userId {
        assert forall k :: 0 <= k < |rest| ==> rest[k] in batches[1..];
        assert forall k :: 0 <= k < |rest| ==> rest[k].id > batches[0].id;
      }
    }
  }

  /** The current page, as `paginate(10)` reads it: below 1 means 1. */
  function PageNumber(page: int): nat {
    if page < 1 then 1 else page
  }

  /** The items of a page. */
  function PageOf<T>(xs: seq<T>, page: int): (r: seq<T>)
    ensures |r| <= PerPage
    ensures forall i :: 0 <= i < |r| ==> r[i] in xs
    ensures var lo := (PageNumber(page) - 1) * PerPage;
      lo < |xs| ==> r == xs[lo..if lo + PerPage < |xs| then lo + PerPage else |xs|]
    ensures (PageNumber(page) - 1) * PerPage >= |xs| ==> r == []
  {
    var lo := (PageNumber(page) - 1) * PerPage;
    if lo >= |xs| then []
    else xs[lo..if lo + PerPage < |xs| then lo + PerPage else |xs|]
  }

  /** `last_page` of the paginator: the number of pages, at least 1. */
  function LastPage(total: nat): (n: nat)
    ensures n >= 1
    ensures (n - 1) * PerPage < total || (total == 0 && n == 1)
    ensures total <= n * PerPage
  {
    if total == 0 then 1 else (total + PerPage - 1) / PerPage
  }

  /**
   * The expiry trigger: an expiry date is set, it has come, and the status is
   * not "expired".
   */
  predicate ShouldExpire(b: Batch, now: int) {
    b.expiry.Some? && now >= b.expiry.value && BatchStatusText(b.status) != "expired"
  }

  /** No batch status is "expired", so the status test never holds a batch back. */
  lemma ExpiredGuardVacuous(b: Batch, now: int)
    ensures ShouldExpire(b, now) <==> b.expiry.Some? && now >= b.expiry.value
  {
  }

  /** The sweep jobs queued for a page, in page order. */
  function ExpiryJobs(shown: seq<Batch>, now: int): (jobs: seq<Job>)
    ensures |jobs| <= |shown|
  {
    if shown == [] then []
    else
      var last := shown[|shown| - 1];
      ExpiryJobs(shown[..|shown| - 1], now) + (if ShouldExpire(last, now) then [MarkExpiredJob(last.id)] else [])
  }

  /** A sweep job for a listed batch whose expiry has come. */
  predicate DueJob(shown: seq<Batch>, j: Job, now: int) {
    j.MarkExpiredJob? && exists i :: 0 <= i < |shown| && ShouldExpire(shown[i], now) && shown[i].id == j.batchId
  }

  /**
   * Exactly the listed batches whose expiry has come get a sweep job, and
   * nothing else is queued.
   */
  lemma {:induction false} ExpiryJobsExact(shown: seq<Batch>, now: int)
    ensures forall j :: j in ExpiryJobs(shown, now) <==> DueJob(shown, j, now)
  {
    if shown != [] {
      var init := shown[..|shown| - 1];
      ExpiryJobsExact(init, now);
      forall j: Job
        ensures j in ExpiryJobs(shown, now) <==> DueJob(shown, j, now)
      {
        DueJobSnoc(shown, j, now);
      }
    }
  }

  /** A listed batch is due exactly when it is due among the earlier ones or is the last one and due. */
  lemma DueJobSnoc(shown: seq<Batch>, j: Job, now: int)
    requires shown != []
    ensures var init := shown[..|shown| - 1];
      var last := shown[|shown| - 1];
      DueJob(shown, j, now) <==>
        DueJob(init, j, now) || (ShouldExpire(last, now) && j == MarkExpiredJob(last.id))
  {
    var init := shown[..|shown| - 1];
    if DueJob(shown, j, now) {
      var i :| 0 <= i < |shown| && ShouldExpire(shown[i], now) && shown[i].id == j.batchId;
      if i < |init| {
        assert init[i] == shown[i];
      }
    }
    if DueJob(init, j, now) {
      var i :| 0 <= i < |init| && ShouldExpire(init[i], now) && init[i].id == j.batchId;
      assert init[i] == shown[i];
    }
  }

  /** Looking at one more listed batch adds its job, if it is due, at the end. */
  lemma ExpiryJobsStep(shown: seq<Batch>, i: nat, now: int)
    requires i < |shown|
    ensures ExpiryJobs(shown[..i + 1], now)
      == ExpiryJobs(shown[..i], now) + (if ShouldExpire(shown[i], now) then [MarkExpiredJob(shown[i].id)] else [])
  {
    assert shown[..i + 1][..i] == shown[..i];
  }

  /**
   * `index()`: the page of the user's batches, newest first; one sweep job
   * is queued per listed batch whose expiry has come.
   */
  method Index(db: Database, userId: nat, page: int, now: int)
    returns (shown: seq<Batch>, lastPage: nat)
    modifies db`queue
    ensures shown == PageOf(OwnedNewestFirst(db.batches, userId), page)
    ensures lastPage == LastPage(|OwnedNewestFirst(db.batches, userId)|)
    ensures db.queue == old(db.queue) + ExpiryJobs(shown, now)
  {
    var owned := OwnedNewestFirst(db.batches, userId);
    shown := PageOf(owned, page);
    lastPage := LastPage(|owned|);
    var i := 0;
    while i < |shown|
      invariant 0 <= i <= |shown|
      invariant db.queue == old(db.queue) + ExpiryJobs(shown[..i], now)
    {
      var batch := shown[i];
      ExpiryJobsStep(shown, i, now);
      if batch.expiry.Some? && now >= batch.expiry.value && BatchStatusText(batch.status) != "expired" {
        db.queue := db.queue + [MarkExpiredJob(batch.id)];
      }
      i := i + 1;
    }
    assert shown[..i] == shown;
  }

  /** A page of a newest-first list is itself newest first. */
  lemma PageKeepsOrder(xs: seq<Batch>, page: int)
    requires IdsDecreasing(xs)
    ensures IdsDecreasing(PageOf(xs, page))
  {
    var shown := PageOf(xs, page);
    var lo := (PageNumber(page) - 1) * PerPage;
    forall i, j | 0 <= i < j < |shown|
      ensures shown[i].id > shown[j].id
    {
      assert shown[i] == xs[lo + i] && shown[j] == xs[lo + j];
    }
  }

  /** A listing shows only the user's own batches, at most ten, newest first. */
  lemma IndexShowsOwnBatches(db: Database, userId: nat, page: int)
    requires db.Valid()
    ensures var shown := PageOf(OwnedNewestFirst(db.batches, userId), page);
      && |shown| <= PerPage
      && (forall i :: 0 <= i < |shown| ==> shown[i].userId == userId)
      && IdsDecreasing(shown)
  {
    var owned := OwnedNewestFirst(db.batches, userId);
    OwnedNewestFirstOrdered(db.batches, userId);
    PageKeepsOrder(owned, page);
  }

  // ---------------------------------------------------------------------------
  // show and download
  // ---------------------------------------------------------------------------

  datatype ShowReply = ShowNotFound | CardPage(cards: seq<Card>, total: nat)

  /** `show($id)`: a page of the cards of a batch the user owns, else 404. */
  function Show(db: Database, userId: nat, id: nat, page: int): (r: ShowReply)
    reads db
    requires db.Valid()
    ensures r.ShowNotFound? <==> db.Find(id).None? || db.Find(id).value.userId != userId
    ensures r.CardPage? ==> forall i :: 0 <= i < |r.cards| ==> r.cards[i].batchId == id
    ensures r.CardPage? ==> |r.cards| <= PerPage && r.total == |CardsOf(db.cards, id)|
    ensures r.CardPage? ==> r.cards == PageOf(CardsOf(db.cards, id), page)
  {
    var batch := db.Find(id);
    if batch.None? || batch.value.userId != userId then ShowNotFound
    else
      var cards := CardsOf(db.cards, id);
      var pageCards := PageOf(cards, page);
      assert forall i :: 0 <= i < |pageCards| ==> pageCards[i] in cards;
      CardPage(pageCards, |cards|)
  }

  datatype DownloadReply = BatchNotFound | FileMissing | File(name: string)

  /** `download($id)`: the report under the name the batch job stored it. */
  function Download(db: Database, id: nat, fileExists: string -> bool): (r: DownloadReply)
    reads db
    requires db.Valid()
    ensures r == BatchNotFound <==> db.Find(id).None?
    ensures r == FileMissing <==> db.Find(id).Some? && !fileExists(ReportFileName(id))
    ensures r.File? ==> r.name == ReportFileName(id) && fileExists(r.name)
  {
    if db.Find(id).None? then BatchNotFound
    else if !fileExists(ReportFileName(id)) then FileMissing
    else File(ReportFileName(id))
  }

  /** The file a batch run stores is the one its download serves, and no other batch's. */
  lemma DownloadServesOwnReport(db: Database, id: nat, other: nat, fileExists: string -> bool)
    requires db.Valid() && db.Find(id).Some? && fileExists(ReportFileName(id))
    requires other != id
    ensures Download(db, id, fileExists) == File(ReportFileName(id))
    ensures Download(db, other, fileExists) != File(ReportFileName(id))
  {
    if Download(db, other, fileExists) == File(ReportFileName(id)) {
      ReportFileNameInjective(other, id);
    }
  }
}
