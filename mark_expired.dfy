/**
 * The expiry sweep: every card of one batch that is neither used nor already
 * expired becomes expired, in one bulk update that reports how many rows it
 * changed.
 */
module MarkExpiredGiftCardsJob {
  import opened Wrappers
  import opened Records

  /** The `whereNotIn('status', ['used', 'expired'])` filter on the batch's cards. */
  predicate Eligible(c: Card, batchId: nat)
    ensures Eligible(c, batchId) ==> c.batchId == batchId && (c.status == Created || c.status == CardFailed)
  {
    c.batchId == batchId && c.status != Used && c.status != Expired
  }

  /** The table after `update(['status' => 'expired'])` on the eligible rows. */
  function Sweep(cards: seq<Card>, batchId: nat): (r: seq<Card>)
    ensures |r| == |cards|
    ensures forall i :: 0 <= i < |cards| ==> r[i] == cards[i].(status := r[i].status)
    ensures forall i :: 0 <= i < |cards| && !Eligible(cards[i], batchId) ==> r[i] == cards[i]
    ensures forall i :: 0 <= i < |cards| && Eligible(cards[i], batchId) ==> r[i].status == Expired
  {
    if cards == [] then []
    else
      var c := cards[0];
      [if Eligible(c, batchId) then c.(status := Expired) else c] + Sweep(cards[1..], batchId)
  }

  /** The affected-row count the update reports. */
  function CountEligible(cards: seq<Card>, batchId: nat): (n: nat)
    ensures n <= |cards|
  {
    if cards == [] then 0
    else (if Eligible(cards[0], batchId) then 1 else 0) + CountEligible(cards[1..], batchId)
  }

  /** Number of positions at which two equally long tables differ. */
  function CountChanged(before: seq<Card>, after: seq<Card>): nat
    requires |before| == |after|
  {
    if before == [] then 0
    else (if before[0] != after[0] then 1 else 0) + CountChanged(before[1..], after[1..])
  }

  /**
   * `handle()`. `found` reports whether the batch exists; when it does not,
   * the table is left alone. `affected` is the count of updated rows.
   */
  method Handle(db: Database, batchId: nat) returns (found: bool, affected: nat)
    requires db.Valid()
    modifies db`cards
    ensures found <==> db.Find(batchId).Some?
    ensures !found ==> db.cards == old(db.cards) && affected == 0
    ensures found ==> db.cards == Sweep(old(db.cards), batchId)
    ensures found ==> affected == CountEligible(old(db.cards), batchId)
  {
    var batch := db.Find(batchId);
    if batch.None? {
      return false, 0;
    }
    affected := CountEligible(db.cards, batchId);
    db.cards := Sweep(db.cards, batchId);
    found := true;
  }

  /** The reported count is exactly the number of rows the update changed. */
  lemma {:induction false} AffectedIsChanged(cards: seq<Card>, batchId: nat)
    ensures CountEligible(cards, batchId) == CountChanged(cards, Sweep(cards, batchId))
  {
    if cards != [] {
      var r := Sweep(cards, batchId);
      assert r[1..] == Sweep(cards[1..], batchId);
      AffectedIsChanged(cards[1..], batchId);
    }
  }

  /** After a sweep no card of the batch is eligible: a second run affects nothing. */
  lemma {:induction false} SweptHasNoneEligible(cards: seq<Card>, batchId: nat)
    ensures CountEligible(Sweep(cards, batchId), batchId) == 0
  {
    if cards != [] {
      var r := Sweep(cards, batchId);
      assert r[1..] == Sweep(cards[1..], batchId);
      SweptHasNoneEligible(cards[1..], batchId);
    }
  }

  /** Sweeping twice is sweeping once. */
  lemma SweepIdempotent(cards: seq<Card>, batchId: nat)
    ensures Sweep(Sweep(cards, batchId), batchId) == Sweep(cards, batchId)
  {
    var r := Sweep(cards, batchId);
    var rr := Sweep(r, batchId);
    forall i | 0 <= i < |r|
      ensures rr[i] == r[i]
    {
      if Eligible(cards[i], batchId) {
        assert r[i].status == Expired;
      }
    }
  }

  /**
   * The rows a sweep expires are the batch's created and failed cards: the
   * count equals the number of those in the batch.
   */
  lemma {:induction false} CountEligibleByStatus(cards: seq<Card>, batchId: nat)
    ensures CountEligible(cards, batchId)
      == CountStatus(CardsOf(cards, batchId), Created) + CountStatus(CardsOf(cards, batchId), CardFailed)
  {
    if cards != [] {
      CountEligibleByStatus(cards[1..], batchId);
      if cards[0].batchId == batchId {
        assert CardsOf(cards, batchId) == [cards[0]] + CardsOf(cards[1..], batchId);
        CountStatusAppend([cards[0]], CardsOf(cards[1..], batchId), Created);
        CountStatusAppend([cards[0]], CardsOf(cards[1..], batchId), CardFailed);
        assert [cards[0]][1..] == [];
      }
    }
  }
}
