/**
 * The persistent entities of the application: gift-card batches, the cards
 * generated for them, the per-user plan rows and the job queue, held by one
 * `Database` object that the jobs and controllers update in place.
 *
 * Money is integer cents; dates and times are integer milliseconds.
 */
module Records {
  import opened Wrappers

  /** Batch status enum of the gift_card_batches table. */
  datatype BatchStatus = Pending | InProgress | Success | PartialFailed | Failed

  /** Card status enum of the generated_gift_cards table. */
  datatype CardStatus = Created | CardFailed | Used | Expired

  function BatchStatusText(s: BatchStatus): string {
    match s
    case Pending => "pending"
    case InProgress => "in_progress"
    case Success => "success"
    case PartialFailed => "partial_failed"
    case Failed => "failed"
  }

  function CardStatusText(s: CardStatus): string {
    match s
    case Created => "created"
    case CardFailed => "failed"
    case Used => "used"
    case Expired => "expired"
  }

  /** The statuses a batch run ends in. */
  predicate IsTerminal(s: BatchStatus) {
    s == Success || s == PartialFailed || s == Failed
  }

  /** The owning user: `name` is the shop domain and `password` the API access token. */
  datatype User = User(id: nat, name: string, password: string)

  /**
   * One bulk request. `emailList` holds the decoded JSON list of recipients
   * (entries may be null); `expiry` and `createdAt` are timestamps.
   */
  datatype Batch = Batch(
    id: nat,
    userId: nat,
    cardValue: nat,
    count: nat,
    length: int,
    expiry: Option<int>,
    prefix: Option<string>,
    emailList: Option<seq<Option<string>>>,
    note: Option<string>,
    status: BatchStatus,
    createdAt: int)

  /** One generated_gift_cards row. */
  datatype Card = Card(
    batchId: nat,
    code: string,
    giftCardId: Option<string>,
    status: CardStatus,
    balance: Option<int>,
    errorMessage: Option<string>)

  /** A queued job. */
  datatype Job = CreateGiftCardsJob(batchId: nat) | MarkExpiredJob(batchId: nat)

  /** The cards of one batch, in insertion order (`where('batch_id', id)`). */
  function CardsOf(cards: seq<Card>, batchId: nat): (r: seq<Card>)
    ensures |r| <= |cards|
    ensures forall i :: 0 <= i < |r| ==> r[i].batchId == batchId
    ensures forall c :: c in cards && c.batchId == batchId ==> c in r
    ensures forall c :: c in r ==> c in cards
  {
    if cards == [] then []
    else if cards[0].batchId == batchId then [cards[0]] + CardsOf(cards[1..], batchId)
    else CardsOf(cards[1..], batchId)
  }

  /** Number of cards with the given status. */
  function CountStatus(cards: seq<Card>, s: CardStatus): (n: nat)
    ensures n <= |cards|
  {
    if cards == [] then 0
    else (if cards[0].status == s then 1 else 0) + CountStatus(cards[1..], s)
  }

  lemma {:induction false} CountStatusAppend(a: seq<Card>, b: seq<Card>, s: CardStatus)
    ensures CountStatus(a + b, s) == CountStatus(a, s) + CountStatus(b, s)
  {
    if a != [] {
      assert (a + b)[1..] == a[1..] + b;
      CountStatusAppend(a[1..], b, s);
    } else {
      assert a + b == b;
    }
  }

  /** Counting one more card of a list adds one exactly when it has the status. */
  lemma CountStatusStep(cards: seq<Card>, i: nat, s: CardStatus)
    requires i < |cards|
    ensures cards[..i + 1] == cards[..i] + [cards[i]]
    ensures CountStatus(cards[..i + 1], s) == CountStatus(cards[..i], s) + (if cards[i].status == s then 1 else 0)
  {
    assert cards[..i + 1] == cards[..i] + [cards[i]];
    CountStatusAppend(cards[..i], [cards[i]], s);
    assert [cards[i]][1..] == [];
  }

  /** All cards have status s exactly when the count of s is the number of cards. */
  lemma {:induction false} CountStatusAll(cards: seq<Card>, s: CardStatus)
    ensures CountStatus(cards, s) == |cards| <==> forall i :: 0 <= i < |cards| ==> cards[i].status == s
  {
    if cards != [] {
      CountStatusAll(cards[1..], s);
      if CountStatus(cards, s) == |cards| {
        forall i | 0 <= i < |cards|
          ensures cards[i].status == s
        {
          if i > 0 { assert cards[i] == cards[1..][i - 1]; }
        }
      }
      if forall i :: 0 <= i < |cards| ==> cards[i].status == s {
        assert forall i :: 0 <= i < |cards| - 1 ==> cards[1..][i] == cards[i + 1];
      }
    }
  }

  /** No card has status s exactly when the count of s is zero. */
  lemma {:induction false} CountStatusNone(cards: seq<Card>, s: CardStatus)
    ensures CountStatus(cards, s) == 0 <==> forall i :: 0 <= i < |cards| ==> cards[i].status != s
  {
    if cards != [] {
      CountStatusNone(cards[1..], s);
      if CountStatus(cards, s) == 0 {
        forall i | 0 <= i < |cards|
          ensures cards[i].status != s
        {
          if i > 0 { assert cards[i] == cards[1..][i - 1]; }
        }
      }
      if forall i :: 0 <= i < |cards| ==> cards[i].status != s {
        assert forall i :: 0 <= i < |cards| - 1 ==> cards[1..][i] == cards[i + 1];
      }
    }
  }

  /** Appending cards of batch id to a table adds exactly them to that batch's cards. */
  lemma {:induction false} CardsOfAppend(a: seq<Card>, b: seq<Card>, batchId: nat)
    requires forall i :: 0 <= i < |b| ==> b[i].batchId == batchId
    ensures CardsOf(a + b, batchId) == CardsOf(a, batchId) + b
    decreases |a| + |b|
  {
    if a == [] {
      assert a + b == b;
      if b != [] {
        CardsOfAppend([], b[1..], batchId);
        assert [] + b[1..] == b[1..];
      }
    } else {
      assert (a + b)[1..] == a[1..] + b;
      CardsOfAppend(a[1..], b, batchId);
    }
  }

  /**
   * The database: batches (auto-increment ids, so row i has id i + 1), the
   * generated cards in insertion order, the per-user plan rows keyed by user
   * id, and the queue of dispatched jobs.
   */
  class Database {
    var batches: seq<Batch>
    var cards: seq<Card>
    var plans: map<nat, string>
    var queue: seq<Job>

    ghost predicate Valid()
      reads this
    {
      forall i :: 0 <= i < |batches| ==> batches[i].id == i + 1
    }

    constructor ()
      ensures Valid()
      ensures batches == [] && cards == [] && plans == map[] && queue == []
    {
      batches, cards, plans, queue := [], [], map[], [];
    }

    /** `GiftCardBatch::find(id)`. */
    function Find(id: nat): (r: Option<Batch>)
      reads this
      requires Valid()
      ensures r.Some? <==> 1 <= id <= |batches|
      ensures r.Some? ==> r.value.id == id && r.value in batches
    {
      if 1 <= id <= |batches| then Some(batches[id - 1]) else None
    }

    /** `$batch->update(['status' => s])`: only that batch's status changes. */
    method SetStatus(id: nat, s: BatchStatus)
      requires Valid() && 1 <= id <= |batches|
      modifies this`batches
      ensures Valid()
      ensures batches == old(batches)[id - 1 := old(batches[id - 1]).(status := s)]
    {
      batches := batches[id - 1 := batches[id - 1].(status := s)];
    }
  }
}
