/**
 * The queued batch runner: for each of a batch's `count` cards it generates a
 * code, asks the issuance client to create the card (retrying on throttling
 * and on escaped errors, three attempts at most), records the outcome as a
 * card row, rolls the outcome counts up into the batch's final status and
 * writes the spreadsheet report.
 *
 * `random(i, k)` stands for the k random bytes drawn for card i,
 * `replies(i, r)` for the outcome of attempt r of card i, `encode` for
 * `json_encode` of an error list, `isEmail` for `FILTER_VALIDATE_EMAIL` and
 * `stripTags` for `strip_tags`.
 */
module CreateGiftCards {
  import opened Wrappers
  import opened Text
  import opened Records
  import opened ShopifyGiftCardService
  import opened GiftCardsExport

  // ---------------------------------------------------------------------------
  // Code generation
  // ---------------------------------------------------------------------------

  function PrefixPart(prefix: Option<string>): string {
    Upper(prefix.GetOr(""))
  }

  /** Length of the random part: what is left after the prefix, at least 1. */
  function SuffixLength(length: int, prefix: Option<string>): nat {
    var rest := length - |PrefixPart(prefix)|;
    if rest > 1 then rest else 1
  }

  /** `ceil(n / 2)` random bytes give at least n hex digits. */
  function SuffixBytes(length: int, prefix: Option<string>): nat {
    (SuffixLength(length, prefix) + 1) / 2
  }

  /** `generateGiftCardCode($length, $prefix)` with the random bytes drawn. */
  function GenerateCode(length: int, prefix: Option<string>, bytes: seq<bv8>): (code: string)
    requires |bytes| == SuffixBytes(length, prefix)
    ensures |code| == |PrefixPart(prefix)| + SuffixLength(length, prefix)
    ensures code[..|PrefixPart(prefix)|] == PrefixPart(prefix)
  {
    PrefixPart(prefix) + Upper(Bin2Hex(bytes)[..SuffixLength(length, prefix)])
  }

  /**
   * The code is the upper-cased prefix followed by upper-case hex digits:
   * `length` characters, or one past the prefix when the prefix leaves no room.
   */
  lemma GenerateCodeShape(length: int, prefix: Option<string>, bytes: seq<bv8>)
    requires |bytes| == SuffixBytes(length, prefix)
    ensures var p := PrefixPart(prefix);
      var code := GenerateCode(length, prefix, bytes);
      && |code| == (if |p| < length then length else |p| + 1)
      && code[..|p|] == p
      && forall k :: |p| <= k < |code| ==> IsUpperHex(code[k])
  {
    var p := PrefixPart(prefix);
    var n := SuffixLength(length, prefix);
    var hex := Bin2Hex(bytes);
    var random := Upper(hex[..n]);
    var code := GenerateCode(length, prefix, bytes);
    assert code == p + random;
    assert |random| == n;
    forall k | |p| <= k < |code|
      ensures IsUpperHex(code[k])
    {
      var m := k - |p|;
      assert code[k] == random[m];
      assert random[m] == UpperChar(hex[m]);
    }
    assert code[..|p|] == p;
  }

  /**
   * When the random part has an even length it encodes the drawn bytes
   * losslessly, so two different draws never give the same code.
   */
  lemma DistinctDrawsGiveDistinctCodes(length: int, prefix: Option<string>, x: seq<bv8>, y: seq<bv8>)
    requires |x| == |y| == SuffixBytes(length, prefix)
    requires SuffixLength(length, prefix) % 2 == 0
    requires x != y
    ensures GenerateCode(length, prefix, x) != GenerateCode(length, prefix, y)
  {
    var p := PrefixPart(prefix);
    var n := SuffixLength(length, prefix);
    assert Bin2Hex(x)[..n] == Bin2Hex(x);
    assert Bin2Hex(y)[..n] == Bin2Hex(y);
    var cx := GenerateCode(length, prefix, x);
    var cy := GenerateCode(length, prefix, y);
    assert cx[|p|..] == Upper(Bin2Hex(x));
    assert cy[|p|..] == Upper(Bin2Hex(y));
    HexRoundTrip(x);
    HexRoundTrip(y);
  }

  // ---------------------------------------------------------------------------
  // Throttling detection
  // ---------------------------------------------------------------------------

  /** An error entry that is a user error whose message mentions "throttled", in any case. */
  predicate IsThrottled(e: ErrorItem) {
    e.UserError? && e.message.Some? && IsInfix("throttled", Lower(e.message.value))
  }

  predicate RateLimited(errors: seq<ErrorItem>) {
    exists i :: 0 <= i < |errors| && IsThrottled(errors[i])
  }

  /** `isRateLimitError($errors)`: scans the entries for a throttling message. */
  method IsRateLimitError(errors: seq<ErrorItem>) returns (limited: bool)
    ensures limited <==> RateLimited(errors)
  {
    var i := 0;
    while i < |errors|
      invariant 0 <= i <= |errors|
      invariant forall k :: 0 <= k < i ==> !IsThrottled(errors[k])
    {
      var e := errors[i];
      if e.UserError? && e.message.Some? && IsInfix("throttled", Lower(e.message.value)) {
        return true;
      }
      i := i + 1;
    }
    return false;
  }

  /** Plain string errors (an HTTP failure, a caught exception) never read as throttling. */
  lemma {:induction false} PlainErrorsNotRateLimited(errors: seq<ErrorItem>)
    requires forall i :: 0 <= i < |errors| ==> errors[i].Message?
    ensures !RateLimited(errors)
  {
    forall i | 0 <= i < |errors|
      ensures !IsThrottled(errors[i])
    {
    }
  }

  // ---------------------------------------------------------------------------
  // Retry policy
  // ---------------------------------------------------------------------------

  const MaxRetries: nat := 3

  /** The response a card is recorded from and how many calls were made. */
  datatype Attempts = Attempts(response: Response, calls: nat)

  /** The response recorded when the last attempt raised. */
  function RaisedResponse(message: string): Response {
    Response(None, None, [Message(message)])
  }

  /** An attempt that is followed by another one, unless it was the last. */
  predicate Retryable(r: ServiceResult) {
    r.Raised? || RateLimited(r.response.errors)
  }

  /**
   * The attempts for card `card` from attempt `retry` on: a raised error or a
   * throttled reply is retried while attempts remain; anything else settles
   * the card. After three attempts the last reply stands, or the raised
   * message when the last attempt raised.
   */
  function Retry(replies: (nat, nat) -> Transport, card: nat, retry: nat): (a: Attempts)
    requires retry < MaxRetries
    ensures retry < a.calls <= MaxRetries
    decreases MaxRetries - retry
  {
    var r := Classify(replies(card, retry));
    if retry == MaxRetries - 1 then
      Attempts(if r.Raised? then RaisedResponse(r.message) else r.response, MaxRetries)
    else if Retryable(r) then Retry(replies, card, retry + 1)
    else Attempts(r.response, retry + 1)
  }

  /**
   * Every call before the last was retried because it raised or was
   * throttled; the response kept is the last call's, or the raised message
   * when the third call raised.
   */
  lemma {:induction false} RetrySettles(replies: (nat, nat) -> Transport, card: nat, retry: nat)
    requires retry < MaxRetries
    ensures var a := Retry(replies, card, retry);
      && (forall j :: retry <= j < a.calls - 1 ==> Retryable(Classify(replies(card, j))))
      && var last := Classify(replies(card, a.calls - 1));
         if last.Raised? then a.calls == MaxRetries && a.response == RaisedResponse(last.message)
         else a.response == last.response && (a.calls < MaxRetries ==> !RateLimited(last.response.errors))
    decreases MaxRetries - retry
  {
    var r := Classify(replies(card, retry));
    if retry < MaxRetries - 1 && Retryable(r) {
      RetrySettles(replies, card, retry + 1);
    }
  }

  /** The inner retry loop of `handle()` for one card. */
  method IssueWithRetry(service: GiftCardService, b: Batch, code: string, card: nat,
                        replies: (nat, nat) -> Transport)
    returns (response: Response, calls: nat)
    ensures Attempts(response, calls) == Retry(replies, card, 0)
  {
    var current: Option<Response> := None;
    var retry := 0;
    while retry < MaxRetries
      invariant 0 <= retry <= MaxRetries
      invariant retry < MaxRetries ==> Retry(replies, card, retry) == Retry(replies, card, 0)
      invariant retry == MaxRetries ==>
        current.Some? && Attempts(current.value, MaxRetries) == Retry(replies, card, 0)
      decreases MaxRetries - retry
    {
      var request, result := service.CreateGiftCard(b.cardValue, Some(code), b.note, None, replies(card, retry));
      if result.Returned? {
        current := Some(result.response);
        var limited := IsRateLimitError(result.response.errors);
        if !limited {
          return result.response, retry + 1;
        }
      } else if retry == MaxRetries - 1 {
        current := Some(RaisedResponse(result.message));
      }
      retry := retry + 1;
    }
    return current.value, MaxRetries;
  }

  /** An HTTP error status, 429 included, settles the card on the first call. */
  lemma HttpErrorNotRetried(replies: (nat, nat) -> Transport, card: nat)
    requires replies(card, 0).Responded? && replies(card, 0).status >= 400
    ensures Retry(replies, card, 0) ==
      Attempts(Response(None, None, [Message(HttpFailedText(replies(card, 0).status))]), 1)
  {
    PlainErrorsNotRateLimited([Message(HttpFailedText(replies(card, 0).status))]);
  }

  /** An Exception caught inside the client settles the card on the first call. */
  lemma CaughtExceptionNotRetried(replies: (nat, nat) -> Transport, card: nat)
    requires replies(card, 0).Threw?
    ensures Retry(replies, card, 0) == Attempts(RaisedResponse(replies(card, 0).message), 1)
  {
    PlainErrorsNotRateLimited([Message(replies(card, 0).message)]);
  }

  /** A reply that is throttled according to the classifier. */
  predicate Throttled(reply: Transport) {
    var r := Classify(reply);
    r.Returned? && RateLimited(r.response.errors)
  }

  /** Three throttled replies use up all attempts; the last reply is recorded. */
  lemma ThrottledThrice(replies: (nat, nat) -> Transport, card: nat)
    requires Throttled(replies(card, 0)) && Throttled(replies(card, 1)) && Throttled(replies(card, 2))
    ensures Retry(replies, card, 0) == Attempts(Classify(replies(card, 2)).response, MaxRetries)
    ensures Retry(replies, card, 0).response.errors != []
  {
  }

  /** Three escaped errors use up all attempts; the last message is recorded. */
  lemma CrashedThrice(replies: (nat, nat) -> Transport, card: nat)
    requires replies(card, 0).Crashed? && replies(card, 1).Crashed? && replies(card, 2).Crashed?
    ensures Retry(replies, card, 0) == Attempts(RaisedResponse(replies(card, 2).message), MaxRetries)
  {
  }

  // ---------------------------------------------------------------------------
  // Card rows and the batch status
  // ---------------------------------------------------------------------------

  /** The row written for one card, from its manual code and its settled response. */
  function Record(b: Batch, manualCode: string, response: Response,
                  encode: seq<ErrorItem> -> string): (c: Card)
    ensures c.batchId == b.id && c.balance == Some(b.cardValue)
    ensures c.status == CardFailed <==> response.errors != []
    ensures c.status == Created <==> response.errors == []
    ensures c.status == CardFailed ==>
      c.code == manualCode && c.giftCardId.None? && c.errorMessage == Some(encode(response.errors))
    ensures c.status == Created ==>
      c.code == response.giftCardCode.GetOr(manualCode) && c.giftCardId == response.giftCardId
      && c.errorMessage.None?
  {
    if response.errors != [] then
      Card(b.id, manualCode, None, CardFailed, Some(b.cardValue), Some(encode(response.errors)))
    else
      Card(b.id, response.giftCardCode.GetOr(manualCode), response.giftCardId, Created, Some(b.cardValue), None)
  }

  /** The manual code of card i of the batch. */
  function CodeAt(b: Batch, i: nat, random: (nat, nat) -> seq<bv8>): string
    requires forall j, k :: |random(j, k)| == k
  {
    GenerateCode(b.length, b.prefix, random(i, SuffixBytes(b.length, b.prefix)))
  }

  /** The row written for card i of the batch. */
  function CardAt(b: Batch, i: nat, random: (nat, nat) -> seq<bv8>,
                  replies: (nat, nat) -> Transport, encode: seq<ErrorItem> -> string): Card
    requires forall j, k :: |random(j, k)| == k
  {
    Record(b, CodeAt(b, i, random), Retry(replies, i, 0).response, encode)
  }

  /** The rows written for the first n cards, in order. */
  function BatchCards(b: Batch, n: nat, random: (nat, nat) -> seq<bv8>,
                      replies: (nat, nat) -> Transport, encode: seq<ErrorItem> -> string): (cards: seq<Card>)
    requires forall j, k :: |random(j, k)| == k
    ensures |cards| == n
    ensures forall i :: 0 <= i < n ==>
      && cards[i].batchId == b.id
      && cards[i].balance == Some(b.cardValue)
      && (cards[i].status == Created || cards[i].status == CardFailed)
  {
    if n == 0 then [] else BatchCards(b, n - 1, random, replies, encode) + [CardAt(b, n - 1, random, replies, encode)]
  }

  /** Row i of a run is the row written for card i. */
  lemma {:induction false} BatchCardsAt(b: Batch, n: nat, i: nat, random: (nat, nat) -> seq<bv8>,
                                        replies: (nat, nat) -> Transport, encode: seq<ErrorItem> -> string)
    requires forall j, k :: |random(j, k)| == k
    requires i < n
    ensures BatchCards(b, n, random, replies, encode)[i] == CardAt(b, i, random, replies, encode)
  {
    if i < n - 1 {
      BatchCardsAt(b, n - 1, i, random, replies, encode);
    }
  }

  /** Each card is counted once: successes and failures add up to the batch size. */
  lemma {:induction false} CountsAddUp(cards: seq<Card>)
    requires forall i :: 0 <= i < |cards| ==> cards[i].status == Created || cards[i].status == CardFailed
    ensures CountStatus(cards, Created) + CountStatus(cards, CardFailed) == |cards|
  {
    if cards != [] {
      assert forall i :: 0 <= i < |cards| - 1 ==> cards[1..][i] == cards[i + 1];
      CountsAddUp(cards[1..]);
    }
  }

  /** The `match (true)` that picks the final batch status. */
  function FinalStatus(success: nat, failure: nat, count: nat): (s: BatchStatus)
    ensures IsTerminal(s)
  {
    if success == count then Success
    else if success > 0 && failure > 0 then PartialFailed
    else Failed
  }

  /**
   * The final status says what happened to the cards: success when every
   * card was created, partial_failed when some were created and some failed,
   * failed when cards were attempted and none was created.
   */
  lemma RollUp(cards: seq<Card>)
    requires forall i :: 0 <= i < |cards| ==> cards[i].status == Created || cards[i].status == CardFailed
    ensures var s := FinalStatus(CountStatus(cards, Created), CountStatus(cards, CardFailed), |cards|);
      && (s == Success <==> forall i :: 0 <= i < |cards| ==> cards[i].status == Created)
      && (s == PartialFailed <==>
            (exists i :: 0 <= i < |cards| && cards[i].status == Created)
            && (exists i :: 0 <= i < |cards| && cards[i].status == CardFailed))
      && (s == Failed <==> |cards| > 0 && forall i :: 0 <= i < |cards| ==> cards[i].status == CardFailed)
  {
    CountsAddUp(cards);
    CountStatusAll(cards, Created);
    CountStatusAll(cards, CardFailed);
    CountStatusNone(cards, Created);
    CountStatusNone(cards, CardFailed);
  }

  // ---------------------------------------------------------------------------
  // The report
  // ---------------------------------------------------------------------------

  /** The name the spreadsheet is stored (and later downloaded) under. */
  function ReportFileName(batchId: nat): (name: string)
    ensures |name| == 22 + |NatToString(batchId)|
  {
    "gift_cards_batch_" + NatToString(batchId) + ".xlsx"
  }

  /** Different batches never share a report file. */
  lemma ReportFileNameInjective(x: nat, y: nat)
    requires ReportFileName(x) == ReportFileName(y)
    ensures x == y
  {
    var a := NatToString(x);
    var b := NatToString(y);
    assert |a| == |b|;
    assert ReportFileName(x)[17..17 + |a|] == a;
    assert ReportFileName(y)[17..17 + |b|] == b;
    NatToStringInjective(x, y);
  }

  /** The stored recipients that pass email validation, in stored order. */
  function Recipients(emailList: Option<seq<Option<string>>>, isEmail: string -> bool): (r: seq<string>)
    ensures forall e :: e in r <==> emailList.Some? && Some(e) in emailList.value && isEmail(e)
  {
    if emailList.None? then [] else ValidEntries(emailList.value, isEmail)
  }

  function ValidEntries(list: seq<Option<string>>, isEmail: string -> bool): (r: seq<string>)
    ensures forall e :: e in r <==> Some(e) in list && isEmail(e)
  {
    if list == [] then []
    else
      var rest := ValidEntries(list[1..], isEmail);
      assert forall x :: x in list <==> x == list[0] || x in list[1..];
      if list[0].Some? && isEmail(list[0].value) then [list[0].value] + rest else rest
  }

  /**
   * What the report step produced: the file name, the exported rows, whether
   * the file was stored and the recipients the mail went to (none when the
   * file could not be stored or nobody valid is listed).
   */
  datatype Report = Report(fileName: string, rows: seq<ExportRow>, stored: bool, mailedTo: seq<string>)

  /**
   * `sendExcelReport()`. `storeOk` is whether storing the spreadsheet
   * succeeded; a failure there is caught and ends the step.
   */
  method SendExcelReport(db: Database, batch: Batch, isEmail: string -> bool,
                         stripTags: string -> string, storeOk: bool)
    returns (report: Report)
    ensures report.fileName == ReportFileName(batch.id)
    ensures report.rows == Collection(CardsOf(db.cards, batch.id), stripTags)
    ensures report.stored == storeOk
    ensures storeOk ==> report.mailedTo == Recipients(batch.emailList, isEmail)
    ensures !storeOk ==> report.mailedTo == []
  {
    var fileName := ReportFileName(batch.id);
    var rows := Collection(CardsOf(db.cards, batch.id), stripTags);
    if !storeOk {
      return Report(fileName, rows, false, []);
    }
    var emails := Recipients(batch.emailList, isEmail);
    report := Report(fileName, rows, true, emails);
  }

  // ---------------------------------------------------------------------------
  // The job
  // ---------------------------------------------------------------------------

  /** One iteration of the card loop: generate the code, issue with retries, build the row. */
  method IssueCard(service: GiftCardService, b: Batch, i: nat, random: (nat, nat) -> seq<bv8>,
                   replies: (nat, nat) -> Transport, encode: seq<ErrorItem> -> string)
    returns (card: Card)
    requires forall j, k :: |random(j, k)| == k
    ensures card == CardAt(b, i, random, replies, encode)
  {
    var code := GenerateCode(b.length, b.prefix, random(i, SuffixBytes(b.length, b.prefix)));
    var response, calls := IssueWithRetry(service, b, code, i, replies);
    card := Record(b, code, response, encode);
  }

  /** The card loop of `handle()`: one row per card, counting successes and failures. */
  method IssueAll(db: Database, service: GiftCardService, b: Batch, random: (nat, nat) -> seq<bv8>,
                  replies: (nat, nat) -> Transport, encode: seq<ErrorItem> -> string)
    returns (success: nat, failure: nat)
    requires forall j, k :: |random(j, k)| == k
    modifies db`cards
    ensures db.cards == old(db.cards) + BatchCards(b, b.count, random, replies, encode)
    ensures success == CountStatus(BatchCards(b, b.count, random, replies, encode), Created)
    ensures failure == CountStatus(BatchCards(b, b.count, random, replies, encode), CardFailed)
  {
    success, failure := 0, 0;
    var i := 0;
    ghost var start := db.cards;
    ghost var made := BatchCards(b, b.count, random, replies, encode);
    while i < b.count
      invariant 0 <= i <= b.count
      invariant db.cards == start + made[..i]
      invariant success == CountStatus(made[..i], Created)
      invariant failure == CountStatus(made[..i], CardFailed)
    {
      var card := IssueCard(service, b, i, random, replies, encode);
      BatchCardsAt(b, b.count, i, random, replies, encode);
      TallyStep(start, made, i, card);
      if card.status == CardFailed {
        failure := failure + 1;
      } else {
        success := success + 1;
      }
      db.cards := db.cards + [card];
      i := i + 1;
    }
    assert made[..i] == made;
  }

  /** Appending the next row of a run and counting its status. */
  lemma TallyStep(start: seq<Card>, made: seq<Card>, i: nat, card: Card)
    requires i < |made| && card == made[i]
    requires card.status == Created || card.status == CardFailed
    ensures start + made[..i] + [card] == start + made[..i + 1]
    ensures CountStatus(made[..i + 1], Created) == CountStatus(made[..i], Created) + (if card.status == CardFailed then 0 else 1)
    ensures CountStatus(made[..i + 1], CardFailed) == CountStatus(made[..i], CardFailed) + (if card.status == CardFailed then 1 else 0)
  {
    CountStatusStep(made, i, Created);
    CountStatusStep(made, i, CardFailed);
  }

  /**
   * `handle()` for the batch with id `batchId`; `owner` is the result of
   * looking up the batch's user. The batch status is written twice: first
   * in_progress, then the final status. `written` records those writes.
   */
  method Handle(db: Database, batchId: nat, owner: Option<User>,
                random: (nat, nat) -> seq<bv8>, replies: (nat, nat) -> Transport,
                encode: seq<ErrorItem> -> string, isEmail: string -> bool,
                stripTags: string -> string, storeOk: bool)
    returns (report: Option<Report>, ghost written: seq<BatchStatus>)
    requires db.Valid() && 1 <= batchId <= |db.batches|
    requires forall j, k :: |random(j, k)| == k
    modifies db`batches, db`cards
    ensures db.Valid()
    ensures |written| == 2 && written[0] == InProgress && IsTerminal(written[1])
    ensures db.batches == old(db.batches)[batchId - 1 := old(db.batches[batchId - 1]).(status := written[1])]
    ensures owner.None? ==> written[1] == Failed && db.cards == old(db.cards) && report.None?
    ensures owner.Some? ==>
      var b := old(db.batches[batchId - 1]);
      var made := BatchCards(b, b.count, random, replies, encode);
      && db.cards == old(db.cards) + made
      && written[1] == FinalStatus(CountStatus(made, Created), CountStatus(made, CardFailed), b.count)
      && report.Some?
      && report.value.fileName == ReportFileName(batchId)
      && report.value.rows == Collection(CardsOf(old(db.cards), batchId) + made, stripTags)
      && report.value.mailedTo == (if storeOk then Recipients(b.emailList, isEmail) else [])
  {
    var b := db.batches[batchId - 1];
    assert b.id == batchId;
    db.SetStatus(batchId, InProgress);
    written := [InProgress];
    if owner.None? {
      db.SetStatus(batchId, Failed);
      assert db.batches == old(db.batches)[batchId - 1 := b.(status := Failed)];
      written := written + [Failed];
      return None, written;
    }
    var service := new GiftCardService(owner.value);
    var success, failure := IssueAll(db, service, b, random, replies, encode);
    ghost var made := BatchCards(b, b.count, random, replies, encode);
    var final, r := Finish(db, batchId, old(db.cards), made, success, failure, isEmail, stripTags, storeOk);
    assert db.batches == old(db.batches)[batchId - 1 := b.(status := final)];
    written := written + [final];
    report := Some(r);
  }

  /**
   * The end of `handle()` once the cards are written: the counts pick the
   * final status, which is stored, and the report over the batch's cards
   * is produced.
   */
  method Finish(db: Database, batchId: nat, ghost before: seq<Card>, ghost made: seq<Card>,
                success: nat, failure: nat, isEmail: string -> bool, stripTags: string -> string, storeOk: bool)
    returns (final: BatchStatus, report: Report)
    requires db.Valid() && 1 <= batchId <= |db.batches|
    requires forall i :: 0 <= i < |made| ==> made[i].batchId == batchId
    requires db.cards == before + made
    modifies db`batches
    ensures db.Valid()
    ensures final == FinalStatus(success, failure, old(db.batches[batchId - 1]).count)
    ensures db.batches == old(db.batches)[batchId - 1 := old(db.batches[batchId - 1]).(status := final)]
    ensures report.fileName == ReportFileName(batchId)
    ensures report.rows == Collection(CardsOf(before, batchId) + made, stripTags)
    ensures report.mailedTo == (if storeOk then Recipients(old(db.batches[batchId - 1]).emailList, isEmail) else [])
  {
    var batch := db.batches[batchId - 1];
    final := FinalStatus(success, failure, batch.count);
    db.SetStatus(batchId, final);
    CardsOfAppend(before, made, batchId);
    report := SendExcelReport(db, db.batches[batchId - 1], isEmail, stripTags, storeOk);
  }

  /**
   * A run over a batch with no earlier cards reports exactly the cards it
   * made, and its final status agrees with them.
   */
  lemma RunOutcome(b: Batch, random: (nat, nat) -> seq<bv8>, replies: (nat, nat) -> Transport,
                   encode: seq<ErrorItem> -> string, cards: seq<Card>)
    requires forall j, k :: |random(j, k)| == k
    requires CardsOf(cards, b.id) == []
    ensures var made := BatchCards(b, b.count, random, replies, encode);
      && CardsOf(cards + made, b.id) == made
      && (FinalStatus(CountStatus(made, Created), CountStatus(made, CardFailed), b.count) == Success
          <==> forall i :: 0 <= i < b.count ==> made[i].status == Created)
  {
    var made := BatchCards(b, b.count, random, replies, encode);
    CardsOfAppend(cards, made, b.id);
    RollUp(made);
  }
}
