/**
 * Payment reconciliation for an `orders/paid` webhook: find the gift card an
 * order was paid with, read its remaining balance and copy that balance onto
 * the matching card rows, marking them used when nothing is left.
 *
 * The two GraphQL queries are parameters: `orderQuery(gid)` is the order's
 * transaction list and `giftCardQuery(gid)` the card lookup, each either a
 * value or an Exception (which the job catches). `receiptGiftCardId` stands
 * for `json_decode($receiptJson, true)['gift_card_id'] ?? null`.
 */
module OrdersPaidJob {
  import opened Wrappers
  import opened Text
  import opened Records
  import ShopifyGiftCardService

  /** One order transaction: its gateway and its `receiptJson`. */
  datatype Transaction = Transaction(gateway: string, receiptJson: Option<string>)

  /** The outcome of a query: a value, or an Exception that aborts the job. */
  datatype Fetch<T> = Fetched(value: T) | FetchFailed(message: string)

  /** The looked-up card; `balance` is `balance.amount` in cents when present. */
  datatype RemoteCard = RemoteCard(balance: Option<int>)

  /** How the job ended. */
  datatype Outcome =
    | MissingOrderId
    | NoGiftCardPayment
    | GiftCardNotFound
    | Updated(giftCardGid: string, balance: int)
    | Aborted(message: string)

  const OrderGidPrefix: string := "gid://shopify/Order/"
  const GiftCardGidPrefix: string := "gid://shopify/GiftCard/"

  function OrderGid(orderId: nat): (gid: string)
    ensures |gid| == |OrderGidPrefix| + |NatToString(orderId)|
    ensures gid[..|OrderGidPrefix|] == OrderGidPrefix
    ensures gid[|OrderGidPrefix|..] == NatToString(orderId)
  {
    OrderGidPrefix + NatToString(orderId)
  }

  function GiftCardGid(id: nat): (gid: string)
    ensures |gid| == |GiftCardGidPrefix| + |NatToString(id)|
    ensures gid[..|GiftCardGidPrefix|] == GiftCardGidPrefix
    ensures gid[|GiftCardGidPrefix|..] == NatToString(id)
  {
    GiftCardGidPrefix + NatToString(id)
  }

  /** Different gift-card ids name different cards. */
  lemma GiftCardGidInjective(x: nat, y: nat)
    requires GiftCardGid(x) == GiftCardGid(y)
    ensures x == y
  {
    assert NatToString(x) == GiftCardGid(x)[|GiftCardGidPrefix|..];
    NatToStringInjective(x, y);
  }

  /** A gift-card payment: gateway "gift_card" and a receipt PHP does not consider empty. */
  predicate IsGiftCardPayment(t: Transaction)
    ensures IsGiftCardPayment(t) <==> t.gateway == "gift_card" && !ShopifyGiftCardService.PhpEmpty(t.receiptJson)
  {
    t.gateway == "gift_card" && t.receiptJson.Some? && t.receiptJson.value != "" && t.receiptJson.value != "0"
  }

  /** The receipt of the first gift-card payment, if any. */
  function FirstReceipt(txns: seq<Transaction>): (r: Option<string>)
    ensures r.None? <==> forall i :: 0 <= i < |txns| ==> !IsGiftCardPayment(txns[i])
    ensures r.Some? ==>
      exists i :: 0 <= i < |txns| && IsGiftCardPayment(txns[i])
        && r.value == txns[i].receiptJson.value
        && forall j :: 0 <= j < i ==> !IsGiftCardPayment(txns[j])
  {
    if txns == [] then None
    else if IsGiftCardPayment(txns[0]) then Some(txns[0].receiptJson.value)
    else
      var r := FirstReceipt(txns[1..]);
      assert forall i :: 1 <= i < |txns| ==> txns[i] == txns[1..][i - 1];
      r
  }

  /** The `foreach` with `break` that finds the first gift-card payment. */
  method FindReceipt(txns: seq<Transaction>) returns (receipt: Option<string>)
    ensures receipt == FirstReceipt(txns)
  {
    receipt := None;
    var i := 0;
    while i < |txns|
      invariant 0 <= i <= |txns|
      invariant FirstReceipt(txns) == FirstReceipt(txns[i..])
    {
      var t := txns[i];
      if t.gateway == "gift_card" && !(t.receiptJson.None? || t.receiptJson.value == "" || t.receiptJson.value == "0") {
        receipt := Some(t.receiptJson.value);
        break;
      }
      assert txns[i..][1..] == txns[i + 1..];
      i := i + 1;
    }
  }

  /** A gift-card id PHP treats as true (`!$giftCardId` is false): present and not 0. */
  predicate Truthy(id: Option<nat>) {
    id.Some? && id.value != 0
  }

  /** The new state of one row once the card's balance is known. */
  function Reconciled(c: Card, gid: string, balance: int): (r: Card)
    ensures c.giftCardId != Some(gid) ==> r == c
    ensures c.giftCardId == Some(gid) ==> r.balance == Some(balance)
    ensures c.giftCardId == Some(gid) ==> (r.status == Used <==> (balance <= 0 || c.status == Used))
    ensures c.giftCardId == Some(gid) && balance > 0 ==> r.status == c.status
    ensures r.batchId == c.batchId && r.code == c.code && r.giftCardId == c.giftCardId
      && r.errorMessage == c.errorMessage
  {
    if c.giftCardId != Some(gid) then c
    else if balance <= 0 then c.(balance := Some(balance), status := Used)
    else c.(balance := Some(balance))
  }

  /** The table after the update keyed on `shopify_giftcard_id = gid`. */
  function ApplyBalance(cards: seq<Card>, gid: string, balance: int): (r: seq<Card>)
    ensures |r| == |cards|
    ensures forall i :: 0 <= i < |cards| ==> r[i] == Reconciled(cards[i], gid, balance)
  {
    if cards == [] then [] else [Reconciled(cards[0], gid, balance)] + ApplyBalance(cards[1..], gid, balance)
  }

  /** Applying the same balance twice is applying it once. */
  lemma ApplyBalanceIdempotent(cards: seq<Card>, gid: string, balance: int)
    ensures ApplyBalance(ApplyBalance(cards, gid, balance), gid, balance) == ApplyBalance(cards, gid, balance)
  {
  }

  /** Rows of other cards are left exactly as they were. */
  lemma ApplyBalanceFrame(cards: seq<Card>, gid: string, balance: int, i: nat)
    requires i < |cards| && cards[i].giftCardId != Some(gid)
    ensures ApplyBalance(cards, gid, balance)[i] == cards[i]
  {
  }

  /** The update looks at no status: an expired card that is spent becomes used. */
  lemma ExpiredSpentBecomesUsed(c: Card, gid: string)
    requires c.giftCardId == Some(gid) && c.status == Expired
    ensures ApplyBalance([c], gid, 0) == [c.(balance := Some(0), status := Used)]
  {
  }

  /**
   * The gift-card id the job goes on to look up: the order id is truthy, the
   * order query answered, a gift-card payment was found and its receipt names
   * a truthy id. None when the job stops earlier.
   */
  function PaidGiftCardId(orderId: Option<nat>, orderQuery: string -> Fetch<seq<Transaction>>,
                          receiptGiftCardId: string -> Option<nat>): (id: Option<nat>)
    ensures id.Some? ==> id.value != 0
    ensures id.Some? <==>
      && Truthy(orderId)
      && orderQuery(OrderGid(orderId.value)).Fetched?
      && FirstReceipt(orderQuery(OrderGid(orderId.value)).value).Some?
      && Truthy(receiptGiftCardId(FirstReceipt(orderQuery(OrderGid(orderId.value)).value).value))
    ensures id.Some? ==> id == receiptGiftCardId(FirstReceipt(orderQuery(OrderGid(orderId.value)).value).value)
  {
    if !Truthy(orderId) then None
    else
      var response := orderQuery(OrderGid(orderId.value));
      if response.FetchFailed? then None
      else
        var receipt := FirstReceipt(response.value);
        if receipt.None? then None
        else
          var id := receiptGiftCardId(receipt.value);
          if Truthy(id) then id else None
  }

  /**
   * The scan stops at the first gift-card payment even when its receipt names
   * no card, so a later payment that does name one is never looked at.
   */
  lemma ScanStopsAtFirstPayment(orderId: Option<nat>, orderQuery: string -> Fetch<seq<Transaction>>,
                                receiptGiftCardId: string -> Option<nat>, k: nat)
    requires Truthy(orderId) && orderQuery(OrderGid(orderId.value)).Fetched?
    requires var txns := orderQuery(OrderGid(orderId.value)).value;
      && k < |txns| && IsGiftCardPayment(txns[k])
      && (forall j :: 0 <= j < k ==> !IsGiftCardPayment(txns[j]))
      && !Truthy(receiptGiftCardId(txns[k].receiptJson.value))
    ensures PaidGiftCardId(orderId, orderQuery, receiptGiftCardId).None?
  {
  }

  /**
   * `handle()`: the order id check, the order query, the transaction scan,
   * the card lookup and the update. Every query failure is caught: the job
   * never raises.
   */
  method Handle(db: Database, orderId: Option<nat>,
                orderQuery: string -> Fetch<seq<Transaction>>,
                receiptGiftCardId: string -> Option<nat>,
                giftCardQuery: string -> Fetch<Option<RemoteCard>>)
    returns (outcome: Outcome)
    modifies db`cards
    ensures outcome == MissingOrderId <==> !Truthy(orderId)
    ensures outcome.Updated? <==>
      var id := PaidGiftCardId(orderId, orderQuery, receiptGiftCardId);
      id.Some? && giftCardQuery(GiftCardGid(id.value)).Fetched?
      && giftCardQuery(GiftCardGid(id.value)).value.Some?
    ensures outcome.Updated? ==>
      var id := PaidGiftCardId(orderId, orderQuery, receiptGiftCardId);
      && id.Some?
      && outcome.giftCardGid == GiftCardGid(id.value)
      && outcome.balance == giftCardQuery(outcome.giftCardGid).value.value.balance.GetOr(0)
    ensures outcome.Updated? ==> db.cards == ApplyBalance(old(db.cards), outcome.giftCardGid, outcome.balance)
    ensures !outcome.Updated? ==> db.cards == old(db.cards)
  {
    if !(orderId.Some? && orderId.value != 0) {
      return MissingOrderId;
    }
    var orderResponse := orderQuery(OrderGid(orderId.value));
    if orderResponse.FetchFailed? {
      return Aborted(orderResponse.message);
    }
    var receipt := FindReceipt(orderResponse.value);
    var giftCardId: Option<nat> := None;
    if receipt.Some? {
      giftCardId := receiptGiftCardId(receipt.value);
    }
    if !(giftCardId.Some? && giftCardId.value != 0) {
      return NoGiftCardPayment;
    }
    var giftCardGid := GiftCardGid(giftCardId.value);
    var cardResponse := giftCardQuery(giftCardGid);
    if cardResponse.FetchFailed? {
      return Aborted(cardResponse.message);
    }
    if cardResponse.value.None? {
      return GiftCardNotFound;
    }
    var balance := cardResponse.value.value.balance.GetOr(0);
    db.cards := ApplyBalance(db.cards, giftCardGid, balance);
    outcome := Updated(giftCardGid, balance);
  }
}
