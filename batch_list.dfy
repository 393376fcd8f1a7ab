/**
 * The batch list page: the days-left countdown of each batch's download, the
 * row it renders, the status badge tone and the pagination controls over the
 * pages the index route serves. Times are integer milliseconds; `now` is a
 * parameter.
 */
module GiftCardBatchList {
  import opened Wrappers
  import opened Text
  import opened Records

  const Day: int := 86400000

  /** JavaScript `Math.ceil(a / d)` for a positive divisor. */
  function CeilDiv(a: int, d: int): (q: int)
    requires d > 0
    ensures d * (q - 1) < a <= d * q
  {
    -((-a) / d)
  }

  /** `getDaysLeft`: whole days (rounded up) left of the three-day download window, never below 0. */
  function DaysLeft(createdAt: int, now: int): (n: nat)
    ensures n == 0 <==> now - createdAt >= 3 * Day
    ensures n > 0 ==> Day * (n - 1) < 3 * Day - (now - createdAt) <= Day * n
    ensures now >= createdAt ==> n <= 3
  {
    var q := CeilDiv(3 * Day - (now - createdAt), Day);
    if q < 0 then 0 else q
  }

  /** A batch created just now has three days left. */
  lemma FreshBatchHasThreeDays(createdAt: int)
    ensures DaysLeft(createdAt, createdAt) == 3
  {
  }

  /** The countdown never goes up as time passes. */
  lemma DaysLeftNonIncreasing(createdAt: int, now1: int, now2: int)
    requires now1 <= now2
    ensures DaysLeft(createdAt, now2) <= DaysLeft(createdAt, now1)
  {
  }

  /** `isExpired = daysLeft <= 0`; the Download button is disabled exactly then. */
  predicate IsExpired(daysLeft: nat) {
    daysLeft <= 0
  }

  /** A batch's download expires exactly three days after it was created. */
  lemma ExpiresAfterThreeDays(createdAt: int, now: int)
    ensures IsExpired(DaysLeft(createdAt, now)) <==> now >= createdAt + 3 * Day
  {
  }

  /** The text under the Download button. */
  function DaysLabel(daysLeft: nat): (shown: string)
    ensures IsExpired(daysLeft) ==> shown == "Expired"
    ensures !IsExpired(daysLeft) ==> |shown| > 11 && shown[..11] == "Expires in "
    ensures !IsExpired(daysLeft) ==> (EndsWith(shown, "days") <==> daysLeft != 1)
    ensures !IsExpired(daysLeft) ==> EndsWith(shown, "day") || EndsWith(shown, "days")
  {
    if IsExpired(daysLeft) then "Expired"
    else
      var head := "Expires in " + NatToString(daysLeft) + " day";
      if daysLeft != 1 then
        assert (head + "s")[|head + "s"| - 4..] == "days";
        head + "s"
      else
        assert head == "Expires in 1 day";
        head
  }

  /** The badge tones of the status column. */
  datatype Tone = SuccessTone | AttentionTone | CriticalTone

  /** `success` is green, `partial_failed` amber, anything else red. */
  function BadgeTone(status: string): (t: Tone)
    ensures t == SuccessTone <==> status == "success"
    ensures t == AttentionTone <==> status == "partial_failed"
    ensures t == CriticalTone <==> status != "success" && status != "partial_failed"
  {
    if status == "success" then SuccessTone
    else if status == "partial_failed" then AttentionTone
    else CriticalTone
  }

  /** Over the batch statuses: only a finished run that created every card is green. */
  lemma BadgeToneOfStatus(s: BatchStatus)
    ensures BadgeTone(BatchStatusText(s)) == SuccessTone <==> s == Success
    ensures BadgeTone(BatchStatusText(s)) == AttentionTone <==> s == PartialFailed
    ensures BadgeTone(BatchStatusText(s)) == CriticalTone <==> s in {Pending, InProgress, Failed}
  {
  }

  /** One rendered row of the table. */
  datatype Row = Row(
    id: nat,
    value: nat,
    count: nat,
    downloadDisabled: bool,
    daysLabel: string,
    length: int,
    prefix: string,
    status: string,
    tone: Tone)

  /** `batch.prefix || "—"` */
  function PrefixCell(prefix: Option<string>): (r: string)
    ensures r != ""
    ensures prefix.Some? && prefix.value != "" ==> r == prefix.value
  {
    if prefix.Some? && prefix.value != "" then prefix.value else "—"
  }

  /** The row of one batch at time `now`. */
  function RowOf(b: Batch, now: int): (r: Row)
    ensures r.id == b.id && r.value == b.cardValue && r.count == b.count && r.length == b.length
    ensures r.downloadDisabled <==> now >= b.createdAt + 3 * Day
    ensures r.daysLabel == DaysLabel(DaysLeft(b.createdAt, now))
    ensures r.status == BatchStatusText(b.status) && r.tone == BadgeTone(r.status)
    ensures r.prefix == PrefixCell(b.prefix)
  {
    var days := DaysLeft(b.createdAt, now);
    ExpiresAfterThreeDays(b.createdAt, now);
    Row(b.id, b.cardValue, b.count, IsExpired(days), DaysLabel(days), b.length,
        PrefixCell(b.prefix), BatchStatusText(b.status), BadgeTone(BatchStatusText(b.status)))
  }

  /** The table: one row per batch, in the order served. */
  function Rows(batches: seq<Batch>, now: int): (rows: seq<Row>)
    ensures |rows| == |batches|
    ensures forall i :: 0 <= i < |batches| ==> rows[i] == RowOf(batches[i], now)
  {
    if batches == [] then [] else [RowOf(batches[0], now)] + Rows(batches[1..], now)
  }

  /** `meta`: the paginator's `current_page` and `last_page`, undefined until a page arrives. */
  datatype Meta = Meta(currentPage: Option<int>, lastPage: Option<int>)

  /** `meta.current_page > 1` (false while undefined). */
  predicate HasPrevious(meta: Meta) {
    meta.currentPage.Some? && meta.currentPage.value > 1
  }

  /** `meta.current_page < meta.last_page` (false while either is undefined). */
  predicate HasNext(meta: Meta) {
    meta.currentPage.Some? && meta.lastPage.Some? && meta.currentPage.value < meta.lastPage.value
  }

  /** The answer of the index route: the rows of the page and its paginator fields. */
  datatype IndexAnswer = IndexFailed | IndexPage(data: Option<seq<Batch>>, currentPage: Option<int>, lastPage: Option<int>)

  /** The page's state. */
  class ListPage {
    var batches: seq<Batch>
    var page: int
    var meta: Meta
    var loading: bool

    constructor ()
      ensures batches == [] && page == 1 && meta == Meta(None, None) && loading
    {
      batches, page, meta, loading := [], 1, Meta(None, None), true;
    }

    /**
     * `fetchBatches`: a served page replaces the rows (none when `data` is
     * missing) and the paginator fields; a failed request keeps both.
     * Loading ends either way.
     */
    method FetchBatches(pageNum: int, fetch: int -> IndexAnswer)
      modifies this`batches, this`meta, this`loading
      ensures !loading
      ensures fetch(pageNum).IndexFailed? ==> batches == old(batches) && meta == old(meta)
      ensures fetch(pageNum).IndexPage? ==>
        batches == fetch(pageNum).data.GetOr([])
        && meta == Meta(fetch(pageNum).currentPage, fetch(pageNum).lastPage)
    {
      loading := true;
      var answer := fetch(pageNum);
      if answer.IndexPage? {
        batches := answer.data.GetOr([]);
        meta := Meta(answer.currentPage, answer.lastPage);
      }
      loading := false;
    }

    /**
     * The Next control, enabled only when `hasNext`. The page number moves
     * on; it stays within the last page when the paginator describes the
     * page shown, which a failed fetch can leave behind.
     */
    method OnNext()
      requires HasNext(meta)
      modifies this`page
      ensures page == old(page) + 1
      ensures old(meta.currentPage) == Some(old(page)) ==> meta.lastPage.Some? && page <= meta.lastPage.value
    {
      page := page + 1;
    }

    /**
     * The Previous control, enabled only when `hasPrevious`. The page number
     * moves back; it stays at 1 or above when the paginator describes the
     * page shown.
     */
    method OnPrevious()
      requires HasPrevious(meta)
      modifies this`page
      ensures page == old(page) - 1
      ensures old(meta.currentPage) == Some(old(page)) ==> page >= 1
    {
      page := page - 1;
    }
  }

  /**
   * A failed fetch keeps the paginator of the last page served while the
   * page number has already moved, so Next stays enabled and goes past the
   * last page: page 1 of 2 is served, Next, the fetch of page 2 fails, Next
   * again reaches page 3.
   */
  method StaleNextOvershoots() returns (page: int, lastPage: Option<int>)
    ensures lastPage == Some(2) && page == 3
  {
    var list := new ListPage();
    list.FetchBatches(1, n => IndexPage(Some([]), Some(1), Some(2)));
    list.OnNext();
    list.FetchBatches(2, n => IndexFailed);
    list.OnNext();
    page, lastPage := list.page, list.meta.lastPage;
  }

  /**
   * The same stale paginator lets Previous reach page 0: page 1 of 2 is
   * served, Next, page 2 of 2 is served, Previous, the fetch of page 1
   * fails, Previous again.
   */
  method StalePreviousReachesZero() returns (page: int)
    ensures page == 0
  {
    var list := new ListPage();
    list.FetchBatches(1, n => IndexPage(Some([]), Some(1), Some(2)));
    list.OnNext();
    list.FetchBatches(2, n => IndexPage(Some([]), Some(2), Some(2)));
    list.OnPrevious();
    list.FetchBatches(1, n => IndexFailed);
    list.OnPrevious();
    page := list.page;
  }
}
