/**
 * The spreadsheet export of a batch's cards: one row per card, in the order
 * the cards are given, under five column headings.
 */
module GiftCardsExport {
  import opened Wrappers
  import opened Text
  import opened Records

  /** The balance column: the stored amount, or the text "N/A" for a null balance. */
  datatype BalanceCell = Amount(cents: int) | NotAvailable

  datatype ExportRow = ExportRow(
    code: string,
    giftCardId: Option<string>,
    status: string,
    balance: BalanceCell,
    errorMessage: string)

  /** A string PHP treats as false in a condition: null, "" or "0". */
  predicate PhpFalsy(s: Option<string>) {
    s.None? || s.value == "" || s.value == "0"
  }

  function RowOf(card: Card, stripTags: string -> string): ExportRow {
    ExportRow(
      card.code,
      card.giftCardId,
      UcFirst(CardStatusText(card.status)),
      if card.balance.Some? then Amount(card.balance.value) else NotAvailable,
      if PhpFalsy(card.errorMessage) then "" else stripTags(card.errorMessage.value))
  }

  /**
   * `collection()`: maps every card to its row. `stripTags` stands for PHP's
   * `strip_tags`.
   */
  function Collection(cards: seq<Card>, stripTags: string -> string): (rows: seq<ExportRow>)
    ensures |rows| == |cards|
    ensures forall i :: 0 <= i < |cards| ==>
      && rows[i].code == cards[i].code
      && rows[i].giftCardId == cards[i].giftCardId
      && rows[i].status == UcFirst(CardStatusText(cards[i].status))
      && (rows[i].balance == NotAvailable <==> cards[i].balance.None?)
      && (cards[i].balance.Some? ==> rows[i].balance == Amount(cards[i].balance.value))
      && (PhpFalsy(cards[i].errorMessage) ==> rows[i].errorMessage == "")
      && (!PhpFalsy(cards[i].errorMessage) ==>
            rows[i].errorMessage == stripTags(cards[i].errorMessage.value))
  {
    seq(|cards|, i requires 0 <= i < |cards| => RowOf(cards[i], stripTags))
  }

  /** Exporting a concatenation exports each part in turn: the map keeps order. */
  lemma CollectionAppend(a: seq<Card>, b: seq<Card>, stripTags: string -> string)
    ensures Collection(a + b, stripTags) == Collection(a, stripTags) + Collection(b, stripTags)
  {
  }

  /** The Status column shows the card status with its first letter capitalised. */
  lemma StatusLabels()
    ensures UcFirst(CardStatusText(Created)) == "Created"
    ensures UcFirst(CardStatusText(CardFailed)) == "Failed"
    ensures UcFirst(CardStatusText(Used)) == "Used"
    ensures UcFirst(CardStatusText(Expired)) == "Expired"
  {
  }

  /** One spreadsheet cell. */
  datatype Cell = TextCell(text: string) | AmountCell(cents: int) | EmptyCell

  /** The cells a row contributes, left to right. */
  function Cells(row: ExportRow): seq<Cell> {
    [ TextCell(row.code),
      if row.giftCardId.Some? then TextCell(row.giftCardId.value) else EmptyCell,
      TextCell(row.status),
      if row.balance.Amount? then AmountCell(row.balance.cents) else TextCell("N/A"),
      TextCell(row.errorMessage) ]
  }

  /** `headings()`. */
  function Headings(): seq<string> {
    ["Code", "Shopify GiftCard ID", "Status", "Balance", "Error Message"]
  }

  /** Every row has exactly one cell under each of the five headings. */
  lemma RowsMatchHeadings(row: ExportRow)
    ensures |Cells(row)| == |Headings()| == 5
  {
  }
}
