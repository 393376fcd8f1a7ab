/**
 * The batch-creation form of the embedded dashboard: its field validators,
 * the plan-limit arithmetic, the request payload and the submit handler.
 *
 * `Number(...)` is a parameter `toNumber` (None stands for NaN); the POST to
 * the store route is a parameter `server` that answers with a parsed JSON
 * body or fails (a network error or a body that is not JSON).
 */
module Dashboard {
  import opened Wrappers
  import opened Text

  // ---------------------------------------------------------------------------
  // Field validators
  // ---------------------------------------------------------------------------

  const Required: string := "This field is required"
  const NotPositive: string := "Must be a positive number"

  /** `validateNumeric`: "" for a non-empty value whose Number is above 0. */
  function ValidateNumeric(value: string, toNumber: string -> Option<real>): (r: string)
    ensures r == "" <==> value != "" && toNumber(value).Some? && toNumber(value).value > 0.0
    ensures value == "" <==> r == Required
    ensures r in {"", Required, NotPositive}
  {
    if value == "" then Required
    else if toNumber(value).None? || toNumber(value).value <= 0.0 then NotPositive
    else ""
  }

  const PrefixEmpty: string := "Prefix cannot be empty"
  const PrefixLength: string := "Prefix must be 1–4 characters"

  /** `validatePrefix`: accepted when it holds a non-blank character and at most four characters. */
  function ValidatePrefix(value: string): (r: string)
    ensures r == "" <==> (exists i :: 0 <= i < |value| && !IsJsSpace(value[i])) && |value| <= 4
    ensures (forall i :: 0 <= i < |value| ==> IsJsSpace(value[i])) <==> r == PrefixEmpty
  {
    TrimEmptyIffBlank(value);
    if Trim(value) == "" then PrefixEmpty
    else if |value| < 1 || |value| > 4 then PrefixLength
    else ""
  }

  /** Letters, digits and punctuation: neither `\s` nor '@'. */
  predicate Plain(c: char) {
    !IsJsSpace(c) && c != '@'
  }

  /**
   * `/^[^\s@]+@[^\s@]+\.[^\s@]+$/`: exactly one '@', with plain characters
   * before it and a plain domain holding a dot that is neither its first nor
   * its last character.
   */
  predicate EmailPattern(e: string)
    ensures EmailPattern(e) ==> 5 <= |e| && '@' in e && forall i :: 0 <= i < |e| ==> !IsJsSpace(e[i])
  {
    exists k :: 0 < k < |e| && e[k] == '@'
      && (forall i :: 0 <= i < |e| && i != k ==> Plain(e[i]))
      && (exists j :: k + 1 < j < |e| - 1 && e[j] == '.')
  }

  /** A few entries and how the pattern reads them. */
  lemma EmailPatternExamples()
    ensures EmailPattern("ann@shop.io")
    ensures !EmailPattern("")
    ensures !EmailPattern("ann@shop")
    ensures !EmailPattern("ann@.io")
    ensures !EmailPattern("a b@shop.io")
  {
    var e := "ann@shop.io";
    forall i | 0 <= i < |e| && i != 3
      ensures Plain(e[i])
    {
      assert '!' <= e[i] <= '~' && e[i] != '@';
    }
    assert e[3] == '@' && e[8] == '.';
    var g := "a b@shop.io";
    assert !Plain(g[1]);
  }

  /** The entries of a comma-separated list, each trimmed (`split(",").map(trim)`). */
  function Entries(value: string): (r: seq<string>)
    ensures |r| == |Split(value, ',')|
    ensures forall i :: 0 <= i < |r| ==> r[i] == Trim(Split(value, ',')[i])
  {
    TrimAll(Split(value, ','))
  }

  /** No entry holds a comma: trimming only drops characters of the piece. */
  lemma EntriesHaveNoComma(value: string, i: nat)
    requires i < |Entries(value)|
    ensures ',' !in Entries(value)[i]
  {
    var piece := Split(value, ',')[i];
    TrimKeepsOut(piece, ',');
  }

  /** `emails.find(e => !pattern.test(e))`: the first entry that does not match. */
  function FirstInvalid(entries: seq<string>): (r: Option<string>)
    ensures r.None? <==> forall i :: 0 <= i < |entries| ==> EmailPattern(entries[i])
    ensures r.Some? ==> !EmailPattern(r.value) && r.value in entries
    ensures r.Some? ==>
      exists i :: 0 <= i < |entries| && entries[i] == r.value
        && forall j :: 0 <= j < i ==> EmailPattern(entries[j])
  {
    if entries == [] then None
    else if !EmailPattern(entries[0]) then Some(entries[0])
    else
      assert forall i :: 1 <= i < |entries| ==> entries[i] == entries[1..][i - 1];
      FirstInvalid(entries[1..])
  }

  const NoEmails: string := "At least one email required"

  /** The message naming the first bad entry; never "" and never the blank-list message. */
  function InvalidMessage(entry: string): (r: string)
    ensures r != "" && r != NoEmails
  {
    var r := "Invalid email format: " + entry;
    assert r[0] == 'I' && NoEmails[0] == 'A';
    r
  }

  /**
   * `validateEmails` as written: the entry `find` returns is tested with
   * `if (invalid)`, so an empty entry (falsy) that fails the pattern ends the
   * check with "" and hides every later bad entry.
   */
  function ValidateEmails(value: string): (r: string)
    ensures Trim(value) == "" <==> r == NoEmails
    ensures Trim(value) != "" && FirstInvalid(Entries(value)).None? ==> r == ""
    ensures Trim(value) != "" && FirstInvalid(Entries(value)).Some? && FirstInvalid(Entries(value)).value != ""
      ==> r == InvalidMessage(FirstInvalid(Entries(value)).value)
    ensures Trim(value) != "" && FirstInvalid(Entries(value)) == Some("") ==> r == ""
  {
    if Trim(value) == "" then NoEmails
    else
      var invalid := FirstInvalid(Entries(value));
      if invalid.Some? && invalid.value != "" then InvalidMessage(invalid.value) else ""
  }

  /** An empty entry before a bad one: the list ",x" is accepted as written. */
  lemma EmptyEntryHidesBadOne()
    ensures !EmailPattern("x") && "x" in Entries(",x")
    ensures ValidateEmails(",x") == ""
  {
    EntriesOfCommaX();
    TrimCommaX();
    assert !EmailPattern("");
    assert FirstInvalid(["", "x"]) == Some("");
  }

  /** The entries of ",x" are an empty one and "x". */
  lemma EntriesOfCommaX()
    ensures Entries(",x") == ["", "x"]
  {
    SplitCommaX();
    TrimKeepsSolid("x");
  }

  lemma TrimCommaX()
    ensures Trim(",x") == ",x"
  {
    TrimKeepsSolid(",x");
  }

  lemma SplitCommaX()
    ensures Split(",x", ',') == ["", "x"]
  {
    var s := ",x";
    assert s[1..] == "x" && s[1..][1..] == [];
    assert ['x'] + "" == "x";
    assert Split("x", ',') == ["x"];
  }

  /**
   * A trailing comma leaves an empty last entry. As written the list
   * "a@b.co," is accepted; the corrected validator reports the empty entry.
   */
  lemma TrailingCommaDiffers()
    ensures ValidateEmails("a@b.co,") == ""
    ensures ValidateEmailsCorrected("a@b.co,") == InvalidMessage("")
  {
    EntriesOfTrailingComma();
    TrimTrailingComma();
    ShortAddressMatches();
    assert !EmailPattern("");
    assert FirstInvalid(["a@b.co", ""]) == Some("");
  }

  lemma ShortAddressMatches()
    ensures EmailPattern("a@b.co")
  {
    var e := "a@b.co";
    forall i | 0 <= i < |e| && i != 1
      ensures Plain(e[i])
    {
      assert '!' <= e[i] <= '~' && e[i] != '@';
    }
    assert e[1] == '@' && e[3] == '.';
  }

  lemma TrimTrailingComma()
    ensures Trim("a@b.co,") == "a@b.co,"
  {
    TrimKeepsSolid("a@b.co,");
  }

  /** The entries of "a@b.co," are the address and an empty one. */
  lemma EntriesOfTrailingComma()
    ensures Entries("a@b.co,") == ["a@b.co", ""]
  {
    SplitTrailingComma();
    TrimShortAddress();
  }

  lemma TrimShortAddress()
    ensures Trim("a@b.co") == "a@b.co"
  {
    TrimKeepsSolid("a@b.co");
  }

  lemma SplitTrailingComma()
    ensures Split("a@b.co,", ',') == ["a@b.co", ""]
  {
    var s := "a@b.co,";
    SplitDomainTail();
    assert s[3..] == ".co,";
    assert ['b'] + ".co" == "b.co";
    assert s[2..] == "b.co," && Split(s[2..], ',') == ["b.co", ""];
    assert ['@'] + "b.co" == "@b.co";
    assert s[1..] == "@b.co," && Split(s[1..], ',') == ["@b.co", ""];
    assert ['a'] + "@b.co" == "a@b.co";
  }

  lemma SplitDomainTail()
    ensures Split(".co,", ',') == [".co", ""]
  {
    var s := ".co,";
    assert s[3..] == "," && Split(s[3..], ',') == ["", ""];
    assert ['o'] + "" == "o";
    assert s[2..] == "o," && Split(s[2..], ',') == ["o", ""];
    assert ['c'] + "o" == "co";
    assert s[1..] == "co," && Split(s[1..], ',') == ["co", ""];
    assert ['.'] + "co" == ".co";
  }

  /** `validateEmails` as evidently intended: any entry failing the pattern is reported. */
  function ValidateEmailsCorrected(value: string): (r: string)
    ensures r == "" <==> Trim(value) != "" && FirstInvalid(Entries(value)).None?
    ensures Trim(value) == "" <==> r == NoEmails
    ensures Trim(value) != "" && FirstInvalid(Entries(value)).Some?
      ==> r == InvalidMessage(FirstInvalid(Entries(value)).value)
  {
    if Trim(value) == "" then NoEmails
    else
      var invalid := FirstInvalid(Entries(value));
      if invalid.Some? then InvalidMessage(invalid.value) else ""
  }

  // ---------------------------------------------------------------------------
  // Plan information and the limit check
  // ---------------------------------------------------------------------------

  /** `page.planInfo`, when shared with the page. */
  datatype PlanInfo = PlanInfo(giftCardCount: Option<int>, limit: Option<int>)

  /** `giftCardCount || 0` */
  function CurrentTotal(info: Option<PlanInfo>): (n: int)
    ensures info.None? || info.value.giftCardCount.None? ==> n == 0
    ensures info.Some? && info.value.giftCardCount.Some? ==> n == info.value.giftCardCount.value
  {
    if info.Some? && info.value.giftCardCount.Some? && info.value.giftCardCount.value != 0
    then info.value.giftCardCount.value else 0
  }

  const DefaultLimit: int := 1000

  /** `limit || 1000`: a missing or zero limit reads as 1000. */
  function PlanLimit(info: Option<PlanInfo>): (n: int)
    ensures n != 0
    ensures info.None? || info.value.limit.None? || info.value.limit.value == 0 ==> n == DefaultLimit
    ensures info.Some? && info.value.limit.Some? && info.value.limit.value != 0 ==> n == info.value.limit.value
  {
    if info.Some? && info.value.limit.Some? && info.value.limit.value != 0
    then info.value.limit.value else DefaultLimit
  }

  /** The Create button's `disabled` flag. */
  predicate CreateDisabled(info: Option<PlanInfo>)
    ensures CreateDisabled(info) ==> info.Some?
  {
    CurrentTotal(info) >= PlanLimit(info)
  }

  /** `totalAfter > planLimit` for the requested count. */
  predicate OverLimit(info: Option<PlanInfo>, count: real)
    ensures info.None? ==> (OverLimit(info, count) <==> count > 1000.0)
  {
    CurrentTotal(info) as real + count > PlanLimit(info) as real
  }

  /**
   * With no plan information every page starts from a total of 0 and a limit
   * of 1000: 1000 cards pass, 1001 are blocked, and the button is enabled.
   */
  lemma DefaultsApply()
    ensures !CreateDisabled(None)
    ensures !OverLimit(None, 1000.0) && OverLimit(None, 1001.0)
  {
  }

  /**
   * A disabled button and the submit check agree: once the total has reached
   * the limit every positive count is blocked, and before that the remaining
   * room can still be requested.
   */
  lemma DisabledIffNoRoom(info: Option<PlanInfo>)
    ensures CreateDisabled(info) ==> forall count: real :: count > 0.0 ==> OverLimit(info, count)
    ensures !CreateDisabled(info) ==> var room := (PlanLimit(info) - CurrentTotal(info)) as real;
      room > 0.0 && !OverLimit(info, room)
  {
  }

  // ---------------------------------------------------------------------------
  // Payload
  // ---------------------------------------------------------------------------

  /** `.filter((e) => e)`: the non-empty entries, in order. */
  function NonEmpty(xs: seq<string>): (r: seq<string>)
    ensures |r| <= |xs|
    ensures forall e :: e in r <==> e in xs && e != ""
  {
    if xs == [] then []
    else if xs[0] != "" then [xs[0]] + NonEmpty(xs[1..])
    else NonEmpty(xs[1..])
  }

  /** A single entry is kept exactly when it is non-empty. */
  lemma NonEmptySingle(x: string)
    ensures NonEmpty([x]) == if x == "" then [] else [x]
  {
    assert [x][1..] == [];
  }

  /**
   * The filter works entry by entry: filtering a concatenation concatenates
   * the filtered parts, so order and repeated entries are kept.
   */
  lemma {:induction false} NonEmptyAppend(xs: seq<string>, ys: seq<string>)
    ensures NonEmpty(xs + ys) == NonEmpty(xs) + NonEmpty(ys)
    decreases |xs|
  {
    if xs == [] {
      assert xs + ys == ys;
    } else {
      assert (xs + ys)[0] == xs[0];
      assert (xs + ys)[1..] == xs[1..] + ys;
      NonEmptyAppend(xs[1..], ys);
    }
  }

  /** The JSON body sent to the store route; None is `null`. */
  datatype Payload = Payload(
    cardValue: string,
    giftCardCount: string,
    giftCardLength: string,
    giftCardExpiry: Option<string>,
    prefix: Option<string>,
    emailList: Option<seq<string>>,
    note: Option<string>)

  /** `x || null` on a string field. */
  function OrNull(s: string): (r: Option<string>)
    ensures r.None? <==> s == ""
    ensures r.Some? ==> r.value == s
  {
    if s == "" then None else Some(s)
  }

  /** The payload built from the form. */
  function PayloadOf(cardValue: string, count: string, length: string, expiry: string,
                     addPrefix: bool, prefixValue: string, sendEmail: bool, emailList: string,
                     note: string): (p: Payload)
    ensures p.prefix.Some? <==> addPrefix
    ensures addPrefix ==> p.prefix.value == prefixValue
    ensures p.emailList.Some? <==> sendEmail
    ensures sendEmail ==> p.emailList == Some(NonEmpty(Entries(emailList)))
    ensures sendEmail ==> forall e :: e in p.emailList.value <==> e in Entries(emailList) && e != ""
    ensures p.cardValue == cardValue && p.giftCardCount == count && p.giftCardLength == length
    ensures p.giftCardExpiry == OrNull(expiry) && p.note == OrNull(note)
  {
    Payload(cardValue, count, length, OrNull(expiry),
            if addPrefix then Some(prefixValue) else None,
            if sendEmail then Some(NonEmpty(Entries(emailList))) else None,
            OrNull(note))
  }

  /** Every address sent is non-empty, holds no comma and has no surrounding whitespace. */
  lemma PayloadEmailsAreClean(emailList: string, e: string)
    requires e in NonEmpty(Entries(emailList))
    ensures e != "" && ',' !in e
    ensures !IsJsSpace(e[0]) && !IsJsSpace(e[|e| - 1])
  {
    var parts := Split(emailList, ',');
    var entries := Entries(emailList);
    var i :| 0 <= i < |entries| && entries[i] == e;
    assert e == Trim(parts[i]);
    TrimShape(parts[i]);
  }

  // ---------------------------------------------------------------------------
  // The server's answer and the alert the page shows
  // ---------------------------------------------------------------------------

  /** A value of the parsed JSON body. */
  datatype JsValue = JsString(s: string) | JsNumber(n: int) | JsBool(b: bool) | JsNull | JsObject

  /** JavaScript truthiness. */
  predicate JsTruthy(v: JsValue) {
    match v
    case JsString(s) => s != ""
    case JsNumber(n) => n != 0
    case JsBool(b) => b
    case JsNull => false
    case JsObject => true
  }

  /** What `fetch` and `response.json()` gave: a failure, or the status flag and the body. */
  datatype ServerAnswer = Unreachable | Answered(ok: bool, body: map<string, JsValue>)

  /** The alert raised at the end of a submission. */
  datatype Alert =
    | NoAlert
    | LimitAlert(limit: int)
    | FailedAlert(errors: Option<JsValue>)
    | QueuedAlert(batchId: Option<JsValue>)
    | SomethingWrongAlert
    | NetworkAlert

  /** `data[key]`, undefined when absent. */
  function Lookup(body: map<string, JsValue>, key: string): (v: Option<JsValue>)
    ensures v.Some? <==> key in body
  {
    if key in body then Some(body[key]) else None
  }

  /** The body the store route answers an accepted request with. */
  function StoreSuccessBody(batchId: nat): (body: map<string, JsValue>)
    ensures "status" in body && body["status"] == JsString("success")
    ensures "success" !in body
  {
    map["status" := JsString("success"),
        "message" := JsString("Gift card batch created successfully."),
        "batch_id" := JsNumber(batchId)]
  }

  /** The alert chosen as written: success is read from `data.success`. */
  function Verdict(answer: ServerAnswer): (a: Alert)
    ensures answer.Unreachable? <==> a == NetworkAlert
    ensures answer.Answered? && !answer.ok ==> a == FailedAlert(Lookup(answer.body, "errors"))
    ensures a.QueuedAlert? <==>
      (answer.Answered? && answer.ok && "success" in answer.body && JsTruthy(answer.body["success"]))
  {
    match answer
    case Unreachable => NetworkAlert
    case Answered(ok, body) =>
      if !ok then FailedAlert(Lookup(body, "errors"))
      else if "success" in body && JsTruthy(body["success"]) then QueuedAlert(Lookup(body, "batch_id"))
      else SomethingWrongAlert
  }

  /** As written, the store route's own success answer is reported as a failure. */
  lemma AcceptedBatchReportedAsWrong(batchId: nat)
    ensures Verdict(Answered(true, StoreSuccessBody(batchId))) == SomethingWrongAlert
  {
  }

  /** The alert chosen as evidently intended: success is `data.status === "success"`. */
  function VerdictCorrected(answer: ServerAnswer): (a: Alert)
    ensures answer.Unreachable? <==> a == NetworkAlert
    ensures answer.Answered? && !answer.ok ==> a == FailedAlert(Lookup(answer.body, "errors"))
    ensures a.QueuedAlert? <==>
      (answer.Answered? && answer.ok && "status" in answer.body && answer.body["status"] == JsString("success"))
    ensures a.QueuedAlert? ==> a.batchId == Lookup(answer.body, "batch_id")
  {
    match answer
    case Unreachable => NetworkAlert
    case Answered(ok, body) =>
      if !ok then FailedAlert(Lookup(body, "errors"))
      else if "status" in body && body["status"] == JsString("success") then QueuedAlert(Lookup(body, "batch_id"))
      else SomethingWrongAlert
  }

  /** Corrected, an accepted batch is announced with its id. */
  lemma AcceptedBatchAnnounced(batchId: nat)
    ensures VerdictCorrected(Answered(true, StoreSuccessBody(batchId))) == QueuedAlert(Some(JsNumber(batchId)))
  {
  }

  // ---------------------------------------------------------------------------
  // The form
  // ---------------------------------------------------------------------------

  /** The three numeric checks `handleSubmit` repeats; they replace all other field errors. */
  function NumericErrors(cardValue: string, count: string, length: string,
                         toNumber: string -> Option<real>): (errs: map<string, string>)
    ensures errs.Keys == {"cardValue", "giftCardCountInput", "giftCardLength"}
  {
    map["cardValue" := ValidateNumeric(cardValue, toNumber),
        "giftCardCountInput" := ValidateNumeric(count, toNumber),
        "giftCardLength" := ValidateNumeric(length, toNumber)]
  }

  /** `Object.values(newErrors).some((e) => e)` */
  predicate HasError(errs: map<string, string>) {
    exists k :: k in errs && errs[k] != ""
  }

  /** A positive number: non-empty and read by Number as above 0. */
  predicate PositiveNumber(value: string, toNumber: string -> Option<real>) {
    value != "" && toNumber(value).Some? && toNumber(value).value > 0.0
  }

  /** Submission stops at the fields exactly when one of the three numbers is not positive. */
  lemma NumericErrorsIff(cardValue: string, count: string, length: string, toNumber: string -> Option<real>)
    ensures HasError(NumericErrors(cardValue, count, length, toNumber))
      <==> !(PositiveNumber(cardValue, toNumber) && PositiveNumber(count, toNumber)
             && PositiveNumber(length, toNumber))
  {
    var errs := NumericErrors(cardValue, count, length, toNumber);
    if !PositiveNumber(cardValue, toNumber) {
      assert errs["cardValue"] != "";
    } else if !PositiveNumber(count, toNumber) {
      assert errs["giftCardCountInput"] != "";
    } else if !PositiveNumber(length, toNumber) {
      assert errs["giftCardLength"] != "";
    }
  }

  /** The form's state: its fields, the error messages shown and the submitting flag. */
  class Form {
    var cardValue: string
    var giftCardCountInput: string
    var giftCardLength: string
    var giftCardExpiry: string
    var addPrefix: bool
    var prefixValue: string
    var sendEmail: bool
    var emailList: string
    var internalNote: string
    var errors: map<string, string>
    var submitting: bool

    /** The note input never holds more than 120 characters. */
    ghost predicate Valid()
      reads this
    {
      |internalNote| <= 120
    }

    constructor ()
      ensures Valid()
      ensures cardValue == "" && giftCardCountInput == "" && giftCardLength == "" && giftCardExpiry == ""
      ensures !addPrefix && prefixValue == "" && !sendEmail && emailList == "" && internalNote == ""
      ensures errors == map[] && !submitting
    {
      cardValue, giftCardCountInput, giftCardLength, giftCardExpiry := "", "", "", "";
      addPrefix, prefixValue, sendEmail, emailList, internalNote := false, "", false, "", "";
      errors, submitting := map[], false;
    }

    /** The prefix field keeps what is typed, upper-cased. */
    method OnPrefixChange(value: string)
      modifies this`prefixValue
      ensures prefixValue == Upper(value)
      ensures forall i :: 0 <= i < |prefixValue| ==> !('a' <= prefixValue[i] <= 'z')
    {
      prefixValue := Upper(value);
    }

    /** Leaving the prefix field records its validation message. */
    method OnPrefixBlur()
      modifies this`errors
      ensures errors == old(errors)["prefixValue" := ValidatePrefix(prefixValue)]
    {
      errors := errors["prefixValue" := ValidatePrefix(prefixValue)];
    }

    /** Leaving the e-mail field records its validation message. */
    method OnEmailListBlur()
      modifies this`errors
      ensures errors == old(errors)["emailList" := ValidateEmailsCorrected(emailList)]
    {
      errors := errors["emailList" := ValidateEmailsCorrected(emailList)];
    }

    /** A note longer than 120 characters is refused and the old one kept. */
    method OnNoteChange(value: string)
      requires Valid()
      modifies this`internalNote
      ensures Valid()
      ensures |value| <= 120 ==> internalNote == value
      ensures |value| > 120 ==> internalNote == old(internalNote)
    {
      if |value| <= 120 {
        internalNote := value;
      }
    }

    /**
     * `handleSubmit`: the numeric fields are checked again (and become the
     * only errors shown), then the plan limit, then the payload is sent and
     * the answer turned into an alert. `submitting` is false at the end.
     */
    method HandleSubmit(info: Option<PlanInfo>, toNumber: string -> Option<real>,
                        server: Payload -> ServerAnswer)
      returns (alert: Alert, sent: Option<Payload>)
      modifies this`errors, this`submitting
      ensures errors == NumericErrors(cardValue, giftCardCountInput, giftCardLength, toNumber)
      ensures !submitting
      ensures HasError(errors) <==> alert == NoAlert
      ensures !HasError(errors) ==> toNumber(giftCardCountInput).Some?
      ensures !HasError(errors) && OverLimit(info, toNumber(giftCardCountInput).value)
        ==> alert == LimitAlert(PlanLimit(info)) && sent.None?
      ensures sent.Some? <==> !HasError(errors) && !OverLimit(info, toNumber(giftCardCountInput).value)
      ensures sent.Some? ==>
        sent.value == PayloadOf(cardValue, giftCardCountInput, giftCardLength, giftCardExpiry,
                                addPrefix, prefixValue, sendEmail, emailList, internalNote)
        && alert == VerdictCorrected(server(sent.value))
    {
      submitting := true;
      var newErrors := NumericErrors(cardValue, giftCardCountInput, giftCardLength, toNumber);
      errors := newErrors;
      NumericErrorsIff(cardValue, giftCardCountInput, giftCardLength, toNumber);
      if HasError(newErrors) {
        submitting := false;
        return NoAlert, None;
      }
      var totalAfter := CurrentTotal(info) as real + toNumber(giftCardCountInput).value;
      if totalAfter > PlanLimit(info) as real {
        submitting := false;
        return LimitAlert(PlanLimit(info)), None;
      }
      var payload := PayloadOf(cardValue, giftCardCountInput, giftCardLength, giftCardExpiry,
                               addPrefix, prefixValue, sendEmail, emailList, internalNote);
      alert := VerdictCorrected(server(payload));
      sent := Some(payload);
      submitting := false;
    }
  }
}
