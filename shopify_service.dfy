/**
 * The gift-card issuance client: the shop URL it talks to, the GraphQL input
 * it sends for `giftCardCreate`, and how it turns the reply into the
 * `{giftCardId, giftCardCode, errors}` triple the batch runner consumes.
 * The HTTP exchange itself is not modelled: its outcome is a `Transport` value.
 */
module ShopifyGiftCardService {
  import opened Wrappers
  import opened Text
  import opened Records

  // ---------------------------------------------------------------------------
  // Store-domain normalisation and the API URL
  // ---------------------------------------------------------------------------

  const ShopSuffix: string := ".myshopify.com"
  const ApiPath: string := "/admin/api/2025-01/graphql.json"

  /** Removes every trailing copy of ".myshopify.com". */
  function StripShopSuffixes(s: string): (r: string)
    ensures !EndsWith(r, ShopSuffix)
    ensures |r| <= |s| && r == s[..|r|]
    decreases |s|
  {
    if EndsWith(s, ShopSuffix) then StripShopSuffixes(s[..|s| - |ShopSuffix|]) else s
  }

  /** One or more trailing ".myshopify.com" become exactly one. */
  function CollapseSuffix(s: string): string {
    if EndsWith(s, ShopSuffix) then StripShopSuffixes(s) + ShopSuffix else s
  }

  /**
   * `preg_replace('/(\.myshopify\.com)+$/', '.myshopify.com', $name)`. Without
   * the D modifier `$` also matches just before a final newline, which is kept.
   */
  function NormalizeStore(name: string): (r: string)
    ensures |r| <= |name|
    ensures EndsWith(name, ShopSuffix) ==> EndsWith(r, ShopSuffix)
  {
    if name != [] && name[|name| - 1] == '\n'
    then CollapseSuffix(name[..|name| - 1]) + "\n"
    else CollapseSuffix(name)
  }

  lemma CollapseSuffixKeepsLast(s: string)
    requires s == [] || s[|s| - 1] != '\n'
    ensures var c := CollapseSuffix(s); c == [] || c[|c| - 1] != '\n'
  {
  }

  lemma CollapseSuffixIdempotent(s: string)
    ensures CollapseSuffix(CollapseSuffix(s)) == CollapseSuffix(s)
  {
    if EndsWith(s, ShopSuffix) {
      var b := StripShopSuffixes(s);
      var c := b + ShopSuffix;
      assert EndsWith(c, ShopSuffix);
      assert c[..|c| - |ShopSuffix|] == b;
      assert StripShopSuffixes(c) == StripShopSuffixes(b) == b;
    }
  }

  /** Normalising an already normalised store name changes nothing. */
  lemma NormalizeStoreIdempotent(name: string)
    ensures NormalizeStore(NormalizeStore(name)) == NormalizeStore(name)
  {
    if name != [] && name[|name| - 1] == '\n' {
      var core := name[..|name| - 1];
      var n := CollapseSuffix(core) + "\n";
      assert n[..|n| - 1] == CollapseSuffix(core);
      CollapseSuffixIdempotent(core);
    } else {
      CollapseSuffixKeepsLast(name);
      CollapseSuffixIdempotent(name);
    }
  }

  /** A name that does not end in the shop suffix is left as it is. */
  lemma NormalizeStoreKeepsPlainNames(name: string)
    requires name == [] || name[|name| - 1] != '\n'
    requires !EndsWith(name, ShopSuffix)
    ensures NormalizeStore(name) == name
  {
  }

  function Repeat(s: string, k: nat): string {
    if k == 0 then [] else Repeat(s, k - 1) + s
  }

  lemma {:induction false} StripRepeats(base: string, k: nat)
    requires !EndsWith(base, ShopSuffix)
    ensures StripShopSuffixes(base + Repeat(ShopSuffix, k)) == base
  {
    if k > 0 {
      var s := base + Repeat(ShopSuffix, k);
      assert s == base + Repeat(ShopSuffix, k - 1) + ShopSuffix;
      assert EndsWith(s, ShopSuffix);
      assert s[..|s| - |ShopSuffix|] == base + Repeat(ShopSuffix, k - 1);
      StripRepeats(base, k - 1);
    } else {
      assert base + Repeat(ShopSuffix, 0) == base;
    }
  }

  /** "shop" followed by k >= 1 copies of ".myshopify.com" becomes "shop.myshopify.com". */
  lemma NormalizeStoreCollapses(base: string, k: nat)
    requires k >= 1 && !EndsWith(base, ShopSuffix)
    ensures NormalizeStore(base + Repeat(ShopSuffix, k)) == base + ShopSuffix
  {
    var s := base + Repeat(ShopSuffix, k);
    assert s == base + Repeat(ShopSuffix, k - 1) + ShopSuffix;
    assert EndsWith(s, ShopSuffix);
    StripRepeats(base, k);
  }

  /** The GraphQL endpoint of a store. */
  function ApiUrl(store: string): (url: string)
    ensures |url| == 8 + |store| + |ApiPath|
    ensures url[..8] == "https://" && url[8..8 + |store|] == store
    ensures url[8 + |store|..] == ApiPath
  {
    "https://" + store + ApiPath
  }

  /** Different stores get different endpoints. */
  lemma ApiUrlInjective(a: string, b: string)
    requires ApiUrl(a) == ApiUrl(b)
    ensures a == b
  {
    assert |a| == |b|;
  }

  // ---------------------------------------------------------------------------
  // Replies and results
  // ---------------------------------------------------------------------------

  /** An element of an `errors` list: a plain string, or a Shopify user error. */
  datatype ErrorItem = Message(text: string) | UserError(field: seq<string>, message: Option<string>)

  /** `data.giftCardCreate` of a reply: the card id, the code and the user errors. */
  datatype CreatePayload = CreatePayload(
    giftCardId: Option<string>, giftCardCode: Option<string>, userErrors: seq<ErrorItem>)

  /**
   * What the HTTP layer did: answered with a status code, top-level GraphQL
   * `errors` and an optional `giftCardCreate` payload; raised an `Exception`;
   * or raised another `Throwable` (a PHP `Error`), which `catch (Exception)`
   * does not catch.
   */
  datatype Transport =
    | Responded(status: nat, errors: seq<ErrorItem>, giftCardCreate: Option<CreatePayload>)
    | Threw(message: string)
    | Crashed(message: string)

  /** The array `createGiftCard` returns. It never has a `balance` key. */
  datatype Response = Response(giftCardId: Option<string>, giftCardCode: Option<string>, errors: seq<ErrorItem>)

  /** A returned array, or a Throwable that escapes `createGiftCard`. */
  datatype ServiceResult = Returned(response: Response) | Raised(message: string)

  /** The request that is posted: endpoint, access token and `variables.input`. */
  datatype GraphQLRequest = GraphQLRequest(url: string, accessToken: string, input: map<string, string>)

  function HttpFailedText(status: nat): string {
    "HTTP Request Failed: " + NatToString(status)
  }

  /** The reply a card was created from: a 2xx/3xx answer without user errors. */
  predicate Succeeded(reply: Transport) {
    && reply.Responded?
    && reply.status < 400
    && (reply.giftCardCreate.None? || reply.giftCardCreate.value.userErrors == [])
  }

  /** How `createGiftCard` classifies the outcome of its HTTP call. */
  function Classify(reply: Transport): (r: ServiceResult)
    ensures r.Raised? <==> reply.Crashed?
    ensures r.Returned? ==> (r.response.errors == [] <==> Succeeded(reply))
    ensures r.Returned? && r.response.errors != [] ==>
      r.response.giftCardId.None? && r.response.giftCardCode.None?
    ensures reply.Responded? && reply.status >= 400 ==>
      r.response.errors == [Message(HttpFailedText(reply.status))]
    ensures (reply.Responded? && reply.status < 400 && reply.giftCardCreate.Some?
             && reply.giftCardCreate.value.userErrors != []) ==>
      r.response.errors == reply.giftCardCreate.value.userErrors
    ensures Succeeded(reply) && reply.giftCardCreate.Some? ==>
      r.response.giftCardId == reply.giftCardCreate.value.giftCardId
      && r.response.giftCardCode == reply.giftCardCreate.value.giftCardCode
    ensures reply.Threw? ==> r.response.errors == [Message(reply.message)]
  {
    match reply
    case Crashed(m) => Raised(m)
    case Threw(m) => Returned(Response(None, None, [Message(m)]))
    case Responded(status, _, create) =>
      if status >= 400 then Returned(Response(None, None, [Message(HttpFailedText(status))]))
      else
        var payload := create.GetOr(CreatePayload(None, None, []));
        if payload.userErrors != [] then Returned(Response(None, None, payload.userErrors))
        else Returned(Response(payload.giftCardId, payload.giftCardCode, []))
  }

  /**
   * Top-level GraphQL errors (where the Admin API reports throttling) are not
   * looked at: a reply carrying only such errors reads as a success with no
   * card id and no code.
   */
  lemma TopLevelErrorsIgnored(status: nat, errors: seq<ErrorItem>)
    requires status < 400
    ensures Classify(Responded(status, errors, None)) == Returned(Response(None, None, []))
  {
  }

  // ---------------------------------------------------------------------------
  // The client object
  // ---------------------------------------------------------------------------

  /** PHP `empty()` on a nullable string: null, "" and "0" are empty. */
  predicate PhpEmpty(s: Option<string>)
    ensures PhpEmpty(s) && s.Some? ==> |s.value| <= 1
    ensures s.Some? && |s.value| == 1 && s.value[0] != '0' ==> !PhpEmpty(s)
  {
    s.None? || s.value == "" || s.value == "0"
  }

  /** `(string)$value` of a decimal(10,2) amount, e.g. 1050 cents is "10.50". */
  function FormatCents(cents: nat): (r: string)
    ensures |r| >= 4 && r[|r| - 3] == '.'
    ensures forall i :: 0 <= i < |r| && i != |r| - 3 ==> IsDigit(r[i])
  {
    NatToString(cents / 100) + "." + [DigitChar(cents % 100 / 10), DigitChar(cents % 10)]
  }

  /** The amount reads back from its rendering: whole units before the point, cents after it. */
  lemma FormatCentsRoundTrip(cents: nat)
    ensures var r := FormatCents(cents);
      ParseNat(r[..|r| - 3]) * 100 + ParseNat(r[|r| - 2..]) == cents
  {
    var r := FormatCents(cents);
    var units := NatToString(cents / 100);
    var tail := [DigitChar(cents % 100 / 10), DigitChar(cents % 10)];
    assert r[..|r| - 3] == units;
    assert r[|r| - 2..] == tail;
    ParseNatToString(cents / 100);
    var hi, lo := cents % 100 / 10, cents % 10;
    assert DigitValue(tail[0]) == hi && DigitValue(tail[1]) == lo;
    assert tail[..|tail| - 1] == [tail[0]] && [tail[0]][..0] == [];
    assert ParseNat([tail[0]]) == hi;
    assert ParseNat(tail) == hi * 10 + lo;
    assert cents % 100 == hi * 10 + lo;
  }

  class GiftCardService {
    const apiUrl: string
    const accessToken: string

    constructor (user: User)
      ensures apiUrl == ApiUrl(NormalizeStore(user.name))
      ensures accessToken == user.password
    {
      apiUrl := ApiUrl(NormalizeStore(user.name));
      accessToken := user.password;
    }

    /**
     * `createGiftCard($value, $manualCode, $note, $expiresOn)`: builds the
     * input, posts it (the outcome of that is `reply`) and classifies the reply.
     */
    method CreateGiftCard(value: nat, manualCode: Option<string>, note: Option<string>,
                          expiresOn: Option<string>, reply: Transport)
      returns (request: GraphQLRequest, result: ServiceResult)
      ensures request.url == apiUrl && request.accessToken == accessToken
      ensures "initialValue" in request.input && request.input["initialValue"] == FormatCents(value)
      ensures ("code" in request.input) <==> !PhpEmpty(manualCode)
      ensures ("note" in request.input) <==> !PhpEmpty(note)
      ensures ("expiresOn" in request.input) <==> !PhpEmpty(expiresOn)
      ensures "code" in request.input ==> request.input["code"] == manualCode.value
      ensures "note" in request.input ==> request.input["note"] == note.value
      ensures "expiresOn" in request.input ==> request.input["expiresOn"] == expiresOn.value
      ensures request.input.Keys <= {"initialValue", "code", "note", "expiresOn"}
      ensures result == Classify(reply)
    {
      var input := map["initialValue" := FormatCents(value)];
      if !PhpEmpty(manualCode) {
        input := input["code" := manualCode.value];
      }
      if !PhpEmpty(note) {
        input := input["note" := note.value];
      }
      if !PhpEmpty(expiresOn) {
        input := input["expiresOn" := expiresOn.value];
      }
      request := GraphQLRequest(apiUrl, accessToken, input);
      result := Classify(reply);
    }
  }
}
