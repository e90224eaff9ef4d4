/**
 * The checkout page: the card-number, expiry and CVC input filters, and `handleSubmit`, which
 * checks the form in a fixed order and only then posts the purchase through `apiFetch`.
 */
module Checkout {
  import opened Common
  import opened JsText
  import opened ApiClient

  const MaxCardDigits: nat := 16
  const CardGroup: nat := 4
  /** `maxLength` of the card-number input. */
  const CardFieldLength: nat := 19
  /** `maxLength` of the expiry input. */
  const ExpiryFieldLength: nat := 5

  function Min(a: int, b: int): int {
    if a <= b then a else b
  }

  /**
   * `v.match(/\d{4,16}/g)?.[0]` on a string of digits: the leftmost, greedy run of four to
   * sixteen digits, which is absent when there are fewer than four.
   */
  function FirstCardRun(v: string): (m: Option<string>)
    requires AllDigits(v)
    ensures m.Some? <==> |v| >= CardGroup
    ensures m.Some? ==> CardGroup <= |m.value| <= MaxCardDigits && m.value <= v
    ensures m.Some? ==> |m.value| == MaxCardDigits || |m.value| == |v|
  {
    if |v| >= CardGroup then Some(v[..Min(MaxCardDigits, |v|)]) else None
  }

  /** Digits in groups of four, one space between groups. */
  function Grouped(d: string): string
    decreases |d|
  {
    if |d| <= CardGroup then d else d[..CardGroup] + " " + Grouped(d[CardGroup..])
  }

  /** Grouping a whole number of groups followed by more digits puts one space at the seam. */
  lemma {:induction false} GroupedAppend(p: string, c: string)
    requires |p| > 0 && |p| % CardGroup == 0 && |c| > 0
    ensures Grouped(p + c) == Grouped(p) + " " + Grouped(c)
    decreases |p|
  {
    assert (p + c)[..CardGroup] == p[..CardGroup];
    if |p| == CardGroup {
      assert (p + c)[CardGroup..] == c;
    } else {
      assert (p + c)[CardGroup..] == p[CardGroup..] + c;
      GroupedAppend(p[CardGroup..], c);
    }
  }

  /**
   * The exact shape of a grouping of `n` digits: `n + (n - 1) / 4` characters, a space at every
   * position `k` with `k % 5 == 4`, and elsewhere the digits in their order.
   */
  lemma {:induction false} GroupedAt(d: string)
    requires |d| > 0
    ensures |Grouped(d)| == |d| + (|d| - 1) / 4
    ensures forall k :: 0 <= k < |Grouped(d)| ==>
      Grouped(d)[k] == if k % 5 == 4 then ' ' else d[k - k / 5]
    decreases |d|
  {
    if |d| > CardGroup {
      var rest := d[CardGroup..];
      GroupedAt(rest);
      var g := Grouped(d);
      assert g == d[..CardGroup] + " " + Grouped(rest);
      assert (|rest| - 1 + 4) / 4 == (|rest| - 1) / 4 + 1;
      forall k | 0 <= k < |g|
        ensures g[k] == if k % 5 == 4 then ' ' else d[k - k / 5]
      {
        if k >= 5 {
          assert g[k] == Grouped(rest)[k - 5];
          assert (k - 5) / 5 == k / 5 - 1 && (k - 5) % 5 == k % 5;
        }
      }
    }
  }

  /** Taking the spaces back out of a grouping gives the digits back. */
  lemma {:induction false} KeepDigitsGrouped(d: string)
    requires AllDigits(d)
    ensures KeepDigits(Grouped(d)) == d
    decreases |d|
  {
    if |d| > CardGroup {
      KeepDigitsAppend(d[..CardGroup] + " ", Grouped(d[CardGroup..]));
      KeepDigitsAppend(d[..CardGroup], " ");
      KeepDigitsGrouped(d[CardGroup..]);
      assert d == d[..CardGroup] + d[CardGroup..];
    }
  }

  /**
   * `formatCardNumber` as a value: the digits grouped when there are at least four, else the
   * bare digits. The result always fits the card field's `maxLength`.
   */
  function FormattedCardNumber(value: string): (r: string)
    ensures |r| <= CardFieldLength
  {
    var v := KeepDigits(value);
    match FirstCardRun(v)
    case Some(run) => GroupedAt(run); Grouped(run)
    case None => v
  }

  /** `parts.join(sep)` */
  function Join(parts: seq<string>, sep: string): string {
    if |parts| == 0 then ""
    else if |parts| == 1 then parts[0]
    else Join(parts[..|parts| - 1], sep) + sep + parts[|parts| - 1]
  }

  /** `formatCardNumber`: filter the digits, take the first run, cut it into groups of four, join. */
  method FormatCardNumber(value: string) returns (r: string)
    ensures r == FormattedCardNumber(value)
  {
    var v := KeepDigits(value);
    var matches := FirstCardRun(v);
    var run := if matches.Some? then matches.value else "";
    var parts: seq<string> := [];
    var i, len := 0, |run|;
    while i < len
      invariant 0 <= i && i % CardGroup == 0
      invariant (parts == []) == (i == 0)
      invariant parts != [] ==> 0 < len
      invariant parts != [] ==> Join(parts, " ") == Grouped(run[..Min(i, len)])
    {
      var chunk := run[i..Min(i + CardGroup, len)];
      assert run[..Min(i + CardGroup, len)] == run[..i] + chunk;
      if parts != [] {
        GroupedAppend(run[..i], chunk);
      }
      parts := parts + [chunk];
      i := i + CardGroup;
    }
    assert Min(i, len) == len && run[..len] == run;
    if |parts| > 0 {
      r := Join(parts, " ");
      assert r == Grouped(run);
      assert matches.Some?;
    } else {
      r := v;
      assert matches.None?;
    }
  }

  /** A grouping starts with the first digit and ends with the last. */
  lemma {:induction false} GroupedEnds(d: string)
    requires |d| > 0
    ensures |Grouped(d)| > 0 && Grouped(d)[0] == d[0] && Grouped(d)[|Grouped(d)| - 1] == d[|d| - 1]
    decreases |d|
  {
    if |d| > CardGroup {
      GroupedEnds(d[CardGroup..]);
    }
  }

  /** In a grouping of digits, the spaces sit exactly at the positions `k % 5 == 4`, never at either end. */
  lemma GroupedSpaces(d: string)
    requires |d| > 0 && AllDigits(d)
    ensures var g := Grouped(d);
      && g[0] != ' ' && g[|g| - 1] != ' '
      && forall k :: 0 <= k < |g| ==> (g[k] == ' ' <==> k % 5 == 4) && (g[k] == ' ' || IsDigit(g[k]))
  {
    GroupedAt(d);
    GroupedEnds(d);
    var g := Grouped(d);
    forall k | 0 <= k < |g|
      ensures (g[k] == ' ' <==> k % 5 == 4) && (g[k] == ' ' || IsDigit(g[k]))
    {
      if k % 5 != 4 {
        assert IsDigit(d[k - k / 5]);
      }
    }
  }

  /**
   * With at least four digits in the input, the output is the first `min(16, n)` digits in
   * groups of four: a space exactly at the positions `k % 5 == 4`, never at either end, and at
   * most 19 characters, the card field's `maxLength`.
   */
  lemma CardNumberGrouping(value: string)
    requires |KeepDigits(value)| >= CardGroup
    ensures var v, r := KeepDigits(value), FormattedCardNumber(value);
      && KeepDigits(r) == v[..Min(MaxCardDigits, |v|)]
      && |r| <= CardFieldLength
      && r[0] != ' ' && r[|r| - 1] != ' '
      && forall k :: 0 <= k < |r| ==> (r[k] == ' ' <==> k % 5 == 4) && (r[k] == ' ' || IsDigit(r[k]))
  {
    var v := KeepDigits(value);
    var run := v[..Min(MaxCardDigits, |v|)];
    assert FormattedCardNumber(value) == Grouped(run);
    GroupedAt(run);
    GroupedSpaces(run);
    KeepDigitsGrouped(run);
  }

  /** With fewer than four digits in the input, the output is those digits unchanged. */
  lemma CardNumberShortInput(value: string)
    requires |KeepDigits(value)| < CardGroup
    ensures FormattedCardNumber(value) == KeepDigits(value)
  {
  }

  /** Only digits and single spaces, and the digits are a prefix of the input's digits. */
  lemma CardNumberDigitsArePrefix(value: string)
    ensures var r := FormattedCardNumber(value);
      && (forall k :: 0 <= k < |r| ==> r[k] == ' ' || IsDigit(r[k]))
      && (forall k :: 0 <= k < |r| - 1 ==> !(r[k] == ' ' && r[k + 1] == ' '))
      && KeepDigits(r) <= KeepDigits(value)
  {
    if |KeepDigits(value)| >= CardGroup {
      CardNumberGrouping(value);
    }
  }

  /** Formatting an already formatted card number changes nothing. */
  lemma CardNumberIdempotent(value: string)
    ensures FormattedCardNumber(FormattedCardNumber(value)) == FormattedCardNumber(value)
  {
    var v := KeepDigits(value);
    if |v| >= CardGroup {
      var run := v[..Min(MaxCardDigits, |v|)];
      KeepDigitsGrouped(run);
      assert run[..Min(MaxCardDigits, |run|)] == run;
    }
  }

  /**
   * `formatExpiry`: the first two digits, a slash, then at most two more digits; with fewer than
   * two digits, the digits unchanged.
   */
  function FormattedExpiry(value: string): (r: string)
    ensures var v := KeepDigits(value);
      && KeepDigits(r) == v[..Min(4, |v|)]
      && (|v| >= 2 <==> |r| >= 3 && r[2] == '/')
      && (forall k :: 0 <= k < |r| && k != 2 ==> IsDigit(r[k]))
      && |r| <= ExpiryFieldLength
  {
    var v := KeepDigits(value);
    if |v| >= 2 then
      var r := v[..2] + "/" + v[2..Min(4, |v|)];
      KeepDigitsAppend(v[..2] + "/", v[2..Min(4, |v|)]);
      KeepDigitsAppend(v[..2], "/");
      assert v[..Min(4, |v|)] == v[..2] + v[2..Min(4, |v|)];
      r
    else v
  }

  /** Formatting an already formatted expiry changes nothing. */
  lemma ExpiryIdempotent(value: string)
    ensures FormattedExpiry(FormattedExpiry(value)) == FormattedExpiry(value)
  {
    var v := KeepDigits(value);
    var r := FormattedExpiry(value);
    if |v| >= 2 {
      var w := KeepDigits(r);
      assert w[..2] == v[..2] && w[2..Min(4, |w|)] == v[2..Min(4, |v|)];
    }
  }

  const QuantityMessage: string := "Quantity must be at least 1."
  const NamesMessage: string := "Please enter your name and surname."
  const CardMessage: string := "Please enter all card details."
  const FailureMessage: string := "Payment or reservation failed"
  const ReservationsPath: string := "/reservations"
  const CheckoutPath: string := "/checkout/"

  /** The message of the first check `handleSubmit` fails, or none when the form may be sent. */
  function SubmitRejection(quantity: int, name: string, surname: string,
                           cardNumber: string, expiry: string, cvc: string): (m: Option<string>)
    ensures quantity < 1 ==> m == Some(QuantityMessage)
    ensures quantity >= 1 && (IsBlank(name) || IsBlank(surname)) ==> m == Some(NamesMessage)
    ensures (quantity >= 1 && !IsBlank(name) && !IsBlank(surname)
             && (IsBlank(cardNumber) || IsBlank(expiry) || IsBlank(cvc))) ==> m == Some(CardMessage)
    ensures m == None <==>
      (quantity >= 1 && !IsBlank(name) && !IsBlank(surname)
       && !IsBlank(cardNumber) && !IsBlank(expiry) && !IsBlank(cvc))
  {
    if quantity < 1 then Some(QuantityMessage)
    else if Trim(name) == "" || Trim(surname) == "" then Some(NamesMessage)
    else if Trim(cardNumber) == "" || Trim(expiry) == "" || Trim(cvc) == "" then Some(CardMessage)
    else None
  }

  const PayloadKeys: seq<string> := ["event_id", "quantity", "name", "surname", "card_number", "expiry", "cvc"]

  /** The JSON object posted to the checkout endpoint: seven members in a fixed order. */
  function CheckoutPayload(eventId: string, quantity: int, name: string, surname: string,
                           cardNumber: string, expiry: string, cvc: string): (j: Json)
    ensures j.JObject? && |j.members| == |PayloadKeys|
    ensures forall i :: 0 <= i < |PayloadKeys| ==> j.members[i].0 == PayloadKeys[i]
    ensures j.members[0].1 == JString(eventId) && j.members[1].1 == JNumber(quantity)
    ensures forall i :: 2 <= i < |PayloadKeys| ==> j.members[i].1.JString?
  {
    JObject([("event_id", JString(eventId)), ("quantity", JNumber(quantity)),
             ("name", JString(Trim(name))), ("surname", JString(Trim(surname))),
             ("card_number", JString(Trim(cardNumber))), ("expiry", JString(Trim(expiry))),
             ("cvc", JString(Trim(cvc)))])
  }

  /** A string with no whitespace at either end and not empty. */
  predicate Tidy(s: string) {
    s != "" && !IsWhitespace(s[0]) && !IsWhitespace(s[|s| - 1])
  }

  /**
   * When every check passes, the payload carries the event id and quantity as given and the
   * trimmed text fields, each of them non-empty with no whitespace at either end.
   */
  lemma PayloadFieldsAreTidy(eventId: string, quantity: int, name: string, surname: string,
                             cardNumber: string, expiry: string, cvc: string)
    requires SubmitRejection(quantity, name, surname, cardNumber, expiry, cvc) == None
    ensures var j := CheckoutPayload(eventId, quantity, name, surname, cardNumber, expiry, cvc);
      && j.members[0] == ("event_id", JString(eventId)) && j.members[1] == ("quantity", JNumber(quantity))
      && j.members[2] == ("name", JString(Trim(name))) && j.members[3] == ("surname", JString(Trim(surname)))
      && j.members[4] == ("card_number", JString(Trim(cardNumber)))
      && j.members[5] == ("expiry", JString(Trim(expiry))) && j.members[6] == ("cvc", JString(Trim(cvc)))
      && (forall i :: 2 <= i < 7 ==> j.members[i].1.JString? && Tidy(j.members[i].1.s))
  {
    var j := CheckoutPayload(eventId, quantity, name, surname, cardNumber, expiry, cvc);
    assert j.members == [("event_id", JString(eventId)), ("quantity", JNumber(quantity)),
                         ("name", JString(Trim(name))), ("surname", JString(Trim(surname))),
                         ("card_number", JString(Trim(cardNumber))), ("expiry", JString(Trim(expiry))),
                         ("cvc", JString(Trim(cvc)))];
    assert Tidy(Trim(name)) && Tidy(Trim(surname)) && Tidy(Trim(cardNumber)) && Tidy(Trim(expiry)) && Tidy(Trim(cvc));
  }

  /** `${localStorage.getItem("access_token")}`: a missing token becomes the text "null". */
  function Interpolated(v: Option<string>): (t: string)
    ensures v.Some? ==> t == v.value
    ensures v.None? ==> t == "null"
  {
    if v.Some? then v.value else "null"
  }

  /**
   * The request `handleSubmit` hands to `apiFetch`: a POST of the payload whose own headers
   * carry the JSON type and a bearer credential built from the stored token, even when none is
   * stored.
   */
  function CheckoutInit(token: Option<string>, payload: Json): (init: RequestInit)
    ensures init.verb == Some("POST") && init.body == Some(payload) && init.headers.Record?
    ensures init.headers.fields.Keys == {ContentType, Authorization}
    ensures init.headers.fields[ContentType] == JsonMime
    ensures token.Some? ==> init.headers.fields[Authorization] == "Bearer " + token.value
    ensures token.None? ==> init.headers.fields[Authorization] == "Bearer null"
  {
    RequestInit(Some("POST"),
                Record(map[ContentType := JsonMime, Authorization := "Bearer " + Interpolated(token)]),
                Some(payload))
  }

  /**
   * With no stored access token the checkout request carries the literal `Bearer null`:
   * `apiFetch` only replaces the caller's credential when a token is stored.
   */
  lemma CheckoutWithoutTokenSendsBearerNull(storage: map<string, string>, apiUrl: string, payload: Json)
    requires AccessKey !in storage
    ensures FirstRequest(storage, apiUrl + CheckoutPath, CheckoutInit(None, payload)).headers[Authorization]
         == "Bearer null"
  {
  }

  /** What the page shows as its error. `Thrown` is the message of an exception raised by the platform. */
  datatype ErrorText = Text(message: string) | Thrown

  /** What the page does once the checkout call has settled. */
  datatype SubmitOutcome = ShowError(error: ErrorText) | GoTo(path: string)

  /**
   * A successful answer leads to the reservations page; anything else is shown as an error:
   * the backend's `error` member when it has one, a fixed fallback otherwise, and the platform's
   * message when `fetch` or `response.json()` rejects.
   */
  function Outcome(result: Settled<Response>): (o: SubmitOutcome)
    ensures o.GoTo? <==> result.Resolved? && Ok(result.value)
    ensures o.GoTo? ==> o.path == ReservationsPath
    ensures o == ShowError(Thrown) <==>
      result.Rejected? || (!Ok(result.value) && result.value.body.Unparseable?)
    ensures (result.Resolved? && !Ok(result.value) && result.value.body.JsonObject?) ==>
      o == ShowError(Text(if Truthy(result.value.body.error) then result.value.body.error.value else FailureMessage))
  {
    match result
    case Rejected => ShowError(Thrown)
    case Resolved(res) =>
      if Ok(res) then GoTo(ReservationsPath)
      else match res.body
        case Unparseable => ShowError(Thrown)
        case JsonObject(_, _, error) => ShowError(Text(if Truthy(error) then error.value else FailureMessage))
  }

  class CheckoutPage {
    /** The `eventId` route parameter. */
    var eventId: string
    var quantity: int
    var name: string
    var surname: string
    var cardNumber: string
    var expiry: string
    var cvc: string
    var error: Option<ErrorText>
    var loading: bool
    /** Where `navigate` sent the page, if anywhere. */
    var redirect: Option<string>

    constructor (eventId: string, quantity: int, name: string, surname: string)
      ensures this.eventId == eventId && this.quantity == quantity
      ensures this.name == name && this.surname == surname
      ensures cardNumber == "" && expiry == "" && cvc == ""
      ensures error == None && !loading && redirect == None
    {
      this.eventId := eventId;
      this.quantity := quantity;
      this.name := name;
      this.surname := surname;
      cardNumber, expiry, cvc := "", "", "";
      error, loading, redirect := None, false, None;
    }

    /** `handleCardNumberChange` */
    method OnCardNumberChange(value: string)
      modifies this`cardNumber
      ensures cardNumber == FormattedCardNumber(value)
    {
      cardNumber := FormatCardNumber(value);
    }

    /** `handleExpiryChange` */
    method OnExpiryChange(value: string)
      modifies this`expiry
      ensures expiry == FormattedExpiry(value)
    {
      expiry := FormattedExpiry(value);
    }

    /** The CVC input's `onChange`: keep only the digits. */
    method OnCvcChange(value: string)
      modifies this`cvc
      ensures cvc == KeepDigits(value)
    {
      cvc := KeepDigits(value);
    }

    /** The `try`/`catch` of `handleSubmit` once the call has settled: redirect on success, else show the error. */
    method ShowOutcome(res: Settled<Response>)
      modifies this`error, this`redirect
      ensures Outcome(res).ShowError? ==> error == Some(Outcome(res).error) && redirect == old(redirect)
      ensures Outcome(res).GoTo? ==> redirect == Some(Outcome(res).path) && error == old(error)
    {
      match res {
        case Rejected =>
          error := Some(Thrown);
        case Resolved(response) =>
          if !Ok(response) {
            match response.body {
              case Unparseable =>
                error := Some(Thrown);
              case JsonObject(_, _, message) =>
                error := Some(Text(if Truthy(message) then message.value else FailureMessage));
            }
          } else {
            redirect := Some(ReservationsPath);
          }
      }
    }

    /**
     * `handleSubmit`: a failed check sets its message and sends nothing; otherwise the trimmed
     * form is posted through `apiFetch` and the page shows the outcome.
     */
    method HandleSubmit(b: Browser, net: Network, apiUrl: string)
      modifies this`error, this`loading, this`redirect, b, net
      ensures var rejection := SubmitRejection(quantity, name, surname, cardNumber, expiry, cvc);
        rejection.Some? ==>
          && error == Some(Text(rejection.value))
          && loading == old(loading) && redirect == old(redirect)
          && net.sent == old(net.sent) && net.replies == old(net.replies)
          && b.storage == old(b.storage) && b.href == old(b.href)
      ensures SubmitRejection(quantity, name, surname, cardNumber, expiry, cvc).None? ==>
        var t := ApiFetchSpec(old(b.storage), old(b.href), old(net.replies), apiUrl, apiUrl + CheckoutPath,
                              CheckoutInit(Stored(old(b.storage), AccessKey), Payload()));
        && net.sent == old(net.sent) + t.calls
        && net.replies == Drop(old(net.replies), |t.calls|)
        && b.storage == t.storage && b.href == t.href
        && (Outcome(t.result).ShowError? ==> error == Some(Outcome(t.result).error) && redirect == old(redirect))
        && (Outcome(t.result).GoTo? ==> redirect == Some(Outcome(t.result).path) && error == None)
        && !loading
    {
      var rejection := SubmitRejection(quantity, name, surname, cardNumber, expiry, cvc);
      if rejection.Some? {
        error := Some(Text(rejection.value));
        return;
      }
      Post(b, net, apiUrl);
    }

    /** The JSON body built from the current form. */
    function Payload(): Json
      reads this
    {
      CheckoutPayload(eventId, quantity, name, surname, cardNumber, expiry, cvc)
    }

    /** The rest of `handleSubmit` once every check has passed: loading, the call, the outcome. */
    method Post(b: Browser, net: Network, apiUrl: string)
      modifies this`error, this`loading, this`redirect, b, net
      ensures var t := ApiFetchSpec(old(b.storage), old(b.href), old(net.replies), apiUrl, apiUrl + CheckoutPath,
                                    CheckoutInit(Stored(old(b.storage), AccessKey), Payload()));
        && net.sent == old(net.sent) + t.calls
        && net.replies == Drop(old(net.replies), |t.calls|)
        && b.storage == t.storage && b.href == t.href
        && (Outcome(t.result).ShowError? ==> error == Some(Outcome(t.result).error) && redirect == old(redirect))
        && (Outcome(t.result).GoTo? ==> redirect == Some(Outcome(t.result).path) && error == None)
        && !loading
    {
      loading := true;
      error := None;
      var token := b.GetItem(AccessKey);
      var init := CheckoutInit(token, Payload());
      ghost var before := net.sent;
      var res := ApiFetch(b, net, apiUrl, apiUrl + CheckoutPath, init);
      assert net.sent == before + net.sent[|before|..];
      ShowOutcome(res);
      loading := false;
    }
  }
}
