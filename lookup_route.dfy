/** The `POST /api/lookup` route: it reads `phoneNumber` from the JSON body,
    answers 400 when it is falsy, turns it into a `+1…` dialing string, asks
    the provider for the caller name and then for the carrier, and answers 200
    with the merged result, or 500 with a fixed message on any failure. */
module LookupRoute {
  import opened Js
  import opened Provider

  const PhoneNumberRequired := "Phone number is required"
  const LookupFailed := "Failed to lookup phone number"

  // ---------------------------------------------------------------------------
  // The number normaliser: `replace(/\D/g, "")`, then `+` or `+1` in front.
  // ---------------------------------------------------------------------------

  /** `\d` in a JavaScript pattern: the ASCII digits only. */
  predicate IsDigit(c: char)
  {
    '0' <= c <= '9'
  }

  predicate AllDigits(s: string)
  {
    forall i :: 0 <= i < |s| ==> IsDigit(s[i])
  }

  /** The digit string already carries the country code 1. */
  predicate LeadsWithOne(d: string)
  {
    |d| > 0 && d[0] == '1'
  }

  /** `s.replace(/\D/g, "")`: the digits of `s`, in their order. No digit is
      lost and nothing else is kept. */
  function Digits(s: string): (d: string)
    ensures |d| <= |s|
    ensures AllDigits(d)
    ensures AllDigits(s) ==> d == s
  {
    if s == [] then []
    else (if IsDigit(s[0]) then [s[0]] else []) + Digits(s[1..])
  }

  /** Every digit of the input survives, as often as it occurs. */
  lemma {:induction false} DigitsKeepsEveryDigit(s: string, c: char)
    requires IsDigit(c)
    ensures multiset(Digits(s))[c] == multiset(s)[c]
  {
    if s != [] {
      assert s == [s[0]] + s[1..];
      DigitsKeepsEveryDigit(s[1..], c);
    }
  }

  /** Stripping non-digits distributes over concatenation, so it keeps order. */
  lemma {:induction false} DigitsAppend(a: string, b: string)
    ensures Digits(a + b) == Digits(a) + Digits(b)
  {
    if a == [] {
      assert a + b == b;
    } else {
      assert (a + b)[1..] == a[1..] + b;
      DigitsAppend(a[1..], b);
    }
  }

  /** Lines 24-28: the dialing string sent to the provider. Its digits are the
      input's digits, with the country code 1 put in front unless they already
      start with 1; a `+` precedes them. */
  function Normalize(raw: string): (r: string)
    ensures |r| >= 2 && r[0] == '+' && r[1] == '1'
    ensures AllDigits(r[1..])
    ensures r == "+" + Digits(r)
    ensures Digits(r) == if LeadsWithOne(Digits(raw)) then Digits(raw) else "1" + Digits(raw)
  {
    var d := Digits(raw);
    var tail := if LeadsWithOne(d) then d else "1" + d;
    assert AllDigits(tail) by {
      if !LeadsWithOne(d) {
        assert forall i :: 1 <= i < |tail| ==> tail[i] == d[i - 1];
      }
    }
    var r := "+" + tail;
    assert r[1..] == tail;
    assert Digits(r) == tail;
    r
  }

  /** The length is the digit count plus one or two: E.164's limit of fifteen
      digits is not enforced. */
  lemma NormalizeLength(raw: string)
    ensures |Normalize(raw)| == if LeadsWithOne(Digits(raw)) then |Digits(raw)| + 1 else |Digits(raw)| + 2
  {
    var r := Normalize(raw);
    assert |r| == |Digits(r)| + 1;
  }

  /** Normalizing a normalized number changes nothing. */
  lemma NormalizeIdempotent(raw: string)
    ensures Normalize(Normalize(raw)) == Normalize(raw)
  {
    var r := Normalize(raw);
    assert Digits(r)[0] == r[1];
  }

  /** A NANP number already in E.164 form (`+1` and national digits) reaches
      the provider unchanged. */
  lemma {:induction false} NanpE164Unchanged(national: string)
    requires AllDigits(national)
    ensures Normalize("+1" + national) == "+1" + national
  {
    var s := "+1" + national;
    var tail := "1" + national;
    assert s[1..] == tail;
    assert forall i :: 1 <= i < |tail| ==> tail[i] == national[i - 1];
    assert Digits(s) == tail;
  }

  /** A number with another country code is not recognised as such: the
      digits get a 1 in front, so `+447…` is looked up as `+1447…`. */
  lemma {:induction false} OtherCountryCodeGetsOnePrefixed(digits: string)
    requires AllDigits(digits) && |digits| > 0 && digits[0] != '1'
    ensures Normalize("+" + digits) == "+1" + digits
  {
    var s := "+" + digits;
    assert s[1..] == digits;
    assert Digits(s) == Digits(digits) == digits;
    assert !LeadsWithOne(Digits(s));
    var r := Normalize(s);
    assert Digits(r) == "1" + digits;
    assert r == "+" + ("1" + digits) == "+1" + digits;
  }

  /** A ten-digit national number not starting with 1 becomes `+1` followed
      by exactly those ten digits, whatever punctuation surrounds them. */
  lemma TenDigitNationalNumber(raw: string)
    requires |Digits(raw)| == 10 && Digits(raw)[0] != '1'
    ensures Normalize(raw) == "+1" + Digits(raw)
    ensures |Normalize(raw)| == 12
  {
    NormalizeLength(raw);
  }

  // ---------------------------------------------------------------------------
  // The route handler.
  // ---------------------------------------------------------------------------

  /** The carrier part of the answer, its four fields copied as they came. */
  datatype CarrierInfo = CarrierInfo(
    name: Option<string>,
    carrierType: Option<string>,
    mobileCountryCode: Option<string>,
    mobileNetworkCode: Option<string>)

  /** The body of a successful answer. */
  datatype LookupResult = LookupResult(phoneNumber: string, callerName: Option<string>, carrier: CarrierInfo)

  datatype Body = ErrorBody(error: string) | ResultBody(result: LookupResult)

  datatype Response = Response(status: int, body: Body)

  /** A request the route sends to the provider. */
  datatype ProviderRequest = CallerNameRequest(number: string) | CarrierRequest(number: string)

  /** What one call of the handler does: the answer, and the provider requests
      it issued, in order. */
  datatype Outcome = Outcome(response: Response, requests: seq<ProviderRequest>)

  /** The raw `phoneNumber` text the handler normalizes, if it gets that far:
      the body parsed, was not `null`, and held a non-empty string there. */
  function SubmittedText(body: Option<Json>): (t: Option<string>)
    ensures t.Some? <==> body.Some? && !Falsy(PhoneNumberProperty(body.value)) && PhoneNumberProperty(body.value).value.JString?
    ensures t.Some? ==> t.value != "" && PhoneNumberProperty(body.value) == Some(JString(t.value))
  {
    if body.None? then None
    else
      var field := PhoneNumberProperty(body.value);
      if !Falsy(field) && field.value.JString? then Some(field.value.s) else None
  }

  /** Lines 37-46: the answer merged from the two replies. The caller name is
      kept only when it is a non-empty string; the carrier fields are copied
      without defaults. */
  function Merge(caller: CallerLookup, carrier: Carrier): (r: LookupResult)
    ensures r.phoneNumber == caller.phoneNumber
    ensures r.callerName.Some? <==> TruthyText(CallerNameText(caller.callerName))
    ensures r.callerName.Some? ==> r.callerName.value == caller.callerName.value.callerName.value
    ensures r.carrier.name == carrier.name && r.carrier.carrierType == carrier.carrierType
    ensures r.carrier.mobileCountryCode == carrier.mobileCountryCode
    ensures r.carrier.mobileNetworkCode == carrier.mobileNetworkCode
  {
    LookupResult(
      caller.phoneNumber,
      OrNull(CallerNameText(caller.callerName)),
      CarrierInfo(carrier.name, carrier.carrierType, carrier.mobileCountryCode, carrier.mobileNetworkCode))
  }

  function Failure(requests: seq<ProviderRequest>): Outcome
  {
    Outcome(Response(500, ErrorBody(LookupFailed)), requests)
  }

  /** The handler. `body` is the parsed request body (`None`: not JSON);
      `callerApi` and `carrierApi` are the provider's two lookups. Every throw
      inside the `try` (the body, destructuring `null`, calling `replace` on a
      non-string, either lookup, reading `carrier.name` of a missing carrier)
      becomes the same 500 answer. */
  function Post(body: Option<Json>,
                callerApi: string -> Attempt<CallerLookup>,
                carrierApi: string -> Attempt<CarrierLookup>): (o: Outcome)
    ensures o.response.status in {200, 400, 500}
    ensures o.response.status == 400 <==> body.Some? && !body.value.JNull? && Falsy(PhoneNumberProperty(body.value))
    ensures o.response.status == 400 ==> o.response.body == ErrorBody(PhoneNumberRequired)
    ensures o.response.status == 500 ==> o.response.body == ErrorBody(LookupFailed)
    ensures o.response.status == 200 <==> o.response.body.ResultBody?
    ensures SubmittedText(body).None? ==> o.requests == [] && o.response.status != 200
    ensures SubmittedText(body).Some? ==>
      var n := Normalize(SubmittedText(body).value);
      && 1 <= |o.requests| <= 2 && o.requests <= [CallerNameRequest(n), CarrierRequest(n)]
      // the carrier is asked only after the caller-name lookup resolved
      && (|o.requests| == 2 <==> callerApi(n).Done?)
      // "200 otherwise": both lookups resolved and a carrier record came back
      && (o.response.status == 200 <==> callerApi(n).Done? && carrierApi(n).Done? && carrierApi(n).value.carrier.Some?)
    ensures o.response.status == 200 ==>
      var n := Normalize(SubmittedText(body).value);
      |o.requests| == 2 && callerApi(n).Done? && carrierApi(n).Done? && carrierApi(n).value.carrier.Some? &&
      o.response.body.result == Merge(callerApi(n).value, carrierApi(n).value.carrier.value)
  {
    match body
    case None => Failure([])
    case Some(v) =>
      if v.JNull? then Failure([])
      else
        var field := PhoneNumberProperty(v);
        if Falsy(field) then Outcome(Response(400, ErrorBody(PhoneNumberRequired)), [])
        else if !field.value.JString? then Failure([])
        else
          var n := Normalize(field.value.s);
          match callerApi(n)
          case Threw(_) => Failure([CallerNameRequest(n)])
          case Done(caller) =>
            match carrierApi(n)
            case Threw(_) => Failure([CallerNameRequest(n), CarrierRequest(n)])
            case Done(carrier) =>
              if carrier.carrier.None? then Failure([CallerNameRequest(n), CarrierRequest(n)])
              else Outcome(Response(200, ResultBody(Merge(caller, carrier.carrier.value))), [CallerNameRequest(n), CarrierRequest(n)])
  }

  /** The 500 answer carries nothing from the failure: two providers that
      fail with different messages produce the same outcome. */
  lemma FailureHidesProviderError(body: Option<Json>,
                                  callerApi: string -> Attempt<CallerLookup>,
                                  callerApi': string -> Attempt<CallerLookup>,
                                  carrierApi: string -> Attempt<CarrierLookup>,
                                  carrierApi': string -> Attempt<CarrierLookup>)
    requires forall n :: callerApi(n).Threw? <==> callerApi'(n).Threw?
    requires forall n :: callerApi(n).Done? ==> callerApi(n) == callerApi'(n)
    requires forall n :: carrierApi(n).Threw? <==> carrierApi'(n).Threw?
    requires forall n :: carrierApi(n).Done? ==> carrierApi(n) == carrierApi'(n)
    ensures Post(body, callerApi, carrierApi) == Post(body, callerApi', carrierApi')
  {
  }
}
