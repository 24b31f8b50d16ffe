/** The server action `lookupPhone(apiKey, phoneNumber)`: it takes the
    account SID and auth token from `apiKey` split on `:`, builds a provider
    client from them, makes one combined lookup, and returns the reply with
    fixed placeholders for a missing carrier name, carrier type or caller
    name. A failed lookup becomes one fixed error. */
module LookupAction {
  import opened Js
  import opened Provider

  const LookupFailed := "Failed to lookup phone number"
  const Unknown := "Unknown"
  const NotAvailable := "Not available"

  // ---------------------------------------------------------------------------
  // `apiKey.split(':')`
  // ---------------------------------------------------------------------------

  /** The pieces joined back together with `sep` between them. */
  function Join(pieces: seq<string>, sep: char): string
    requires |pieces| >= 1
  {
    if |pieces| == 1 then pieces[0] else pieces[0] + [sep] + Join(pieces[1..], sep)
  }

  /** `s.split(sep)` for a one-character separator: the maximal runs between
      separators, always at least one (`"".split(':')` is `[""]`). */
  function Split(s: string, sep: char): (pieces: seq<string>)
    ensures |pieces| >= 1
    ensures forall i :: 0 <= i < |pieces| ==> sep !in pieces[i]
    ensures Join(pieces, sep) == s
  {
    if s == [] then [[]]
    else
      var rest := Split(s[1..], sep);
      if s[0] == sep then
        assert ([[]] + rest)[1..] == rest;
        [[]] + rest
      else
        var pieces := [[s[0]] + rest[0]] + rest[1..];
        assert pieces[1..] == rest[1..];
        assert s == [s[0]] + s[1..];
        pieces
  }

  /** The separator occurs in `s` exactly when there is more than one piece. */
  lemma {:induction false} SplitHasSeveralPieces(s: string, sep: char)
    ensures sep in s <==> |Split(s, sep)| >= 2
  {
    var pieces := Split(s, sep);
    if |pieces| >= 2 {
      assert s == pieces[0] + [sep] + Join(pieces[1..], sep);
      assert s[|pieces[0]|] == sep;
    }
  }

  /** The credentials `const [accountSid, authToken] = apiKey.split(':')`
      yields; `authToken` is `undefined` when there is no piece for it. */
  datatype Credentials = Credentials(accountSid: string, authToken: Option<string>)

  /** Line 6: `accountSid` is the text before the first `:`, `authToken` the
      text between the first and the second; the rest of the key is dropped. */
  function ParseApiKey(apiKey: string): (c: Credentials)
    ensures ':' !in c.accountSid && c.accountSid <= apiKey
    ensures c.authToken.None? <==> ':' !in apiKey
    ensures c.authToken.None? ==> c.accountSid == apiKey
    ensures c.authToken.Some? ==>
      var head := c.accountSid + ":" + c.authToken.value;
      ':' !in c.authToken.value && head <= apiKey && (|head| == |apiKey| || apiKey[|head|] == ':')
  {
    var pieces := Split(apiKey, ':');
    SplitHasSeveralPieces(apiKey, ':');
    if |pieces| >= 2 then
      var head := pieces[0] + ":" + pieces[1];
      assert apiKey == pieces[0] + ":" + Join(pieces[1..], ':');
      assert Join(pieces[1..], ':') == pieces[1] || pieces[1] + ":" <= Join(pieces[1..], ':');
      assert apiKey == head || head + ":" <= apiKey;
      Credentials(pieces[0], Some(pieces[1]))
    else
      Credentials(pieces[0], None)
  }

  // ---------------------------------------------------------------------------
  // The action.
  // ---------------------------------------------------------------------------

  datatype CarrierSummary = CarrierSummary(name: string, carrierType: string)

  /** What the action resolves to: no field is ever null. */
  datatype PhoneResult = PhoneResult(phoneNumber: string, carrier: CarrierSummary, callerName: string)

  /** Lines 14-21: the result shaped from the reply, each missing or empty
      name replaced by its placeholder and the number passed on unchanged. */
  function Shape(reply: CombinedLookup): (r: PhoneResult)
    ensures r.phoneNumber == reply.phoneNumber
    ensures r.carrier.name != "" && r.carrier.carrierType != "" && r.callerName != ""
    ensures reply.carrier.Some? && TruthyText(reply.carrier.value.name) ==> r.carrier.name == reply.carrier.value.name.value
    ensures !(reply.carrier.Some? && TruthyText(reply.carrier.value.name)) ==> r.carrier.name == Unknown
    ensures reply.carrier.Some? && TruthyText(reply.carrier.value.carrierType) ==> r.carrier.carrierType == reply.carrier.value.carrierType.value
    ensures !(reply.carrier.Some? && TruthyText(reply.carrier.value.carrierType)) ==> r.carrier.carrierType == Unknown
    ensures TruthyText(CallerNameText(reply.callerName)) ==> r.callerName == CallerNameText(reply.callerName).value
    ensures !TruthyText(CallerNameText(reply.callerName)) ==> r.callerName == NotAvailable
  {
    var carrierName := if reply.carrier.Some? then reply.carrier.value.name else None;
    var carrierType := if reply.carrier.Some? then reply.carrier.value.carrierType else None;
    PhoneResult(
      reply.phoneNumber,
      CarrierSummary(OrDefault(carrierName, Unknown), OrDefault(carrierType, Unknown)),
      OrDefault(CallerNameText(reply.callerName), NotAvailable))
  }

  /** The action. `newClient` says whether building a client from the
      credentials throws, and with what message; `fetch` is the combined
      lookup made with those credentials. A throw while building the client
      happens outside the `try` and escapes untouched; a failed lookup is
      replaced by the fixed error, whatever its cause. */
  function LookupPhone(apiKey: string, phoneNumber: string,
                       newClient: Credentials -> Option<string>,
                       fetch: (Credentials, string) -> Attempt<CombinedLookup>): (r: Attempt<PhoneResult>)
    ensures var c := ParseApiKey(apiKey);
      && (newClient(c).Some? ==> r == Threw(newClient(c).value))
      && (newClient(c).None? && fetch(c, phoneNumber).Threw? ==> r == Threw(LookupFailed))
      && (r.Done? <==> newClient(c).None? && fetch(c, phoneNumber).Done?)
      && (r.Done? ==> r.value == Shape(fetch(c, phoneNumber).value))
  {
    var credentials := ParseApiKey(apiKey);
    match newClient(credentials)
    case Some(message) => Threw(message)
    case None =>
      match fetch(credentials, phoneNumber)
      case Threw(_) => Threw(LookupFailed)
      case Done(reply) => Done(Shape(reply))
  }
}
