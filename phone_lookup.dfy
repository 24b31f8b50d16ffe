/** The `PhoneLookup` form: the typed number, the displayed result, the
    loading flag and the `"phoneResults"` storage slot, changed by three
    events (mount, keystroke, submit); and the two display fallbacks.
    The phone-number library and the server are parameters. */
module PhoneLookup {
  import opened Js
  import opened LookupRoute
  import Provider
  import LookupAction

  /** What the phone-number library makes of a text: whether it is a valid
      number, its national form and its E.164 form. */
  datatype ParsedNumber = ParsedNumber(isValid: bool, national: string, e164: string)

  /** The phone-number library, for the default region US: the as-you-type
      formatter, and `parsePhoneNumber`, which may throw or give `undefined`. */
  datatype PhoneLib = PhoneLib(
    asYouType: string -> string,
    parse: string -> Attempt<Option<ParsedNumber>>)

  /** What `fetch("/api/lookup", …)` gives: a rejection, or a response with
      its `ok` flag and its body as JSON (`None`: the body is not JSON). */
  datatype ServerReply = NetworkError | Received(ok: bool, json: Option<LookupResult>)

  /** The notice the form shows when a submit ends. */
  datatype Toast = InvalidNumber | LookupSucceeded | FailedNotice

  /** The form's state; `cachedResults` is the storage slot. */
  datatype FormState = FormState(
    phoneNumber: string,
    phoneInfo: Option<LookupResult>,
    isLoading: bool,
    cachedResults: Option<LookupResult>)

  /** One submit: the new state, the `phoneNumber` of the request body when a
      request was sent, and the notice shown. */
  datatype SubmitStep = SubmitStep(state: FormState, sent: Option<string>, toast: Toast)

  /** The library accepted the text as a valid number. */
  predicate ValidParse(lib: PhoneLib, text: string)
  {
    var p := lib.parse(text);
    p.Done? && p.value.Some? && p.value.value.isValid
  }

  /** The state right after the component appears, with the slot as stored. */
  function Initial(stored: Option<LookupResult>): (s: FormState)
    ensures s.phoneNumber == "" && s.phoneInfo.None? && !s.isLoading && s.cachedResults == stored
  {
    FormState("", None, false, stored)
  }

  /** Lines 37-42: a stored result is shown; with an empty slot the display is
      left as it was. Nothing else changes. */
  function Mounted(s: FormState): (t: FormState)
    ensures t.phoneNumber == s.phoneNumber && t.isLoading == s.isLoading && t.cachedResults == s.cachedResults
    ensures s.cachedResults.Some? ==> t.phoneInfo == s.cachedResults
    ensures s.cachedResults.None? ==> t.phoneInfo == s.phoneInfo
  {
    if s.cachedResults.Some? then s.(phoneInfo := s.cachedResults) else s
  }

  /** Lines 44-47: the input shows the formatter's output for what was typed;
      nothing else changes. */
  function PhoneChanged(s: FormState, lib: PhoneLib, typed: string): (t: FormState)
    ensures t.phoneNumber == lib.asYouType(typed)
    ensures t.phoneInfo == s.phoneInfo && t.isLoading == s.isLoading && t.cachedResults == s.cachedResults
  {
    s.(phoneNumber := lib.asYouType(typed))
  }

  /** Lines 49-96: one submit, run to its end. */
  function Submitted(s: FormState, lib: PhoneLib, server: string -> ServerReply): (r: SubmitStep)
    // the `finally` clears the flag on every path
    ensures !r.state.isLoading
    // a request is sent exactly when the library accepts the number, and it
    // carries the E.164 form while the input shows the national form
    ensures r.sent.Some? <==> ValidParse(lib, s.phoneNumber)
    ensures r.sent.Some? ==>
      var p := lib.parse(s.phoneNumber).value.value;
      r.sent.value == p.e164 && r.state.phoneNumber == p.national
    ensures r.sent.None? ==> r.state == s.(isLoading := false) && r.toast != LookupSucceeded
    // display and slot change only together, only on success, to the reply
    ensures r.toast == LookupSucceeded <==>
      r.sent.Some? && server(r.sent.value).Received? && server(r.sent.value).ok && server(r.sent.value).json.Some?
    ensures r.toast == LookupSucceeded ==>
      r.state.phoneInfo == r.state.cachedResults == server(r.sent.value).json
    ensures r.toast != LookupSucceeded ==>
      r.state.phoneInfo == s.phoneInfo && r.state.cachedResults == s.cachedResults
    // an unparsable text goes to the catch, a parsed invalid one to the early return
    ensures r.toast == InvalidNumber <==> lib.parse(s.phoneNumber).Done? && !ValidParse(lib, s.phoneNumber)
  {
    var parsed := lib.parse(s.phoneNumber);
    if parsed.Threw? then SubmitStep(s.(isLoading := false), None, FailedNotice)
    else if !ValidParse(lib, s.phoneNumber) then SubmitStep(s.(isLoading := false), None, InvalidNumber)
    else
      var number := parsed.value.value;
      var sending := s.(phoneNumber := number.national, isLoading := true);
      var reply := server(number.e164);
      if reply.Received? && reply.ok && reply.json.Some? then
        SubmitStep(sending.(phoneInfo := reply.json, cachedResults := reply.json, isLoading := false), Some(number.e164), LookupSucceeded)
      else
        SubmitStep(sending.(isLoading := false), Some(number.e164), FailedNotice)
  }

  // ---------------------------------------------------------------------------
  // The form between events.
  // ---------------------------------------------------------------------------

  /** At rest, the form is not loading and shows exactly what the slot holds. */
  predicate Settled(s: FormState)
  {
    !s.isLoading && s.phoneInfo == s.cachedResults
  }

  /** An event after mount; a submit carries the server's answers. */
  datatype Event = Keystroke(typed: string) | Submit(server: string -> ServerReply)

  function Step(s: FormState, lib: PhoneLib, e: Event): FormState
  {
    match e
    case Keystroke(typed) => PhoneChanged(s, lib, typed)
    case Submit(server) => Submitted(s, lib, server).state
  }

  function Run(s: FormState, lib: PhoneLib, events: seq<Event>): FormState
    decreases |events|
  {
    if events == [] then s else Run(Step(s, lib, events[0]), lib, events[1..])
  }

  /** Mounting settles a freshly shown form, whatever the slot holds. */
  lemma MountSettles(stored: Option<LookupResult>)
    ensures Settled(Mounted(Initial(stored)))
  {
  }

  /** Every event keeps the form settled. */
  lemma StepKeepsSettled(s: FormState, lib: PhoneLib, e: Event)
    requires Settled(s)
    ensures Settled(Step(s, lib, e))
  {
  }

  /** After mount, however many keystrokes and submits follow, the form is
      never left loading and shows exactly the stored result. */
  lemma {:induction false} RunKeepsSettled(s: FormState, lib: PhoneLib, events: seq<Event>)
    requires Settled(s)
    ensures Settled(Run(s, lib, events))
    decreases |events|
  {
    if events != [] {
      StepKeepsSettled(s, lib, events[0]);
      RunKeepsSettled(Step(s, lib, events[0]), lib, events[1..]);
    }
  }

  /** The slot only ever holds a result the server sent on a successful
      submit, or what it held when the form appeared. */
  lemma {:induction false} SlotComesFromStorageOrServer(s: FormState, lib: PhoneLib, events: seq<Event>)
    ensures var t := Run(s, lib, events);
      t.cachedResults == s.cachedResults ||
      exists i, n :: 0 <= i < |events| && events[i].Submit? && events[i].server(n) == Received(true, t.cachedResults)
    decreases |events|
  {
    if events != [] {
      var s' := Step(s, lib, events[0]);
      SlotComesFromStorageOrServer(s', lib, events[1..]);
      var t := Run(s', lib, events[1..]);
      if t.cachedResults != s'.cachedResults {
        var i, n :| 0 <= i < |events[1..]| && events[1..][i].Submit? && events[1..][i].server(n) == Received(true, t.cachedResults);
        assert events[i + 1] == events[1..][i];
      } else if s'.cachedResults != s.cachedResults {
        var r := Submitted(s, lib, events[0].server);
        assert events[0].server(r.sent.value) == Received(true, t.cachedResults);
      }
    }
  }

  // ---------------------------------------------------------------------------
  // Display fallbacks.
  // ---------------------------------------------------------------------------

  const CallerNameFallback := "Not available"
  const CarrierFallback := "Unknown carrier (likely VoIP number)"

  /** Line 146: the caller name, or a placeholder when there is none. */
  function CallerNameLine(info: LookupResult): (line: string)
    ensures line != ""
    ensures TruthyText(info.callerName) ==> line == info.callerName.value
    ensures !TruthyText(info.callerName) ==> line == CallerNameFallback
  {
    OrDefault(info.callerName, CallerNameFallback)
  }

  /** Lines 151-153: "name (type)" only when both are known, otherwise one
      fixed placeholder; a carrier known by only one of them gets the
      placeholder too. */
  function CarrierLine(info: LookupResult): (line: string)
    ensures line != ""
    ensures TruthyText(info.carrier.name) && TruthyText(info.carrier.carrierType) ==>
      line == info.carrier.name.value + " (" + info.carrier.carrierType.value + ")"
    ensures !(TruthyText(info.carrier.name) && TruthyText(info.carrier.carrierType)) ==> line == CarrierFallback
  {
    if TruthyText(info.carrier.name) && TruthyText(info.carrier.carrierType) then
      info.carrier.name.value + " (" + info.carrier.carrierType.value + ")"
    else CarrierFallback
  }

  /** The route leaves an empty caller name null and the form shows the same
      placeholder the server action puts in its result: for one caller-name
      record both paths show the same text. */
  lemma CallerNameAgreesWithAction(caller: Provider.CallerLookup, carrier: Provider.Carrier,
                                   combined: Provider.CombinedLookup)
    requires combined.callerName == caller.callerName
    ensures CallerNameLine(Merge(caller, carrier)) == LookupAction.Shape(combined).callerName
  {
  }

  // ---------------------------------------------------------------------------
  // The component, with its state cells updated in place.
  // ---------------------------------------------------------------------------

  class PhoneLookupForm {
    var phoneNumber: string
    var phoneInfo: Option<LookupResult>
    var isLoading: bool
    /** The `"phoneResults"` slot of local storage. */
    var cachedResults: Option<LookupResult>

    function State(): FormState
      reads this
    {
      FormState(phoneNumber, phoneInfo, isLoading, cachedResults)
    }

    /** Lines 32-34: empty input, nothing shown, not loading; the slot holds
        what an earlier visit stored. */
    constructor (stored: Option<LookupResult>)
      ensures State() == Initial(stored)
    {
      phoneNumber := "";
      phoneInfo := None;
      isLoading := false;
      cachedResults := stored;
    }

    method Mount()
      modifies this
      ensures State() == Mounted(old(State()))
    {
      var stored := cachedResults;
      if stored.Some? {
        phoneInfo := stored;
      }
    }

    method HandlePhoneChange(lib: PhoneLib, typed: string)
      modifies this
      ensures State() == PhoneChanged(old(State()), lib, typed)
    {
      phoneNumber := lib.asYouType(typed);
    }

    /** The submit handler: the early return, the `catch` and the `finally`
        of the source are the three exits of the branch below. */
    method HandleSubmit(lib: PhoneLib, server: string -> ServerReply) returns (sent: Option<string>, toast: Toast)
      modifies this
      ensures SubmitStep(State(), sent, toast) == Submitted(old(State()), lib, server)
    {
      sent := None;
      var parsed := lib.parse(phoneNumber);
      if parsed.Threw? {
        toast := FailedNotice;
      } else if parsed.value.None? || !parsed.value.value.isValid {
        toast := InvalidNumber;
      } else {
        var number := parsed.value.value;
        phoneNumber := number.national;
        isLoading := true;
        sent := Some(number.e164);
        var reply := server(number.e164);
        if reply.Received? && reply.ok && reply.json.Some? {
          var result := reply.json;
          phoneInfo := result;
          cachedResults := result;
          toast := LookupSucceeded;
        } else {
          toast := FailedNotice;
        }
      }
      isLoading := false;
    }
  }
}
