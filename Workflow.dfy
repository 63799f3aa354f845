/**
 The scan / submit / reload workflow of the QR-code scanner screen, as a state machine
 over values. Every handler of the screen is one atomic step from a `State` to a `State`;
 the outcome of each network call is a parameter of the step that makes it.
 */
module Workflow {

  /** HTTP "201 Created" (section 15.3.2 of RFC 9110): the only status that counts as a successful submit. */
  const Created: int := 201

  /** The three notifications the screen can raise. */
  const SendFailed: string := "Failed to send data to server for QR code generation"
  const GenerateFailed: string := "Failed to generate QR code. Please try again later."
  const LoadFailed: string := "Failed to load generated QR codes. Please try again later."

  predicate IsAlertMessage(m: string) {
    m == SendFailed || m == GenerateFailed || m == LoadFailed
  }

  /**
   What the POST of a scanned link came back with: a response the HTTP client resolved with
   (its status), or an error it threw (no answer at all, or a status it rejects).
   */
  datatype SubmitOutcome = Status(code: int) | TransportError

  /** What the GET of the registered codes came back with: the response body, or a thrown error. */
  datatype FetchOutcome = Data(items: seq<string>) | FetchError

  /**
   The screen's state: the pending scanned link, the list of registered codes, the loading
   flag, how many times the scanner was told to reactivate, and the alerts shown so far.
   */
  datatype State = State(
    scannedLink: string,
    codes: seq<string>,
    loading: bool,
    reactivations: nat,
    alerts: seq<string>)

  /** The result of processing a scanned link: the new state and whether a reload of the list was started. */
  datatype Step = Step(state: State, reload: bool)

  /** The state before anything has happened: an empty link, an empty list, not loading. */
  function Initial(): (s: State)
    ensures s.scannedLink == "" && s.codes == [] && !s.loading
    ensures s.reactivations == 0 && s.alerts == []
  {
    State("", [], false, 0, [])
  }

  /** Raise one alert; nothing else changes. */
  function Alert(s: State, message: string): State {
    s.(alerts := s.alerts + [message])
  }

  /** The camera decoded `data`: it becomes the pending link, whatever was pending before. */
  function Read(s: State, data: string): (r: State)
    ensures r.scannedLink == data
    ensures r.codes == s.codes && r.loading == s.loading
    ensures r.reactivations == s.reactivations && r.alerts == s.alerts
  {
    s.(scannedLink := data)
  }

  /** The `try` block of a non-empty submit together with its `catch`. */
  function Attempt(s: State, outcome: SubmitOutcome): Step {
    match outcome
    case Status(code) =>
      if code == Created then Step(s, true) else Step(Alert(s, SendFailed), false)
    case TransportError =>
      Step(Alert(s, GenerateFailed), false)
  }

  /** The `finally` block of a non-empty submit. */
  function Cleanup(s: State): State {
    s.(loading := false, scannedLink := "", reactivations := s.reactivations + 1)
  }

  /**
   Processing the pending link. With no link nothing happens at all. Otherwise the link is
   posted; the step ends with the link cleared, loading off and exactly one more
   reactivation, whatever the outcome; a reload is started exactly on status 201; any other
   outcome raises exactly one alert; the list itself is never touched here.
   */
  function Submit(s: State, outcome: SubmitOutcome): (r: Step)
    ensures s.scannedLink == "" ==> r.state == s && !r.reload
    ensures s.scannedLink != "" ==>
      && r.state.scannedLink == ""
      && !r.state.loading
      && r.state.reactivations == s.reactivations + 1
    ensures r.state.codes == s.codes
    ensures r.reload <==> s.scannedLink != "" && outcome == Status(Created)
    ensures s.scannedLink != "" && outcome.Status? && outcome.code != Created ==>
      r.state.alerts == s.alerts + [SendFailed]
    ensures s.scannedLink != "" && outcome.TransportError? ==>
      r.state.alerts == s.alerts + [GenerateFailed]
    ensures s.scannedLink == "" || outcome == Status(Created) ==> r.state.alerts == s.alerts
  {
    if s.scannedLink == "" then
      Step(s, false)
    else
      var tried := Attempt(s.(loading := true), outcome);
      Step(Cleanup(tried.state), tried.reload)
  }

  /**
   Loading the registered codes. A response replaces the list wholesale by its data and
   raises nothing; an error keeps the old list and raises exactly one alert. Either way
   loading ends off, and the link and the reactivations are untouched.
   */
  function Load(s: State, outcome: FetchOutcome): (r: State)
    ensures r.codes == (if outcome.Data? then outcome.items else s.codes)
    ensures r.alerts == (if outcome.Data? then s.alerts else s.alerts + [LoadFailed])
    ensures !r.loading
    ensures r.scannedLink == s.scannedLink && r.reactivations == s.reactivations
  {
    var busy := s.(loading := true);
    var tried := match outcome
      case Data(items) => busy.(codes := items)
      case FetchError => Alert(busy, LoadFailed);
    tried.(loading := false)
  }

  /** The screen right after mounting: the initial state followed by one load. */
  function Mount(outcome: FetchOutcome): (r: State)
    ensures r.scannedLink == "" && !r.loading && r.reactivations == 0
    ensures r.codes == (if outcome.Data? then outcome.items else [])
    ensures r.alerts == (if outcome.Data? then [] else [LoadFailed])
  {
    Load(Initial(), outcome)
  }

  /**
   A press of the process button: the submit, and then, when it started a reload, the load
   with the fetch outcome. The list changes only when the submit was created and the fetch
   answered, and then it is exactly what the fetch answered. A press raises exactly the alert
   of the branch it took: none, "failed to load" after a created submit whose reload failed,
   "failed to send" on another status, "failed to generate" when the POST threw.
   */
  function Pressed(s: State, submit: SubmitOutcome, fetch: FetchOutcome): (r: State)
    ensures s.scannedLink == "" ==> r == s
    ensures s.scannedLink != "" ==>
      && r.scannedLink == ""
      && !r.loading
      && r.reactivations == s.reactivations + 1
    ensures r.codes == (if s.scannedLink != "" && submit == Status(Created) && fetch.Data?
                        then fetch.items else s.codes)
    ensures r.alerts == s.alerts +
      (if s.scannedLink == "" || (submit == Status(Created) && fetch.Data?) then []
       else if submit == Status(Created) then [LoadFailed]
       else if submit.Status? then [SendFailed]
       else [GenerateFailed])
    // The two clauses below follow from the one above; they are the form the session lemmas use.
    ensures s.alerts <= r.alerts && |r.alerts| <= |s.alerts| + 1
    ensures forall i | |s.alerts| <= i < |r.alerts| :: IsAlertMessage(r.alerts[i])
  {
    var st := Submit(s, submit);
    if st.reload then Load(st.state, fetch) else st.state
  }

  /** The last decoded link wins, and reading back the pending link changes nothing. */
  lemma LastReadWins(s: State, a: string, b: string)
    ensures Read(Read(s, a), b) == Read(s, b)
    ensures Read(s, s.scannedLink) == s
  {
  }

  /** Right after processing, the guard makes a second press a no-op: no second submit, no second reactivation. */
  lemma SecondPressIsNoOp(s: State, submit: SubmitOutcome, fetch: FetchOutcome,
                          submit': SubmitOutcome, fetch': FetchOutcome)
    ensures Submit(Pressed(s, submit, fetch), submit') == Step(Pressed(s, submit, fetch), false)
    ensures Pressed(Pressed(s, submit, fetch), submit', fetch') == Pressed(s, submit, fetch)
  {
  }

  /** A successful load keeps nothing of the old list: two states that differ only in their lists load to the same state. */
  lemma LoadReplacesWholesale(s: State, previous: seq<string>, items: seq<string>)
    ensures Load(s, Data(items)) == Load(s.(codes := previous), Data(items))
    ensures Load(s, Data(items)).codes == items
  {
  }
}
