/**
 Whole sessions of the screen: after mounting, the camera decodes and the user presses the
 process button, in any order and any number of times. The lemmas here are the guarantees
 that hold over every such session, proved by induction on the sequence of events.
 */
module Traces {
  import opened Workflow

  /** One thing that happens to the screen after it has mounted. */
  datatype Event =
    | Decode(data: string)
    | ButtonPress(submit: SubmitOutcome, fetch: FetchOutcome)

  function Handle(s: State, e: Event): State {
    match e
    case Decode(data) => Read(s, data)
    case ButtonPress(submit, fetch) => Pressed(s, submit, fetch)
  }

  /** The state after the events, taken one at a time from the first. */
  function Run(s: State, events: seq<Event>): State
    decreases |events|
  {
    if events == [] then s else Run(Handle(s, events[0]), events[1..])
  }

  /** The number of button presses among the events. */
  function Presses(events: seq<Event>): nat {
    if events == [] then 0
    else (if events[0].ButtonPress? then 1 else 0) + Presses(events[1..])
  }

  /** Every handler ends with loading off, so between events the screen is never loading. */
  lemma {:induction false} RunStaysIdle(s: State, events: seq<Event>)
    requires !s.loading
    ensures !Run(s, events).loading
    decreases |events|
  {
    if events != [] {
      RunStaysIdle(Handle(s, events[0]), events[1..]);
    }
  }

  /**
   Alerts are never taken back, each press raises at most one, decodes raise none, and
   each one raised is one of the screen's three messages.
   */
  lemma {:induction false} RunAlerts(s: State, events: seq<Event>)
    ensures s.alerts <= Run(s, events).alerts
    ensures |Run(s, events).alerts| <= |s.alerts| + Presses(events)
    ensures forall i | |s.alerts| <= i < |Run(s, events).alerts| ::
      IsAlertMessage(Run(s, events).alerts[i])
    decreases |events|
  {
    if events != [] {
      var s' := Handle(s, events[0]);
      RunAlerts(s', events[1..]);
      var r := Run(s', events[1..]);
      assert Run(s, events) == r;
      forall i | |s.alerts| <= i < |r.alerts|
        ensures IsAlertMessage(r.alerts[i])
      {
        if i < |s'.alerts| {
          assert r.alerts[i] == s'.alerts[i];
        }
      }
    }
  }

  /** The scanner is reactivated at most once per press and never by a decode. */
  lemma {:induction false} RunReactivations(s: State, events: seq<Event>)
    ensures s.reactivations <= Run(s, events).reactivations <= s.reactivations + Presses(events)
    decreases |events|
  {
    if events != [] {
      RunReactivations(Handle(s, events[0]), events[1..]);
    }
  }

  /**
   No merge, ever: the list shown is either the list before the session (every fetch failed
   or none happened) or exactly the data that the reload answered after one press that found a
   pending link and whose POST was created.
   */
  lemma {:induction false} RunCodesAreFetched(s: State, events: seq<Event>)
    ensures var r := Run(s, events);
      || r.codes == s.codes
      || exists i | 0 <= i < |events| ::
           && Run(s, events[..i]).scannedLink != ""
           && events[i].ButtonPress? && events[i].submit == Status(Created)
           && events[i].fetch == Data(r.codes)
    decreases |events|
  {
    if events != [] {
      var s' := Handle(s, events[0]);
      var r := Run(s', events[1..]);
      assert Run(s, events) == r;
      assert events[..0] == [];
      RunCodesAreFetched(s', events[1..]);
      if r.codes == s'.codes {
        if s'.codes != s.codes {
          assert Run(s, events[..0]).scannedLink != ""
                 && events[0].ButtonPress? && events[0].submit == Status(Created)
                 && events[0].fetch == Data(r.codes);
        }
      } else {
        var j :| 0 <= j < |events[1..]|
                 && Run(s', events[1..][..j]).scannedLink != ""
                 && events[1..][j].ButtonPress?
                 && events[1..][j].submit == Status(Created) && events[1..][j].fetch == Data(r.codes);
        assert events[j + 1] == events[1..][j];
        assert events[..j + 1][1..] == events[1..][..j];
        assert Run(s, events[..j + 1]) == Run(s', events[1..][..j]);
      }
    }
  }

  /** Decodes alone only move the pending link: the last one wins and nothing else changes. */
  lemma {:induction false} DecodesOnlyMoveTheLink(s: State, events: seq<Event>)
    requires events != []
    requires forall i | 0 <= i < |events| :: events[i].Decode?
    ensures Run(s, events) == Read(s, events[|events| - 1].data)
    decreases |events|
  {
    if |events| > 1 {
      var rest := events[1..];
      assert forall i | 0 <= i < |rest| :: rest[i] == events[i + 1];
      DecodesOnlyMoveTheLink(Handle(s, events[0]), rest);
      assert rest[|rest| - 1] == events[|events| - 1];
      LastReadWins(s, events[0].data, events[|events| - 1].data);
    }
  }

  /** A whole session from mounting: never loading between events, and bounded effects. */
  lemma SessionFromMount(mount: FetchOutcome, events: seq<Event>)
    ensures !Run(Mount(mount), events).loading
    ensures Run(Mount(mount), events).reactivations <= Presses(events)
    ensures |Run(Mount(mount), events).alerts| <= 1 + Presses(events)
  {
    RunStaysIdle(Mount(mount), events);
    RunReactivations(Mount(mount), events);
    RunAlerts(Mount(mount), events);
  }

  /** Decode "https://example.com", press, the POST is created and the GET answers with that link. */
  lemma CreatedThenReloaded(s: State)
    ensures var r := Run(s, [Decode("https://example.com"),
                             ButtonPress(Status(201), Data(["https://example.com"]))]);
      && r.codes == ["https://example.com"]
      && r.scannedLink == ""
      && r.reactivations == s.reactivations + 1
      && r.alerts == s.alerts
  {
  }

  /**
   Decode "abc123", press, the server answers 500. The HTTP client throws on a status
   outside 2xx, so this is the `catch` path: one "failed to generate" alert, list unchanged,
   link cleared, scanner reactivated, and no reload.
   */
  lemma ServerErrorKeepsList(s: State, fetch: FetchOutcome)
    ensures var r := Run(s, [Decode("abc123"), ButtonPress(TransportError, fetch)]);
      && r.codes == s.codes
      && r.alerts == s.alerts + [GenerateFailed]
      && r.scannedLink == ""
      && r.reactivations == s.reactivations + 1
  {
    var events := [Decode("abc123"), ButtonPress(TransportError, fetch)];
    assert events[1..] == [ButtonPress(TransportError, fetch)];
    var decoded := Read(s, "abc123");
    assert Run(s, events) == Run(decoded, events[1..]);
    assert Run(decoded, events[1..]) == Run(Pressed(decoded, TransportError, fetch), []);
  }

  /** A 2xx answer other than 201 (here 200 OK) is the `else` branch: one "failed to send" alert, list unchanged. */
  lemma OkIsNotCreated(s: State, link: string, fetch: FetchOutcome)
    requires link != ""
    ensures var r := Pressed(Read(s, link), Status(200), fetch);
      && r.codes == s.codes
      && r.alerts == s.alerts + [SendFailed]
      && r.scannedLink == ""
      && r.reactivations == s.reactivations + 1
  {
  }

  /** A press with nothing decoded since mounting changes nothing. */
  lemma PressWithoutDecode(mount: FetchOutcome, submit: SubmitOutcome, fetch: FetchOutcome)
    ensures Run(Mount(mount), [ButtonPress(submit, fetch)]) == Mount(mount)
  {
  }

  /** Mounting against an empty list shows an empty list and no alert. */
  lemma MountOnEmptyList()
    ensures Mount(Data([])).codes == [] && Mount(Data([])).alerts == []
  {
  }
}
