/**
 The screen component itself: its three pieces of React state and the two things the
 screen does to the outside world (reactivating the scanner, raising an alert) as fields
 that its handlers update step by step.
 */
module App {
  import opened Workflow

  class Controller {
    var scannedLink: string
    var codes: seq<string>
    var loading: bool
    /** How many times `reactivate()` was called on the scanner. */
    var reactivateCount: nat
    /** The messages of the alerts raised, oldest first. */
    var alerts: seq<string>

    /** The component's state as a value of the workflow model. */
    function Snapshot(): State
      reads this
    {
      State(scannedLink, codes, loading, reactivateCount, alerts)
    }

    /** Mounting: the initial `useState` values, then the one load of the mount-time effect. */
    constructor (mount: FetchOutcome)
      ensures Snapshot() == Mount(mount)
      ensures scannedLink == "" && !loading && reactivateCount == 0
    {
      scannedLink := "";
      codes := [];
      loading := false;
      reactivateCount := 0;
      alerts := [];
      new;
      LoadGeneratedQRCodes(mount);
    }

    /** The scanner's read callback: the decoded data becomes the pending link. */
    method OnRead(data: string)
      modifies this
      ensures Snapshot() == Read(old(Snapshot()), data)
      ensures scannedLink == data
      ensures codes == old(codes) && loading == old(loading)
      ensures reactivateCount == old(reactivateCount) && alerts == old(alerts)
    {
      scannedLink := data;
    }

    method ShowErrorAlert(message: string)
      modifies this`alerts
      ensures alerts == old(alerts) + [message]
    {
      alerts := alerts + [message];
    }

    /**
     Processing the pending link with the POST's outcome. Returns whether the list reload
     was started; the reload's own outcome is applied by `LoadGeneratedQRCodes`.
     */
    method ProcessScannedLink(outcome: SubmitOutcome) returns (reload: bool)
      modifies this
      ensures Snapshot() == Submit(old(Snapshot()), outcome).state
      ensures reload == Submit(old(Snapshot()), outcome).reload
      ensures old(scannedLink) == "" ==> Snapshot() == old(Snapshot()) && !reload
      ensures old(scannedLink) != "" ==>
        scannedLink == "" && !loading && reactivateCount == old(reactivateCount) + 1
      ensures reload <==> old(scannedLink) != "" && outcome == Status(Created)
      ensures codes == old(codes)
    {
      reload := false;
      if scannedLink != "" {
        // try
        loading := true;
        match outcome {
          case Status(code) =>
            if code == Created {
              reload := true;
            } else {
              ShowErrorAlert(SendFailed);
            }
          // catch
          case TransportError =>
            ShowErrorAlert(GenerateFailed);
        }
        // finally
        loading := false;
        scannedLink := "";
        reactivateCount := reactivateCount + 1;
      }
    }

    /** Loading the registered codes with the GET's outcome. */
    method LoadGeneratedQRCodes(outcome: FetchOutcome)
      modifies this
      ensures Snapshot() == Load(old(Snapshot()), outcome)
      ensures codes == (if outcome.Data? then outcome.items else old(codes))
      ensures alerts == (if outcome.Data? then old(alerts) else old(alerts) + [LoadFailed])
      ensures !loading
      ensures scannedLink == old(scannedLink) && reactivateCount == old(reactivateCount)
    {
      // try
      loading := true;
      match outcome {
        case Data(items) =>
          codes := items;
        // catch
        case FetchError =>
          ShowErrorAlert(LoadFailed);
      }
      // finally
      loading := false;
    }

    /** The process button: the submit, followed by the reload it starts, if any. */
    method Press(submit: SubmitOutcome, fetch: FetchOutcome)
      modifies this
      ensures Snapshot() == Pressed(old(Snapshot()), submit, fetch)
    {
      var reload := ProcessScannedLink(submit);
      if reload {
        LoadGeneratedQRCodes(fetch);
      }
    }
  }
}
