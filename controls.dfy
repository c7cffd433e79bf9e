/**
 * The recording controls panel: which buttons are rendered for each store
 * status.  It holds no state; the status alone decides.
 */
module Controls {
  import opened Optional
  import opened Recording

  /** The capture controller operations a button can invoke. */
  datatype Action = Start | Pause | Resume | Stop

  /** A rendered button: its caption, what clicking it does, and whether it is disabled. */
  datatype Button = Button(caption: string, action: Option<Action>, disabled: bool)

  const StartButton: Button := Button("Start Recording", Some(Start), false)
  const PauseButton: Button := Button("Pause", Some(Pause), false)
  const ResumeButton: Button := Button("Resume", Some(Resume), false)
  const StopButton: Button := Button("Stop", Some(Stop), false)
  const ProcessingButton: Button := Button("Processing...", None, true)

  /** The button groups rendered for `status`, in page order; each group is guarded by one status flag. */
  function Buttons(status: Status): seq<Button> {
    var isIdle := status == Idle;
    var isRecording := status == Recording;
    var isPaused := status == Paused;
    var isProcessing := status == Processing;
    (if isIdle then [StartButton] else [])
    + (if isRecording then [PauseButton, StopButton] else [])
    + (if isPaused then [ResumeButton, StopButton] else [])
    + (if isProcessing then [ProcessingButton] else [])
  }

  /** The actions a user can trigger: those of the enabled buttons. */
  function Offered(status: Status): set<Action> {
    set b | b in Buttons(status) && !b.disabled && b.action.Some? :: b.action.value
  }

  /** The recording lifecycle's transitions: where each action leads from each status, if anywhere. */
  function Transition(status: Status, a: Action): Option<Status> {
    match (status, a)
    case (Idle, Start) => Some(Recording)
    case (Recording, Pause) => Some(Paused)
    case (Paused, Resume) => Some(Recording)
    case (Recording, Stop) => Some(Processing)
    case (Paused, Stop) => Some(Processing)
    case _ => None
  }

  /** Exactly the buttons of each status. */
  lemma ButtonsByStatus()
    ensures Buttons(Idle) == [StartButton]
    ensures Buttons(Recording) == [PauseButton, StopButton]
    ensures Buttons(Paused) == [ResumeButton, StopButton]
    ensures Buttons(Processing) == [ProcessingButton]
    ensures Buttons(Completed) == []
  {
  }

  /** The panel offers an action exactly when the lifecycle has a transition for it from the current status. */
  lemma OfferedMatchesTransitions(status: Status, a: Action)
    ensures a in Offered(status) <==> Transition(status, a).Some?
  {
    var bs := Buttons(status);
    if Transition(status, a).Some? {
      var b :| b in bs && b.action == Some(a) && !b.disabled by {
        match status {
          case Idle => assert StartButton in bs;
          case Recording =>
            assert PauseButton in bs && StopButton in bs;
          case Paused =>
            assert ResumeButton in bs && StopButton in bs;
        }
      }
      assert a in Offered(status);
    } else {
      assert forall b :: b in bs ==> b.disabled || b.action != Some(a);
    }
  }

  /** In processing the only thing shown is the disabled indicator: no action is offered; completed shows nothing. */
  lemma ProcessingOffersNothing()
    ensures Offered(Processing) == {} && Offered(Completed) == {}
  {
    assert Buttons(Processing) == [ProcessingButton];
    assert Buttons(Completed) == [];
  }
}
