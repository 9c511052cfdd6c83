/**
  The timed-session dialog: a fixed menu of durations, one pending choice, and the
  callbacks it issues to the page (`onStart` with the chosen duration, `onClose`).
*/
module TimedSessionModal {
  import opened Wrappers

  /** One entry of `sessionOptions`; the duration is in seconds. */
  datatype SessionOption = SessionOption(duration: nat, title: string, description: string)

  /** `sessionOptions`. */
  const SessionOptions: seq<SessionOption> := [
    SessionOption(5 * 60, "5 min", "Aquecimento rápido"),
    SessionOption(10 * 60, "10 min", "Sessão curta"),
    SessionOption(15 * 60, "15 min", "Prática focada"),
    SessionOption(30 * 60, "30 min", "Sessão completa")
  ]

  /** The menu offers 5, 10, 15 and 30 minutes, all positive and no two alike. */
  lemma MenuDurations()
    ensures |SessionOptions| == 4
    ensures forall i :: 0 <= i < |SessionOptions| ==> SessionOptions[i].duration in {300, 600, 900, 1800}
    ensures forall i :: 0 <= i < |SessionOptions| ==> SessionOptions[i].duration > 0
    ensures forall i, j :: 0 <= i < j < |SessionOptions| ==> SessionOptions[i].duration != SessionOptions[j].duration
  {
  }

  /** A callback the dialog issues to its parent. */
  datatype ModalEvent = OnStart(duration: nat) | OnClose

  /** The dialog's local state: `selectedDuration`, `null` until an option is clicked. */
  class DurationPicker {
    var selectedDuration: Option<nat>

    constructor ()
      ensures selectedDuration == None
    {
      selectedDuration := None;
    }

    /** JavaScript truthiness of `selectedDuration`: set and not zero. */
    predicate HasChoice()
      reads this
    {
      selectedDuration.Some? && selectedDuration.value != 0
    }

    /** Clicking the option at `index` makes its duration the pending choice, replacing any earlier one. */
    method SelectOption(index: nat)
      requires index < |SessionOptions|
      modifies this
      ensures selectedDuration == Some(SessionOptions[index].duration)
      ensures HasChoice()
    {
      selectedDuration := Some(SessionOptions[index].duration);
    }

    /** An option is highlighted exactly when it is the pending choice. */
    function IsHighlighted(index: nat): (r: bool)
      requires index < |SessionOptions|
      reads this
      ensures r <==> selectedDuration == Some(SessionOptions[index].duration)
    {
      selectedDuration == Some(SessionOptions[index].duration)
    }

    /** The Start button is disabled exactly when there is no choice. */
    function StartDisabled(): (r: bool)
      reads this
      ensures r <==> selectedDuration.None? || selectedDuration.value == 0
    {
      !HasChoice()
    }

    /**
      `handleStart`: with a choice, `onStart(selectedDuration)` once and then `onClose`;
      without one, nothing. The pending choice is kept either way.
    */
    method HandleStart() returns (events: seq<ModalEvent>)
      ensures HasChoice() ==> events == [OnStart(selectedDuration.value), OnClose]
      ensures !HasChoice() ==> events == []
      ensures |set i | 0 <= i < |events| && events[i].OnStart?| <= 1
    {
      if HasChoice() {
        events := [OnStart(selectedDuration.value)];
        events := events + [OnClose];
        assert (set i | 0 <= i < |events| && events[i].OnStart?) == {0};
      } else {
        events := [];
      }
    }

    /** The Cancel button and the X button: `onClose` only; the pending choice is kept. */
    method Close() returns (events: seq<ModalEvent>)
      ensures events == [OnClose]
    {
      events := [OnClose];
    }

    /**
      A click that reaches the dimmed backdrop closes the dialog; a click inside the panel is
      stopped there and issues nothing.
    */
    method BackdropClick(insidePanel: bool) returns (events: seq<ModalEvent>)
      ensures insidePanel ==> events == []
      ensures !insidePanel ==> events == [OnClose]
      ensures forall i :: 0 <= i < |events| ==> !events[i].OnStart?
    {
      if insidePanel {
        events := [];
      } else {
        events := Close();
      }
    }
  }
}
