/**
  The practice page: the state machine that moves between choosing a difficulty,
  answering exercises and the timed-session summary, with its two timers and the
  running statistics of a timed session.

  `PracticeState` is the page's state as one value and the functions below are its
  handlers as pure transitions; `PracticePage` is the component itself, a class whose
  fields are the state variables and whose methods update them step by step as the
  handlers do, each proved to perform the corresponding transition.
*/
module Practice {
  import opened Wrappers
  import opened Exercises
  import opened Timers
  import ExerciseCard

  /** `sessionStats`. */
  datatype Stats = Stats(total: nat, correct: nat)

  /** The component's state variables, with the value of each timer. */
  datatype PracticeState = PracticeState(
    difficulty: Option<Difficulty>,
    currentExercise: Option<Exercise>,
    selectedAnswer: Option<string>,
    isSubmitted: bool,
    loading: bool,
    showTimedModal: bool,
    isTimedSession: bool,
    sessionDuration: nat,
    sessionStats: Stats,
    showSummary: bool,
    exerciseTimer: TimerState,
    sessionTimer: TimerState)

  /** The state of a freshly mounted page. */
  const Initial: PracticeState := PracticeState(
    None, None, None, false, false, false, false, 0, Stats(0, 0), false,
    TimerState(0, false), TimerState(0, false))

  /**
    What every reachable state satisfies: no more correct answers than answers, the
    session timer never above the session length, and the exercise on screen well formed.
  */
  predicate Invariant(s: PracticeState)
  {
    && s.sessionStats.correct <= s.sessionStats.total
    && s.sessionTimer.time <= s.sessionDuration
    && (s.currentExercise.Some? ==> WellFormed(s.currentExercise.value))
  }

  lemma InitialSatisfiesInvariant()
    ensures Invariant(Initial)
  {
  }

  /** JavaScript truthiness of an optional string: present and not empty. */
  predicate Truthy(x: Option<string>)
  {
    x.Some? && x.value != ""
  }

  // ---------------------------------------------------------------------------
  // Screens
  // ---------------------------------------------------------------------------

  /** What the practice area shows below the header. */
  datatype Phase =
    | AwaitingExercise(loading: bool)   // the "generate exercise" button
    | Answering                          // exercise card with the submit button
    | Answered                           // exercise card with the next-exercise button

  /** The three screens of the page, each with what it displays. */
  datatype Screen =
    | SummaryScreen(total: nat, correct: nat, elapsed: int)
    | SelectingScreen(modalOpen: bool)
    | PracticeScreen(difficulty: Difficulty, phase: Phase, modalOpen: bool)

  /** The seconds a summary reports: `sessionDuration - sessionTimer.time`. */
  function Elapsed(s: PracticeState): (r: int)
    ensures Invariant(s) ==> 0 <= r <= s.sessionDuration
  {
    s.sessionDuration - s.sessionTimer.time
  }

  /** Which screen renders: the summary first, then difficulty selection, then practice. */
  function ScreenOf(s: PracticeState): (r: Screen)
    ensures r.SummaryScreen? <==> s.showSummary
    ensures r.SelectingScreen? <==> !s.showSummary && s.difficulty.None?
    ensures r.PracticeScreen? <==> !s.showSummary && s.difficulty.Some?
    ensures r.SummaryScreen? ==> r.total == s.sessionStats.total && r.correct == s.sessionStats.correct
    ensures r.PracticeScreen? ==> (r.phase.AwaitingExercise? <==> s.currentExercise.None?)
  {
    if s.showSummary then
      SummaryScreen(s.sessionStats.total, s.sessionStats.correct, Elapsed(s))
    else if s.difficulty.None? then
      SelectingScreen(s.showTimedModal)
    else
      PracticeScreen(
        s.difficulty.value,
        if s.currentExercise.None? then AwaitingExercise(s.loading)
        else if !s.isSubmitted then Answering
        else Answered,
        s.showTimedModal)
  }

  // ---------------------------------------------------------------------------
  // The session timer's colour
  // ---------------------------------------------------------------------------

  datatype TimerVariant = DefaultVariant | WarningVariant | DangerVariant
  {
    function Severity(): nat
    {
      match this
      case DefaultVariant => 0
      case WarningVariant => 1
      case DangerVariant => 2
    }
  }

  /**
    `getTimerVariant`: danger at no more than a tenth of the session left, warning at no
    more than a quarter. A zero-length session divides by zero (NaN or Infinity), which
    compares false, so it stays at the default.
  */
  function GetTimerVariant(isTimedSession: bool, time: nat, sessionDuration: nat): (v: TimerVariant)
    ensures !isTimedSession || sessionDuration == 0 ==> v == DefaultVariant
    ensures v == DangerVariant <==> isTimedSession && sessionDuration > 0 && 10 * time <= sessionDuration
    ensures v == WarningVariant <==>
      isTimedSession && sessionDuration > 0 && sessionDuration < 10 * time && 4 * time <= sessionDuration
  {
    if !isTimedSession then DefaultVariant
    else if sessionDuration == 0 then DefaultVariant
    else if 100 * time <= 10 * sessionDuration then DangerVariant
    else if 100 * time <= 25 * sessionDuration then WarningVariant
    else DefaultVariant
  }

  /** As the remaining time goes down, the timer's colour never becomes less severe. */
  lemma TimerVariantMonotone(isTimedSession: bool, t1: nat, t2: nat, sessionDuration: nat)
    requires t1 <= t2
    ensures GetTimerVariant(isTimedSession, t2, sessionDuration).Severity()
         <= GetTimerVariant(isTimedSession, t1, sessionDuration).Severity()
  {
  }

  // ---------------------------------------------------------------------------
  // Handlers as transitions
  // ---------------------------------------------------------------------------

  /** `prev.total + 1` and `prev.correct + (isCorrect ? 1 : 0)`. */
  function RecordAnswer(stats: Stats, isCorrect: bool): (r: Stats)
    ensures r.total == stats.total + 1
    ensures isCorrect ==> r.correct == stats.correct + 1
    ensures !isCorrect ==> r.correct == stats.correct
    ensures stats.correct <= stats.total ==> r.correct <= r.total
  {
    Stats(stats.total + 1, stats.correct + if isCorrect then 1 else 0)
  }

  /** The guard of `generateExercise`: a difficulty is chosen and the route has a subject. */
  predicate CanGenerate(s: PracticeState, subject: Option<string>)
  {
    s.difficulty.Some? && Truthy(subject)
  }

  /**
    `generateExercise`, its timeout body taken as one step, drawing the candidate at
    `pick` (any index can be drawn; `pick` is reduced modulo the number of candidates).
  */
  function Generate(s: PracticeState, bank: Bank, subject: Option<string>, pick: nat): (r: PracticeState)
    requires BankOk(bank)
    ensures !CanGenerate(s, subject) ==> r == s
    ensures CanGenerate(s, subject) ==>
      && r.currentExercise.Some?
      && r.currentExercise.value in Candidates(bank, subject.value, s.difficulty.value)
      && r.selectedAnswer.None? && !r.isSubmitted && !r.loading
      && r.exerciseTimer == TimerState(0, true)
      && r == s.(currentExercise := r.currentExercise, selectedAnswer := None, isSubmitted := false,
                 loading := false, exerciseTimer := TimerState(0, true))
  {
    if !CanGenerate(s, subject) then s
    else
      var candidates := Candidates(bank, subject.value, s.difficulty.value);
      CandidatesWellFormed(bank, subject.value, s.difficulty.value);
      s.(currentExercise := Some(candidates[pick % |candidates|]),
         selectedAnswer := None,
         isSubmitted := false,
         loading := false,
         exerciseTimer := TimerState(0, true))
  }

  /** Drawing at an index of the candidates puts that candidate on screen. */
  lemma GenerateDrawsAt(s: PracticeState, bank: Bank, subject: Option<string>, pick: nat)
    requires BankOk(bank) && CanGenerate(s, subject) && pick < |Candidates(bank, subject.value, s.difficulty.value)|
    ensures Generate(s, bank, subject, pick) ==
      s.(currentExercise := Some(Candidates(bank, subject.value, s.difficulty.value)[pick]), selectedAnswer := None,
         isSubmitted := false, loading := false, exerciseTimer := TimerState(0, true))
  {
    var candidates := Candidates(bank, subject.value, s.difficulty.value);
    assert pick % |candidates| == pick;
  }

  /** `handleStartTimedSession(duration)`. */
  function StartTimedSession(s: PracticeState, duration: nat): (r: PracticeState)
    ensures r.isTimedSession && r.sessionDuration == duration && r.sessionStats == Stats(0, 0)
    ensures r.difficulty == Some(Medium)
    ensures r.sessionTimer == TimerState(duration, true)
    ensures r == s.(sessionDuration := duration, isTimedSession := true, sessionStats := Stats(0, 0),
                    difficulty := Some(Medium), sessionTimer := TimerState(duration, true))
  {
    s.(sessionDuration := duration,
       isTimedSession := true,
       sessionStats := Stats(0, 0),
       difficulty := Some(Medium),
       sessionTimer := TimerState(duration, true))
  }

  /** The guard of `handleSubmit`: an answer is selected, an exercise is shown, a user is signed in. */
  predicate CanSubmit(s: PracticeState, hasUser: bool)
  {
    Truthy(s.selectedAnswer) && s.currentExercise.Some? && hasUser
  }

  /**
    `handleSubmit` up to the remote save: marks the round submitted, pauses the exercise
    timer and, in a timed session, records the answer. The second component is
    `isCorrect`, absent when the guard fails and nothing happens.
  */
  function Submit(s: PracticeState, hasUser: bool): (r: (PracticeState, Option<bool>))
    ensures !CanSubmit(s, hasUser) ==> r == (s, None)
    ensures CanSubmit(s, hasUser) ==>
      && r.1 == Some(s.selectedAnswer.value == s.currentExercise.value.correctAnswer)
      && r.0.isSubmitted
      && r.0.exerciseTimer == TimerState(s.exerciseTimer.time, false)
      && r.0.sessionStats == (if s.isTimedSession then RecordAnswer(s.sessionStats, r.1.value) else s.sessionStats)
      && r.0 == s.(isSubmitted := true, exerciseTimer := r.0.exerciseTimer, sessionStats := r.0.sessionStats)
  {
    if !CanSubmit(s, hasUser) then (s, None)
    else
      var isCorrect := s.selectedAnswer.value == s.currentExercise.value.correctAnswer;
      var stats := if s.isTimedSession then RecordAnswer(s.sessionStats, isCorrect) else s.sessionStats;
      (s.(isSubmitted := true, exerciseTimer := s.exerciseTimer.(isRunning := false), sessionStats := stats),
       Some(isCorrect))
  }

  /** `onTimeUp` of the session timer: show the summary and pause the exercise timer. */
  function TimeUp(s: PracticeState): (r: PracticeState)
    ensures r.showSummary && !r.exerciseTimer.isRunning
    ensures r.sessionStats == s.sessionStats
    ensures r == s.(showSummary := true, exerciseTimer := TimerState(s.exerciseTimer.time, false))
  {
    s.(showSummary := true, exerciseTimer := s.exerciseTimer.(isRunning := false))
  }

  /** `handleContinueFromSummary`. */
  function ContinueFromSummary(s: PracticeState): (r: PracticeState)
    ensures !r.showSummary && !r.isTimedSession && r.difficulty.None? && r.currentExercise.None?
    ensures r == s.(showSummary := false, isTimedSession := false, difficulty := None, currentExercise := None)
  {
    s.(showSummary := false, isTimedSession := false, difficulty := None, currentExercise := None)
  }

  /** `handleNewSession`: as continuing, and the duration dialog opens. */
  function NewSession(s: PracticeState): (r: PracticeState)
    ensures !r.showSummary && !r.isTimedSession && r.difficulty.None? && r.currentExercise.None?
    ensures r.showTimedModal
    ensures r == ContinueFromSummary(s).(showTimedModal := true)
  {
    s.(showSummary := false, isTimedSession := false, difficulty := None, currentExercise := None,
       showTimedModal := true)
  }

  /** The change-difficulty button: back to selection, pausing the session timer only. */
  function ChangeDifficulty(s: PracticeState): (r: PracticeState)
    ensures r.difficulty.None? && r.currentExercise.None? && !r.isTimedSession
    ensures r.sessionTimer == TimerState(s.sessionTimer.time, false)
    ensures r.exerciseTimer == s.exerciseTimer
    ensures r == s.(difficulty := None, currentExercise := None, isTimedSession := false,
                    sessionTimer := TimerState(s.sessionTimer.time, false))
  {
    s.(difficulty := None, currentExercise := None, isTimedSession := false,
       sessionTimer := s.sessionTimer.(isRunning := false))
  }

  /** A click on an option of the card: passed to `setSelectedAnswer` only before submission. */
  function ClickOption(s: PracticeState, option: string): (r: PracticeState)
    ensures s.isSubmitted ==> r == s
    ensures !s.isSubmitted ==> r == s.(selectedAnswer := Some(option))
  {
    match ExerciseCard.OnOptionClick(option, s.isSubmitted)
    case Some(answer) => s.(selectedAnswer := Some(answer))
    case None => s
  }

  /** The pause/resume control of the exercise timer. */
  function ToggleExerciseTimer(s: PracticeState): (r: PracticeState)
    ensures r.exerciseTimer == TimerState(s.exerciseTimer.time, !s.exerciseTimer.isRunning)
    ensures r == s.(exerciseTimer := TimerState(s.exerciseTimer.time, !s.exerciseTimer.isRunning))
  {
    s.(exerciseTimer := s.exerciseTimer.(isRunning := !s.exerciseTimer.isRunning))
  }

  /** One interval of the exercise timer. */
  function ExerciseTick(s: PracticeState): (r: PracticeState)
    ensures !s.exerciseTimer.isRunning ==> r == s
    ensures s.exerciseTimer.isRunning ==> r == s.(exerciseTimer := TimerState(s.exerciseTimer.time + 1, true))
  {
    s.(exerciseTimer := TickState(s.exerciseTimer, CountUp).0)
  }

  /** One interval of the session timer, running `onTimeUp` when it reports time-up. */
  function SessionTick(s: PracticeState): (r: PracticeState)
    ensures r.sessionStats == s.sessionStats
    ensures r.sessionTimer.time <= s.sessionTimer.time
    ensures var (timer, timeUp) := TickState(s.sessionTimer, CountDown);
      && (timeUp ==> r == TimeUp(s.(sessionTimer := timer)) && r.showSummary && !r.exerciseTimer.isRunning)
      && (!timeUp ==> r == s.(sessionTimer := timer))
  {
    var (timer, timeUp) := TickState(s.sessionTimer, CountDown);
    var s1 := s.(sessionTimer := timer);
    if timeUp then TimeUp(s1) else s1
  }

  // ---------------------------------------------------------------------------
  // Runs of events
  // ---------------------------------------------------------------------------

  /** Everything that can happen to the page. */
  datatype Event =
    | SelectDifficulty(d: Difficulty)       // `onSelectDifficulty`
    | OpenTimedModal                         // `onOpenTimedSession`
    | CloseTimedModal                        // the dialog's `onClose`
    | StartSession(duration: nat)            // the dialog's `onStart`
    | GenerateExercise(pick: nat)            // generate / next-exercise button
    | SelectAnswer(option: string)           // click on an option
    | SubmitAnswer                           // submit button
    | ToggleTimer                            // exercise timer control
    | LeaveToSelection                       // change-difficulty button
    | Continue                               // summary: continue
    | StartNewSession                        // summary: new session
    | ExerciseTimerTick
    | SessionTimerTick

  function Step(s: PracticeState, e: Event, bank: Bank, subject: Option<string>, hasUser: bool): PracticeState
    requires BankOk(bank)
  {
    match e
    case SelectDifficulty(d) => s.(difficulty := Some(d))
    case OpenTimedModal => s.(showTimedModal := true)
    case CloseTimedModal => s.(showTimedModal := false)
    case StartSession(duration) => StartTimedSession(s, duration)
    case GenerateExercise(pick) => Generate(s, bank, subject, pick)
    case SelectAnswer(option) => ClickOption(s, option)
    case SubmitAnswer => Submit(s, hasUser).0
    case ToggleTimer => ToggleExerciseTimer(s)
    case LeaveToSelection => ChangeDifficulty(s)
    case Continue => ContinueFromSummary(s)
    case StartNewSession => NewSession(s)
    case ExerciseTimerTick => ExerciseTick(s)
    case SessionTimerTick => SessionTick(s)
  }

  function Run(s: PracticeState, events: seq<Event>, bank: Bank, subject: Option<string>, hasUser: bool): PracticeState
    requires BankOk(bank)
    decreases |events|
  {
    if events == [] then s else Run(Step(s, events[0], bank, subject, hasUser), events[1..], bank, subject, hasUser)
  }

  /** Every handler keeps the invariant, in particular `correct <= total`. */
  lemma StepPreservesInvariant(s: PracticeState, e: Event, bank: Bank, subject: Option<string>, hasUser: bool)
    requires BankOk(bank) && Invariant(s)
    ensures Invariant(Step(s, e, bank, subject, hasUser))
  {
    match e
    case GenerateExercise(pick) =>
      if CanGenerate(s, subject) {
        CandidatesWellFormed(bank, subject.value, s.difficulty.value);
      }
    case _ =>
  }

  /** From the initial page, whatever happens, the invariant holds. */
  lemma {:induction false} RunPreservesInvariant(s: PracticeState, events: seq<Event>, bank: Bank, subject: Option<string>, hasUser: bool)
    requires BankOk(bank) && Invariant(s)
    ensures Invariant(Run(s, events, bank, subject, hasUser))
    decreases |events|
  {
    if events != [] {
      StepPreservesInvariant(s, events[0], bank, subject, hasUser);
      RunPreservesInvariant(Step(s, events[0], bank, subject, hasUser), events[1..], bank, subject, hasUser);
    }
  }

  /** In every reachable state the summary's elapsed time lies between 0 and the session length. */
  lemma ReachableElapsedInRange(events: seq<Event>, bank: Bank, subject: Option<string>, hasUser: bool)
    requires BankOk(bank)
    ensures var s := Run(Initial, events, bank, subject, hasUser);
      0 <= Elapsed(s) <= s.sessionDuration
  {
    RunPreservesInvariant(Initial, events, bank, subject, hasUser);
  }

  /** A submission outside a timed session leaves the session statistics alone. */
  lemma UntimedSubmitKeepsStats(s: PracticeState, hasUser: bool)
    requires !s.isTimedSession
    ensures Submit(s, hasUser).0.sessionStats == s.sessionStats
  {
  }

  /** Time-up moves to the summary whatever the screen was, with the statistics as they were. */
  lemma TimeUpShowsSummary(s: PracticeState)
    ensures ScreenOf(TimeUp(s)) == SummaryScreen(s.sessionStats.total, s.sessionStats.correct, Elapsed(s))
  {
  }

  /** Leaving the summary, either way, lands on difficulty selection; only a new session opens the dialog. */
  lemma LeavingSummaryScreens(s: PracticeState)
    ensures ScreenOf(ContinueFromSummary(s)) == SelectingScreen(s.showTimedModal)
    ensures ScreenOf(NewSession(s)) == SelectingScreen(true)
  {
  }

  /** Starting a timed session from a screen other than the summary enters practice at medium, full time left. */
  lemma StartSessionEntersPractice(s: PracticeState, duration: nat)
    requires !s.showSummary
    ensures ScreenOf(StartTimedSession(s, duration)).PracticeScreen?
    ensures ScreenOf(StartTimedSession(s, duration)).difficulty == Medium
    ensures var r := StartTimedSession(s, duration);
      GetTimerVariant(r.isTimedSession, r.sessionTimer.time, r.sessionDuration) == DefaultVariant
  {
  }

  /** `n` intervals of the session timer in a row. */
  function SessionTicks(n: nat): (r: seq<Event>)
    ensures |r| == n && forall i :: 0 <= i < n ==> r[i] == SessionTimerTick
  {
    if n == 0 then [] else [SessionTimerTick] + SessionTicks(n - 1)
  }

  /**
    A session timer running with `n > 0` seconds left shows the summary after exactly `n`
    intervals, stopped at 0, with the exercise timer paused and the statistics as they were.
  */
  lemma {:induction false} SessionRunsOut(s: PracticeState, n: nat, bank: Bank, subject: Option<string>, hasUser: bool)
    requires BankOk(bank) && n > 0 && s.sessionTimer == TimerState(n, true)
    ensures var r := Run(s, SessionTicks(n), bank, subject, hasUser);
      && r.showSummary
      && r.sessionTimer == TimerState(0, false)
      && !r.exerciseTimer.isRunning
      && r.sessionStats == s.sessionStats
    decreases n
  {
    var events := SessionTicks(n);
    var s1 := SessionTick(s);
    assert Step(s, events[0], bank, subject, hasUser) == s1;
    assert Run(s, events, bank, subject, hasUser) == Run(s1, events[1..], bank, subject, hasUser);
    assert events[1..] == SessionTicks(n - 1);
    if n > 1 {
      assert s1 == s.(sessionTimer := TimerState(n - 1, true));
      SessionRunsOut(s1, n - 1, bank, subject, hasUser);
    } else {
      assert s1 == TimeUp(s.(sessionTimer := TimerState(0, false)));
    }
  }

  // ---------------------------------------------------------------------------
  // The component
  // ---------------------------------------------------------------------------

  /**
    The `Practice` component: its state variables as fields, the route's subject and the
    signed-in user as constants, and the two timer objects.
  */
  class PracticePage {
    const bank: Bank
    const subject: Option<string>
    const hasUser: bool
    var difficulty: Option<Difficulty>
    var currentExercise: Option<Exercise>
    var selectedAnswer: Option<string>
    var isSubmitted: bool
    var loading: bool
    var showTimedModal: bool
    var isTimedSession: bool
    var sessionDuration: nat
    var sessionStats: Stats
    var showSummary: bool
    const exerciseTimer: Timer
    const sessionTimer: Timer

    /** The page's state as one value. */
    function State(): PracticeState
      reads this, exerciseTimer, sessionTimer
    {
      PracticeState(difficulty, currentExercise, selectedAnswer, isSubmitted, loading, showTimedModal,
                    isTimedSession, sessionDuration, sessionStats, showSummary,
                    exerciseTimer.Value(), sessionTimer.Value())
    }

    ghost predicate Valid()
      reads this, exerciseTimer, sessionTimer
    {
      && BankOk(bank)
      && exerciseTimer != sessionTimer
      && exerciseTimer.direction == CountUp
      && sessionTimer.direction == CountDown
      && Invariant(State())
    }

    constructor (subject: Option<string>, hasUser: bool)
      ensures Valid() && fresh(exerciseTimer) && fresh(sessionTimer)
      ensures bank == SampleExercises && this.subject == subject && this.hasUser == hasUser
      ensures State() == Initial
    {
      bank := SampleExercises;
      SampleBankOk();
      this.subject := subject;
      this.hasUser := hasUser;
      difficulty := None;
      currentExercise := None;
      selectedAnswer := None;
      isSubmitted := false;
      loading := false;
      showTimedModal := false;
      isTimedSession := false;
      sessionDuration := 0;
      sessionStats := Stats(0, 0);
      showSummary := false;
      exerciseTimer := new Timer(0, CountUp);
      sessionTimer := new Timer(0, CountDown);
    }

    /** `onSelectDifficulty`. */
    method SelectDifficulty(d: Difficulty)
      requires Valid()
      modifies this
      ensures Valid() && State() == Step(old(State()), Event.SelectDifficulty(d), bank, subject, hasUser)
    {
      difficulty := Some(d);
    }

    /** `onOpenTimedSession`. */
    method OpenTimedModal()
      requires Valid()
      modifies this
      ensures Valid() && State() == Step(old(State()), Event.OpenTimedModal, bank, subject, hasUser)
    {
      showTimedModal := true;
    }

    /** The dialog's `onClose`. */
    method CloseTimedModal()
      requires Valid()
      modifies this
      ensures Valid() && State() == Step(old(State()), Event.CloseTimedModal, bank, subject, hasUser)
    {
      showTimedModal := false;
    }

    /** `generateExercise`; the random draw is any index of the candidates. */
    method GenerateExercise()
      requires Valid()
      modifies this, exerciseTimer
      ensures Valid()
      ensures exists pick: nat :: State() == Generate(old(State()), bank, subject, pick)
    {
      ghost var before := State();
      if difficulty.None? || !Truthy(subject) {
        assert State() == Generate(before, bank, subject, 0);
        return;
      }
      loading := true;
      var candidates := Candidates(bank, subject.value, difficulty.value);
      CandidatesWellFormed(bank, subject.value, difficulty.value);
      var pick: nat :| pick < |candidates|;
      currentExercise := Some(candidates[pick]);
      selectedAnswer := None;
      isSubmitted := false;
      loading := false;
      exerciseTimer.Reset(0);
      exerciseTimer.Start();
      GenerateDrawsAt(before, bank, subject, pick);
      assert State() == before.(currentExercise := Some(candidates[pick]), selectedAnswer := None,
        isSubmitted := false, loading := false, exerciseTimer := TimerState(0, true));
    }

    /** `handleStartTimedSession(duration)`. */
    method HandleStartTimedSession(duration: nat)
      requires Valid()
      modifies this, sessionTimer
      ensures Valid() && State() == StartTimedSession(old(State()), duration)
    {
      sessionDuration := duration;
      isTimedSession := true;
      sessionStats := Stats(0, 0);
      difficulty := Some(Medium);
      sessionTimer.Reset(duration);
      sessionTimer.Start();
    }

    /** `handleSubmit`, without the remote save and the notification; returns `isCorrect` when it acts. */
    method HandleSubmit() returns (isCorrect: Option<bool>)
      requires Valid()
      modifies this, exerciseTimer
      ensures Valid() && (State(), isCorrect) == Submit(old(State()), hasUser)
    {
      if !Truthy(selectedAnswer) || currentExercise.None? || !hasUser {
        return None;
      }
      isSubmitted := true;
      exerciseTimer.Pause();
      var correct := selectedAnswer.value == currentExercise.value.correctAnswer;
      if isTimedSession {
        sessionStats := RecordAnswer(sessionStats, correct);
      }
      isCorrect := Some(correct);
    }

    /** The session timer's `onTimeUp`. */
    method OnTimeUp()
      requires Valid()
      modifies this, exerciseTimer
      ensures Valid() && State() == TimeUp(old(State()))
    {
      showSummary := true;
      exerciseTimer.Pause();
    }

    /** `handleContinueFromSummary`. */
    method HandleContinueFromSummary()
      requires Valid()
      modifies this
      ensures Valid() && State() == ContinueFromSummary(old(State()))
    {
      showSummary := false;
      isTimedSession := false;
      difficulty := None;
      currentExercise := None;
    }

    /** `handleNewSession`. */
    method HandleNewSession()
      requires Valid()
      modifies this
      ensures Valid() && State() == NewSession(old(State()))
    {
      showSummary := false;
      isTimedSession := false;
      difficulty := None;
      currentExercise := None;
      showTimedModal := true;
    }

    /** The change-difficulty button. */
    method ChangeDifficultyClick()
      requires Valid()
      modifies this, sessionTimer
      ensures Valid() && State() == ChangeDifficulty(old(State()))
    {
      difficulty := None;
      currentExercise := None;
      isTimedSession := false;
      sessionTimer.Pause();
    }

    /** The card's `onSelectAnswer`, reached only through its submitted gate. */
    method SelectAnswer(option: string)
      requires Valid()
      modifies this
      ensures Valid() && State() == ClickOption(old(State()), option)
    {
      var answer := ExerciseCard.OnOptionClick(option, isSubmitted);
      if answer.Some? {
        selectedAnswer := answer;
      }
    }

    /** The exercise timer's `onToggle`. */
    method OnToggleExerciseTimer()
      requires Valid()
      modifies exerciseTimer
      ensures Valid() && State() == ToggleExerciseTimer(old(State()))
    {
      if exerciseTimer.isRunning {
        exerciseTimer.Pause();
      } else {
        exerciseTimer.Start();
      }
    }

    /** One interval of the exercise timer. */
    method ExerciseTimerTick()
      requires Valid()
      modifies exerciseTimer
      ensures Valid() && State() == ExerciseTick(old(State()))
    {
      var _ := exerciseTimer.Tick();
    }

    /** One interval of the session timer, with its time-up event. */
    method SessionTimerTick()
      requires Valid()
      modifies this, exerciseTimer, sessionTimer
      ensures Valid() && State() == SessionTick(old(State()))
    {
      var timeUp := sessionTimer.Tick();
      if timeUp {
        OnTimeUp();
      }
    }
  }
}
