# MathExercise practice core, modelled in Dafny

MathExercise is a React app for practising mathematics. A student picks a subject and a
difficulty. The app then shows multiple-choice exercises from a built-in bank, one at a time. The
student selects an option and submits it. The card then marks the correct option and the wrong
selection and reveals the explanation.

A timed session fixes the difficulty at medium and runs a count-down of 5, 10, 15 or 30 minutes.
It counts answers and correct answers. When the time is up it shows a summary with the
accuracy, the elapsed time and a grade. A progress page aggregates the student's answer history
into four figures:
- a day streak;
- a last-fourteen-days series;
- a per-subject breakdown;
- an overall success rate.

This project models that core:

- `exercises.dfy`: the exercise bank and its fallback exercise. It proves that every exercise
  has four distinct options, one of which is the correct answer. The lookup works on any bank
  of that shape. The page holds its bank as a constant initialised to the built-in table, and
  its proofs need only that the bank is well formed.
- `timers.dfy`: the count-up exercise timer and the count-down session timer as a `Timer`
  class, with one tick of their interval as a pure function.
- `practice.dfy`: the practice page.
  - `PracticeState` holds the page's state as one value, and every handler is a pure
    transition on it.
  - `Step`/`Run` drive those transitions from a sequence of events.
  - `PracticePage` is the component as a class. Its fields are the state variables. Each of its
    methods is proved to perform its transition. The screen it renders is
    `ScreenOf(State())`.
- `exercise_card.dfy`: how the card classifies and labels each option, the check and cross
  icons, the explanation, and the click gate.
- `timed_session_modal.dfy`: the duration dialog. A `DurationPicker` class holds the pending
  choice; the dialog issues `onStart`/`onClose` callbacks.
- `session_summary.dfy`: the summary's accuracy, its `m:ss` time display and its grade.
- `progress.dfy`:
  - the streak, as a loop method proved against a recursive specification;
  - the per-subject breakdown, as a loop that fills a map, proved against counting functions;
  - the fourteen-day series and the overall rate.
- `percent.dfy`: `Math.round(a / b * 100)` in exact arithmetic. It is shared by the summary and
  the progress page.

JavaScript semantics that matter to the results are modelled explicitly:
- Truthiness: `!selectedAnswer` also rejects the empty string, and `|| 'algebra'` also replaces
  an empty subject.
- Rounding half up: `(200a + b) div 2b`.
- Division by a zero session length gives NaN or Infinity, and every comparison with it fails.
- `letters[index]` past the fourth option is `undefined`.
- `Object.entries` lists string keys in insertion order.

Where the code and its design description differ, the model follows the code:
- The change-difficulty button pauses the session timer only. The exercise timer keeps
  running.
- The duration dialog keeps its pending choice after it closes.
- `handleSubmit` has no guard against a second submission while the first one is being saved.
- `generateExercise` has no guard against a stale timeout.

## Model

| member | source | states |
|---|---|---|
| Exercises.CandidatesWellFormed | src/lib/pages/Pratice.tsx:261-268 | for any bank whose lists are all non-empty and well formed, and whatever the subject and difficulty, the exercises `generateExercise` draws from are non-empty, and each has four distinct options containing its correct answer |
| Exercises.BankWellFormed | src/lib/pages/Pratice.tsx:44-219 | every subject of the bank has easy, medium and hard lists, each non-empty and well formed, and the fallback exercise is well formed too |
| Exercises.EntryWellFormedIsOk | src/lib/pages/Pratice.tsx:44-212 | an entry with well-formed easy, medium and hard lists has no other kind of list |
| Exercises.SampleBankOk | src/lib/pages/Pratice.tsx:44-212 | every list of the page's bank is non-empty and well formed |
| Exercises.UnknownSubjectFallsBack | src/lib/pages/Pratice.tsx:262-267 | every subject that is not a key of the page's bank yields only the fallback exercise, whatever the difficulty |
| Exercises.Candidates | src/lib/pages/Pratice.tsx:261-267 | the bank's list for the subject and difficulty when it has one, and otherwise the fallback exercise alone |
| Timers.TickState | src/lib/pages/Pratice.tsx:239-250 | a stopped timer stays put; a running count-up timer gains one second; a running count-down timer never increases, and it stops and reports time-up exactly when it reaches 0 |
| Timers.PausedTimerHolds | src/lib/pages/Pratice.tsx:239-250 | a paused timer keeps its value and never reports time-up, however many intervals pass |
| Timers.CountDownExpiresOnce | src/lib/pages/Pratice.tsx:243-250 | a count-down started at d is still running at d-n after n < d intervals; after d intervals it is stopped at 0 and has reported time-up exactly once |
| Timers.Timer.Reset | src/lib/pages/Pratice.tsx:272 | `reset(n)` sets the time to n and leaves running or paused as it was |
| Timers.Timer.Start | src/lib/pages/Pratice.tsx:273 | `start()` sets the timer running at its current time |
| Timers.Timer.Pause | src/lib/pages/Pratice.tsx:290 | `pause()` stops the timer at its current time |
| Timers.Timer.Tick | src/lib/pages/Pratice.tsx:243-250 | one interval of the timer object changes its value and reports time-up exactly as the tick function does |
| Practice.InitialSatisfiesInvariant | src/lib/pages/Pratice.tsx:226-237 | the freshly mounted page satisfies the invariant: correct answers at most total answers, session timer at most the session length, exercise on screen well formed |
| Practice.Elapsed | src/lib/pages/Pratice.tsx:387 | in a state satisfying the invariant, the summary's elapsed time lies between 0 and the session length |
| Practice.ScreenOf | src/lib/pages/Pratice.tsx:364-397 | the summary screen shows exactly when `showSummary` is set, and it carries the session statistics; otherwise difficulty selection shows exactly when no difficulty is chosen; otherwise the practice screen shows, awaiting an exercise exactly when none is loaded |
| Practice.GetTimerVariant | src/lib/pages/Pratice.tsx:355-361 | danger exactly when no more than a tenth of the session remains; warning exactly when more than a tenth but at most a quarter remains; default outside timed sessions and for a zero-length session |
| Practice.TimerVariantMonotone | src/lib/pages/Pratice.tsx:355-361 | as the remaining time decreases, the timer colour never becomes less severe |
| Practice.RecordAnswer | src/lib/pages/Pratice.tsx:295-300 | the total grows by one; the correct count grows by one exactly for a correct answer; correct stays at most total |
| Practice.Generate | src/lib/pages/Pratice.tsx:255-275 | without a difficulty or a subject nothing changes; otherwise the page holds one of the candidate exercises, no selected answer, not submitted, not loading, and the exercise timer running from 0, with all else unchanged |
| Practice.StartTimedSession | src/lib/pages/Pratice.tsx:277-284 | a timed session of the given length at medium difficulty, with zero statistics and the session timer running from the full length |
| Practice.Submit | src/lib/pages/Pratice.tsx:286-300 | without a non-empty selected answer, an exercise and a user, nothing changes; otherwise it returns whether the answer is correct, marks the round submitted, pauses the exercise timer, and records the answer only in a timed session |
| Practice.TimeUp | src/lib/pages/Pratice.tsx:246-249 | the summary is shown and the exercise timer paused; the statistics are kept |
| Practice.ContinueFromSummary | src/lib/pages/Pratice.tsx:339-344 | leaves the summary and the timed session and clears the difficulty and the exercise |
| Practice.NewSession | src/lib/pages/Pratice.tsx:346-352 | the same as continuing, and the duration dialog opens |
| Practice.ChangeDifficulty | src/lib/pages/Pratice.tsx:477-482 | back to selection, out of the timed session, with the session timer paused and the exercise timer untouched |
| Practice.ClickOption | src/lib/pages/Pratice.tsx:568-573 | before submission a click selects that option; after submission it changes nothing |
| Practice.ToggleExerciseTimer | src/lib/pages/Pratice.tsx:513 | the exercise timer flips between running and paused and keeps its time; nothing else changes |
| Practice.SessionTick | src/lib/pages/Pratice.tsx:243-250 | a session-timer interval never increases the remaining time and never alters the statistics; when the timer reports time-up, `onTimeUp` runs on the ticked state, showing the summary and pausing the exercise timer; otherwise only the session timer changes |
| Practice.ExerciseTick | src/lib/pages/Pratice.tsx:239-240 | a paused exercise timer leaves the page unchanged; a running one gains a second, and nothing else changes |
| Practice.SessionRunsOut | src/lib/pages/Pratice.tsx:243-250 | a session timer running with n > 0 seconds left shows the summary after exactly n intervals; the timer is then stopped at 0, the exercise timer is paused and the statistics are as they were |
| Practice.StepPreservesInvariant | src/lib/pages/Pratice.tsx:255-352 | every handler, tick and click preserves the invariant |
| Practice.RunPreservesInvariant | src/lib/pages/Pratice.tsx:255-352 | any sequence of events preserves the invariant |
| Practice.ReachableElapsedInRange | src/lib/pages/Pratice.tsx:387 | in every state reachable from mount, the summary's elapsed time is between 0 and the session length |
| Practice.UntimedSubmitKeepsStats | src/lib/pages/Pratice.tsx:295-300 | a submission outside a timed session leaves the session statistics untouched |
| Practice.TimeUpShowsSummary | src/lib/pages/Pratice.tsx:246-249 | time-up switches to the summary from any screen, showing the statistics and the elapsed time as they were |
| Practice.LeavingSummaryScreens | src/lib/pages/Pratice.tsx:339-352 | both ways of leaving the summary land on difficulty selection; only a new session opens the dialog |
| Practice.StartSessionEntersPractice | src/lib/pages/Pratice.tsx:277-284 | from any screen except the summary, starting a session of any length enters practice at medium, with the timer colour at its default |
| Practice.PracticePage.constructor | src/lib/pages/Pratice.tsx:226-250 | the mounted component is in the initial state and draws from the page's exercise bank; it has two distinct fresh timers, the exercise timer counting up and the session timer counting down |
| Practice.PracticePage.SelectDifficulty | src/lib/pages/Pratice.tsx:418 | choosing a difficulty sets it and changes nothing else |
| Practice.PracticePage.OpenTimedModal | src/lib/pages/Pratice.tsx:419 | opens the duration dialog and changes nothing else |
| Practice.PracticePage.CloseTimedModal | src/lib/pages/Pratice.tsx:423 | closes the duration dialog and changes nothing else |
| Practice.PracticePage.GenerateExercise | src/lib/pages/Pratice.tsx:255-275 | the component's state afterwards is that of `Generate` for some draw from the candidates, and the invariant is kept |
| Practice.PracticePage.HandleStartTimedSession | src/lib/pages/Pratice.tsx:277-284 | updates the fields and resets and starts the session timer as `StartTimedSession` does |
| Practice.PracticePage.HandleSubmit | src/lib/pages/Pratice.tsx:286-300 | updates the fields and the exercise timer, and returns `isCorrect`, as `Submit` does |
| Practice.PracticePage.OnTimeUp | src/lib/pages/Pratice.tsx:246-249 | shows the summary and pauses the exercise timer, as `TimeUp` does |
| Practice.PracticePage.HandleContinueFromSummary | src/lib/pages/Pratice.tsx:339-344 | performs `ContinueFromSummary` on the fields |
| Practice.PracticePage.HandleNewSession | src/lib/pages/Pratice.tsx:346-352 | performs `NewSession` on the fields |
| Practice.PracticePage.ChangeDifficultyClick | src/lib/pages/Pratice.tsx:477-482 | performs `ChangeDifficulty`, pausing the session timer object only |
| Practice.PracticePage.SelectAnswer | src/lib/pages/Pratice.tsx:568-573 | performs `ClickOption` through the card's click gate |
| Practice.PracticePage.OnToggleExerciseTimer | src/lib/pages/Pratice.tsx:513 | pauses a running exercise timer and starts a paused one |
| Practice.PracticePage.ExerciseTimerTick | src/lib/pages/Pratice.tsx:239-240 | one exercise-timer interval, as `Step` performs it |
| Practice.PracticePage.SessionTimerTick | src/lib/pages/Pratice.tsx:243-250 | one session-timer interval, running the time-up handler when the timer reports time-up |
| ExerciseCard.Classify | src/components/pratice/ExerciseCard.tsx:49-67 | after submission: green exactly for the correct option, red exactly for a wrong selected option, muted otherwise; before submission: highlighted exactly for the selected option |
| ExerciseCard.CorrectnessHiddenBeforeSubmit | src/components/pratice/ExerciseCard.tsx:63-67 | before submission, how an option looks does not depend on which option is correct |
| ExerciseCard.Letter | src/components/pratice/ExerciseCard.tsx:51 | indices 0 to 3 get the letters A to D in order; later indices get nothing |
| ExerciseCard.Render | src/components/pratice/ExerciseCard.tsx:48-123 | one button per option, in order: each has the option's text, the style `Classify` gives it and the letter `Letter` gives its index, and is disabled exactly after submission; the explanation is shown exactly after submission |
| ExerciseCard.OnOptionClick | src/components/pratice/ExerciseCard.tsx:77 | a click passes the option on before submission and does nothing after |
| ExerciseCard.CheckIconOnCorrectOnly | src/components/pratice/ExerciseCard.tsx:98-106 | the check icon appears exactly on options equal to the correct answer, and only after submission |
| ExerciseCard.XIconOnWrongSelectionOnly | src/components/pratice/ExerciseCard.tsx:107-115 | the cross appears exactly on a selected option that is not correct, after submission, and never with the check |
| ExerciseCard.ExactlyOneCheckIcon | src/components/pratice/ExerciseCard.tsx:98-106 | for a well-formed exercise, a submitted card shows exactly one check icon |
| ExerciseCard.AtMostOneXIcon | src/components/pratice/ExerciseCard.tsx:107-115 | with distinct options, no more than one cross is ever shown |
| ExerciseCard.LettersForFourOptions | src/components/pratice/ExerciseCard.tsx:51-95 | the four options of a well-formed exercise are labelled A, B, C, D, all distinct |
| TimedSessionModal.MenuDurations | src/components/pratice/TimedSessionModal.tsx:12-17 | the menu offers four distinct positive durations: 300, 600, 900 and 1800 seconds |
| TimedSessionModal.DurationPicker.constructor | src/components/pratice/TimedSessionModal.tsx:20 | the dialog opens with no pending choice |
| TimedSessionModal.DurationPicker.SelectOption | src/components/pratice/TimedSessionModal.tsx:72 | a click on an option makes its duration the pending choice, replacing any earlier one |
| TimedSessionModal.DurationPicker.IsHighlighted | src/components/pratice/TimedSessionModal.tsx:65 | an option is highlighted exactly when its duration is the pending choice |
| TimedSessionModal.DurationPicker.StartDisabled | src/components/pratice/TimedSessionModal.tsx:98 | Start is disabled exactly when there is no pending choice or it is zero |
| TimedSessionModal.DurationPicker.HandleStart | src/components/pratice/TimedSessionModal.tsx:22-27 | with a choice, it issues `onStart(duration)` and then `onClose`; without one, nothing; never more than one start |
| TimedSessionModal.DurationPicker.Close | src/components/pratice/TimedSessionModal.tsx:55-92 | the X and Cancel buttons issue `onClose` alone |
| TimedSessionModal.DurationPicker.BackdropClick | src/components/pratice/TimedSessionModal.tsx:37-45 | a click on the backdrop closes the dialog; a click inside the panel issues nothing; neither starts a session |
| SessionSummary.Accuracy | src/components/pratice/SessionSummary.tsx:20 | 0 with no answers; otherwise the percentage of correct answers rounded half up, within half a point of the exact value |
| SessionSummary.AccuracyInRange | src/components/pratice/SessionSummary.tsx:20 | with no more correct answers than answers, the accuracy lies between 0 and 100 |
| SessionSummary.AccuracyAllCorrect | src/components/pratice/SessionSummary.tsx:20 | all answers correct gives 100 |
| SessionSummary.AccuracyExamples | src/components/pratice/SessionSummary.tsx:20 | 0 answers give 0; 3 of 4 give 75; 2 of 3 give 67 |
| SessionSummary.SplitTime | src/components/pratice/SessionSummary.tsx:21-22 | minutes and seconds recombine to the total, with seconds below 60 |
| SessionSummary.NatToStringRoundTrip | src/components/pratice/SessionSummary.tsx:84 | the decimal text of a number reads back as that number |
| SessionSummary.PadStart | src/components/pratice/SessionSummary.tsx:84 | the padded text has at least the requested width, ends with the original text, and is filled with the pad character in front |
| SessionSummary.SecondsTwoDigits | src/components/pratice/SessionSummary.tsx:84 | seconds below 60 are shown as exactly two digits, tens then units |
| SessionSummary.FormatTimeReadsBack | src/components/pratice/SessionSummary.tsx:84 | the `m:ss` display has a colon three characters from the end and reads back as the total seconds |
| SessionSummary.GetGrade | src/components/pratice/SessionSummary.tsx:24-29 | Excellent from 90, Very good from 70 to 89, Good progress from 50 to 69, Keep practising below 50; the four bands partition all accuracies |
| SessionSummary.GradeMonotone | src/components/pratice/SessionSummary.tsx:24-29 | a higher accuracy never gets a lower grade |
| Percent.RoundPercent | src/lib/pages/Progress.tsx:142 | `Math.round(a / b * 100)`: the integer nearest 100a/b, with halves rounded up |
| Percent.RoundPercentAtMost100 | src/lib/pages/Progress.tsx:132 | a share of at most the whole rounds to at most 100 |
| Percent.RoundPercentEnds | src/lib/pages/Progress.tsx:105 | none of b gives 0 and all of b gives 100 |
| Percent.RoundPercentMonotone | src/lib/pages/Progress.tsx:105 | more correct out of the same total never gives a lower percentage |
| Progress.UniqueDaysDesc | src/lib/pages/Progress.tsx:64-66 | the distinct days of the history, strictly most recent first, and exactly the days on which attempts were made |
| Progress.StreakFrom | src/lib/pages/Progress.tsx:68-81 | the streak never exceeds the number of days it scans |
| Progress.CalculateStreak | src/lib/pages/Progress.tsx:60-82 | 0 with no history, or an empty one; otherwise the leading run of the distinct days that starts at today or yesterday, each day being the day before the previous |
| Progress.StreakAtMostDistinctDays | src/lib/pages/Progress.tsx:64-79 | the streak is at most the number of distinct days with attempts |
| Progress.StreakIsConsecutiveRun | src/lib/pages/Progress.tsx:71-79 | a non-zero streak starts at today or yesterday; the counted days are consecutive; counting stops at the first gap; a zero streak means the latest day is neither today nor yesterday |
| Progress.StreakNeedsRecentDay | src/lib/pages/Progress.tsx:71-79 | a history with nothing since the day before yesterday has streak 0 |
| Progress.SubjectOf | src/lib/pages/Progress.tsx:117 | an attempt with no subject or an empty one counts as algebra; any other subject counts as itself |
| Progress.SubjectsSeen | src/lib/pages/Progress.tsx:114-127 | the breakdown's subjects have no repeats, and they are exactly the subjects with at least one attempt |
| Progress.TallyStep | src/lib/pages/Progress.tsx:117-124 | tallying one more attempt adds its subject to the keys if it is new, and adds one answer (one correct answer, if it was right) to that subject alone |
| Progress.TallySubjects | src/lib/pages/Progress.tsx:114-125 | after the loop, the keys of `subjectCounts` are the subjects in order of first appearance, and each maps to its number of attempts and correct attempts |
| Progress.GetSubjectData | src/lib/pages/Progress.tsx:111-134 | nothing when the history is not loaded; otherwise one entry per subject in first-appearance order, each with the subject's display name, its total, its correct count and its rounded percentage |
| Progress.SubjectTotalsSum | src/lib/pages/Progress.tsx:116-125 | the subjects' totals add up to the number of attempts, so every attempt is counted exactly once |
| Progress.SubjectEntriesBounded | src/lib/pages/Progress.tsx:127-133 | every listed subject has at least one attempt, no more correct answers than attempts, and a percentage of at most 100 |
| Progress.CorrectOnDay | src/lib/pages/Progress.tsx:94-98 | a day never has more correct attempts than attempts |
| Progress.GetPerformanceData | src/lib/pages/Progress.tsx:84-108 | nothing when the history is not loaded; otherwise fourteen points, one per day from thirteen days ago to today; each has that day's attempts and correct attempts, and a rate that is 0 on days without attempts and otherwise the rounded percentage of correct attempts (at most 100) |
| Progress.OverallRate | src/lib/pages/Progress.tsx:140-142 | 0 with no history; at most 100; and equal to the session summary's accuracy for the same numbers of answers and correct answers |

## Left out

- The timer hook `useTimer` is not part of this model. The `Timer` class and `TickState` describe
  the behaviour the page relies on: `reset`, `start`, `pause`, a one-second interval, and
  `onTimeUp` once when a count-down reaches 0. `getFormattedTime` is not modelled.
- Saving an attempt to the database, the success and error notifications, and loading the
  history are not modelled. They are remote I/O. The history is a parameter of the progress
  functions; `None` means not loaded yet.
- Authentication is reduced to a boolean `hasUser`, and the route's subject to an optional
  string.
- The 300 ms timeout of `generateExercise` is taken as one step, together with the loading flag
  it sets first. The loading screen between the two is not a separate state. A timeout that fires
  after the difficulty has changed is therefore not modelled.
- `Math.random()` is a chosen index: any index of the candidates may be drawn.
- Practice.Generate: the draw is reduced modulo the number of candidates, so the function is
  total. The method only ever draws a valid index.
- Percent.RoundPercent: computed in exact arithmetic. Double-precision `a / b * 100` can land a
  hair below an exact half and round down where the model rounds up.
- Practice.GetTimerVariant: the comparisons are exact rational ones. The source compares a
  double-precision percentage.
- Dates are whole day numbers. Time zones, `startOfDay`, `isSameDay` and the `dd/MM` labels of
  the chart (date-fns) are not modelled.
- The colours, emojis, icons, animations and layout are left out, as are the subject's colour in
  the breakdown and the emoji of a grade. Only the grade's label is kept.
- The difficulty selector, dashboard, history, registration and landing components are not part
  of this model. The two mounted instances of the duration dialog behave alike and are modelled
  once.
- Progress.GetSubjectData: subjects are assumed not to be names of properties a plain
  JavaScript object inherits, such as `constructor` or `__proto__`. Such names are not in the
  subject enum. With `constructor` the lookup finds the inherited `Object` function, so no
  own key is created and the increments land on that function. The subject would then be
  missing from `Object.entries`, and so from the breakdown. With `__proto__` the writes would
  modify `Object.prototype` itself. The model gives every subject its own key.
- Object.entries lists integer-like keys first in numeric order. Subjects are words, so the model
  keeps insertion order only.
