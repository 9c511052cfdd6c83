/**
  The aggregations of the progress page over the user's answer history: the day
  streak, the per-subject breakdown, the last-fourteen-days series and the overall
  rate. Dates are whole day numbers (the day an attempt was made, after taking the
  start of its day); `today` is the current day number.
*/
module Progress {
  import opened Wrappers
  import opened Percent
  import SessionSummary

  /** One answer of the history: its day, the joined exercise's subject, and whether it was right. */
  datatype Attempt = Attempt(day: int, subject: Option<string>, isCorrect: bool)

  // ---------------------------------------------------------------------------
  // Counting over the history
  // ---------------------------------------------------------------------------

  /** The number of correct attempts. */
  function CorrectCount(attempts: seq<Attempt>): (r: nat)
    ensures r <= |attempts|
  {
    if attempts == [] then 0
    else CorrectCount(attempts[..|attempts| - 1]) + if attempts[|attempts| - 1].isCorrect then 1 else 0
  }

  /** The number of attempts made on `day`. */
  function CountOnDay(attempts: seq<Attempt>, day: int): (r: nat)
    ensures r <= |attempts|
  {
    if attempts == [] then 0
    else CountOnDay(attempts[..|attempts| - 1], day) + if attempts[|attempts| - 1].day == day then 1 else 0
  }

  /** The number of correct attempts made on `day`. */
  function CorrectOnDay(attempts: seq<Attempt>, day: int): (r: nat)
    ensures r <= CountOnDay(attempts, day)
  {
    if attempts == [] then 0
    else
      var last := attempts[|attempts| - 1];
      CorrectOnDay(attempts[..|attempts| - 1], day) + if last.day == day && last.isCorrect then 1 else 0
  }

  // ---------------------------------------------------------------------------
  // Streak
  // ---------------------------------------------------------------------------

  predicate StrictlyDecreasing(s: seq<int>)
  {
    forall i, j :: 0 <= i < j < |s| ==> s[i] > s[j]
  }

  /** Adds a day to a strictly decreasing list of days, unless it is already there. */
  function InsertDay(day: int, days: seq<int>): (r: seq<int>)
    requires StrictlyDecreasing(days)
    ensures StrictlyDecreasing(r)
    ensures forall x :: x in r <==> x == day || x in days
    decreases |days|
  {
    if days == [] then [day]
    else if day > days[0] then
      HeadIsLatest(days);
      PrependDecreasing(day, days);
      [day] + days
    else if day == days[0] then days
    else
      var rest := InsertDay(day, days[1..]);
      HeadIsLatest(days);
      PrependDecreasing(days[0], rest);
      [days[0]] + rest
  }

  /** The first day of a strictly decreasing list is above all the others. */
  lemma HeadIsLatest(days: seq<int>)
    requires StrictlyDecreasing(days) && days != []
    ensures forall x :: x in days[1..] ==> x < days[0]
    ensures forall x :: x in days ==> x <= days[0]
  {
  }

  /** A day above every day of a strictly decreasing list can go in front of it. */
  lemma PrependDecreasing(x: int, s: seq<int>)
    requires StrictlyDecreasing(s) && forall y :: y in s ==> y < x
    ensures StrictlyDecreasing([x] + s)
  {
    var r := [x] + s;
    forall i, j | 0 <= i < j < |r|
      ensures r[i] > r[j]
    {
      assert r[j] == s[j - 1] && r[j] in s;
    }
  }

  /** `[...new Set(days)].sort((a, b) => b - a)`: the distinct days of the history, most recent first. */
  function UniqueDaysDesc(attempts: seq<Attempt>): (r: seq<int>)
    ensures StrictlyDecreasing(r)
    ensures forall x :: x in r <==> exists i :: 0 <= i < |attempts| && attempts[i].day == x
  {
    if attempts == [] then []
    else
      var init := attempts[..|attempts| - 1];
      var r := InsertDay(attempts[|attempts| - 1].day, UniqueDaysDesc(init));
      assert forall i :: 0 <= i < |init| ==> init[i] == attempts[i];
      r
  }

  /**
    The streak loop as a recursion: from `checkDate`, count the leading days that fall on
    `checkDate` or the day before it, each accepted day becoming the next `checkDate`.
  */
  function StreakFrom(days: seq<int>, checkDate: int): (r: nat)
    ensures r <= |days|
  {
    if days == [] then 0
    else if days[0] == checkDate || days[0] == checkDate - 1 then 1 + StreakFrom(days[1..], days[0])
    else 0
  }

  /** `calculateStreak`. */
  method CalculateStreak(attempts: Option<seq<Attempt>>, today: int) returns (streak: nat)
    ensures attempts.None? || attempts.value == [] ==> streak == 0
    ensures attempts.Some? ==> streak == StreakFrom(UniqueDaysDesc(attempts.value), today)
  {
    if attempts.None? || |attempts.value| == 0 {
      return 0;
    }
    var uniqueDays := UniqueDaysDesc(attempts.value);
    streak := 0;
    var checkDate := today;
    var i := 0;
    while i < |uniqueDays|
      invariant 0 <= i <= |uniqueDays|
      invariant streak == i
      invariant StreakFrom(uniqueDays, today) == i + StreakFrom(uniqueDays[i..], checkDate)
    {
      var dayTime := uniqueDays[i];
      if dayTime == checkDate || dayTime == checkDate - 1 {
        assert uniqueDays[i..][1..] == uniqueDays[i + 1..];
        streak := streak + 1;
        checkDate := dayTime;
        i := i + 1;
      } else {
        break;
      }
    }
  }

  /** The streak never exceeds the number of distinct days in the history. */
  lemma StreakAtMostDistinctDays(attempts: seq<Attempt>, today: int)
    ensures var u := UniqueDaysDesc(attempts);
      StreakFrom(u, today) <= |u| && |u| == |set i | 0 <= i < |attempts| :: attempts[i].day|
  {
    var u := UniqueDaysDesc(attempts);
    DistinctCardinality(u);
    assert (set x | x in u) == (set i | 0 <= i < |attempts| :: attempts[i].day);
  }

  /** A list without repetitions has as many distinct elements as positions. */
  lemma {:induction false} DistinctCardinality(s: seq<int>)
    requires StrictlyDecreasing(s)
    ensures |set x | x in s| == |s|
    decreases |s|
  {
    if s != [] {
      DistinctCardinality(s[1..]);
      assert (set x | x in s) == {s[0]} + (set x | x in s[1..]);
      assert s[0] !in (set x | x in s[1..]);
    }
  }

  /**
    The streak is the run of consecutive days ending at today or yesterday: it is non-zero
    only if the most recent day is one of those two, each counted day is the one before the
    previous, and the count stops at the first day that breaks the run.
  */
  lemma {:induction false} StreakIsConsecutiveRun(days: seq<int>, checkDate: int)
    requires StrictlyDecreasing(days)
    ensures var k := StreakFrom(days, checkDate);
      && (k > 0 ==> days[0] == checkDate || days[0] == checkDate - 1)
      && (k == 0 && days != [] ==> days[0] != checkDate && days[0] != checkDate - 1)
      && (forall j :: 0 < j < k ==> days[j] == days[j - 1] - 1)
      && (0 < k < |days| ==> days[k] < days[k - 1] - 1)
    decreases |days|
  {
    if days != [] && (days[0] == checkDate || days[0] == checkDate - 1) {
      var rest := days[1..];
      StreakIsConsecutiveRun(rest, days[0]);
      var k := StreakFrom(days, checkDate);
      assert k == 1 + StreakFrom(rest, days[0]);
      forall j | 0 < j < k
        ensures days[j] == days[j - 1] - 1
      {
        if j == 1 {
          assert rest[0] < days[0];
        } else {
          assert rest[j - 1] == rest[j - 2] - 1;
        }
      }
      if 0 < k < |days| {
        if k == 1 {
          assert StreakFrom(rest, days[0]) == 0;
          assert rest[0] != days[0] - 1 && rest[0] < days[0];
        } else {
          assert rest[k - 1] < rest[k - 2] - 1;
        }
      }
    }
  }

  /** With no history there is no streak; with history only on days older than yesterday, neither. */
  lemma StreakNeedsRecentDay(attempts: seq<Attempt>, today: int)
    requires forall i :: 0 <= i < |attempts| ==> attempts[i].day < today - 1
    ensures StreakFrom(UniqueDaysDesc(attempts), today) == 0
  {
    var u := UniqueDaysDesc(attempts);
    if u != [] {
      assert u[0] in u;
    }
  }

  // ---------------------------------------------------------------------------
  // Subjects
  // ---------------------------------------------------------------------------

  /** `attempt.exercises?.subject || 'algebra'`. */
  function SubjectOf(a: Attempt): (r: string)
    ensures a.subject.None? || a.subject.value == "" ==> r == "algebra"
    ensures a.subject.Some? && a.subject.value != "" ==> r == a.subject.value
  {
    if a.subject.Some? && a.subject.value != "" then a.subject.value else "algebra"
  }

  /** The number of attempts counted under `subject`. */
  function CountTotal(attempts: seq<Attempt>, subject: string): nat
  {
    if attempts == [] then 0
    else CountTotal(attempts[..|attempts| - 1], subject) + if SubjectOf(attempts[|attempts| - 1]) == subject then 1 else 0
  }

  /** The number of correct attempts counted under `subject`. */
  function CountCorrect(attempts: seq<Attempt>, subject: string): (r: nat)
    ensures r <= CountTotal(attempts, subject)
  {
    if attempts == [] then 0
    else
      var last := attempts[|attempts| - 1];
      CountCorrect(attempts[..|attempts| - 1], subject) + if SubjectOf(last) == subject && last.isCorrect then 1 else 0
  }

  predicate NoRepeats(s: seq<string>)
  {
    forall i, j :: 0 <= i < j < |s| ==> s[i] != s[j]
  }

  /** The keys of `subjectCounts` in insertion order: each subject at its first attempt. */
  function SubjectsSeen(attempts: seq<Attempt>): (r: seq<string>)
    ensures NoRepeats(r)
    ensures forall s :: s in r <==> CountTotal(attempts, s) > 0
  {
    if attempts == [] then []
    else
      var seen := SubjectsSeen(attempts[..|attempts| - 1]);
      var subject := SubjectOf(attempts[|attempts| - 1]);
      if subject in seen then seen else seen + [subject]
  }

  /** `subjectConfig[subject]?.name || subject`. */
  function DisplayName(subject: string): string
  {
    if subject == "algebra" then "Álgebra"
    else if subject == "geometry" then "Geometria"
    else if subject == "calculus" then "Cálculo"
    else if subject == "statistics" then "Estatística"
    else if subject == "trigonometry" then "Trigonometria"
    else if subject == "arithmetic" then "Aritmética"
    else subject
  }

  /** One slice of the breakdown: `value` is the subject's total. */
  datatype SubjectEntry = SubjectEntry(subject: string, name: string, value: nat, correct: nat, percentage: nat)

  /** A running `{ total, correct }` of `subjectCounts`. */
  datatype Tally = Tally(total: nat, correct: nat)

  /** The breakdown entry of one subject of the history. */
  function EntryFor(attempts: seq<Attempt>, subject: string): SubjectEntry
    requires CountTotal(attempts, subject) > 0
  {
    var total := CountTotal(attempts, subject);
    var correct := CountCorrect(attempts, subject);
    SubjectEntry(subject, DisplayName(subject), total, correct, RoundPercent(correct, total))
  }

  /** The `forEach` of `getSubjectData`: `subjectCounts` and its keys in insertion order. */
  method TallySubjects(a: seq<Attempt>) returns (keys: seq<string>, subjectCounts: map<string, Tally>)
    ensures keys == SubjectsSeen(a)
    ensures forall k :: k in subjectCounts <==> k in keys
    ensures forall k :: k in subjectCounts ==> subjectCounts[k] == Tally(CountTotal(a, k), CountCorrect(a, k))
  {
    keys := [];
    subjectCounts := map[];
    ghost var done: seq<Attempt> := [];
    var i := 0;
    while i < |a|
      invariant 0 <= i <= |a|
      invariant done == a[..i]
      invariant TalliesOf(subjectCounts, keys, done)
    {
      TallyStep(subjectCounts, keys, done, a[i]);
      var subject := SubjectOf(a[i]);
      if subject !in subjectCounts {
        subjectCounts := subjectCounts[subject := Tally(0, 0)];
        keys := keys + [subject];
      }
      var tally := subjectCounts[subject];
      subjectCounts := subjectCounts[subject := Tally(tally.total + 1, tally.correct + if a[i].isCorrect then 1 else 0)];
      PrefixGrows(a, i);
      done := done + [a[i]];
      i := i + 1;
    }
    assert done == a;
  }

  /** `getSubjectData`: tally the attempts per subject, then one entry per subject in insertion order. */
  method GetSubjectData(attempts: Option<seq<Attempt>>) returns (entries: seq<SubjectEntry>)
    ensures attempts.None? ==> entries == []
    ensures attempts.Some? ==>
      var seen := SubjectsSeen(attempts.value);
      && |entries| == |seen|
      && forall i :: 0 <= i < |entries| ==> entries[i] == EntryFor(attempts.value, seen[i])
  {
    if attempts.None? {
      return [];
    }
    var keys, subjectCounts := TallySubjects(attempts.value);
    entries := seq(|keys|, j requires 0 <= j < |keys| =>
      var tally := subjectCounts[keys[j]];
      SubjectEntry(keys[j], DisplayName(keys[j]), tally.total, tally.correct, RoundPercent(tally.correct, tally.total)));
  }

  /** The first i + 1 attempts are the first i followed by attempt i. */
  lemma PrefixGrows(a: seq<Attempt>, i: nat)
    requires i < |a|
    ensures a[..i + 1] == a[..i] + [a[i]]
  {
  }

  /** `subjectCounts` once the attempts `done` are tallied: its keys are the subjects seen, in order, each with its counts. */
  ghost predicate TalliesOf(subjectCounts: map<string, Tally>, keys: seq<string>, done: seq<Attempt>)
  {
    && keys == SubjectsSeen(done)
    && (forall k :: k in subjectCounts <==> k in keys)
    && (forall k :: k in subjectCounts ==> subjectCounts[k] == Tally(CountTotal(done, k), CountCorrect(done, k)))
  }

  /** Tallying one more attempt: its subject gets a key if it had none, and one more (correct) answer. */
  lemma TallyStep(subjectCounts: map<string, Tally>, keys: seq<string>, done: seq<Attempt>, x: Attempt)
    requires TalliesOf(subjectCounts, keys, done)
    ensures var subject := SubjectOf(x);
      var started := if subject in subjectCounts then subjectCounts else subjectCounts[subject := Tally(0, 0)];
      var tally := started[subject];
      TalliesOf(
        started[subject := Tally(tally.total + 1, tally.correct + if x.isCorrect then 1 else 0)],
        if subject in subjectCounts then keys else keys + [subject],
        done + [x])
  {
    var d := done + [x];
    assert d[..|d| - 1] == done;
  }

  /** The sum of the totals of `subjects` over the history. */
  function SumTotals(attempts: seq<Attempt>, subjects: seq<string>): nat
  {
    if subjects == [] then 0 else SumTotals(attempts, subjects[..|subjects| - 1]) + CountTotal(attempts, subjects[|subjects| - 1])
  }

  /** Appending one attempt adds one to the sum over subjects that include its subject once. */
  lemma {:induction false} SumTotalsAppend(attempts: seq<Attempt>, x: Attempt, subjects: seq<string>)
    requires NoRepeats(subjects)
    ensures SumTotals(attempts + [x], subjects) == SumTotals(attempts, subjects) + if SubjectOf(x) in subjects then 1 else 0
    decreases |subjects|
  {
    var ax := attempts + [x];
    assert ax[..|ax| - 1] == attempts;
    if subjects != [] {
      var init := subjects[..|subjects| - 1];
      SumTotalsAppend(attempts, x, init);
      assert subjects == init + [subjects[|subjects| - 1]];
    }
  }

  /** The subjects' totals add up to the number of attempts: each attempt is counted exactly once. */
  lemma {:induction false} SubjectTotalsSum(attempts: seq<Attempt>)
    ensures SumTotals(attempts, SubjectsSeen(attempts)) == |attempts|
    decreases |attempts|
  {
    if attempts != [] {
      var init := attempts[..|attempts| - 1];
      var x := attempts[|attempts| - 1];
      assert attempts == init + [x];
      var seen := SubjectsSeen(init);
      SubjectTotalsSum(init);
      SumTotalsAppend(init, x, seen);
      if SubjectOf(x) !in seen {
        assert CountTotal(init, SubjectOf(x)) == 0;
        assert SubjectsSeen(attempts)[..|seen|] == seen;
      }
    }
  }

  /** Every subject listed has at least one attempt and no more correct than total, so its percentage is at most 100. */
  lemma SubjectEntriesBounded(attempts: seq<Attempt>)
    ensures forall s :: s in SubjectsSeen(attempts) ==>
      var e := EntryFor(attempts, s);
      e.value >= 1 && e.correct <= e.value && e.percentage <= 100
  {
    forall s | s in SubjectsSeen(attempts)
      ensures EntryFor(attempts, s).percentage <= 100
    {
      RoundPercentAtMost100(CountCorrect(attempts, s), CountTotal(attempts, s));
    }
  }

  // ---------------------------------------------------------------------------
  // Last fourteen days
  // ---------------------------------------------------------------------------

  /** One point of the performance chart (the formatted date labels are not modelled). */
  datatype DayPoint = DayPoint(day: int, exercicios: nat, acertos: nat, taxa: nat)

  function PointFor(attempts: seq<Attempt>, day: int): (p: DayPoint)
    ensures p.taxa <= 100
  {
    var total := CountOnDay(attempts, day);
    var correct := CorrectOnDay(attempts, day);
    if total > 0 then
      RoundPercentAtMost100(correct, total);
      DayPoint(day, total, correct, RoundPercent(correct, total))
    else DayPoint(day, total, correct, 0)
  }

  /** `getPerformanceData`: one point per day from thirteen days ago to today; nothing before the history is loaded. */
  function GetPerformanceData(attempts: Option<seq<Attempt>>, today: int): (r: seq<DayPoint>)
    ensures attempts.None? ==> r == []
    ensures attempts.Some? ==> |r| == 14
    ensures attempts.Some? ==> forall k :: 0 <= k < |r| ==>
      && r[k].day == today - 13 + k
      && r[k].exercicios == CountOnDay(attempts.value, today - 13 + k)
      && r[k].acertos == CorrectOnDay(attempts.value, today - 13 + k)
      && r[k].acertos <= r[k].exercicios
      && (r[k].exercicios == 0 ==> r[k].taxa == 0)
      && (r[k].exercicios > 0 ==> r[k].taxa == RoundPercent(r[k].acertos, r[k].exercicios))
      && r[k].taxa <= 100
  {
    if attempts.None? then []
    else
      var a := attempts.value;
      var r := seq(14, k requires 0 <= k < 14 => PointFor(a, today - 13 + k));
      assert forall k :: 0 <= k < 14 ==> r[k] == PointFor(a, today - 13 + k);
      r
  }

  // ---------------------------------------------------------------------------
  // Overall rate
  // ---------------------------------------------------------------------------

  /** `overallRate`: the rounded share of correct attempts, 0 with no history. */
  function OverallRate(attempts: Option<seq<Attempt>>): (r: nat)
    ensures attempts.None? || attempts.value == [] ==> r == 0
    ensures r <= 100
    ensures attempts.Some? ==> r == SessionSummary.Accuracy(|attempts.value|, CorrectCount(attempts.value))
  {
    var totalExercises := if attempts.Some? then |attempts.value| else 0;
    var correctAnswers := if attempts.Some? then CorrectCount(attempts.value) else 0;
    if totalExercises > 0 then
      RoundPercentAtMost100(correctAnswers, totalExercises);
      RoundPercent(correctAnswers, totalExercises)
    else 0
  }
}
