/**
  The arithmetic of the session summary card: accuracy with a guard for an empty
  session, the minutes:seconds split of the elapsed time and its display, and the
  grade band chosen from the accuracy.
*/
module SessionSummary {
  import opened Percent

  /** `accuracy`: the rounded share of correct answers, 0 for a session with no answers. */
  function Accuracy(totalExercises: nat, correctAnswers: nat): (r: nat)
    ensures totalExercises == 0 ==> r == 0
    ensures totalExercises > 0 ==>
      200 * correctAnswers - totalExercises < 2 * r * totalExercises <= 200 * correctAnswers + totalExercises
  {
    if totalExercises > 0 then RoundPercent(correctAnswers, totalExercises) else 0
  }

  /** The stats a session can hold (correct never above total) give an accuracy in [0, 100]. */
  lemma AccuracyInRange(totalExercises: nat, correctAnswers: nat)
    requires correctAnswers <= totalExercises
    ensures 0 <= Accuracy(totalExercises, correctAnswers) <= 100
  {
    if totalExercises > 0 {
      RoundPercentAtMost100(correctAnswers, totalExercises);
    }
  }

  /** An all-correct, non-empty session scores 100. */
  lemma AccuracyAllCorrect(totalExercises: nat)
    requires totalExercises > 0
    ensures Accuracy(totalExercises, totalExercises) == 100
  {
    RoundPercentEnds(totalExercises);
  }

  /** Worked values: no answers, three of four, two of three. */
  lemma AccuracyExamples()
    ensures Accuracy(0, 0) == 0
    ensures Accuracy(4, 3) == 75
    ensures Accuracy(3, 2) == 67
  {
  }

  /** `minutes` and `seconds`: the elapsed seconds split into whole minutes and the rest. */
  function SplitTime(totalTime: nat): (r: (nat, nat))
    ensures 60 * r.0 + r.1 == totalTime
    ensures r.1 < 60
  {
    (totalTime / 60, totalTime % 60)
  }

  /** The character of one decimal digit. */
  function DigitChar(d: nat): (c: char)
    requires d < 10
    ensures '0' <= c <= '9' && DigitValue(c) == d
  {
    ('0' as int + d) as char
  }

  function DigitValue(c: char): nat
    requires '0' <= c <= '9'
  {
    (c - '0') as nat
  }

  predicate IsDigits(s: string)
  {
    forall i :: 0 <= i < |s| ==> '0' <= s[i] <= '9'
  }

  /** The number a string of decimal digits denotes. */
  function DigitsValue(s: string): nat
    requires IsDigits(s)
  {
    if s == [] then 0 else DigitsValue(s[..|s| - 1]) * 10 + DigitValue(s[|s| - 1])
  }

  /** `n.toString()` for a non-negative integer. */
  function NatToString(n: nat): (s: string)
    ensures |s| >= 1 && IsDigits(s)
    ensures n < 10 <==> |s| == 1
  {
    if n < 10 then [DigitChar(n)] else NatToString(n / 10) + [DigitChar(n % 10)]
  }

  /** Reading the decimal rendering back gives the number. */
  lemma {:induction false} NatToStringRoundTrip(n: nat)
    ensures DigitsValue(NatToString(n)) == n
  {
    var s := NatToString(n);
    if n < 10 {
      assert s[..0] == [];
    } else {
      NatToStringRoundTrip(n / 10);
      assert s[..|s| - 1] == NatToString(n / 10);
    }
  }

  /** `s.padStart(width, c)` with a one-character pad. */
  function PadStart(s: string, width: nat, c: char): (r: string)
    ensures |r| == if |s| >= width then |s| else width
    ensures r[|r| - |s|..] == s
    ensures forall i :: 0 <= i < |r| - |s| ==> r[i] == c
  {
    if |s| >= width then s else seq(width - |s|, _ => c) + s
  }

  /** A seconds value below a minute is displayed as exactly two digits, tens first. */
  lemma SecondsTwoDigits(seconds: nat)
    requires seconds < 60
    ensures PadStart(NatToString(seconds), 2, '0') == [DigitChar(seconds / 10), DigitChar(seconds % 10)]
  {
    if seconds >= 10 {
      assert NatToString(seconds / 10) == [DigitChar(seconds / 10)];
    }
  }

  /** The time cell of the summary: minutes, a colon, seconds padded to two digits. */
  function FormatTime(totalTime: nat): string
  {
    var (minutes, seconds) := SplitTime(totalTime);
    NatToString(minutes) + ":" + PadStart(NatToString(seconds), 2, '0')
  }

  /** Two digit characters read back as the number they were made from. */
  lemma TwoDigitsValue(seconds: nat)
    requires seconds < 60
    ensures var pair := [DigitChar(seconds / 10), DigitChar(seconds % 10)];
      IsDigits(pair) && DigitsValue(pair) == seconds
  {
    var pair := [DigitChar(seconds / 10), DigitChar(seconds % 10)];
    var tens := [DigitChar(seconds / 10)];
    assert pair[..1] == tens;
    assert tens[..0] == [];
    assert DigitsValue(tens) == seconds / 10;
    assert DigitsValue(pair) == DigitsValue(tens) * 10 + seconds % 10;
  }

  /** Minutes, a colon and two seconds digits split back into their parts. */
  lemma ColonSplit(m: string, pair: string)
    requires |pair| == 2
    ensures var f := m + ":" + pair;
      && |f| == |m| + 3 && f[|f| - 3] == ':' && f[..|f| - 3] == m && f[|f| - 2..] == pair
  {
  }

  /** The displayed time has a colon three places from the end and reads back as the elapsed seconds. */
  lemma FormatTimeReadsBack(totalTime: nat)
    ensures var f := FormatTime(totalTime);
      && |f| >= 4
      && f[|f| - 3] == ':'
      && IsDigits(f[..|f| - 3]) && IsDigits(f[|f| - 2..])
      && 60 * DigitsValue(f[..|f| - 3]) + DigitsValue(f[|f| - 2..]) == totalTime
  {
    var minutes, seconds := totalTime / 60, totalTime % 60;
    var m := NatToString(minutes);
    SecondsTwoDigits(seconds);
    var pair := [DigitChar(seconds / 10), DigitChar(seconds % 10)];
    assert FormatTime(totalTime) == m + ":" + pair;
    ColonSplit(m, pair);
    NatToStringRoundTrip(minutes);
    TwoDigitsValue(seconds);
  }

  /** The four bands of `getGrade`. */
  datatype Grade = Excellent | VeryGood | GoodProgress | KeepPracticing
  {
    function Label(): string
    {
      match this
      case Excellent => "Excelente!"
      case VeryGood => "Muito bom!"
      case GoodProgress => "Bom progresso!"
      case KeepPracticing => "Continue praticando!"
    }

    /** Position of the band, 0 for the lowest. */
    function Rank(): nat
    {
      match this
      case KeepPracticing => 0
      case GoodProgress => 1
      case VeryGood => 2
      case Excellent => 3
    }
  }

  /** `getGrade`: the first band whose threshold the accuracy reaches. */
  function GetGrade(accuracy: int): (g: Grade)
    ensures g == Excellent <==> 90 <= accuracy
    ensures g == VeryGood <==> 70 <= accuracy < 90
    ensures g == GoodProgress <==> 50 <= accuracy < 70
    ensures g == KeepPracticing <==> accuracy < 50
  {
    if accuracy >= 90 then Excellent
    else if accuracy >= 70 then VeryGood
    else if accuracy >= 50 then GoodProgress
    else KeepPracticing
  }

  /** A higher accuracy never gets a lower band. */
  lemma GradeMonotone(a1: int, a2: int)
    requires a1 <= a2
    ensures GetGrade(a1).Rank() <= GetGrade(a2).Rank()
  {
  }
}
