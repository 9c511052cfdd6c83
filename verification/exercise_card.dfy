/**
  The exercise card: how each option is shown before and after the answer is
  submitted, which icons appear, when the explanation is visible, and when a click on
  an option is passed up to the page.
*/
module ExerciseCard {
  import opened Wrappers
  import opened Exercises

  /** The five looks an option button can have. */
  datatype OptionStyle =
    | CorrectStyle      // submitted, this is the correct answer
    | WrongStyle        // submitted, selected and not correct
    | MutedStyle        // submitted, neither
    | SelectedStyle     // not submitted, currently selected
    | UnselectedStyle   // not submitted, not selected

  /** What one option button shows. */
  datatype OptionView = OptionView(
    letter: Option<char>,
    text: string,
    style: OptionStyle,
    checkIcon: bool,
    xIcon: bool,
    disabled: bool)

  /** What the card shows: the question, one button per option, and the explanation once revealed. */
  datatype CardView = CardView(question: string, options: seq<OptionView>, explanation: Option<string>)

  /** The class chosen for one option from `isSelected`, `isCorrect` and `isSubmitted`. */
  function Classify(option: string, selectedAnswer: Option<string>, correctAnswer: string, isSubmitted: bool): (r: OptionStyle)
    ensures isSubmitted ==> (r == CorrectStyle <==> option == correctAnswer)
    ensures isSubmitted ==> (r == WrongStyle <==> option != correctAnswer && selectedAnswer == Some(option))
    ensures isSubmitted ==> (r == MutedStyle <==> option != correctAnswer && selectedAnswer != Some(option))
    ensures !isSubmitted ==> (r == SelectedStyle <==> selectedAnswer == Some(option))
    ensures !isSubmitted ==> r == SelectedStyle || r == UnselectedStyle
  {
    var isSelected := selectedAnswer == Some(option);
    var isCorrect := option == correctAnswer;
    if isSubmitted then
      if isCorrect then CorrectStyle
      else if isSelected && !isCorrect then WrongStyle
      else MutedStyle
    else if isSelected then SelectedStyle
    else UnselectedStyle
  }

  /** Before submission the look of an option does not depend on which answer is correct. */
  lemma CorrectnessHiddenBeforeSubmit(option: string, selectedAnswer: Option<string>, correct1: string, correct2: string)
    ensures Classify(option, selectedAnswer, correct1, false) == Classify(option, selectedAnswer, correct2, false)
  {
  }

  /** `letters[index]`: A to D, and nothing (undefined) past the fourth option. */
  function Letter(index: nat): (r: Option<char>)
    ensures r.Some? <==> index < 4
    ensures r.Some? ==> 'A' <= r.value <= 'D' && r.value as int - 'A' as int == index
  {
    if index < 4 then Some("ABCD"[index]) else None
  }

  /** The button for the option at `index`. */
  function OptionViewAt(exercise: Exercise, selectedAnswer: Option<string>, isSubmitted: bool, index: nat): OptionView
    requires index < |exercise.options|
  {
    var option := exercise.options[index];
    var isSelected := selectedAnswer == Some(option);
    var isCorrect := option == exercise.correctAnswer;
    OptionView(
      Letter(index),
      option,
      Classify(option, selectedAnswer, exercise.correctAnswer, isSubmitted),
      isSubmitted && isCorrect,
      isSubmitted && isSelected && !isCorrect,
      isSubmitted)
  }

  /** The whole card for one exercise and answer state. */
  function Render(exercise: Exercise, selectedAnswer: Option<string>, isSubmitted: bool): (v: CardView)
    ensures |v.options| == |exercise.options|
    ensures forall i :: 0 <= i < |v.options| ==> v.options[i].text == exercise.options[i]
    ensures forall i :: 0 <= i < |v.options| ==> v.options[i].disabled == isSubmitted
    ensures forall i :: 0 <= i < |v.options| ==>
      && v.options[i].style == Classify(exercise.options[i], selectedAnswer, exercise.correctAnswer, isSubmitted)
      && v.options[i].letter == Letter(i)
    ensures v.explanation.Some? <==> isSubmitted
    ensures isSubmitted ==> v.explanation == Some(exercise.explanation)
  {
    CardView(
      exercise.question,
      seq(|exercise.options|, i requires 0 <= i < |exercise.options| => OptionViewAt(exercise, selectedAnswer, isSubmitted, i)),
      if isSubmitted then Some(exercise.explanation) else None)
  }

  /** What a click on an option sends to `onSelectAnswer`: the option, or no call once submitted. */
  function OnOptionClick(option: string, isSubmitted: bool): (r: Option<string>)
    ensures r.None? <==> isSubmitted
    ensures r.Some? ==> r.value == option
  {
    if !isSubmitted then Some(option) else None
  }

  function CheckIconIndices(v: CardView): set<nat>
  {
    set i: nat | i < |v.options| && v.options[i].checkIcon
  }

  function XIconIndices(v: CardView): set<nat>
  {
    set i: nat | i < |v.options| && v.options[i].xIcon
  }

  predicate DistinctOptions(exercise: Exercise)
  {
    forall i, j :: 0 <= i < j < |exercise.options| ==> exercise.options[i] != exercise.options[j]
  }

  /** The check icon marks exactly the options equal to the correct answer, and only after submission. */
  lemma CheckIconOnCorrectOnly(exercise: Exercise, selectedAnswer: Option<string>, isSubmitted: bool)
    ensures var v := Render(exercise, selectedAnswer, isSubmitted);
      forall i :: 0 <= i < |v.options| ==>
        (v.options[i].checkIcon <==> isSubmitted && exercise.options[i] == exercise.correctAnswer)
  {
  }

  /** The cross marks only a selected option that is not correct, and never together with the check. */
  lemma XIconOnWrongSelectionOnly(exercise: Exercise, selectedAnswer: Option<string>, isSubmitted: bool)
    ensures var v := Render(exercise, selectedAnswer, isSubmitted);
      forall i :: 0 <= i < |v.options| ==>
        && (v.options[i].xIcon <==>
              isSubmitted && selectedAnswer == Some(exercise.options[i]) && exercise.options[i] != exercise.correctAnswer)
        && !(v.options[i].xIcon && v.options[i].checkIcon)
  {
  }

  /** For a well-formed exercise, a submitted card shows exactly one check icon. */
  lemma ExactlyOneCheckIcon(exercise: Exercise, selectedAnswer: Option<string>)
    requires WellFormed(exercise)
    ensures |CheckIconIndices(Render(exercise, selectedAnswer, true))| == 1
  {
    var v := Render(exercise, selectedAnswer, true);
    var k :| 0 <= k < |exercise.options| && exercise.options[k] == exercise.correctAnswer;
    assert v.options[k].checkIcon;
    forall i | i in CheckIconIndices(v)
      ensures i == k
    {
      assert exercise.options[i] == exercise.correctAnswer;
    }
    assert CheckIconIndices(v) == {k};
  }

  /** With distinct options, at most one option ever shows the cross. */
  lemma AtMostOneXIcon(exercise: Exercise, selectedAnswer: Option<string>, isSubmitted: bool)
    requires DistinctOptions(exercise)
    ensures |XIconIndices(Render(exercise, selectedAnswer, isSubmitted))| <= 1
  {
    var v := Render(exercise, selectedAnswer, isSubmitted);
    var xs := XIconIndices(v);
    if xs != {} {
      var k :| k in xs;
      forall i | i in xs
        ensures i == k
      {
        assert exercise.options[i] == selectedAnswer.value == exercise.options[k];
      }
      assert xs == {k};
    }
  }

  /** The options of a well-formed exercise are labelled A, B, C, D in order, all distinct. */
  lemma LettersForFourOptions(exercise: Exercise, selectedAnswer: Option<string>, isSubmitted: bool)
    requires WellFormed(exercise)
    ensures var v := Render(exercise, selectedAnswer, isSubmitted);
      && (forall i :: 0 <= i < |v.options| ==> v.options[i].letter == Some("ABCD"[i]))
      && (forall i, j :: 0 <= i < j < |v.options| ==> v.options[i].letter != v.options[j].letter)
  {
  }
}
