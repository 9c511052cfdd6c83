/**
  The built-in exercise bank of the practice page: multiple-choice exercises keyed by
  subject and difficulty, with a fixed fallback exercise for any other subject.
*/
module Exercises {

  datatype Difficulty = Easy | Medium | Hard

  /** One multiple-choice exercise as the page stores it. */
  datatype Exercise = Exercise(question: string, options: seq<string>, correctAnswer: string, explanation: string)

  /** Four distinct options, one of which is the correct answer. */
  predicate WellFormed(e: Exercise)
  {
    && |e.options| == 4
    && (forall i, j :: 0 <= i < j < |e.options| ==> e.options[i] != e.options[j])
    && e.correctAnswer in e.options
  }

  /** A non-empty list of well-formed exercises. */
  predicate ListWellFormed(exercises: seq<Exercise>)
  {
    |exercises| > 0 && forall e :: e in exercises ==> WellFormed(e)
  }

  /** A bank entry: all three difficulties present, each a non-empty list of well-formed exercises. */
  predicate EntryWellFormed(entry: map<Difficulty, seq<Exercise>>)
  {
    && Easy in entry && ListWellFormed(entry[Easy])
    && Medium in entry && ListWellFormed(entry[Medium])
    && Hard in entry && ListWellFormed(entry[Hard])
  }

  const AlgebraEasy1: Exercise := Exercise(
    "Quanto é 15 + 27?",
    ["40", "42", "44", "38"],
    "42",
    "15 + 27 = 42. Somamos as unidades (5+7=12) e depois as dezenas (1+2+1=4).")

  const AlgebraEasy2: Exercise := Exercise(
    "Resolva: x + 5 = 12. Qual o valor de x?",
    ["5", "6", "7", "8"],
    "7",
    "x + 5 = 12 → x = 12 - 5 → x = 7")

  const AlgebraMedium: Exercise := Exercise(
    "Resolva: 3x + 5 = 20. Qual o valor de x?",
    ["3", "4", "5", "6"],
    "5",
    "3x + 5 = 20 → 3x = 15 → x = 5")

  const AlgebraHard: Exercise := Exercise(
    "Resolva o sistema: 2x + y = 10 e x - y = 2. Qual é o valor de x?",
    ["3", "4", "5", "6"],
    "4",
    "Somando as equações: 3x = 12 → x = 4")

  const AlgebraExercises: map<Difficulty, seq<Exercise>> :=
    map[Easy := [AlgebraEasy1, AlgebraEasy2], Medium := [AlgebraMedium], Hard := [AlgebraHard]]

  const GeometryEasy: Exercise := Exercise(
    "Quantos lados tem um hexágono?",
    ["5", "6", "7", "8"],
    "6",
    "Um hexágono tem 6 lados. O prefixo 'hexa' significa seis.")

  const GeometryMedium: Exercise := Exercise(
    "Qual é a área de um retângulo com base 8 cm e altura 5 cm?",
    ["35 cm²", "40 cm²", "45 cm²", "50 cm²"],
    "40 cm²",
    "Área = base × altura = 8 × 5 = 40 cm²")

  const GeometryHard: Exercise := Exercise(
    "Qual é o volume de uma esfera com raio 3 cm? (Use π ≈ 3.14)",
    ["113.04 cm³", "84.78 cm³", "56.52 cm³", "28.26 cm³"],
    "113.04 cm³",
    "Volume = (4/3)πr³ = (4/3) × 3.14 × 27 = 113.04 cm³")

  const GeometryExercises: map<Difficulty, seq<Exercise>> :=
    map[Easy := [GeometryEasy], Medium := [GeometryMedium], Hard := [GeometryHard]]

  const CalculusEasy: Exercise := Exercise(
    "Qual é a derivada de f(x) = x²?",
    ["x", "2x", "2", "x²"],
    "2x",
    "Usando a regra da potência: d/dx(x²) = 2x")

  const CalculusMedium: Exercise := Exercise(
    "Qual é a integral de f(x) = 2x?",
    ["x²", "x² + C", "2x²", "2x² + C"],
    "x² + C",
    "∫2x dx = x² + C (não esquecer da constante de integração)")

  const CalculusHard: Exercise := Exercise(
    "Qual é a derivada de f(x) = x³ + 2x²?",
    ["3x² + 4x", "3x² + 2x", "x² + 4x", "3x + 4"],
    "3x² + 4x",
    "Usando a regra da potência: d/dx(x³) = 3x² e d/dx(2x²) = 4x")

  const CalculusExercises: map<Difficulty, seq<Exercise>> :=
    map[Easy := [CalculusEasy], Medium := [CalculusMedium], Hard := [CalculusHard]]

  const StatisticsEasy: Exercise := Exercise(
    "Qual é a média de 2, 4, 6, 8?",
    ["4", "5", "6", "7"],
    "5",
    "Média = (2+4+6+8)/4 = 20/4 = 5")

  const StatisticsMedium: Exercise := Exercise(
    "Qual é a mediana de 3, 7, 2, 9, 5?",
    ["3", "5", "7", "9"],
    "5",
    "Ordenando: 2, 3, 5, 7, 9. A mediana é o valor central: 5")

  const StatisticsHard: Exercise := Exercise(
    "Se a variância de um conjunto é 16, qual é o desvio padrão?",
    ["2", "4", "8", "16"],
    "4",
    "Desvio padrão = √variância = √16 = 4")

  const StatisticsExercises: map<Difficulty, seq<Exercise>> :=
    map[Easy := [StatisticsEasy], Medium := [StatisticsMedium], Hard := [StatisticsHard]]

  const TrigonometryEasy: Exercise := Exercise(
    "Qual é o valor de sen(90°)?",
    ["0", "0.5", "1", "-1"],
    "1",
    "O seno de 90° é igual a 1.")

  const TrigonometryMedium: Exercise := Exercise(
    "Qual é o valor de cos(60°)?",
    ["0", "0.5", "√2/2", "√3/2"],
    "0.5",
    "cos(60°) = 1/2 = 0.5")

  const TrigonometryHard: Exercise := Exercise(
    "Qual é o valor de tan(45°)?",
    ["0", "0.5", "1", "√3"],
    "1",
    "tan(45°) = sen(45°)/cos(45°) = 1")

  const TrigonometryExercises: map<Difficulty, seq<Exercise>> :=
    map[Easy := [TrigonometryEasy], Medium := [TrigonometryMedium], Hard := [TrigonometryHard]]

  const ArithmeticEasy: Exercise := Exercise(
    "Qual é o resultado de 8 × 7?",
    ["54", "56", "58", "52"],
    "56",
    "8 × 7 = 56.")

  const ArithmeticMedium: Exercise := Exercise(
    "Qual é o MDC de 12 e 18?",
    ["2", "3", "6", "9"],
    "6",
    "MDC(12, 18) = 6. Divisores de 12: 1,2,3,4,6,12. Divisores de 18: 1,2,3,6,9,18.")

  const ArithmeticHard: Exercise := Exercise(
    "Qual é o MMC de 8 e 12?",
    ["24", "48", "96", "4"],
    "24",
    "MMC(8, 12) = 24. É o menor número divisível por ambos.")

  const ArithmeticExercises: map<Difficulty, seq<Exercise>> :=
    map[Easy := [ArithmeticEasy], Medium := [ArithmeticMedium], Hard := [ArithmeticHard]]

  /** `sampleExercises`. */
  const SampleExercises: map<string, map<Difficulty, seq<Exercise>>> := map[
    "algebra" := AlgebraExercises,
    "geometry" := GeometryExercises,
    "calculus" := CalculusExercises,
    "statistics" := StatisticsExercises,
    "trigonometry" := TrigonometryExercises,
    "arithmetic" := ArithmeticExercises
  ]

  /** `defaultExercise`, used when the subject has no entry in the bank. */
  const DefaultExercise: Exercise := Exercise(
    "Quanto é 2 + 2?",
    ["3", "4", "5", "6"],
    "4",
    "2 + 2 = 4. Operação básica de adição.")

  /** The shape of `sampleExercises`: subject, then difficulty, then the exercises. */
  type Bank = map<string, map<Difficulty, seq<Exercise>>>

  /** Every list of a bank entry is non-empty and well formed. */
  predicate EntryOk(entry: map<Difficulty, seq<Exercise>>)
  {
    forall d :: d in entry ==> ListWellFormed(entry[d])
  }

  /** Every list of a bank is non-empty and well formed. */
  predicate BankOk(bank: Bank)
  {
    forall s :: s in bank ==> EntryOk(bank[s])
  }

  /**
    The exercises `generateExercise` draws from for a subject and difficulty: the bank's
    entry when there is one, otherwise the default exercise alone.
  */
  function Candidates(bank: Bank, subject: string, difficulty: Difficulty): (r: seq<Exercise>)
    ensures subject in bank && difficulty in bank[subject] ==> r == bank[subject][difficulty]
    ensures !(subject in bank && difficulty in bank[subject]) ==> r == [DefaultExercise]
  {
    if subject in bank && difficulty in bank[subject] then bank[subject][difficulty] else [DefaultExercise]
  }

  lemma AlgebraEntryWellFormed()
    ensures EntryWellFormed(AlgebraExercises)
  {
    assert WellFormed(AlgebraEasy1);
    assert WellFormed(AlgebraEasy2);
    assert WellFormed(AlgebraMedium);
    assert WellFormed(AlgebraHard);
  }

  lemma GeometryEntryWellFormed()
    ensures EntryWellFormed(GeometryExercises)
  {
    assert WellFormed(GeometryEasy);
    assert WellFormed(GeometryMedium);
    assert WellFormed(GeometryHard);
  }

  lemma CalculusEntryWellFormed()
    ensures EntryWellFormed(CalculusExercises)
  {
    assert WellFormed(CalculusEasy);
    assert WellFormed(CalculusMedium);
    assert WellFormed(CalculusHard);
  }

  lemma StatisticsEntryWellFormed()
    ensures EntryWellFormed(StatisticsExercises)
  {
    assert WellFormed(StatisticsEasy);
    assert WellFormed(StatisticsMedium);
    assert WellFormed(StatisticsHard);
  }

  lemma TrigonometryEntryWellFormed()
    ensures EntryWellFormed(TrigonometryExercises)
  {
    assert WellFormed(TrigonometryEasy);
    assert WellFormed(TrigonometryMedium);
    assert WellFormed(TrigonometryHard);
  }

  lemma ArithmeticEntryWellFormed()
    ensures EntryWellFormed(ArithmeticExercises)
  {
    assert WellFormed(ArithmeticEasy);
    assert WellFormed(ArithmeticMedium);
    assert WellFormed(ArithmeticHard);
  }

  /** Every entry of the bank is well formed, and so is the default exercise. */
  lemma BankWellFormed()
    ensures WellFormed(DefaultExercise)
    ensures forall s :: s in SampleExercises ==> EntryWellFormed(SampleExercises[s])
  {
    AlgebraEntryWellFormed();
    GeometryEntryWellFormed();
    CalculusEntryWellFormed();
    StatisticsEntryWellFormed();
    TrigonometryEntryWellFormed();
    ArithmeticEntryWellFormed();
  }

  /** An entry with its three difficulties well formed has only well-formed lists. */
  lemma EntryWellFormedIsOk(entry: map<Difficulty, seq<Exercise>>)
    requires EntryWellFormed(entry)
    ensures EntryOk(entry)
  {
    forall d | d in entry
      ensures ListWellFormed(entry[d])
    {
      match d
      case Easy =>
      case Medium =>
      case Hard =>
    }
  }

  /** The bank of the page satisfies `BankOk`. */
  lemma SampleBankOk()
    ensures BankOk(SampleExercises)
  {
    BankWellFormed();
    forall s | s in SampleExercises
      ensures EntryOk(SampleExercises[s])
    {
      EntryWellFormedIsOk(SampleExercises[s]);
    }
  }

  /** With a well-formed bank, whatever the subject, there is something to draw, and all of it is well formed. */
  lemma CandidatesWellFormed(bank: Bank, subject: string, difficulty: Difficulty)
    requires BankOk(bank)
    ensures |Candidates(bank, subject, difficulty)| > 0
    ensures forall e :: e in Candidates(bank, subject, difficulty) ==> WellFormed(e)
  {
    assert WellFormed(DefaultExercise);
    if subject in bank && difficulty in bank[subject] {
      assert EntryOk(bank[subject]);
    }
  }

  /** Any subject outside the page's bank (for example "physics") falls back to the default exercise. */
  lemma UnknownSubjectFallsBack(subject: string, difficulty: Difficulty)
    requires subject !in SampleExercises
    ensures Candidates(SampleExercises, subject, difficulty) == [DefaultExercise]
  {
  }
}
