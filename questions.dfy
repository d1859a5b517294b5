/** The static question bank (src/data/questions.ts): the record type and the
    constant list, with the invariants every entry of the list satisfies. */
module Questions {
  import opened Common

  /** The optional `type` field of a question. */
  datatype DeliveryKind = Normal | Wide | NoBall

  datatype Question = Question(
    id: int,
    text: string,
    choices: seq<string>,
    correctIndex: int,
    runs: int,
    kind: Option<DeliveryKind>,
    toughness: Option<int>)

  /** The values the `runs` field's type `1 | 2 | 4 | 6 | 0` admits. */
  predicate IsRunValue(r: int) {
    r == 0 || r == 1 || r == 2 || r == 4 || r == 6
  }

  /** A question without a `type`, or with `type: "normal"`, is a regular delivery. */
  predicate IsNormalDelivery(q: Question) {
    q.kind == None || q.kind == Some(Normal)
  }

  const QUESTIONS: seq<Question> := [
    Question(1, "What is 7 × 8?", ["54", "56", "58", "60"], 1, 4, None, Some(1)),
    Question(2, "What is 12 ÷ 3?", ["3", "4", "5", "6"], 1, 2, None, Some(1)),
    Question(3, "What is the square of 9?", ["81", "72", "99", "79"], 0, 4, None, Some(1)),
    Question(4, "What is 15 + 26?", ["41", "39", "40", "42"], 2, 2, None, Some(1)),
    Question(5, "What is 45 − 27?", ["18", "17", "20", "16"], 0, 1, None, Some(1)),
    Question(6, "Simplify: 5² + 2³", ["33", "31", "29", "25"], 1, 4, None, Some(2)),
    Question(7, "Find 25% of 200", ["25", "40", "50", "60"], 2, 2, None, Some(1)),
    Question(8, "What is the cube of 3?", ["9", "18", "27", "36"], 2, 4, None, Some(2)),
    Question(9, "Simplify: (6 × 2) + (4 ÷ 2)", ["14", "12", "10", "16"], 0, 2, None, Some(1)),
    Question(10, "Find x if 2x = 14", ["6", "7", "8", "9"], 1, 1, None, Some(1)),

    Question(11, "What is 3/5 of 100?", ["50", "55", "60", "65"], 2, 4, None, Some(1)),
    Question(12, "Simplify: 18 ÷ (3 × 2)", ["6", "3", "2", "4"], 1, 2, None, Some(1)),
    Question(13, "What is the square root of 81?", ["7", "8", "9", "10"], 2, 2, None, Some(1)),
    Question(14, "If x = 5, find 2x + 3", ["13", "12", "15", "10"], 0, 2, None, Some(1)),
    Question(15, "What is 8 × 12?", ["88", "92", "96", "98"], 2, 4, None, Some(1)),
    Question(16, "Find missing term: 2, 4, 8, 16, ?", ["20", "24", "30", "32"], 3, 4, None, Some(2)),
    Question(17, "Simplify: 3(2 + 5)", ["15", "18", "21", "24"], 0, 2, None, Some(1)),
    Question(18, "Convert 0.25 to fraction", ["1/2", "1/4", "2/5", "1/5"], 1, 1, None, Some(1)),
    Question(19, "If 5 pencils cost ₹20, cost of 1 pencil is?", ["₹4", "₹5", "₹3", "₹2"], 0, 1, None, Some(1)),
    Question(20, "Simplify: (7 × 3) − (8 ÷ 2)", ["19", "17", "20", "18"], 1, 2, None, Some(2)),

    Question(21, "Find 10% of 350", ["30", "35", "40", "45"], 1, 1, None, Some(1)),
    Question(22, "If perimeter of a square = 24, find side", ["4", "5", "6", "8"], 2, 2, None, Some(2)),
    Question(23, "Area of rectangle 5×8?", ["30", "35", "40", "45"], 2, 4, None, Some(1)),
    Question(24, "Simplify: (9² − 7²)", ["28", "32", "36", "44"], 1, 4, None, Some(2)),
    Question(25, "If 3x = 21, find x", ["6", "7", "8", "9"], 1, 2, None, Some(1)),
    Question(26, "Simplify: (2³ × 3²)", ["36", "48", "64", "72"], 0, 4, None, Some(2)),
    Question(27, "Find the mean of 3, 5, 7", ["4", "5", "6", "7"], 2, 2, None, Some(1)),
    Question(28, "What is 15% of 200?", ["25", "30", "35", "40"], 1, 2, None, Some(1)),
    Question(29, "If 8x = 64, x =", ["6", "7", "8", "9"], 2, 1, None, Some(1)),
    Question(30, "Simplify: (10² ÷ 5)", ["10", "15", "20", "25"], 2, 6, None, Some(2))
  ]

  lemma BankSize()
    ensures |QUESTIONS| == 30
  {
  }

  /** The ids are 1, 2, ..., 30 in list order. */
  lemma BankIds()
    ensures forall i :: 0 <= i < |QUESTIONS| ==> QUESTIONS[i].id == i + 1
  {
  }

  lemma BankIdsDistinct()
    ensures forall i, j :: 0 <= i < j < |QUESTIONS| ==> QUESTIONS[i].id != QUESTIONS[j].id
  {
    BankIds();
  }

  /** Every question offers four choices and its answer key indexes one of them. */
  lemma BankChoices()
    ensures forall i :: 0 <= i < |QUESTIONS| ==>
      |QUESTIONS[i].choices| == 4 && 0 <= QUESTIONS[i].correctIndex < |QUESTIONS[i].choices|
  {
  }

  lemma BankRuns()
    ensures forall i :: 0 <= i < |QUESTIONS| ==> IsRunValue(QUESTIONS[i].runs)
  {
  }

  /** No entry sets `type`, so the bank holds no wide and no no-ball. */
  lemma BankKinds()
    ensures forall i :: 0 <= i < |QUESTIONS| ==> QUESTIONS[i].kind == None && IsNormalDelivery(QUESTIONS[i])
  {
  }

  lemma BankToughness()
    ensures forall i :: 0 <= i < |QUESTIONS| ==>
      QUESTIONS[i].toughness == Some(1) || QUESTIONS[i].toughness == Some(2)
  {
  }

  /** The answer the prompt of question `id` asks for, written the way its
      choices are written; the IntendedAnswersOf lemmas below work each one
      out from the prompt's own arithmetic. */
  function IntendedAnswer(id: int): string {
    match id
    case 1 => "56"
    case 2 => "4"
    case 3 => "81"
    case 4 => "41"
    case 5 => "18"
    case 6 => "33"
    case 7 => "50"
    case 8 => "27"
    case 9 => "14"
    case 10 => "7"
    case 11 => "60"
    case 12 => "3"
    case 13 => "9"
    case 14 => "13"
    case 15 => "96"
    case 16 => "32"
    case 17 => "21"
    case 18 => "1/4"
    case 19 => "₹4"
    case 20 => "17"
    case 21 => "35"
    case 22 => "6"
    case 23 => "40"
    case 24 => "32"
    case 25 => "7"
    case 26 => "72"
    case 27 => "5"
    case 28 => "30"
    case 29 => "8"
    case 30 => "20"
    case _ => ""
  }

  /** The choice the answer key of `q` points at is the answer its prompt asks for. */
  predicate KeyedCorrectly(q: Question) {
    0 <= q.correctIndex < |q.choices| && q.choices[q.correctIndex] == IntendedAnswer(q.id)
  }

  /** The ids of the questions whose answer key points at a wrong choice. */
  const MIS_KEYED_IDS: set<int> := {4, 6, 17, 26, 27}

  /** The answer key each mis-keyed question should have had. */
  function Rekeyed(q: Question): Question {
    match q.id
    case 4 => q.(correctIndex := 0)
    case 6 => q.(correctIndex := 0)
    case 17 => q.(correctIndex := 2)
    case 26 => q.(correctIndex := 3)
    case 27 => q.(correctIndex := 1)
    case _ => q
  }

  /** As written, exactly the questions with ids 4, 6, 17, 26 and 27 are keyed to a wrong choice. */
  lemma AnswerKeysAsWritten()
    ensures forall i :: 0 <= i < |QUESTIONS| ==>
      (!KeyedCorrectly(QUESTIONS[i]) <==> QUESTIONS[i].id in MIS_KEYED_IDS)
  {
    forall i | 0 <= i < |QUESTIONS|
      ensures !KeyedCorrectly(QUESTIONS[i]) <==> QUESTIONS[i].id in MIS_KEYED_IDS
    {
      if i < 5 { KeysOf1To5(i); }
      else if i < 10 { KeysOf6To10(i); }
      else if i < 15 { KeysOf11To15(i); }
      else if i < 20 { KeysOf16To20(i); }
      else if i < 25 { KeysOf21To25(i); }
      else { KeysOf26To30(i); }
    }
  }

  lemma KeysOf1To5(i: nat)
    requires i < 5
    ensures !KeyedCorrectly(QUESTIONS[i]) <==> QUESTIONS[i].id in MIS_KEYED_IDS
    ensures KeyedCorrectly(Rekeyed(QUESTIONS[i]))
  {
    if i == 0 {} else if i == 1 {} else if i == 2 {} else if i == 3 {} else {}
  }

  lemma KeysOf6To10(i: nat)
    requires 5 <= i < 10
    ensures !KeyedCorrectly(QUESTIONS[i]) <==> QUESTIONS[i].id in MIS_KEYED_IDS
    ensures KeyedCorrectly(Rekeyed(QUESTIONS[i]))
  {
    if i == 5 {} else if i == 6 {} else if i == 7 {} else if i == 8 {} else {}
  }

  lemma KeysOf11To15(i: nat)
    requires 10 <= i < 15
    ensures !KeyedCorrectly(QUESTIONS[i]) <==> QUESTIONS[i].id in MIS_KEYED_IDS
    ensures KeyedCorrectly(Rekeyed(QUESTIONS[i]))
  {
    if i == 10 {} else if i == 11 {} else if i == 12 {} else if i == 13 {} else {}
  }

  lemma KeysOf16To20(i: nat)
    requires 15 <= i < 20
    ensures !KeyedCorrectly(QUESTIONS[i]) <==> QUESTIONS[i].id in MIS_KEYED_IDS
    ensures KeyedCorrectly(Rekeyed(QUESTIONS[i]))
  {
    if i == 15 {} else if i == 16 {} else if i == 17 {} else if i == 18 {} else {}
  }

  lemma KeysOf21To25(i: nat)
    requires 20 <= i < 25
    ensures !KeyedCorrectly(QUESTIONS[i]) <==> QUESTIONS[i].id in MIS_KEYED_IDS
    ensures KeyedCorrectly(Rekeyed(QUESTIONS[i]))
  {
    if i == 20 {} else if i == 21 {} else if i == 22 {} else if i == 23 {} else {}
  }

  lemma KeysOf26To30(i: nat)
    requires 25 <= i < 30
    ensures !KeyedCorrectly(QUESTIONS[i]) <==> QUESTIONS[i].id in MIS_KEYED_IDS
    ensures KeyedCorrectly(Rekeyed(QUESTIONS[i]))
  {
    if i == 25 {} else if i == 26 {} else if i == 27 {} else if i == 28 {} else {}
  }

  /** The bank with the five answer keys pointed at the intended answer; every
      other field of every entry is as written. */
  const CORRECTED_QUESTIONS: seq<Question> :=
    seq(|QUESTIONS|, i requires 0 <= i < |QUESTIONS| => Rekeyed(QUESTIONS[i]))

  /** Every answer key of the corrected bank points at its prompt's answer. */
  lemma CorrectedAnswerKeys()
    ensures |CORRECTED_QUESTIONS| == |QUESTIONS|
    ensures forall i :: 0 <= i < |CORRECTED_QUESTIONS| ==> KeyedCorrectly(CORRECTED_QUESTIONS[i])
  {
    forall i | 0 <= i < |CORRECTED_QUESTIONS| ensures KeyedCorrectly(CORRECTED_QUESTIONS[i]) {
      if i < 5 { KeysOf1To5(i); }
      else if i < 10 { KeysOf6To10(i); }
      else if i < 15 { KeysOf11To15(i); }
      else if i < 20 { KeysOf16To20(i); }
      else if i < 25 { KeysOf21To25(i); }
      else { KeysOf26To30(i); }
    }
  }

  /** The correction changes nothing but the answer keys of the mis-keyed questions. */
  lemma CorrectionChangesOnlyKeys()
    ensures |CORRECTED_QUESTIONS| == |QUESTIONS|
    ensures forall i :: 0 <= i < |QUESTIONS| ==>
      CORRECTED_QUESTIONS[i] == QUESTIONS[i].(correctIndex := CORRECTED_QUESTIONS[i].correctIndex)
    ensures forall i :: 0 <= i < |QUESTIONS| ==>
      (CORRECTED_QUESTIONS[i] != QUESTIONS[i] <==> QUESTIONS[i].id in MIS_KEYED_IDS)
  {
    AnswerKeysAsWritten();
    CorrectedAnswerKeys();
    forall i | 0 <= i < |QUESTIONS|
      ensures CORRECTED_QUESTIONS[i] == QUESTIONS[i].(correctIndex := CORRECTED_QUESTIONS[i].correctIndex)
      ensures CORRECTED_QUESTIONS[i] != QUESTIONS[i] <==> QUESTIONS[i].id in MIS_KEYED_IDS
    {
      var q := QUESTIONS[i];
      assert CORRECTED_QUESTIONS[i] == Rekeyed(q);
      assert KeyedCorrectly(Rekeyed(q));
      assert q.id in MIS_KEYED_IDS <==> !KeyedCorrectly(q);
    }
  }

  /** The corrected bank keeps every invariant of the bank as written. */
  lemma CorrectedBankWellFormed()
    ensures |CORRECTED_QUESTIONS| == 30
    ensures forall i :: 0 <= i < |CORRECTED_QUESTIONS| ==>
      && CORRECTED_QUESTIONS[i].id == i + 1
      && |CORRECTED_QUESTIONS[i].choices| == 4
      && 0 <= CORRECTED_QUESTIONS[i].correctIndex < |CORRECTED_QUESTIONS[i].choices|
      && IsRunValue(CORRECTED_QUESTIONS[i].runs)
      && IsNormalDelivery(CORRECTED_QUESTIONS[i])
      && (CORRECTED_QUESTIONS[i].toughness == Some(1) || CORRECTED_QUESTIONS[i].toughness == Some(2))
  {
    BankIds();
    BankChoices();
    BankRuns();
    BankKinds();
    BankToughness();
  }

  /* Each intended answer is the value of its prompt's arithmetic, five or six ids at a
     time (question 18 asks for the fraction 1/4, which is not a number). */

  lemma IntendedAnswersOf1To6()
    ensures IntendedAnswer(1) == Decimal(7 * 8)
    ensures IntendedAnswer(2) == Decimal(12 / 3)
    ensures IntendedAnswer(3) == Decimal(9 * 9)
    ensures IntendedAnswer(4) == Decimal(15 + 26)
    ensures IntendedAnswer(5) == Decimal(45 - 27)
    ensures IntendedAnswer(6) == Decimal(5 * 5 + 2 * 2 * 2)
  {
  }

  lemma IntendedAnswersOf7To12()
    ensures IntendedAnswer(7) == Decimal(200 * 25 / 100)
    ensures IntendedAnswer(8) == Decimal(3 * 3 * 3)
    ensures IntendedAnswer(9) == Decimal(6 * 2 + 4 / 2)
    ensures IntendedAnswer(10) == Decimal(14 / 2)
    ensures IntendedAnswer(11) == Decimal(100 * 3 / 5)
    ensures IntendedAnswer(12) == Decimal(18 / (3 * 2))
  {
  }

  lemma IntendedAnswersOf13To17()
    ensures IntendedAnswer(13) == Decimal(9) && 9 * 9 == 81
    ensures IntendedAnswer(14) == Decimal(2 * 5 + 3)
    ensures IntendedAnswer(15) == Decimal(8 * 12)
    ensures IntendedAnswer(16) == Decimal(16 * 2)
    ensures IntendedAnswer(17) == Decimal(3 * (2 + 5))
  {
  }

  lemma IntendedAnswersOf19To24()
    ensures IntendedAnswer(19) == "₹" + Decimal(20 / 5)
    ensures IntendedAnswer(20) == Decimal(7 * 3 - 8 / 2)
    ensures IntendedAnswer(21) == Decimal(350 * 10 / 100)
    ensures IntendedAnswer(22) == Decimal(24 / 4)
    ensures IntendedAnswer(23) == Decimal(5 * 8)
    ensures IntendedAnswer(24) == Decimal(9 * 9 - 7 * 7)
  {
  }

  lemma IntendedAnswersOf25To30()
    ensures IntendedAnswer(25) == Decimal(21 / 3)
    ensures IntendedAnswer(26) == Decimal(2 * 2 * 2 * 3 * 3)
    ensures IntendedAnswer(27) == Decimal((3 + 5 + 7) / 3)
    ensures IntendedAnswer(28) == Decimal(200 * 15 / 100)
    ensures IntendedAnswer(29) == Decimal(64 / 8)
    ensures IntendedAnswer(30) == Decimal(10 * 10 / 5)
  {
  }
}
