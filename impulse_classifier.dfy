/**
  The dashboard's rule-based impulse classifier, `predictImpulseSimple`: a weighted
  sum of five risk factors compared with 0.5. Scores are exact in thousandths; a
  risk in tenths times a weight in hundredths gives thousandths. A second,
  decimal definition written with the program's own constants serves as the
  reference the integer score is proved against.
 */
module ImpulseClassifier {
  import opened Common

  /** What the classifier reads of a submitted transaction. `weekend` is whether
      `new Date(Date).getDay()` is 0 or 6. */
  datatype SimpleInput = SimpleInput(category: string, timeOfDay: string, amount: real, isNeed: string, weekend: bool)

  /** Category risks in tenths. */
  const CategoryRiskTable: map<string, nat> :=
    map["Shopping" := 7, "Entertainment" := 8, "Dining" := 6, "Travel" := 5,
        "Health" := 1, "Groceries" := 2, "Utilities" := 1, "Income" := 0]

  /** Time-of-day risks in tenths. */
  const TimeRiskTable: map<string, nat> :=
    map["Night" := 7, "Evening" := 5, "Afternoon" := 3, "Morning" := 2]

  /** `categoryRisk[c] || 0.5`: a missing entry and a zero entry both fall back. */
  function CategoryRisk(c: string): (r: nat)
    ensures 1 <= r <= 8
    ensures c !in CategoryRiskTable ==> r == 5
  {
    if c in CategoryRiskTable && CategoryRiskTable[c] != 0 then CategoryRiskTable[c] else 5
  }

  /** `timeRiskMap[t] || 0.3` */
  function TimeRisk(t: string): (r: nat)
    ensures 2 <= r <= 7
    ensures t !in TimeRiskTable ==> r == 3
  {
    if t in TimeRiskTable && TimeRiskTable[t] != 0 then TimeRiskTable[t] else 3
  }

  function AmountFactor(amount: real): (r: nat)
    ensures r == 6 <==> Abs(amount) > 5000.0
    ensures r == 3 <==> Abs(amount) <= 5000.0
  {
    if Abs(amount) > 5000.0 then 6 else 3
  }

  function NeedFactor(isNeed: string): (r: nat)
    ensures r == 2 <==> isNeed == "Need"
    ensures r == 7 <==> isNeed != "Need"
  {
    if isNeed == "Need" then 2 else 7
  }

  function WeekendFactor(weekend: bool): (r: nat)
    ensures r == 6 <==> weekend
    ensures r == 4 <==> !weekend
  {
    if weekend then 6 else 4
  }

  /** The weighted score in thousandths: weights 30, 15, 20, 25 and 10 hundredths. */
  function ImpulseScore(t: SimpleInput): (s: nat)
    ensures 210 <= s <= 700
  {
    CategoryRisk(t.category) * 30 + TimeRisk(t.timeOfDay) * 15 + AmountFactor(t.amount) * 20
      + NeedFactor(t.isNeed) * 25 + WeekendFactor(t.weekend) * 10
  }

  /** The same lookups with the program's decimal constants. */
  const CategoryRiskDecimal: map<string, real> :=
    map["Shopping" := 0.7, "Entertainment" := 0.8, "Dining" := 0.6, "Travel" := 0.5,
        "Health" := 0.1, "Groceries" := 0.2, "Utilities" := 0.1, "Income" := 0.0]

  const TimeRiskDecimal: map<string, real> :=
    map["Night" := 0.7, "Evening" := 0.5, "Afternoon" := 0.3, "Morning" := 0.2]

  /** `catRisk * 0.3 + timeRisk * 0.15 + amountFactor * 0.2 + needFactor * 0.25 +
      weekendFactor * 0.1`, evaluated exactly. */
  function DecimalScore(t: SimpleInput): real {
    var catRisk := if t.category in CategoryRiskDecimal && CategoryRiskDecimal[t.category] != 0.0
      then CategoryRiskDecimal[t.category] else 0.5;
    var timeRisk := if t.timeOfDay in TimeRiskDecimal && TimeRiskDecimal[t.timeOfDay] != 0.0
      then TimeRiskDecimal[t.timeOfDay] else 0.3;
    var amountFactor := if Abs(t.amount) > 5000.0 then 0.6 else 0.3;
    var needFactor := if t.isNeed == "Need" then 0.2 else 0.7;
    var weekendFactor := if t.weekend then 0.6 else 0.4;
    catRisk * 0.3 + timeRisk * 0.15 + amountFactor * 0.2 + needFactor * 0.25 + weekendFactor * 0.1
  }

  /** The integer score is the decimal score counted in thousandths. */
  lemma ScoreInThousandths(t: SimpleInput)
    ensures DecimalScore(t) == ImpulseScore(t) as real / 1000.0
  {
    var c := t.category;
    assert c in CategoryRiskTable <==> c in CategoryRiskDecimal;
    if c in CategoryRiskTable {
      assert CategoryRiskDecimal[c] == CategoryRiskTable[c] as real / 10.0;
    }
    var h := t.timeOfDay;
    assert h in TimeRiskTable <==> h in TimeRiskDecimal;
    if h in TimeRiskTable {
      assert TimeRiskDecimal[h] == TimeRiskTable[h] as real / 10.0;
    }
  }

  /** `predictImpulseSimple` */
  function PredictImpulseSimple(t: SimpleInput): (isImpulse: bool)
    ensures isImpulse <==> DecimalScore(t) > 0.5
  {
    ScoreInThousandths(t);
    ImpulseScore(t) > 500
  }

  /** `Income`'s table entry 0.0 is falsy, so it scores like an unknown category;
      an unknown time of day scores like the afternoon. */
  lemma Fallbacks(t: SimpleInput, unknown: string)
    requires unknown !in CategoryRiskTable && unknown !in TimeRiskTable
    ensures CategoryRisk("Income") == CategoryRisk(unknown) == CategoryRisk("Travel") == 5
    ensures TimeRisk(unknown) == TimeRisk("Afternoon") == 3
    ensures ImpulseScore(t.(category := "Income")) == ImpulseScore(t.(category := unknown))
  {
  }

  /** Raising any one factor never lowers the score: a riskier category or time,
      a larger absolute amount, a want instead of a need, a weekend date. */
  lemma ScoreMonotone(t: SimpleInput, category: string, timeOfDay: string, amount: real)
    ensures CategoryRisk(t.category) <= CategoryRisk(category) ==> ImpulseScore(t) <= ImpulseScore(t.(category := category))
    ensures TimeRisk(t.timeOfDay) <= TimeRisk(timeOfDay) ==> ImpulseScore(t) <= ImpulseScore(t.(timeOfDay := timeOfDay))
    ensures Abs(t.amount) <= Abs(amount) ==> ImpulseScore(t) <= ImpulseScore(t.(amount := amount))
    ensures ImpulseScore(t.(isNeed := "Need")) <= ImpulseScore(t)
    ensures ImpulseScore(t.(weekend := false)) <= ImpulseScore(t)
    ensures PredictImpulseSimple(t.(isNeed := "Need")) ==> PredictImpulseSimple(t)
  {
  }

  /** A large weekend night-time shopping want scores 0.67 and is flagged; a small
      weekday morning grocery need scores 0.24 and is not. */
  lemma ReferencePoints(small: real)
    requires Abs(small) <= 5000.0
    ensures DecimalScore(SimpleInput("Shopping", "Night", 6000.0, "Want", true)) == 0.67
    ensures PredictImpulseSimple(SimpleInput("Shopping", "Night", 6000.0, "Want", true))
    ensures DecimalScore(SimpleInput("Groceries", "Morning", small, "Need", false)) == 0.24
    ensures !PredictImpulseSimple(SimpleInput("Groceries", "Morning", small, "Need", false))
  {
    ScoreInThousandths(SimpleInput("Shopping", "Night", 6000.0, "Want", true));
    ScoreInThousandths(SimpleInput("Groceries", "Morning", small, "Need", false));
  }
}
