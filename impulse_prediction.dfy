/**
  The back end's impulse predictor: a transaction is encoded as five numeric
  features and handed to a trained network, whose output probability is compared
  with 0.5. The network itself is outside the model; a loaded model is represented
  by its forward pass, an arbitrary function from feature vectors to a probability.
 */
module ImpulsePrediction {
  import opened Common

  /** A loaded network: what `model.predict(features).dataSync()[0]` yields. */
  datatype Model = Model(predict: seq<real> -> real)

  /** The fields `processTransaction` reads. `dayOfWeek` is what `getDay()` of
      `new Date(Date)` gives, in 0..6, or `None` for a missing or invalid date;
      `prevImpulse` is `Prev_Impulse`, `None` when absent. */
  datatype PredictionInput = PredictionInput(
    category: string,
    amount: real,
    timeOfDay: string,
    dayOfWeek: Option<int>,
    prevImpulse: Option<real>)

  datatype Prediction = Prediction(isImpulse: bool, probability: real)

  predicate KnownTimeOfDay(t: string) {
    t == "Morning" || t == "Afternoon" || t == "Evening" || t == "Night"
  }

  predicate KnownCategory(c: string) {
    c == "Health" || c == "Groceries" || c == "Utilities" || c == "Travel"
      || c == "Entertainment" || c == "Shopping" || c == "Dining"
  }

  /** `timeMap[Time_of_Day] || 12`: the hour feature. */
  function HourOf(timeOfDay: string): (h: real)
    ensures h == 12.0 <==> !KnownTimeOfDay(timeOfDay)
    ensures h in {9.0, 12.0, 14.0, 18.0, 21.0}
  {
    match timeOfDay
    case "Morning" => 9.0
    case "Afternoon" => 14.0
    case "Evening" => 18.0
    case "Night" => 21.0
    case _ => 12.0
  }

  /** `categoryImportance[Category] || 0.5`: no table entry is 0.5, so the default
      shows exactly the unknown categories. */
  function CategoryImportance(category: string): (w: real)
    ensures 0.2 <= w <= 1.0
    ensures w == 0.5 <==> !KnownCategory(category)
  {
    match category
    case "Health" => 1.0
    case "Groceries" => 0.9
    case "Utilities" => 0.8
    case "Travel" => 0.6
    case "Entertainment" => 0.4
    case "Shopping" => 0.3
    case "Dining" => 0.2
    case _ => 0.5
  }

  /** 1 for Sunday (0) and Saturday (6); an invalid date gives `NaN`, which equals
      neither, so it counts as a weekday. */
  function WeekendFeature(dayOfWeek: Option<int>): (f: real)
    ensures f == 1.0 <==> dayOfWeek == Some(0) || dayOfWeek == Some(6)
    ensures f == 0.0 || f == 1.0
  {
    if dayOfWeek == Some(0) || dayOfWeek == Some(6) then 1.0 else 0.0
  }

  /** `transaction.Prev_Impulse || 0` */
  function PrevImpulseFeature(prev: Option<real>): (f: real)
    ensures prev.None? ==> f == 0.0
    ensures prev.Some? ==> f == prev.value
  {
    if prev.Some? then prev.value else 0.0
  }

  /** The single feature row, in the order the network was trained on. */
  function ProcessTransaction(t: PredictionInput): (features: seq<real>)
    ensures |features| == 5
  {
    [t.amount, HourOf(t.timeOfDay), WeekendFeature(t.dayOfWeek),
     CategoryImportance(t.category), PrevImpulseFeature(t.prevImpulse)]
  }

  /** The threshold on the network's output; the probability is passed through. */
  function Classify(probability: real): (p: Prediction)
    ensures p.probability == probability
    ensures p.isImpulse <==> probability > 0.5
  {
    Prediction(probability > 0.5, probability)
  }

  /** What the features say about each field of the input: the amount is the first
      feature unchanged, and a missing previous-impulse count encodes as 0. */
  lemma FeatureLayout(t: PredictionInput)
    ensures var f := ProcessTransaction(t);
      && f[0] == t.amount
      && (f[1] == 12.0 <==> !KnownTimeOfDay(t.timeOfDay))
      && (f[2] == 1.0 <==> t.dayOfWeek == Some(0) || t.dayOfWeek == Some(6))
      && (f[3] == 0.5 <==> !KnownCategory(t.category))
      && (t.prevImpulse.None? ==> f[4] == 0.0)
  {
  }

  /** Without a valid date the weekend feature is always 0. */
  lemma NoDateMeansWeekday(t: PredictionInput)
    requires t.dayOfWeek.None?
    ensures ProcessTransaction(t)[2] == 0.0
  {
  }

  /** The model held after a lazy load: the current one if any, else what the load
      yields. */
  function ModelAfterLoad(current: Option<Model>, source: Option<Model>): (m: Option<Model>)
    ensures current.Some? ==> m == current
    ensures current.None? ==> m == source
  {
    if current.Some? then current else source
  }

  /** Holds the module-level `model`, unset until the first successful load. */
  class ImpulsePredictor {
    var model: Option<Model>

    constructor ()
      ensures model.None?
    {
      model := None;
    }

    /** `loadModel`: `loaded` is what `tf.loadLayersModel` resolves to, `None` when it
        rejects, in which case the assignment never happens. */
    method LoadModel(loaded: Option<Model>)
      modifies this
      ensures model == if loaded.Some? then loaded else old(model)
    {
      if loaded.Some? {
        model := loaded;
      }
    }

    /** `predictImpulse`: loads the model only while none is held, then classifies
        the network's output. With no model at all, `model.predict` throws. */
    method PredictImpulse(t: PredictionInput, source: Option<Model>) returns (r: Option<Prediction>)
      modifies this
      ensures model == ModelAfterLoad(old(model), source)
      ensures r.None? <==> model.None?
      ensures r.Some? ==> r.value == Classify(model.value.predict(ProcessTransaction(t)))
    {
      if model.None? {
        LoadModel(source);
      }
      if model.None? {
        return None;
      }
      var features := ProcessTransaction(t);
      var probability := model.value.predict(features);
      r := Some(Classify(probability));
    }
  }
}
