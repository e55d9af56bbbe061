/** The fitted scaler and classifier, seen from the outside. */
module Scoring {
  import opened Json

  /** What a scoring call does: it returns the rounded class-1 probability, or it raises. */
  datatype ScoreOutcome = Scored(probability: real) | Raised(message: string)

  /**
   * `round(model.predict_proba(scaler.transform(row))[0][1], 4)` applied to a
   * positional feature row. The fitted objects are opaque, so the model takes
   * this as a parameter rather than defining it.
   */
  type Scorer = seq<Value> -> ScoreOutcome
}
