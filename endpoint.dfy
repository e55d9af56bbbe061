/**
 * The `/predict` handler: decode the body, reconcile it with the schema, score
 * it, log it on a best-effort basis, and answer with the probability or with
 * an error and status 400.
 */
module Endpoint {
  import opened Json
  import opened Scoring
  import opened Reconciler
  import opened SessionLog

  /** The decoded request body: only a JSON object has the `.get` the handler calls. */
  datatype Body = ObjectBody(fields: Payload) | ScalarBody(value: Value) | ArrayBody

  /** The handler's answer. */
  datatype Response = Probability(abandonmentProbability: real) | Error(error: string) {
    /** The HTTP status: 200 for a probability, 400 for an error. */
    function Status(): int {
      if Probability? then 200 else 400
    }
  }

  /** The renaming rules of the handler, in dictionary order. */
  const BINARY_MAPPINGS: seq<Rule> := [
    ("Is_Product_Details_viewed", "Is_Product_Details_viewed_Yes"),
    ("Is_User_Logged_In", "Is_User_Logged_In_Yes")]

  /** Python's type name of a non-object body, as its `AttributeError` reports it. */
  function TypeName(body: Body): string
    requires !body.ObjectBody?
  {
    match body
    case ArrayBody => "list"
    case ScalarBody(v) =>
      match v
      case Null => "NoneType"
      case Bool(_) => "bool"
      case Int(_) => "int"
      case Real(_) => "float"
      case Str(_) => "str"
  }

  /** The text of the `AttributeError` that `.get` raises on a non-object body. */
  function AttributeErrorMessage(body: Body): string
    requires !body.ObjectBody?
  {
    "'" + TypeName(body) + "' object has no attribute 'get'"
  }

  /**
   * The response, which the log attempt does not influence. A non-object body
   * fails at `.get`; otherwise the reconciled row goes to the scorer: its
   * probability becomes `{"abandonment_probability": p}` and its exception,
   * if any, `{"error": message}` with status 400.
   */
  function Respond(body: Body, featureNames: seq<string>, scorer: Scorer): (r: Response)
    ensures r.Status() == 200 <==> r.Probability?
    ensures r.Status() == 400 <==> r.Error?
    ensures !body.ObjectBody? ==> r == Error(AttributeErrorMessage(body))
    ensures body.ObjectBody? ==>
      var row := Reconciled(body.fields, BINARY_MAPPINGS, featureNames);
      && |row| == |featureNames|
      && (scorer(row).Scored? ==> r == Probability(scorer(row).probability))
      && (scorer(row).Raised? ==> r == Error(scorer(row).message))
  {
    if !body.ObjectBody? then
      Error(AttributeErrorMessage(body))
    else
      match scorer(Reconciled(body.fields, BINARY_MAPPINGS, featureNames))
      case Scored(p) => Probability(p)
      case Raised(message) => Error(message)
  }

  /**
   * For an object body the response mirrors the scorer on the reconciled row,
   * in both directions: it is the probability p exactly when the scorer
   * returns p, and the error m exactly when the scorer raises m.
   */
  lemma ResponseMirrorsScorer(input: Payload, featureNames: seq<string>, scorer: Scorer, p: real, m: string)
    ensures Respond(ObjectBody(input), featureNames, scorer) == Probability(p)
            <==> scorer(Reconciled(input, BINARY_MAPPINGS, featureNames)) == Scored(p)
    ensures Respond(ObjectBody(input), featureNames, scorer) == Error(m)
            <==> scorer(Reconciled(input, BINARY_MAPPINGS, featureNames)) == Raised(m)
  {
  }

  /**
   * One request: the response is `Respond`'s whatever `committed` is, and the
   * store gains exactly one row, carrying the same probability, when scoring
   * succeeded and the log write committed.
   */
  method Predict(body: Body, featureNames: seq<string>, scorer: Scorer,
                 store: SessionLogStore, committed: bool, now: string) returns (resp: Response)
    modifies store
    ensures resp == Respond(body, featureNames, scorer)
    ensures resp.Probability? <==>
      body.ObjectBody? && scorer(Reconciled(body.fields, BINARY_MAPPINGS, featureNames)).Scored?
    ensures resp.Probability? && committed ==>
      store.rows == old(store.rows) + [BuildLogRow(body.fields, resp.abandonmentProbability, now)]
    ensures !(resp.Probability? && committed) ==> store.rows == old(store.rows)
  {
    if !body.ObjectBody? {
      return Error(AttributeErrorMessage(body));
    }
    var input := body.fields;
    var row := Reconcile(input, BINARY_MAPPINGS, featureNames);
    var outcome := scorer(row);
    if outcome.Raised? {
      return Error(outcome.message);
    }
    var proba := outcome.probability;
    store.Append(BuildLogRow(input, proba, now), committed);
    resp := Probability(proba);
  }

  /** The handler's rules: their logical keys, their encoded columns, and which flag feeds which column. */
  lemma BinaryMappingsKeys()
    ensures LogicalKeys(BINARY_MAPPINGS) == {"Is_Product_Details_viewed", "Is_User_Logged_In"}
    ensures EncodedKeys(BINARY_MAPPINGS) == {"Is_Product_Details_viewed_Yes", "Is_User_Logged_In_Yes"}
    ensures EncoderOf(BINARY_MAPPINGS, "Is_Product_Details_viewed_Yes") == Some("Is_Product_Details_viewed")
    ensures EncoderOf(BINARY_MAPPINGS, "Is_User_Logged_In_Yes") == Some("Is_User_Logged_In")
  {
  }

  /**
   * Reconciliation never raises: whatever fields are missing or extra, an
   * object body is scored, so with a scorer that accepts every row of the
   * schema's length the response is a probability.
   */
  lemma MissingFieldsNeverFail(input: Payload, featureNames: seq<string>, scorer: Scorer)
    requires forall row :: |row| == |featureNames| ==> scorer(row).Scored?
    ensures Respond(ObjectBody(input), featureNames, scorer).Probability?
  {
  }

  /**
   * Every error for an object body is an exception of the scorer, raised on
   * the full-length reconciled row.
   */
  lemma ErrorsComeFromScoring(input: Payload, featureNames: seq<string>, scorer: Scorer)
    requires Respond(ObjectBody(input), featureNames, scorer).Error?
    ensures |Reconciled(input, BINARY_MAPPINGS, featureNames)| == |featureNames|
    ensures scorer(Reconciled(input, BINARY_MAPPINGS, featureNames))
            == Raised(Respond(ObjectBody(input), featureNames, scorer).error)
  {
  }

  /** The response depends on the body only through the reconciled row. */
  lemma ResponseDependsOnlyOnRow(a: Payload, b: Payload, featureNames: seq<string>, scorer: Scorer)
    requires Reconciled(a, BINARY_MAPPINGS, featureNames) == Reconciled(b, BINARY_MAPPINGS, featureNames)
    ensures Respond(ObjectBody(a), featureNames, scorer) == Respond(ObjectBody(b), featureNames, scorer)
  {
  }

  /**
   * A key that is in neither the schema nor the rules, such as `user_id`,
   * does not change the response, whether set to any value or removed.
   */
  lemma UnknownKeyIgnored(input: Payload, featureNames: seq<string>, scorer: Scorer, k: string, v: Value)
    requires k !in featureNames
    requires k != "Is_Product_Details_viewed" && k != "Is_User_Logged_In"
    ensures Respond(ObjectBody(input[k := v]), featureNames, scorer) == Respond(ObjectBody(input), featureNames, scorer)
    ensures Respond(ObjectBody(input - {k}), featureNames, scorer) == Respond(ObjectBody(input), featureNames, scorer)
  {
    BinaryMappingsKeys();
    IrrelevantKeyIgnored(input, BINARY_MAPPINGS, featureNames, k, v);
  }

  /**
   * The one-hot columns take the logical flag's value from the payload, or 0,
   * even when the payload supplies the `_Yes` column itself; and that value is
   * the one the log row records under the logical name.
   */
  lemma OneHotColumnsFollowLogicalFlags(input: Payload, featureNames: seq<string>, i: int, p: real, t: string)
    requires 0 <= i < |featureNames|
    ensures featureNames[i] == "Is_Product_Details_viewed_Yes" ==>
      Reconciled(input, BINARY_MAPPINGS, featureNames)[i] == Get(input, "Is_Product_Details_viewed", ZERO)
      == BuildLogRow(input, p, t).isProductDetailsViewed
    ensures featureNames[i] == "Is_User_Logged_In_Yes" ==>
      Reconciled(input, BINARY_MAPPINGS, featureNames)[i] == Get(input, "Is_User_Logged_In", ZERO)
      == BuildLogRow(input, p, t).isUserLoggedIn
  {
  }

  /** A schema entry named like a logical flag is always 0, present in the payload or not. */
  lemma LogicalFlagColumnsAreZero(input: Payload, featureNames: seq<string>, i: int)
    requires 0 <= i < |featureNames|
    requires featureNames[i] == "Is_Product_Details_viewed" || featureNames[i] == "Is_User_Logged_In"
    ensures Reconciled(input, BINARY_MAPPINGS, featureNames)[i] == ZERO
  {
  }

  /** An example schema, in a plausible training order (the real one is a stored artifact). */
  const EXAMPLE_SCHEMA: seq<string> := [
    "No_Items_Added_InCart", "Session_Activity_Count", "No_of_Product_Clicks",
    "Bounce_Rate", "Time_Spent_on_Site", "User_Prior_Abandonment_History",
    "Is_Product_Details_viewed_Yes", "Is_User_Logged_In_Yes"]

  /** A request the dashboard can send, with its free-form `user_id`. */
  const EXAMPLE_SESSION: Payload := map[
    "Is_Product_Details_viewed" := Int(1), "No_Items_Added_InCart" := Int(2),
    "Session_Activity_Count" := Int(5), "No_of_Product_Clicks" := Int(3),
    "Bounce_Rate" := Real(0.3), "Time_Spent_on_Site" := Int(120),
    "Is_User_Logged_In" := Int(1), "User_Prior_Abandonment_History" := Int(0),
    "user_id" := Str("user_101500")]

  /** The example session reconciles to its values in schema order, the flags under their `_Yes` columns. */
  lemma ExampleSessionReconciles()
    ensures Reconciled(EXAMPLE_SESSION, BINARY_MAPPINGS, EXAMPLE_SCHEMA)
            == [Int(2), Int(5), Int(3), Real(0.3), Int(120), Int(0), Int(1), Int(1)]
  {
    BinaryMappingsKeys();
    forall i | 0 <= i < |EXAMPLE_SCHEMA| {
      ReconciledAt(EXAMPLE_SESSION, BINARY_MAPPINGS, EXAMPLE_SCHEMA, i);
    }
  }

  /** Without `No_of_Product_Clicks`, its position holds 0 and nothing else moves. */
  lemma ExampleWithoutClicks()
    ensures Reconciled(EXAMPLE_SESSION - {"No_of_Product_Clicks"}, BINARY_MAPPINGS, EXAMPLE_SCHEMA)
            == [Int(2), Int(5), Int(0), Real(0.3), Int(120), Int(0), Int(1), Int(1)]
  {
    BinaryMappingsKeys();
    forall i | 0 <= i < |EXAMPLE_SCHEMA| {
      ReconciledAt(EXAMPLE_SESSION - {"No_of_Product_Clicks"}, BINARY_MAPPINGS, EXAMPLE_SCHEMA, i);
    }
  }
}
