/**
 * The stricter scoring helper: it selects exactly the schema columns of the
 * session, in schema order, with no renaming and no zero fill.
 */
module StrictPredict {
  import opened Json
  import opened Scoring
  import opened Reconciler

  /** The row selected from the session, or the `KeyError` that column selection raises. */
  datatype Selection = Selected(row: seq<Value>) | KeyError(missing: seq<string>)

  /** The schema names absent from the session. */
  function Missing(data: Payload, names: seq<string>): (m: seq<string>)
    ensures forall n :: n in m <==> n in names && n !in data
    ensures |m| <= |names|
  {
    if names == [] then []
    else (if names[0] in data then [] else [names[0]]) + Missing(data, names[1..])
  }

  /**
   * `pd.DataFrame([data])[names]`: succeeds exactly when every schema name is
   * a key of the session, and then lists the session's values in schema order;
   * otherwise fails naming the absent columns.
   */
  function Select(data: Payload, names: seq<string>): (r: Selection)
    ensures r.Selected? <==> forall i :: 0 <= i < |names| ==> names[i] in data
    ensures r.Selected? ==> |r.row| == |names|
    ensures r.Selected? ==> forall i :: 0 <= i < |names| ==> names[i] in data && r.row[i] == data[names[i]]
    ensures r.KeyError? ==> r.missing != [] && forall n :: n in r.missing <==> n in names && n !in data
  {
    var missing := Missing(data, names);
    if missing == [] then
      assert forall i :: 0 <= i < |names| ==> names[i] in data by {
        forall i | 0 <= i < |names| ensures names[i] in data {
          assert names[i] in names;
        }
      }
      Selected(seq(|names|, i requires 0 <= i < |names| => data[names[i]]))
    else
      assert missing[0] in missing;
      KeyError(missing)
  }

  /** Only the schema names matter for `Missing`. */
  lemma {:induction false} MissingDependsOnlyOnSchemaKeys(a: Payload, b: Payload, names: seq<string>)
    requires forall i :: 0 <= i < |names| ==> (names[i] in a <==> names[i] in b)
    ensures Missing(a, names) == Missing(b, names)
  {
    if names != [] {
      MissingDependsOnlyOnSchemaKeys(a, b, names[1..]);
    }
  }

  /** Two sessions that agree on the schema names select the same result. */
  lemma SelectDependsOnlyOnSchemaKeys(a: Payload, b: Payload, names: seq<string>)
    requires forall i :: 0 <= i < |names| ==> (names[i] in a <==> names[i] in b)
    requires forall i :: 0 <= i < |names| && names[i] in a ==> a[names[i]] == b[names[i]]
    ensures Select(a, names) == Select(b, names)
  {
    MissingDependsOnlyOnSchemaKeys(a, b, names);
  }

  /** Session keys that are not schema names are ignored: setting or removing one changes nothing. */
  lemma ExtraKeyIgnored(data: Payload, names: seq<string>, k: string, v: Value)
    requires k !in names
    ensures Select(data[k := v], names) == Select(data, names)
    ensures Select(data - {k}, names) == Select(data, names)
  {
    SelectDependsOnlyOnSchemaKeys(data[k := v], data, names);
    SelectDependsOnlyOnSchemaKeys(data - {k}, data, names);
  }

  /**
   * Where both variants succeed and no schema name is a rule's key, the
   * lenient reconciler and strict selection give the same row.
   */
  lemma StrictAgreesWithLenient(data: Payload, rules: seq<Rule>, names: seq<string>)
    requires Select(data, names).Selected?
    requires forall i :: 0 <= i < |names| ==> names[i] !in LogicalKeys(rules) && names[i] !in EncodedKeys(rules)
    ensures Reconciled(data, rules, names) == Select(data, names).row
  {
    forall i | 0 <= i < |names|
      ensures Reconciled(data, rules, names)[i] == Select(data, names).row[i]
    {
      ReconciledAt(data, rules, names, i);
    }
  }

  /**
   * Where strict selection fails on an absent name that no rule writes, the
   * lenient reconciler fills every position of that name with 0.
   */
  lemma LenientFillsWhatStrictRejects(data: Payload, rules: seq<Rule>, names: seq<string>, n: string)
    requires Select(data, names).KeyError?
    requires n in Select(data, names).missing
    requires n !in EncodedKeys(rules)
    ensures n in names
    ensures forall i :: 0 <= i < |names| && names[i] == n ==> Reconciled(data, rules, names)[i] == ZERO
  {
    forall i | 0 <= i < |names| && names[i] == n
      ensures Reconciled(data, rules, names)[i] == ZERO
    {
      ReconciledAt(data, rules, names, i);
    }
  }

  /**
   * No renaming: a session that supplies only a rule's logical key fails
   * strict selection of the encoded column, where the lenient reconciler
   * would have filled that column from the logical key.
   */
  lemma StrictDoesNotRename(data: Payload, rules: seq<Rule>, names: seq<string>, i: int, logical: string)
    requires 0 <= i < |names|
    requires names[i] !in data && names[i] !in LogicalKeys(rules)
    requires EncoderOf(rules, names[i]) == Some(logical) && logical in data
    ensures Select(data, names).KeyError? && names[i] in Select(data, names).missing
    ensures Reconciled(data, rules, names)[i] == data[logical]
  {
  }

  /** The helper's result: the rounded probability, or the exception it lets escape. */
  datatype Prediction = Probability(p: real) | KeyErrorRaised(missing: seq<string>) | ScorerRaised(message: string)

  /**
   * `predict_cart_abandonment`: select the schema columns, then score them.
   * Nothing is caught, so a missing column or a scoring failure is raised to
   * the caller.
   */
  function PredictCartAbandonment(sessionData: Payload, featureNames: seq<string>, scorer: Scorer): (r: Prediction)
    ensures r.KeyErrorRaised? <==> exists i :: 0 <= i < |featureNames| && featureNames[i] !in sessionData
    ensures r.KeyErrorRaised? ==> r.missing == Select(sessionData, featureNames).missing
    ensures r.Probability? <==>
      Select(sessionData, featureNames).Selected? && scorer(Select(sessionData, featureNames).row).Scored?
    ensures r.ScorerRaised? ==>
      Select(sessionData, featureNames).Selected? && scorer(Select(sessionData, featureNames).row) == Raised(r.message)
    ensures r.Probability? ==>
      |featureNames| == |Select(sessionData, featureNames).row|
      && scorer(Select(sessionData, featureNames).row) == Scored(r.p)
  {
    match Select(sessionData, featureNames)
    case KeyError(missing) => KeyErrorRaised(missing)
    case Selected(row) =>
      match scorer(row)
      case Scored(p) => Probability(p)
      case Raised(message) => ScorerRaised(message)
  }
}
