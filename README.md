# Cart-abandonment inference service: the feature reconciler

This project models the core of a cart-abandonment predictor: the Flask
`/predict` handler (`train_model.py`) and the scoring helper
`predict_cart_abandonment` (`predict.py`). Both turn a session payload
(feature name to raw JSON value) into the positional feature row that a
fitted scaler and classifier consume.

- The handler is **lenient**. A rename loop writes each one-hot column
  (`Is_Product_Details_viewed_Yes`, `Is_User_Logged_In_Yes`) from its logical
  flag in the original payload, or 0. The logical flags are then dropped, and
  the frame is reindexed to the schema with 0 for every absent name. The
  handler logs the raw logical values with per-field defaults on a
  best-effort basis and answers `{"abandonment_probability": p}`, or
  `{"error": msg}` with status 400.
- The helper is **strict**. It selects exactly the schema columns, in schema
  order, and raises a `KeyError` if one is absent.

Modules:

- `Json` (`json.dfy`): scalar JSON values, payloads, and `dict.get`.
- `Scoring` (`scoring.dfy`): the opaque scaler and classifier, given as a
  function parameter that returns the rounded probability or raises.
- `Reconciler` (`reconciler.dfy`): the rename loop as an imperative method
  over a local map, plus its specification functions. `ColumnValue` is a
  reference definition that needs no loop, and the lemmas connect the two.
- `SessionLog` (`session_log.dfy`): the logged row, and the `session_logs`
  table as a class whose `Append` may fail without raising.
- `Endpoint` (`endpoint.dfy`): the handler. `Respond` is the response as a
  function. `Predict` is the request as a method over the log store.
- `StrictPredict` (`strict_predict.dfy`): strict column selection, with its
  contrast to the lenient reconciler.

Points of the code's behaviour that the model keeps:

- The handler writes each one-hot column unconditionally, with 0 when the
  logical flag is absent, and so overwrites a `_Yes` value the payload
  supplied itself.
- The handler validates neither the schema nor the rules and checks no length
  before scoring; the model adds no such errors.
- A schema entry named like a logical flag is always 0, because the drop
  comes before the reindex.

## Model

| member | source | states |
|---|---|---|
| Reconciler.EncoderOf | train_model.py:29-30 | the column written by the loop takes its value from the last rule that writes it; None exactly when no rule writes the column, else a rule's logical key |
| Reconciler.RenamedAt | train_model.py:29-30 | after the rename loop a column holds the original payload's value of its last rule's logical key (or 0), and untouched columns keep the payload's value (or are absent) |
| Reconciler.ReconciledAt | train_model.py:21-35 | the reconciled row has length \|feature_names\|, and position i holds the reference value of feature_names[i] |
| Reconciler.Reconcile | train_model.py:21-35 | the rename loop, in-place drop and reindex yield the reconciled row: schema length, schema order, each entry equal to the reference column value |
| Reconciler.MissingColumnIsZero | train_model.py:35 | a schema name that is absent and not written by a rule is filled with 0 (no error) |
| Reconciler.SuppliedColumnIsCopied | train_model.py:21-35 | a supplied schema name that is no rule's key is copied from the payload |
| Reconciler.EncodedColumnTakesLogicalValue | train_model.py:29-30 | an encoded column takes its logical key's original value or 0, even when the payload supplied the encoded column |
| Reconciler.LogicalColumnIsZero | train_model.py:32-35 | a schema name that is a logical key is always 0, whether or not the payload had it |
| Reconciler.ReconciledDependsOnlyOnRelevantKeys | train_model.py:21-35 | payloads that agree on the logical keys and on the schema names no rule writes reconcile to the same row |
| Reconciler.IrrelevantKeyIgnored | train_model.py:21-35 | setting or removing a key that is no logical key, and either outside the schema or overwritten by a rule, leaves the row unchanged |
| Reconciler.RelevantKeyMatters | train_model.py:35 | conversely, a schema name no rule touches is read from the payload: its new value appears at its position |
| SessionLog.BuildLogRowColumns | train_model.py:74-86 | the logged row holds the raw logical payload values, with None for user_id, 0.0 for Bounce_Rate and 0 for any other absent field, then the probability and the timestamp as given |
| SessionLog.LogRowIgnoresOtherKeys | train_model.py:74-86 | a payload key that is not one of the nine logged keys does not reach the logged row |
| SessionLog.SessionLogStore.Append | train_model.py:47-92 | a committed write appends exactly the row; a failed one leaves the table as it was and raises nothing |
| Endpoint.Respond | train_model.py:14-99 | for an object body the response is the scorer's probability p on the full-length reconciled row, or the scorer's exception message with status 400; a non-object body fails with Python's AttributeError message |
| Endpoint.ResponseMirrorsScorer | train_model.py:44-99 | both directions: the response is Probability(p) exactly when the scorer returns p on the reconciled row, and Error(m) exactly when it raises m |
| Endpoint.Predict | train_model.py:14-99 | the response equals Respond whether or not the log write commits, and is a probability exactly when the body is an object and the scorer succeeds; the table gains one row with the same probability exactly when scoring succeeded and the write committed |
| Endpoint.BinaryMappingsKeys | train_model.py:24-27 | the handler's logical keys are the two flags, its encoded columns their `_Yes` forms, each encoded column fed by its own flag |
| Endpoint.MissingFieldsNeverFail | train_model.py:21-45 | reconciliation never raises: whatever fields are missing or extra, a scorer that accepts rows of schema length yields a probability |
| Endpoint.ErrorsComeFromScoring | train_model.py:98-99 | every error for an object body is the scorer's exception message on the full-length reconciled row |
| Endpoint.ResponseDependsOnlyOnRow | train_model.py:35-96 | two payloads with the same reconciled row get the same response |
| Endpoint.UnknownKeyIgnored | train_model.py:21-35 | a key in neither the schema nor the rules, such as user_id, does not change the response when set or removed |
| Endpoint.OneHotColumnsFollowLogicalFlags | train_model.py:29-83 | each `_Yes` column holds its flag's payload value or 0, and the log row records that same value under the logical name |
| Endpoint.LogicalFlagColumnsAreZero | train_model.py:32-35 | a schema entry named like a logical flag is always 0 |
| Endpoint.ExampleSessionReconciles | streamlit_app.py:35-45 | the dashboard's payload reconciles to its values in schema order, with the flags under their `_Yes` columns and user_id ignored |
| Endpoint.ExampleWithoutClicks | train_model.py:35 | dropping No_of_Product_Clicks puts 0 at its position; nothing else moves |
| StrictPredict.Missing | predict.py:15 | lists exactly the schema names absent from the session |
| StrictPredict.Select | predict.py:15 | selection succeeds exactly when every schema name is a session key, and then lists the session's values in schema order; otherwise it raises a KeyError naming exactly the absent columns |
| StrictPredict.MissingDependsOnlyOnSchemaKeys | predict.py:15 | sessions with the same schema keys present have the same missing list |
| StrictPredict.SelectDependsOnlyOnSchemaKeys | predict.py:15 | sessions that agree on the schema names select the same result |
| StrictPredict.ExtraKeyIgnored | predict.py:15 | a session key outside the schema does not change the selection when set or removed |
| StrictPredict.StrictAgreesWithLenient | predict.py:15 | where selection succeeds and no schema name is a rule key, the lenient reconciler gives the same row |
| StrictPredict.LenientFillsWhatStrictRejects | predict.py:15 | a name that strict selection reports absent, and that no rule writes, is 0 in the lenient row |
| StrictPredict.StrictDoesNotRename | predict.py:15 | a session that supplies only a logical flag fails strict selection of the encoded column, which the lenient row fills from the flag |
| StrictPredict.PredictCartAbandonment | predict.py:9-23 | a KeyError, carrying the absent names, escapes exactly when some schema name is absent; the result is a probability exactly when selection succeeds and the scorer returns one, and that probability is the scorer's on the selected row; otherwise it is the scorer's own exception message |

## Left out

- Scaling, `predict_proba` and `round(proba, 4)`: scikit-learn objects and floating point. They are one function parameter (`Scoring.Scorer`) that returns a probability or raises. The model states only that the response and the log row carry the same value.
- SQLite I/O: connecting, the `CREATE TABLE IF NOT EXISTS` statement, binding values, committing. Whether the write committed is a parameter of `Predict`. The auto-incremented `id` column and the column types are not modelled.
- The timestamp from `datetime.now().isoformat()` is a parameter. `print` diagnostics, `joblib.load`, Flask routing and `/health` are not modelled.
- Request decoding: the handler is modelled from the decoded JSON value. A body that is not JSON (Flask raises before `.get`) is not modelled.
- `Json.Value` has no NaN or Infinity, which Python's JSON decoder accepts in a request body; such values are not modelled.
- Arrays and objects as payload values: only scalar JSON values are modelled, because pandas' column assignment of a list is library behaviour.
- StrictPredict.Select: the exception carries the list of absent names; pandas' exact message text is not modelled.
- `streamlit_app.py` (widgets, HTTP client, risk-tier thresholds, charts), `setup_db.py` and `view_logs.py` are not part of this model.
