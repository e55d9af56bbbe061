/** The row the `/predict` handler logs for each scored session, and the table it appends to. */
module SessionLog {
  import opened Json

  /** One `session_logs` row, without its auto-incremented id. */
  datatype LogRow = LogRow(
    userId: Value,
    isProductDetailsViewed: Value,
    noItemsAddedInCart: Value,
    sessionActivityCount: Value,
    noOfProductClicks: Value,
    bounceRate: Value,
    timeSpentOnSite: Value,
    isUserLoggedIn: Value,
    userPriorAbandonmentHistory: Value,
    prediction: real,
    timestampLogged: string)

  /** The payload keys the row reads, in column order. */
  const LOGGED_KEYS: seq<string> := [
    "user_id", "Is_Product_Details_viewed", "No_Items_Added_InCart",
    "Session_Activity_Count", "No_of_Product_Clicks", "Bounce_Rate",
    "Time_Spent_on_Site", "Is_User_Logged_In", "User_Prior_Abandonment_History"]

  /**
   * The inserted row: the RAW payload values under their logical names, with
   * `None` for a missing `user_id`, `0.0` for a missing `Bounce_Rate` and `0`
   * for any other missing field; then the rounded probability and the time.
   */
  function BuildLogRow(input: Payload, prediction: real, timestamp: string): LogRow {
    LogRow(
      Get(input, "user_id", Null),
      Get(input, "Is_Product_Details_viewed", ZERO),
      Get(input, "No_Items_Added_InCart", ZERO),
      Get(input, "Session_Activity_Count", ZERO),
      Get(input, "No_of_Product_Clicks", ZERO),
      Get(input, "Bounce_Rate", Real(0.0)),
      Get(input, "Time_Spent_on_Site", ZERO),
      Get(input, "Is_User_Logged_In", ZERO),
      Get(input, "User_Prior_Abandonment_History", ZERO),
      prediction,
      timestamp)
  }

  /** The raw input columns of a row, in column order. */
  function Inputs(row: LogRow): seq<Value> {
    [row.userId, row.isProductDetailsViewed, row.noItemsAddedInCart,
     row.sessionActivityCount, row.noOfProductClicks, row.bounceRate,
     row.timeSpentOnSite, row.isUserLoggedIn, row.userPriorAbandonmentHistory]
  }

  /** The default each logged column takes when its key is absent. */
  function DefaultFor(key: string): Value {
    if key == "user_id" then Null
    else if key == "Bounce_Rate" then Real(0.0)
    else ZERO
  }

  /**
   * Column j of the row is the payload's value of the j-th logged key, or
   * that key's default; the probability and the timestamp are stored as given.
   */
  lemma BuildLogRowColumns(input: Payload, prediction: real, timestamp: string, j: int)
    requires 0 <= j < |LOGGED_KEYS|
    ensures |Inputs(BuildLogRow(input, prediction, timestamp))| == |LOGGED_KEYS|
    ensures Inputs(BuildLogRow(input, prediction, timestamp))[j]
            == Get(input, LOGGED_KEYS[j], DefaultFor(LOGGED_KEYS[j]))
    ensures BuildLogRow(input, prediction, timestamp).prediction == prediction
    ensures BuildLogRow(input, prediction, timestamp).timestampLogged == timestamp
  {
  }

  /** A payload key outside the logged keys does not reach the row. */
  lemma LogRowIgnoresOtherKeys(input: Payload, prediction: real, timestamp: string, k: string, v: Value)
    requires k !in LOGGED_KEYS
    ensures BuildLogRow(input[k := v], prediction, timestamp) == BuildLogRow(input, prediction, timestamp)
  {
  }

  /** The `session_logs` table: rows in insertion order. */
  class SessionLogStore {
    var rows: seq<LogRow>

    constructor ()
      ensures rows == []
    {
      rows := [];
    }

    /**
     * One logging attempt. `committed` says whether connecting, creating the
     * table, inserting and committing all succeeded; when any of them raised,
     * the exception is swallowed and the table keeps its old rows.
     */
    method Append(row: LogRow, committed: bool)
      modifies this
      ensures rows == if committed then old(rows) + [row] else old(rows)
    {
      if committed {
        rows := rows + [row];
      }
    }
  }
}
