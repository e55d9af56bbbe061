/**
 * The lenient feature reconciler of the `/predict` handler: renaming logical
 * keys to their one-hot columns, dropping the logical keys, and aligning the
 * one-row frame to the schema with a zero fill.
 */
module Reconciler {
  import opened Json

  datatype Option<T> = None | Some(value: T)

  /** A renaming rule `(logical, encoded)`, one entry of the rule dictionary in insertion order. */
  type Rule = (string, string)

  /** The logical keys of the rules: the columns the drop step removes. */
  function LogicalKeys(rules: seq<Rule>): set<string> {
    set r | r in rules :: r.0
  }

  /** The encoded columns the rename loop writes. */
  function EncodedKeys(rules: seq<Rule>): set<string> {
    set r | r in rules :: r.1
  }

  /**
   * The logical key whose value ends up in column `name` after the rename
   * loop: that of the LAST rule writing `name`, since a later assignment to a
   * column overwrites an earlier one.
   */
  function EncoderOf(rules: seq<Rule>, name: string): (o: Option<string>)
    ensures o.None? <==> name !in EncodedKeys(rules)
    ensures o.Some? ==> o.value in LogicalKeys(rules)
    ensures o.Some? ==> exists k :: 0 <= k < |rules| && rules[k] == (o.value, name)
                                    && forall j :: k < j < |rules| ==> rules[j].1 != name
  {
    if rules == [] then None
    else
      var last := rules[|rules| - 1];
      if last.1 == name then
        assert last in rules;
        Some(last.0)
      else
        var o := EncoderOf(rules[..|rules| - 1], name);
        assert forall r :: r in rules ==> r in rules[..|rules| - 1] || r == last;
        assert forall r :: r in rules[..|rules| - 1] ==> r in rules;
        o
  }

  /**
   * The frame after the rename loop has run over `rules`: each encoded column
   * is set to the ORIGINAL payload's value of its logical key, or 0.
   */
  function Renamed(input: Payload, rules: seq<Rule>): Payload
    decreases |rules|
  {
    if rules == [] then input
    else
      var last := rules[|rules| - 1];
      Renamed(input, rules[..|rules| - 1])[last.1 := Get(input, last.0, ZERO)]
  }

  /** `drop(columns=logical keys, errors='ignore')`: absent keys are no error. */
  function Dropped(frame: Payload, rules: seq<Rule>): Payload {
    frame - LogicalKeys(rules)
  }

  /** `reindex(columns=names, fill_value=0)`: one value per schema name, in schema order. */
  function Aligned(frame: Payload, names: seq<string>): seq<Value> {
    seq(|names|, i requires 0 <= i < |names| => Get(frame, names[i], ZERO))
  }

  /** The reconciled feature row. */
  function Reconciled(input: Payload, rules: seq<Rule>, names: seq<string>): seq<Value> {
    Aligned(Dropped(Renamed(input, rules), rules), names)
  }

  /**
   * Reference definition of one reconciled column, without the loop: a logical
   * key is always 0; an encoded column takes its logical key's payload value
   * (or 0); any other column takes the payload's own value (or 0).
   */
  function ColumnValue(input: Payload, rules: seq<Rule>, name: string): Value {
    if name in LogicalKeys(rules) then ZERO
    else match EncoderOf(rules, name)
      case Some(logical) => Get(input, logical, ZERO)
      case None => Get(input, name, ZERO)
  }

  /** After the rename loop, a column holds what `EncoderOf` says. */
  lemma {:induction false} RenamedAt(input: Payload, rules: seq<Rule>, name: string)
    ensures Get(Renamed(input, rules), name, ZERO)
            == match EncoderOf(rules, name)
               case Some(logical) => Get(input, logical, ZERO)
               case None => Get(input, name, ZERO)
    decreases |rules|
  {
    if rules != [] && rules[|rules| - 1].1 != name {
      RenamedAt(input, rules[..|rules| - 1], name);
    }
  }

  /** The reconciled row has one entry per schema name, and entry i is the reference value of `names[i]`. */
  lemma ReconciledAt(input: Payload, rules: seq<Rule>, names: seq<string>, i: int)
    requires 0 <= i < |names|
    ensures |Reconciled(input, rules, names)| == |names|
    ensures Reconciled(input, rules, names)[i] == ColumnValue(input, rules, names[i])
  {
    RenamedAt(input, rules, names[i]);
  }

  /**
   * The handler's reconciliation steps (rename loop, in-place drop,
   * reindex), run on a local copy of the one-row frame.
   */
  method Reconcile(input: Payload, rules: seq<Rule>, names: seq<string>) returns (row: seq<Value>)
    ensures row == Reconciled(input, rules, names)
    ensures |row| == |names|
    ensures forall i :: 0 <= i < |names| ==> row[i] == ColumnValue(input, rules, names[i])
  {
    var frame := input;
    for k := 0 to |rules|
      invariant frame == Renamed(input, rules[..k])
    {
      var (logical, encoded) := rules[k];
      frame := frame[encoded := Get(input, logical, ZERO)];
      assert rules[..k + 1][..k] == rules[..k];
    }
    assert rules[..|rules|] == rules;
    frame := frame - LogicalKeys(rules);
    row := Aligned(frame, names);
    forall i | 0 <= i < |names|
      ensures row[i] == ColumnValue(input, rules, names[i])
    {
      ReconciledAt(input, rules, names, i);
    }
  }

  /** A schema name that is neither supplied nor written by a rule is filled with 0. */
  lemma MissingColumnIsZero(input: Payload, rules: seq<Rule>, names: seq<string>, i: int)
    requires 0 <= i < |names|
    requires names[i] !in input && names[i] !in EncodedKeys(rules)
    ensures Reconciled(input, rules, names)[i] == ZERO
  {
    ReconciledAt(input, rules, names, i);
  }

  /** A schema name that is supplied and is no rule's key is copied from the payload. */
  lemma SuppliedColumnIsCopied(input: Payload, rules: seq<Rule>, names: seq<string>, i: int)
    requires 0 <= i < |names|
    requires names[i] in input
    requires names[i] !in LogicalKeys(rules) && names[i] !in EncodedKeys(rules)
    ensures Reconciled(input, rules, names)[i] == input[names[i]]
  {
    ReconciledAt(input, rules, names, i);
  }

  /**
   * An encoded column takes the value of its logical key in the original
   * payload, or 0, even when the payload supplied the encoded column itself.
   */
  lemma EncodedColumnTakesLogicalValue(input: Payload, rules: seq<Rule>, names: seq<string>, i: int, logical: string)
    requires 0 <= i < |names|
    requires names[i] !in LogicalKeys(rules)
    requires EncoderOf(rules, names[i]) == Some(logical)
    ensures Reconciled(input, rules, names)[i] == Get(input, logical, ZERO)
  {
  }

  /** A schema name that is literally a logical key is always 0: the drop comes before the reindex. */
  lemma LogicalColumnIsZero(input: Payload, rules: seq<Rule>, names: seq<string>, i: int)
    requires 0 <= i < |names|
    requires names[i] in LogicalKeys(rules)
    ensures Reconciled(input, rules, names)[i] == ZERO
  {
  }

  /**
   * The row depends on the payload only through the logical keys and the
   * schema names that no rule writes: two payloads that agree there give the
   * same row.
   */
  lemma ReconciledDependsOnlyOnRelevantKeys(a: Payload, b: Payload, rules: seq<Rule>, names: seq<string>)
    requires forall k :: k in LogicalKeys(rules) ==> Get(a, k, ZERO) == Get(b, k, ZERO)
    requires forall k :: k in names && k !in EncodedKeys(rules) ==> Get(a, k, ZERO) == Get(b, k, ZERO)
    ensures Reconciled(a, rules, names) == Reconciled(b, rules, names)
  {
    forall i | 0 <= i < |names|
      ensures Reconciled(a, rules, names)[i] == Reconciled(b, rules, names)[i]
    {
      ReconciledAt(a, rules, names, i);
      ReconciledAt(b, rules, names, i);
    }
  }

  /**
   * A payload key that is no logical key, and either is not in the schema or
   * is overwritten by a rule, is ignored: setting or removing it leaves the
   * row unchanged.
   */
  lemma IrrelevantKeyIgnored(input: Payload, rules: seq<Rule>, names: seq<string>, k: string, v: Value)
    requires k !in LogicalKeys(rules)
    requires k !in names || k in EncodedKeys(rules)
    ensures Reconciled(input[k := v], rules, names) == Reconciled(input, rules, names)
    ensures Reconciled(input - {k}, rules, names) == Reconciled(input, rules, names)
  {
    ReconciledDependsOnlyOnRelevantKeys(input[k := v], input, rules, names);
    ReconciledDependsOnlyOnRelevantKeys(input - {k}, input, rules, names);
  }

  /**
   * Conversely, a schema name that no rule touches is read from the payload:
   * changing its value changes the row at its position.
   */
  lemma RelevantKeyMatters(input: Payload, rules: seq<Rule>, names: seq<string>, i: int, v: Value)
    requires 0 <= i < |names|
    requires names[i] !in LogicalKeys(rules) && names[i] !in EncodedKeys(rules)
    ensures Reconciled(input[names[i] := v], rules, names)[i] == v
  {
    ReconciledAt(input[names[i] := v], rules, names, i);
  }
}
