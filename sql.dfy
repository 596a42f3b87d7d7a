/**
 * The partial-update builders of the PATCH routes: every provided field
 * becomes one `column = $n` item of the SET list, its value is pushed onto
 * the parameter list, and the row's id and team id follow as the last two
 * parameters. A placeholder $n binds the n-th parameter, values[n - 1].
 */
module Sql {
  import Text

  /** A bound query parameter. JSON.stringify output is kept as the list it serialises. */
  datatype Value = StrV(s: string) | NullV | IntV(i: int) | BoolV(b: bool) | ListV(items: seq<string>)

  /** One `column = $n` item of a SET list. */
  function SetItem(column: string, n: int): string {
    column + " = $" + Text.IntToString(n)
  }

  /** The WHERE clause that closes both PATCH queries, with its two placeholders. */
  function WhereIdTeam(n: int): string {
    "id = $" + Text.IntToString(n) + " AND team_id = $" + Text.IntToString(n + 1)
  }

  /** The parameter a placeholder $n binds, if there is one. */
  function Bound(values: seq<Value>, n: int): (v: Value)
    requires 1 <= n <= |values|
  {
    values[n - 1]
  }

  /** The (column, value) pair of one field test: one item when the field is given, none otherwise. */
  function Opt(present: bool, column: string, v: Value): seq<(string, Value)> {
    if present then [(column, v)] else []
  }

  /** The builder's state after some of the fields: items and values agree with the pairs fs. */
  ghost predicate Built(updates: seq<string>, values: seq<Value>, idx: int, fs: seq<(string, Value)>) {
    |updates| == |fs| && |values| == |fs| && idx == |fs| + 1
    && forall k :: 0 <= k < |fs| ==> updates[k] == SetItem(fs[k].0, k + 1) && values[k] == fs[k].1
  }

  /** One `if (field) { updates.push(`column = $${idx++}`); values.push(field); }` step. */
  method AddField(updates: seq<string>, values: seq<Value>, idx: int, ghost fs: seq<(string, Value)>,
                  present: bool, column: string, v: Value)
    returns (updates': seq<string>, values': seq<Value>, idx': int)
    requires Built(updates, values, idx, fs)
    ensures Built(updates', values', idx', fs + Opt(present, column, v))
  {
    updates', values', idx' := updates, values, idx;
    if present {
      updates' := updates' + [SetItem(column, idx')];
      idx' := idx' + 1;
      values' := values' + [v];
    }
    assert fs + Opt(present, column, v) == if present then fs + [(column, v)] else fs;
  }

  /** Closing the query: the id and team id go after the field values, and the WHERE clause binds them. */
  method Finish(updates: seq<string>, values: seq<Value>, idx: int, ghost fs: seq<(string, Value)>, id: int, team: int)
    returns (values': seq<Value>, where: string)
    requires Built(updates, values, idx, fs)
    ensures |values'| == |updates| + 2
    ensures forall k :: 0 <= k < |updates| ==> updates[k] == SetItem(fs[k].0, k + 1) && Bound(values', k + 1) == fs[k].1
    ensures where == WhereIdTeam(|updates| + 1)
    ensures Bound(values', |updates| + 1) == IntV(id) && Bound(values', |updates| + 2) == IntV(team)
  {
    values' := values + [IntV(id), IntV(team)];
    where := WhereIdTeam(idx);
  }

  /** The row after an UPDATE with the given SET items, applied left to right by `assign`. */
  function RunSet<R>(row: R, fs: seq<(string, Value)>, assign: (R, string, Value) -> R): R
    decreases |fs|
  {
    if fs == [] then row else RunSet(assign(row, fs[0].0, fs[0].1), fs[1..], assign)
  }

  lemma {:induction false} RunSetAppend<R>(row: R, a: seq<(string, Value)>, b: seq<(string, Value)>,
                                           assign: (R, string, Value) -> R)
    ensures RunSet(row, a + b, assign) == RunSet(RunSet(row, a, assign), b, assign)
    decreases |a|
  {
    if a == [] {
      assert a + b == b;
    } else {
      var r1 := assign(row, a[0].0, a[0].1);
      assert (a + b)[0] == a[0] && (a + b)[1..] == a[1..] + b;
      assert RunSet(row, a + b, assign) == RunSet(r1, a[1..] + b, assign);
      assert RunSet(row, a, assign) == RunSet(r1, a[1..], assign);
      RunSetAppend(r1, a[1..], b, assign);
    }
  }

  lemma RunSetOpt<R>(row: R, present: bool, column: string, v: Value, assign: (R, string, Value) -> R)
    ensures RunSet(row, Opt(present, column, v), assign) == if present then assign(row, column, v) else row
  {
    if present {
      assert Opt(present, column, v)[1..] == [];
    }
  }
}
