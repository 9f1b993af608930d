/** Tables in the shape the pipeline's pandas DataFrames have: an ordered list
    of column names and an ordered list of rows, each row identified by its
    composite key (param_index, init_cond_index). The two key columns are
    implicit: every table has them, and they come first. */
module Frames {
  import opened Wrappers
  import opened Seqs

  /** A cell as numpy/pandas hold it: a float, NaN, a string or a boolean. */
  datatype Value = Num(x: real) | NaN | Str(s: string) | Flag(b: bool)

  function AsNumber(v: Value): Option<real> {
    match v
    case Num(x) => Some(x)
    case Flag(b) => Some(if b then 1.0 else 0.0)
    case _ => None
  }

  /** Element-wise `*` of two cells; NaN (or a non-number) on either side gives NaN. */
  function Mul(a: Value, b: Value): Value {
    if AsNumber(a).Some? && AsNumber(b).Some? then Num(AsNumber(a).value * AsNumber(b).value) else NaN
  }

  datatype Key = Key(paramIndex: int, initCondIndex: int)

  /** A cell that is absent from `cells` reads as NaN, as in pandas after a
      merge or an enlarging assignment. */
  datatype Row = Row(key: Key, cells: map<string, Value>)

  datatype Table = Table(columns: seq<string>, rows: seq<Row>)

  function Get(r: Row, c: string): Value {
    if c in r.cells then r.cells[c] else NaN
  }

  /** `df[c]` as a list of cells */
  function Column(t: Table, c: string): (col: seq<Value>)
    ensures |col| == |t.rows|
  {
    seq(|t.rows|, i requires 0 <= i < |t.rows| => Get(t.rows[i], c))
  }

  function Keys(rows: seq<Row>): set<Key> {
    set r | r in rows :: r.key
  }

  function ParamIndexSet(rows: seq<Row>): set<int> {
    set r | r in rows :: r.key.paramIndex
  }

  /** `df[c] = vals`: overwrite column c where it stands, or append it. */
  function Assign(t: Table, c: string, vals: seq<Value>): (r: Table)
    requires |vals| == |t.rows|
    ensures |r.rows| == |t.rows|
  {
    Table(if c in t.columns then t.columns else t.columns + [c],
          seq(|t.rows|, i requires 0 <= i < |t.rows| => Row(t.rows[i].key, t.rows[i].cells[c := vals[i]])))
  }

  /** A column of n copies of one value (`df[c] = scalar`). */
  function Fill(n: nat, v: Value): (vals: seq<Value>)
    ensures |vals| == n && forall i :: 0 <= i < n ==> vals[i] == v
  {
    seq(n, _ => v)
  }

  function Times(a: seq<Value>, b: seq<Value>): (r: seq<Value>)
    requires |a| == |b|
    ensures |r| == |a|
  {
    seq(|a|, i requires 0 <= i < |a| => Mul(a[i], b[i]))
  }

  /** The first row carrying key k (pandas `set_index(...)[c].to_dict()` and
      merges agree with it while keys are unique). */
  function Lookup(rows: seq<Row>, k: Key): (m: Option<Row>)
    ensures m.Some? ==> m.value in rows && m.value.key == k
    ensures m.None? <==> k !in Keys(rows)
  {
    if rows == [] then None
    else if rows[0].key == k then Some(rows[0])
    else
      var m := Lookup(rows[1..], k);
      assert Keys(rows) == {rows[0].key} + Keys(rows[1..]);
      m
  }

  /** `df[~df['param_index'].isin(failed)]` */
  function Purge(t: Table, failed: set<int>): (r: Table)
    ensures r.columns == t.columns
    ensures forall row :: row in r.rows <==> row in t.rows && row.key.paramIndex !in failed
  {
    Table(t.columns, Filter(t.rows, (row: Row) => row.key.paramIndex !in failed))
  }

  /** Purging distributes over concatenation of rows, so it keeps the
      surviving rows in their original order. */
  lemma PurgeAppend(a: seq<Row>, b: seq<Row>, cols: seq<string>, failed: set<int>)
    ensures Purge(Table(cols, a + b), failed).rows == Purge(Table(cols, a), failed).rows + Purge(Table(cols, b), failed).rows
  {
    FilterAppend(a, b, (row: Row) => row.key.paramIndex !in failed);
  }

  function RenameRow(r: Row, src: string, dst: string): Row {
    Row(r.key, (r.cells - {src})[dst := Get(r, src)])
  }

  /** `df.rename(columns={src: dst})` for one column. */
  function RenameColumn(t: Table, src: string, dst: string): (r: Table)
    ensures |r.columns| == |t.columns| && |r.rows| == |t.rows|
  {
    if src !in t.columns || src == dst then t
    else
      Table(seq(|t.columns|, i requires 0 <= i < |t.columns| => if t.columns[i] == src then dst else t.columns[i]),
            seq(|t.rows|, i requires 0 <= i < |t.rows| => RenameRow(t.rows[i], src, dst)))
  }

  /** `df.rename(columns=dict(pairs))`, applied pair by pair. */
  function RenameColumns(t: Table, pairs: seq<(string, string)>): (r: Table)
    ensures |r.columns| == |t.columns| && |r.rows| == |t.rows|
    decreases |pairs|
  {
    if pairs == [] then t
    else RenameColumn(RenameColumns(t, pairs[..|pairs| - 1]), pairs[|pairs| - 1].0, pairs[|pairs| - 1].1)
  }

  /** Renames that do not interfere: no target is also a source, and sources
      and targets are each distinct. A dict-based `df.rename` and the
      pair-by-pair fold agree on such renames. */
  predicate Independent(pairs: seq<(string, string)>) {
    && (forall i, j :: 0 <= i < |pairs| && 0 <= j < |pairs| ==> pairs[i].0 != pairs[j].1)
    && (forall i, j :: 0 <= i < j < |pairs| ==> pairs[i].0 != pairs[j].0 && pairs[i].1 != pairs[j].1)
  }

  lemma RenameColumnFacts(t: Table, src: string, dst: string)
    ensures var r := RenameColumn(t, src, dst);
      && (forall c :: c in r.columns <==> (c in t.columns && c != src) || (c == dst && src in t.columns))
      && (forall j :: 0 <= j < |t.rows| ==> r.rows[j].key == t.rows[j].key)
      && (forall j, c :: 0 <= j < |t.rows| ==>
            Get(r.rows[j], c) == if src !in t.columns || src == dst || c !in {src, dst} then Get(t.rows[j], c)
                                 else if c == dst then Get(t.rows[j], src) else NaN)
  {
    RenameColumnMembers(t, src, dst);
  }

  lemma RenameColumnMembers(t: Table, src: string, dst: string)
    ensures var r := RenameColumn(t, src, dst);
      forall c :: c in r.columns <==> (c in t.columns && c != src) || (c == dst && src in t.columns)
  {
    var r := RenameColumn(t, src, dst);
    if src in t.columns && src != dst {
      forall c | c in t.columns && c != src ensures c in r.columns {
        var i :| 0 <= i < |t.columns| && t.columns[i] == c;
        assert r.columns[i] == c;
      }
      var i :| 0 <= i < |t.columns| && t.columns[i] == src;
      assert r.columns[i] == dst;
    }
  }

  /** Renaming non-interfering pairs one after the other: the renamed columns
      carry their source's cells, every other column is untouched, and a
      pair whose source is absent does nothing. */
  lemma RenameColumnsFacts(t: Table, pairs: seq<(string, string)>)
    requires Independent(pairs)
    ensures var r := RenameColumns(t, pairs);
      && (forall c :: c in r.columns <==>
            (c in t.columns && forall k :: 0 <= k < |pairs| ==> c != pairs[k].0) ||
            (exists k :: 0 <= k < |pairs| && c == pairs[k].1 && pairs[k].0 in t.columns))
      && (forall j :: 0 <= j < |t.rows| ==> r.rows[j].key == t.rows[j].key)
      && (forall j, k :: 0 <= j < |t.rows| && 0 <= k < |pairs| && pairs[k].0 in t.columns ==>
            Get(r.rows[j], pairs[k].1) == Get(t.rows[j], pairs[k].0))
      && (forall j, k :: 0 <= j < |t.rows| && 0 <= k < |pairs| && pairs[k].0 !in t.columns ==>
            Get(r.rows[j], pairs[k].1) == Get(t.rows[j], pairs[k].1))
      && (forall j, c :: 0 <= j < |t.rows| && (forall k :: 0 <= k < |pairs| ==> c != pairs[k].0 && c != pairs[k].1) ==>
            Get(r.rows[j], c) == Get(t.rows[j], c))
  {
    RenamedMembers(t, pairs);
    RenamedKeys(t, pairs);
    RenamedOthers(t, pairs);
    RenamedTargets(t, pairs);
  }

  lemma {:induction false} RenamedMembers(t: Table, pairs: seq<(string, string)>)
    requires Independent(pairs)
    ensures var r := RenameColumns(t, pairs);
      forall c :: c in r.columns <==>
        (c in t.columns && forall k :: 0 <= k < |pairs| ==> c != pairs[k].0) ||
        (exists k :: 0 <= k < |pairs| && c == pairs[k].1 && pairs[k].0 in t.columns)
    decreases |pairs|
  {
    if pairs != [] {
      var n := |pairs| - 1;
      var init := pairs[..n];
      var (src, dst) := pairs[n];
      assert Independent(init);
      RenamedMembers(t, init);
      var mid := RenameColumns(t, init);
      RenameColumnMembers(mid, src, dst);
      assert forall k :: 0 <= k < n ==> init[k] == pairs[k];
      assert src in mid.columns <==> src in t.columns;
    }
  }

  lemma {:induction false} RenamedKeys(t: Table, pairs: seq<(string, string)>)
    ensures var r := RenameColumns(t, pairs);
      forall j :: 0 <= j < |t.rows| ==> r.rows[j].key == t.rows[j].key
    decreases |pairs|
  {
    if pairs != [] {
      var n := |pairs| - 1;
      RenamedKeys(t, pairs[..n]);
      RenameColumnFacts(RenameColumns(t, pairs[..n]), pairs[n].0, pairs[n].1);
    }
  }

  lemma {:induction false} RenamedOthers(t: Table, pairs: seq<(string, string)>)
    ensures var r := RenameColumns(t, pairs);
      forall j, c :: 0 <= j < |t.rows| && (forall k :: 0 <= k < |pairs| ==> c != pairs[k].0 && c != pairs[k].1) ==>
        Get(r.rows[j], c) == Get(t.rows[j], c)
    decreases |pairs|
  {
    if pairs != [] {
      var n := |pairs| - 1;
      var init := pairs[..n];
      RenamedOthers(t, init);
      RenameColumnFacts(RenameColumns(t, init), pairs[n].0, pairs[n].1);
      assert forall k :: 0 <= k < n ==> init[k] == pairs[k];
    }
  }

  lemma {:induction false} RenamedTargets(t: Table, pairs: seq<(string, string)>)
    requires Independent(pairs)
    ensures var r := RenameColumns(t, pairs);
      forall j, k :: 0 <= j < |t.rows| && 0 <= k < |pairs| ==>
        Get(r.rows[j], pairs[k].1) == Get(t.rows[j], if pairs[k].0 in t.columns then pairs[k].0 else pairs[k].1)
    decreases |pairs|
  {
    if pairs != [] {
      var n := |pairs| - 1;
      var init := pairs[..n];
      var (src, dst) := pairs[n];
      assert Independent(init);
      RenamedTargets(t, init);
      RenamedMembers(t, init);
      RenamedOthers(t, init);
      RenameColumnFacts(RenameColumns(t, init), src, dst);
      assert forall k :: 0 <= k < n ==> init[k] == pairs[k];
      assert src in RenameColumns(t, init).columns <==> src in t.columns;
    }
  }

  /** `for src, dst in pairs: df[dst] = df[src]` */
  function CopyColumns(t: Table, pairs: seq<(string, string)>): (r: Table)
    ensures |r.rows| == |t.rows|
    decreases |pairs|
  {
    if pairs == [] then t
    else
      var mid := CopyColumns(t, pairs[..|pairs| - 1]);
      Assign(mid, pairs[|pairs| - 1].1, Column(mid, pairs[|pairs| - 1].0))
  }

  lemma AssignFacts(t: Table, c: string, vals: seq<Value>)
    requires |vals| == |t.rows|
    ensures var r := Assign(t, c, vals);
      && (forall c' :: c' in r.columns <==> c' in t.columns || c' == c)
      && |t.columns| <= |r.columns| && r.columns[..|t.columns|] == t.columns
      && (forall j :: 0 <= j < |t.rows| ==> r.rows[j].key == t.rows[j].key && Get(r.rows[j], c) == vals[j])
      && (forall j, c' :: 0 <= j < |t.rows| && c' != c ==> Get(r.rows[j], c') == Get(t.rows[j], c'))
  {
  }

  /** `df[[c for c in order if c in df.columns]]` */
  function Project(t: Table, order: seq<string>): (r: Table)
    ensures |r.rows| == |t.rows|
  {
    var cols := Filter(order, c => c in t.columns);
    Table(cols, seq(|t.rows|, i requires 0 <= i < |t.rows| =>
      Row(t.rows[i].key, map c | c in t.rows[i].cells && c in cols :: t.rows[i].cells[c])))
  }

  /** A left row extended with the `added` cells of its partner row (NaN when
      it has none). */
  function Joined(l: Row, m: Option<Row>, added: seq<string>): Row {
    Row(l.key, l.cells + map c | c in added :: if m.Some? then Get(m.value, c) else NaN)
  }

  function NewColumns(existing: seq<string>, cols: seq<string>): seq<string> {
    Filter(cols, c => c !in existing)
  }

  /** `left.merge(right[cols], on=key, how='left')`: every left row, in
      order, with the right columns the left table lacks. */
  function LeftMerge(left: Table, right: Table, cols: seq<string>): (r: Table)
    ensures |r.rows| == |left.rows|
  {
    var added := NewColumns(left.columns, cols);
    Table(left.columns + added,
          seq(|left.rows|, i requires 0 <= i < |left.rows| => Joined(left.rows[i], Lookup(right.rows, left.rows[i].key), added)))
  }

  predicate Matched(right: Table, r: Row) {
    Lookup(right.rows, r.key).Some?
  }

  /** `pd.merge(left, right[cols], on=key, how='inner')`: the left rows that
      have a partner, in left order. */
  function InnerMerge(left: Table, right: Table, cols: seq<string>): (r: Table)
    ensures |r.rows| <= |left.rows|
  {
    var added := NewColumns(left.columns, cols);
    var kept := Filter(left.rows, (row: Row) => Matched(right, row));
    Table(left.columns + added,
          seq(|kept|, i requires 0 <= i < |kept| => Joined(kept[i], Lookup(right.rows, kept[i].key), added)))
  }

  /** Every row of an inner merge is a left row with a partner: the keys
      are those the two tables share, and each row keeps its left row's
      cells apart from the added columns, which come from the partner. */
  lemma InnerMergeFacts(left: Table, right: Table, cols: seq<string>)
    ensures var r := InnerMerge(left, right, cols);
      var added := NewColumns(left.columns, cols);
      && r.columns == left.columns + added
      && Keys(r.rows) == Keys(left.rows) * Keys(right.rows)
      && (forall row :: row in r.rows ==>
            row.key in Keys(right.rows) &&
            (forall c :: c in added ==> Get(row, c) == Get(Lookup(right.rows, row.key).value, c)) &&
            exists l :: l in left.rows && l.key == row.key && forall c :: c !in added ==> Get(row, c) == Get(l, c))
  {
    var r := InnerMerge(left, right, cols);
    var added := NewColumns(left.columns, cols);
    var kept := Filter(left.rows, (row: Row) => Matched(right, row));
    forall row | row in r.rows
      ensures row.key in Keys(right.rows)
      ensures forall c :: c in added ==> Get(row, c) == Get(Lookup(right.rows, row.key).value, c)
      ensures exists l :: l in left.rows && l.key == row.key && forall c :: c !in added ==> Get(row, c) == Get(l, c)
    {
      var i :| 0 <= i < |r.rows| && r.rows[i] == row;
      assert kept[i] in kept;
      assert forall c :: c !in added ==> Get(row, c) == Get(kept[i], c);
    }
    forall k | k in Keys(left.rows) * Keys(right.rows) ensures k in Keys(r.rows) {
      var l :| l in left.rows && l.key == k;
      assert l in kept;
      var i :| 0 <= i < |kept| && kept[i] == l;
      assert r.rows[i].key == k;
    }
  }

  /** The row written by `df.at[idx, c] = v` when a value is given for its key. */
  function WrittenAt(row: Row, c: string, value: Key -> Option<Value>): Row {
    if value(row.key).Some? then Row(row.key, row.cells[c := value(row.key).value]) else row
  }

  /** `for idx, row in df.iterrows(): df.at[idx, c] = ...` over the rows
      whose key has a value; the first write to a new column appends it. */
  function AtRows(t: Table, c: string, value: Key -> Option<Value>): (r: Table)
    ensures |r.rows| == |t.rows|
  {
    Table(if c in t.columns || forall j :: 0 <= j < |t.rows| ==> value(t.rows[j].key).None? then t.columns else t.columns + [c],
          seq(|t.rows|, j requires 0 <= j < |t.rows| => WrittenAt(t.rows[j], c, value)))
  }

  /** The row-by-row loop itself. */
  method SetAt(t: Table, c: string, value: Key -> Option<Value>) returns (r: Table)
    ensures r == AtRows(t, c, value)
  {
    var rows := t.rows;
    var columns := t.columns;
    for j := 0 to |t.rows|
      invariant |rows| == |t.rows|
      invariant forall i :: 0 <= i < j ==> rows[i] == WrittenAt(t.rows[i], c, value)
      invariant forall i :: j <= i < |t.rows| ==> rows[i] == t.rows[i]
      invariant columns == if c in t.columns || forall i :: 0 <= i < j ==> value(t.rows[i].key).None? then t.columns else t.columns + [c]
    {
      var v := value(rows[j].key);
      if v.Some? {
        rows := rows[j := Row(rows[j].key, rows[j].cells[c := v.value])];
        if c !in columns {
          columns := columns + [c];
        }
      }
    }
    r := Table(columns, rows);
  }

  /** Writing at rows keeps the rows, their keys and the table's columns in
      front; a row gets the value given for its key and no other cell
      changes. */
  lemma AtRowsFacts(t: Table, c: string, value: Key -> Option<Value>)
    ensures var r := AtRows(t, c, value);
      && |t.columns| <= |r.columns| && r.columns[..|t.columns|] == t.columns
      && (forall c' :: c' in r.columns ==> c' in t.columns || c' == c)
      && (forall j :: 0 <= j < |t.rows| ==> r.rows[j].key == t.rows[j].key)
      && (forall j :: 0 <= j < |t.rows| && value(t.rows[j].key).Some? ==>
            c in r.columns && Get(r.rows[j], c) == value(t.rows[j].key).value)
      && (forall j :: 0 <= j < |t.rows| && value(t.rows[j].key).None? ==> r.rows[j] == t.rows[j])
      && (forall j, c' :: 0 <= j < |t.rows| && c' != c ==> Get(r.rows[j], c') == Get(t.rows[j], c'))
  {
  }

  /** The two tables have the same rows, key for key. */
  predicate SameKeys(a: Table, b: Table) {
    |a.rows| == |b.rows| && forall j :: 0 <= j < |a.rows| ==> a.rows[j].key == b.rows[j].key
  }

  lemma SameKeysKeys(a: Table, b: Table)
    requires SameKeys(a, b)
    ensures Keys(a.rows) == Keys(b.rows)
  {
    forall k | k in Keys(a.rows) ensures k in Keys(b.rows) {
      var r :| r in a.rows && r.key == k;
      var j :| 0 <= j < |a.rows| && a.rows[j] == r;
      assert b.rows[j] in b.rows;
    }
    forall k | k in Keys(b.rows) ensures k in Keys(a.rows) {
      var r :| r in b.rows && r.key == k;
      var j :| 0 <= j < |b.rows| && b.rows[j] == r;
      assert a.rows[j] in a.rows;
    }
  }
}
