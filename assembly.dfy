/** `get_final_results`: the initial table inner-merged, step by step, with
    each step's tagged species and multiplier columns; the parameters that a
    knockout or an overexpression perturbed are refreshed from every later
    step's results; finally the columns are put in a fixed order. */
module Assembly {
  import opened Wrappers
  import opened Seqs
  import opened Text
  import opened Frames
  import opened Schema
  import opened Lineage

  /** The parameters a step adds to `perturbed_params`: a knockout's and an
      overexpression's targets; a knockdown adds none. */
  function TrackedParams(step: Step): seq<string> {
    match step
    case Knockout(_, _, ps, _) => ps
    case Overexpression(_, _, ps, _) => ps
    case Knockdown(_, _, _) => []
  }

  /** `perturbed_params` after the given steps, in order of first mention. */
  function Tracked(history: seq<Step>): (ps: seq<string>)
    ensures NoDup(ps)
    decreases |history|
  {
    if history == [] then [] else Dedupe(Tracked(history[..|history| - 1]) + TrackedParams(history[|history| - 1]))
  }

  /** Some knockout or overexpression among the steps targeted `p`. */
  predicate Targeted(p: string, history: seq<Step>) {
    exists i :: 0 <= i < |history| && p in TrackedParams(history[i])
  }

  lemma TargetedSnoc(p: string, history: seq<Step>)
    requires history != []
    ensures Targeted(p, history) <==>
              Targeted(p, history[..|history| - 1]) || p in TrackedParams(history[|history| - 1])
  {
    var n := |history| - 1;
    if Targeted(p, history) {
      var i :| 0 <= i < |history| && p in TrackedParams(history[i]);
      if i < n {
        assert history[..n][i] == history[i];
      }
    }
    if Targeted(p, history[..n]) {
      var i :| 0 <= i < n && p in TrackedParams(history[..n][i]);
      assert history[..n][i] == history[i];
    }
  }

  /** A parameter is tracked after the steps exactly when one of them is a
      knockout or overexpression that targeted it. */
  lemma {:induction false} TrackedMembers(history: seq<Step>)
    ensures forall p :: p in Tracked(history) <==> Targeted(p, history)
    decreases |history|
  {
    if history != [] {
      var n := |history| - 1;
      TrackedMembers(history[..n]);
      forall p ensures p in Tracked(history) <==> Targeted(p, history) {
        assert p in Tracked(history) <==> p in Tracked(history[..n]) + TrackedParams(history[n]);
        TargetedSnoc(p, history);
      }
    }
  }

  const MULTIPLIER_COLUMNS := [KNOCKDOWN_MULTIPLIER, OVEREXPRESSION_MULTIPLIER]

  function IsStateColumn(c: string): bool {
    Contains(c, "post")
  }

  function InColumns(columns: seq<string>): string -> bool {
    c => c in columns
  }

  function NotIn(columns: seq<string>): string -> bool {
    c => c !in columns
  }

  /** The columns a step's results contribute: its tagged species columns and
      its multiplier columns, none of the initial parameter columns. */
  function MergeColumns(results: Table, paramColumns: seq<string>): (mc: seq<string>)
    ensures forall c :: c in mc <==>
              c in results.columns && c !in paramColumns && (IsStateColumn(c) || c in MULTIPLIER_COLUMNS)
  {
    var candidates := Filter(results.columns, IsStateColumn) + Filter(MULTIPLIER_COLUMNS, InColumns(results.columns));
    Filter(Filter(candidates, NotIn(paramColumns)), InColumns(results.columns))
  }

  /** `param_values[key]` for the rows whose key the results hold. */
  function FromResults(results: Table, p: string): Key -> Option<Value> {
    k => var m := Lookup(results.rows, k); if m.Some? then Some(Get(m.value, p)) else None
  }

  /** The refresh of the tracked parameters that the results carry. */
  function Updated(t: Table, results: Table, params: seq<string>): (r: Table)
    ensures |r.rows| == |t.rows|
    decreases |params|
  {
    if params == [] then t
    else
      var prev := Updated(t, results, params[..|params| - 1]);
      var p := params[|params| - 1];
      if p in results.columns then AtRows(prev, p, FromResults(results, p)) else prev
  }

  /** The table after merging the given steps. */
  function Merged(initial: Table, history: seq<Step>): Table
    decreases |history|
  {
    if history == [] then initial
    else
      var n := |history| - 1;
      var results := history[n].results;
      var joined := InnerMerge(Merged(initial, history[..n]), results, MergeColumns(results, ParamColumns(initial)));
      Updated(joined, results, Tracked(history))
  }

  function ContainsText(t: string): string -> bool {
    c => Contains(c, t)
  }

  /** The species-column test of each step, in the order of the steps. */
  function StepSelectors(history: seq<Step>): (sels: seq<string -> bool>)
    ensures |sels| == |history|
  {
    seq(|history|, k requires 0 <= k < |history| => ContainsText("post " + history[k].gene))
  }

  /** The species columns of every step, in the order of the steps. */
  function StepColumns(columns: seq<string>, history: seq<Step>): seq<string> {
    Blocks(columns, StepSelectors(history), |history|)
  }

  /** The column order: the initial parameter columns, the input species,
      each step's species columns, the multiplier columns; first occurrence
      wins and only existing columns are kept. */
  function FinalOrder(initial: Table, history: seq<Step>, columns: seq<string>): seq<string> {
    Dedupe(ParamColumns(initial) + OrderTail(columns, history))
  }

  /** What follows the parameter columns in the column order. */
  function OrderTail(columns: seq<string>, history: seq<Step>): seq<string> {
    INPUT_STATES + StepColumns(columns, history) + Filter(MULTIPLIER_COLUMNS, InColumns(columns))
  }

  /** `get_final_results` */
  function FinalResults(initial: Table, history: seq<Step>): Table {
    if history == [] then initial
    else
      var merged := Merged(initial, history);
      Project(merged, FinalOrder(initial, history, merged.columns))
  }

  // ----- the merge fold -----

  /** The refresh keeps the rows and the leading columns and adds no column
      but a refreshed parameter. */
  lemma {:induction false} UpdatedShape(t: Table, results: Table, params: seq<string>)
    ensures var r := Updated(t, results, params);
      && SameKeys(r, t)
      && |t.columns| <= |r.columns| && r.columns[..|t.columns|] == t.columns
      && (forall c :: c in r.columns ==> c in t.columns || c in params)
    decreases |params|
  {
    if params != [] {
      var init := params[..|params| - 1];
      var p := params[|params| - 1];
      UpdatedShape(t, results, init);
      var prev := Updated(t, results, init);
      if p in results.columns {
        AtRowsFacts(prev, p, FromResults(results, p));
        var r := Updated(t, results, params);
        assert r.columns[..|t.columns|] == r.columns[..|prev.columns|][..|t.columns|];
        forall c | c in r.columns ensures c in t.columns || c in params {
          if c != p && c !in t.columns {
            assert c in init;
          }
        }
      }
      forall c | c in init ensures c in params {
        assert params == init + [p];
      }
    }
  }

  /** A cell after the refresh: the results' cell for the row's key when the
      parameter is refreshed and the results hold the key; otherwise the
      cell as it was. */
  function RefreshedCell(row: Row, c: string, results: Table, params: seq<string>): Value {
    if c in params && c in results.columns && row.key in Keys(results.rows)
    then Get(Lookup(results.rows, row.key).value, c)
    else Get(row, c)
  }

  lemma {:induction false} UpdatedCell(t: Table, results: Table, params: seq<string>, j: nat, c: string)
    requires j < |t.rows|
    ensures Get(Updated(t, results, params).rows[j], c) == RefreshedCell(t.rows[j], c, results, params)
    decreases |params|
  {
    if params != [] {
      var init := params[..|params| - 1];
      var p := params[|params| - 1];
      assert params == init + [p];
      UpdatedCell(t, results, init, j, c);
      UpdatedShape(t, results, init);
      var prev := Updated(t, results, init);
      var k := t.rows[j].key;
      assert prev.rows[j].key == k;
      if p in results.columns {
        AtRowsFacts(prev, p, FromResults(results, p));
        if c == p && k !in Keys(results.rows) {
          assert FromResults(results, p)(k).None?;
        }
      }
    }
  }

  /** The refresh: a parameter the results carry takes the results' cell
      for the row's key, when the results hold that key; every other cell
      stays. */
  lemma UpdatedValues(t: Table, results: Table, params: seq<string>)
    ensures var r := Updated(t, results, params);
      forall j, c :: 0 <= j < |t.rows| ==> Get(r.rows[j], c) == RefreshedCell(t.rows[j], c, results, params)
  {
    forall j, c | 0 <= j < |t.rows| ensures Get(Updated(t, results, params).rows[j], c) == RefreshedCell(t.rows[j], c, results, params) {
      UpdatedCell(t, results, params, j, c);
    }
  }

  /** Every step's results hold the key. */
  predicate InAllResults(k: Key, history: seq<Step>) {
    forall i :: 0 <= i < |history| ==> k in Keys(history[i].results.rows)
  }

  lemma InAllResultsSnoc(k: Key, history: seq<Step>)
    requires history != []
    ensures InAllResults(k, history) <==>
              InAllResults(k, history[..|history| - 1]) && k in Keys(history[|history| - 1].results.rows)
  {
    var n := |history| - 1;
    if InAllResults(k, history[..n]) && k in Keys(history[n].results.rows) {
      forall i | 0 <= i < |history| ensures k in Keys(history[i].results.rows) {
        if i < n {
          assert history[..n][i] == history[i];
        }
      }
    }
    if InAllResults(k, history) {
      forall i | 0 <= i < n ensures k in Keys(history[..n][i].results.rows) {
        assert history[..n][i] == history[i];
      }
    }
  }

  /** The rows that survive the merges are those whose key the initial
      table and every step's results share. */
  lemma {:induction false} MergedKeys(initial: Table, history: seq<Step>)
    ensures forall k :: k in Keys(Merged(initial, history).rows) <==>
              k in Keys(initial.rows) && InAllResults(k, history)
    decreases |history|
  {
    if history != [] {
      var n := |history| - 1;
      var results := history[n].results;
      MergedKeys(initial, history[..n]);
      var prev := Merged(initial, history[..n]);
      var joined := InnerMerge(prev, results, MergeColumns(results, ParamColumns(initial)));
      InnerMergeFacts(prev, results, MergeColumns(results, ParamColumns(initial)));
      UpdatedShape(joined, results, Tracked(history));
      SameKeysKeys(Merged(initial, history), joined);
      forall k ensures InAllResults(k, history) <==>
                       InAllResults(k, history[..n]) && k in Keys(results.rows) {
        InAllResultsSnoc(k, history);
      }
    }
  }

  /** The merged table starts with the initial table's columns. */
  lemma {:induction false} MergedColumns(initial: Table, history: seq<Step>)
    ensures var m := Merged(initial, history);
      |initial.columns| <= |m.columns| && m.columns[..|initial.columns|] == initial.columns
    decreases |history|
  {
    if history != [] {
      var n := |history| - 1;
      var results := history[n].results;
      MergedColumns(initial, history[..n]);
      var prev := Merged(initial, history[..n]);
      var joined := InnerMerge(prev, results, MergeColumns(results, ParamColumns(initial)));
      var m := Merged(initial, history);
      assert m == Updated(joined, results, Tracked(history));
      assert |prev.columns| <= |joined.columns| && joined.columns[..|prev.columns|] == prev.columns;
      UpdatedShape(joined, results, Tracked(history));
      PrefixOfPrefix(initial.columns, prev.columns, joined.columns);
      PrefixOfPrefix(initial.columns, joined.columns, m.columns);
    }
  }

  /** The last step that refreshed a parameter: one whose results carry it
      once it is tracked. */
  function LatestUpdate(history: seq<Step>, p: string): (u: Option<nat>)
    ensures u.Some? ==> u.value < |history| && p in history[u.value].results.columns
    decreases |history|
  {
    if history == [] then None
    else if p in Tracked(history) && p in history[|history| - 1].results.columns then Some(|history| - 1)
    else
      var u := LatestUpdate(history[..|history| - 1], p);
      assert u.Some? ==> history[..|history| - 1][u.value] == history[u.value];
      u
  }

  /** A parameter cell of a merged row: the results' cell of the last step
      that refreshed the parameter, or else the initial table's cell for
      the row's key. */
  predicate LatestCell(row: Row, p: string, initial: Table, history: seq<Step>) {
    var u := LatestUpdate(history, p);
    if u.Some? then
      row.key in Keys(history[u.value].results.rows) &&
      Get(row, p) == Get(Lookup(history[u.value].results.rows, row.key).value, p)
    else
      exists l :: l in initial.rows && l.key == row.key && Get(row, p) == Get(l, p)
  }

  /** A column that no step merges in. */
  predicate NeverMerged(p: string) {
    !IsStateColumn(p) && p !in MULTIPLIER_COLUMNS
  }

  /** Every cell of a never-merged column is as `LatestCell` says. */
  lemma {:induction false} MergedValues(initial: Table, history: seq<Step>, p: string)
    requires NeverMerged(p)
    ensures forall row :: row in Merged(initial, history).rows ==> LatestCell(row, p, initial, history)
    decreases |history|
  {
    if history == [] {
      forall row | row in initial.rows ensures LatestCell(row, p, initial, history) {
        assert row.key == row.key;
      }
    } else {
      var n := |history| - 1;
      var results := history[n].results;
      MergedValues(initial, history[..n], p);
      var prev := Merged(initial, history[..n]);
      var mc := MergeColumns(results, ParamColumns(initial));
      var joined := InnerMerge(prev, results, mc);
      InnerMergeFacts(prev, results, mc);
      UpdatedShape(joined, results, Tracked(history));
      UpdatedValues(joined, results, Tracked(history));
      var m := Merged(initial, history);
      assert p !in NewColumns(prev.columns, mc);
      forall row | row in m.rows ensures LatestCell(row, p, initial, history) {
        var j :| 0 <= j < |m.rows| && m.rows[j] == row;
        assert joined.rows[j] in joined.rows;
        if !(p in Tracked(history) && p in results.columns) {
          var l :| l in prev.rows && l.key == row.key && Get(joined.rows[j], p) == Get(l, p);
          assert LatestCell(l, p, initial, history[..n]);
          var u := LatestUpdate(history, p);
          if u.Some? {
            assert history[..n][u.value] == history[u.value];
          }
        }
      }
    }
  }

  // ----- the column order -----

  /** Some step's species columns include the column. */
  predicate OfSomeStep(c: string, history: seq<Step>) {
    exists i :: 0 <= i < |history| && Contains(c, "post " + history[i].gene)
  }

  /** One of the first `n` step tests picks the column exactly when the
      column names the gene of one of the first `n` steps. */
  lemma StepPicked(history: seq<Step>, n: nat, c: string)
    requires n <= |history|
    ensures Picked(StepSelectors(history), n, c) <==> exists i :: 0 <= i < n && Contains(c, "post " + history[i].gene)
  {
    var sels := StepSelectors(history);
    if Picked(sels, n, c) {
      var i :| 0 <= i < n && sels[i](c);
      assert Contains(c, "post " + history[i].gene);
    }
    if exists i :: 0 <= i < n && Contains(c, "post " + history[i].gene) {
      var i :| 0 <= i < n && Contains(c, "post " + history[i].gene);
      assert sels[i](c);
    }
  }

  lemma StepColumnsMembers(columns: seq<string>, history: seq<Step>)
    ensures forall c :: c in StepColumns(columns, history) <==> c in columns && OfSomeStep(c, history)
  {
    forall c ensures c in StepColumns(columns, history) <==> c in columns && OfSomeStep(c, history) {
      BlocksMembers(columns, StepSelectors(history), |history|, c);
      StepPicked(history, |history|, c);
    }
  }

  lemma CategoryHasNoSpace()
    ensures ' ' !in FOS_CATEGORY
  {
    forall k | 0 <= k < |FOS_CATEGORY| ensures FOS_CATEGORY[k] != ' ' {
      assert FOS_CATEGORY[k] == "FOS_category"[k];
    }
  }

  /** A name without a space is no step's species column. */
  lemma NoSpaceNoStep(c: string, g: string)
    requires ' ' !in c
    ensures !Contains(c, "post " + g)
  {
    ContainsChars(c, "post " + g);
    assert ("post " + g)[4] == ' ';
  }

  lemma CategoryIsNoStepColumn(g: string)
    ensures !Contains(FOS_CATEGORY, "post " + g)
  {
    CategoryHasNoSpace();
    NoSpaceNoStep(FOS_CATEGORY, g);
  }

  lemma CategoryOfNoStep(history: seq<Step>)
    ensures !OfSomeStep(FOS_CATEGORY, history)
  {
    forall i | 0 <= i < |history| ensures !Contains(FOS_CATEGORY, "post " + history[i].gene) {
      CategoryIsNoStepColumn(history[i].gene);
    }
  }

  /** Projecting onto `Dedupe(a + b)`: each column at most once, exactly the
      table's columns listed in `a` or `b`, in the order of their first
      occurrence in `a + b`, and `a` first when its columns are distinct and
      all in the table. */
  lemma ProjectDeduped(t: Table, a: seq<string>, b: seq<string>)
    ensures var r := Project(t, Dedupe(a + b));
      && NoDup(r.columns)
      && (forall c :: c in r.columns <==> c in t.columns && (c in a || c in b))
      && (forall c :: c in r.columns ==> c in a + b)
      && InOrderOf(a + b, r.columns)
      && (NoDup(a) && (forall c :: c in a ==> c in t.columns) ==>
            |a| <= |r.columns| && r.columns[..|a|] == a)
  {
    var p := c => c in t.columns;
    assert Project(t, Dedupe(a + b)).columns == Filter(Dedupe(a + b), p);
    DedupeFiltered(a, b, p);
    if NoDup(a) && (forall c :: c in a ==> c in t.columns) {
      DedupeFilteredPrefix(a, b, p);
    }
  }

  /** The final columns: each at most once; exactly the merged table's
      parameter columns, input species, species columns of some step and
      multiplier columns; the gene category dropped; and, for an initial
      table without repeated columns, its parameter columns first, in their
      order. */
  lemma FinalColumns(initial: Table, history: seq<Step>)
    requires history != []
    ensures var r := FinalResults(initial, history);
      var m := Merged(initial, history);
      && NoDup(r.columns)
      && (forall c :: c in r.columns <==>
            c in m.columns &&
            (c in ParamColumns(initial) || c in INPUT_STATES || c in MULTIPLIER_COLUMNS || OfSomeStep(c, history)))
      && FOS_CATEGORY !in r.columns
      && (NoDup(initial.columns) ==>
            |ParamColumns(initial)| <= |r.columns| && r.columns[..|ParamColumns(initial)|] == ParamColumns(initial))
  {
    var m := Merged(initial, history);
    var pc := ParamColumns(initial);
    ProjectDeduped(m, pc, OrderTail(m.columns, history));
    OrderTailFacts(m.columns, history);
    if NoDup(initial.columns) {
      FilterNoDup(initial.columns, c => c !in INPUT_STATES && c != FOS_CATEGORY);
      MergedColumns(initial, history);
      forall c | c in pc ensures c in m.columns {
        assert c in m.columns[..|initial.columns|];
      }
    }
  }

  /** The final columns are ordered by their first occurrence in the wanted
      list (parameters, input species, step columns, multiplier columns). */
  lemma FinalOrdered(initial: Table, history: seq<Step>)
    requires history != []
    ensures var r := FinalResults(initial, history);
      var m := Merged(initial, history);
      var order := ParamColumns(initial) + OrderTail(m.columns, history);
      && (forall c :: c in r.columns ==> c in order && c in m.columns)
      && InOrderOf(order, r.columns)
  {
    var m := Merged(initial, history);
    ProjectDeduped(m, ParamColumns(initial), OrderTail(m.columns, history));
  }

  /** Columns kept in the order of the wanted list: a column of step k comes
      before every column that is neither a parameter nor an input species and
      matches none of the steps up to k. */
  lemma StepsInOrder(pc: seq<string>, columns: seq<string>, history: seq<Step>, k: nat, rc: seq<string>)
    requires k < |history|
    requires forall c :: c in rc ==> c in pc + OrderTail(columns, history) && c in columns
    requires InOrderOf(pc + OrderTail(columns, history), rc)
    ensures forall i, j ::
      (0 <= i < |rc| && 0 <= j < |rc| && Contains(rc[i], "post " + history[k].gene) &&
       rc[j] !in pc && rc[j] !in INPUT_STATES && (forall k' :: 0 <= k' <= k ==> !Contains(rc[j], "post " + history[k'].gene)))
      ==> i < j
  {
    var sels := StepSelectors(history);
    var mc := Filter(MULTIPLIER_COLUMNS, InColumns(columns));
    var upTo := Blocks(columns, sels, k + 1);
    var rest := BlocksPrefix(columns, sels, k + 1, |history|);
    OrderedSections(pc, INPUT_STATES, upTo, rest, mc, rc);
    forall i, j | 0 <= i < |rc| && 0 <= j < |rc| && Contains(rc[i], "post " + history[k].gene) &&
        rc[j] !in pc && rc[j] !in INPUT_STATES && (forall k' :: 0 <= k' <= k ==> !Contains(rc[j], "post " + history[k'].gene))
      ensures i < j
    {
      BlocksMembers(columns, sels, k + 1, rc[i]);
      StepPicked(history, k + 1, rc[i]);
      BlocksMembers(columns, sels, k + 1, rc[j]);
      StepPicked(history, k + 1, rc[j]);
    }
  }

  lemma MultipliersHaveNoSpace()
    ensures forall c :: c in MULTIPLIER_COLUMNS ==> ' ' !in c
  {
    forall k | 0 <= k < |KNOCKDOWN_MULTIPLIER| ensures KNOCKDOWN_MULTIPLIER[k] != ' ' {
      assert KNOCKDOWN_MULTIPLIER[k] == "knockdown_multiplier"[k];
    }
    forall k | 0 <= k < |OVEREXPRESSION_MULTIPLIER| ensures OVEREXPRESSION_MULTIPLIER[k] != ' ' {
      assert OVEREXPRESSION_MULTIPLIER[k] == "overexpression_multiplier"[k];
    }
  }

  /** No step's species columns include a multiplier column. */
  lemma MultipliersOfNoStep(columns: seq<string>, history: seq<Step>)
    ensures forall c :: c in MULTIPLIER_COLUMNS ==> c !in StepColumns(columns, history)
  {
    MultipliersHaveNoSpace();
    StepColumnsMembers(columns, history);
    forall c | c in MULTIPLIER_COLUMNS ensures !OfSomeStep(c, history) {
      forall i | 0 <= i < |history| ensures !Contains(c, "post " + history[i].gene) {
        NoSpaceNoStep(c, history[i].gene);
      }
    }
  }

  /** Columns kept in the order of the wanted list: parameters first, then
      input species, and multiplier columns last. */
  lemma SectionsInOrder(pc: seq<string>, columns: seq<string>, history: seq<Step>, rc: seq<string>)
    requires forall c :: c in rc ==> c in pc + OrderTail(columns, history) && c in columns
    requires InOrderOf(pc + OrderTail(columns, history), rc)
    ensures forall i, j :: 0 <= i < |rc| && 0 <= j < |rc| && rc[i] in pc && rc[j] !in pc ==> i < j
    ensures forall i, j :: 0 <= i < |rc| && 0 <= j < |rc| && rc[i] in INPUT_STATES && rc[j] !in pc && rc[j] !in INPUT_STATES ==> i < j
    ensures forall i, j :: 0 <= i < |rc| && 0 <= j < |rc| && rc[i] !in MULTIPLIER_COLUMNS && rc[j] in MULTIPLIER_COLUMNS && rc[j] !in pc ==> i < j
  {
    var sels := StepSelectors(history);
    var mc := Filter(MULTIPLIER_COLUMNS, InColumns(columns));
    var rest := BlocksPrefix(columns, sels, 0, |history|);
    OrderedSections(pc, INPUT_STATES, Blocks(columns, sels, 0), rest, mc, rc);
    MultipliersOfNoStep(columns, history);
  }

  /** The order of the final columns: parameters, then input species, then
      the species columns step by step in history order, then the multiplier
      columns. */
  lemma FinalColumnsOrder(initial: Table, history: seq<Step>)
    requires history != []
    ensures var rc := FinalResults(initial, history).columns;
      var pc := ParamColumns(initial);
      && (forall i, j :: 0 <= i < |rc| && 0 <= j < |rc| && rc[i] in pc && rc[j] !in pc ==> i < j)
      && (forall i, j :: 0 <= i < |rc| && 0 <= j < |rc| && rc[i] in INPUT_STATES && rc[j] !in pc && rc[j] !in INPUT_STATES ==> i < j)
      && (forall i, j, k ::
            (0 <= i < |rc| && 0 <= j < |rc| && 0 <= k < |history| && Contains(rc[i], "post " + history[k].gene) &&
             rc[j] !in pc && rc[j] !in INPUT_STATES && (forall k' :: 0 <= k' <= k ==> !Contains(rc[j], "post " + history[k'].gene)))
            ==> i < j)
      && (forall i, j :: 0 <= i < |rc| && 0 <= j < |rc| && rc[i] !in MULTIPLIER_COLUMNS && rc[j] in MULTIPLIER_COLUMNS && rc[j] !in pc ==> i < j)
  {
    FinalOrdered(initial, history);
    var pc := ParamColumns(initial);
    var columns := Merged(initial, history).columns;
    var rc := FinalResults(initial, history).columns;
    SectionsInOrder(pc, columns, history, rc);
    forall k | 0 <= k < |history| {
      StepsInOrder(pc, columns, history, k, rc);
    }
  }

  lemma OrderTailFacts(columns: seq<string>, history: seq<Step>)
    ensures forall c :: c in OrderTail(columns, history) <==>
              c in INPUT_STATES || (c in columns && (c in MULTIPLIER_COLUMNS || OfSomeStep(c, history)))
    ensures FOS_CATEGORY !in OrderTail(columns, history)
  {
    StepColumnsMembers(columns, history);
    CategoryOfNoStep(history);
  }

  /** The final rows: exactly the keys that the initial table and every
      step's results share; each parameter column that no step merges in
      holds the results' cell of the last step that refreshed it, or else
      the initial table's cell for the key. */
  lemma FinalRows(initial: Table, history: seq<Step>)
    requires history != []
    ensures var r := FinalResults(initial, history);
      && (forall k :: k in Keys(r.rows) <==> k in Keys(initial.rows) && InAllResults(k, history))
      && (forall j, p :: 0 <= j < |r.rows| && p in r.columns && NeverMerged(p) ==> LatestCell(r.rows[j], p, initial, history))
  {
    var m := Merged(initial, history);
    var r := FinalResults(initial, history);
    MergedKeys(initial, history);
    assert SameKeys(r, m);
    SameKeysKeys(r, m);
    forall j, p | 0 <= j < |r.rows| && p in r.columns && NeverMerged(p) ensures LatestCell(r.rows[j], p, initial, history) {
      MergedValues(initial, history, p);
      assert m.rows[j] in m.rows;
      assert Get(r.rows[j], p) == Get(m.rows[j], p);
    }
  }

  // ----- the loops -----

  /** The refresh loop over `perturbed_params`. */
  method UpdateParams(t: Table, results: Table, params: seq<string>) returns (r: Table)
    ensures r == Updated(t, results, params)
  {
    r := t;
    for i := 0 to |params|
      invariant r == Updated(t, results, params[..i])
    {
      assert params[..i + 1][..i] == params[..i];
      if params[i] in results.columns {
        r := SetAt(r, params[i], FromResults(results, params[i]));
      }
    }
    assert params[..|params|] == params;
  }

  /** The loop that lists the columns in their final order. */
  method OrderColumns(initial: Table, history: seq<Step>, columns: seq<string>) returns (order: seq<string>)
    ensures order == FinalOrder(initial, history, columns)
  {
    var steps: seq<string> := [];
    for i := 0 to |history|
      invariant steps == Blocks(columns, StepSelectors(history), i)
    {
      assert StepSelectors(history)[i] == ContainsText("post " + history[i].gene);
      steps := steps + Filter(columns, ContainsText("post " + history[i].gene));
    }
    assert steps == StepColumns(columns, history);
    var multipliers: seq<string> := [];
    for i := 0 to |MULTIPLIER_COLUMNS|
      invariant multipliers == Filter(MULTIPLIER_COLUMNS[..i], InColumns(columns))
    {
      FilterSnoc(MULTIPLIER_COLUMNS[..i], MULTIPLIER_COLUMNS[i], InColumns(columns));
      assert MULTIPLIER_COLUMNS[..i + 1] == MULTIPLIER_COLUMNS[..i] + [MULTIPLIER_COLUMNS[i]];
      if MULTIPLIER_COLUMNS[i] in columns {
        multipliers := multipliers + [MULTIPLIER_COLUMNS[i]];
      }
    }
    assert MULTIPLIER_COLUMNS[..|MULTIPLIER_COLUMNS|] == MULTIPLIER_COLUMNS;
    order := Dedupe(ParamColumns(initial) + (INPUT_STATES + steps + multipliers));
  }

  /** `get_final_results` as the loop over the history. */
  method AssembleFinalResults(initial: Table, history: seq<Step>) returns (r: Table)
    ensures r == FinalResults(initial, history)
  {
    if history == [] {
      return initial;
    }
    var paramColumns := ParamColumns(initial);
    var final := initial;
    var tracked: seq<string> := [];
    for i := 0 to |history|
      invariant final == Merged(initial, history[..i])
      invariant tracked == Tracked(history[..i])
    {
      assert history[..i + 1][..i] == history[..i];
      assert history[..i + 1][i] == history[i];
      var results := history[i].results;
      tracked := Dedupe(tracked + TrackedParams(history[i]));
      assert tracked == Tracked(history[..i + 1]);
      final := InnerMerge(final, results, MergeColumns(results, paramColumns));
      final := UpdateParams(final, results, tracked);
    }
    assert history[..|history|] == history;
    var order := OrderColumns(initial, history, final.columns);
    r := Project(final, order);
  }
}
