/** The `PerturbationPipeline` state machine: a current table, the initial
    table, the failed parameter sets and the history of steps. Every
    knockout, knockdown and overexpression perturbs a copy of the current
    table, re-solves the steady states, folds the failed parameter sets into
    the state, tags the species columns, merges the parameter columns back,
    records the step and makes its results the next step's current table.
    Each operation is specified by a function from the old state to the new
    state and the result (`Result` stands for "returns" or "raises"). */
module Pipeline {
  import opened Wrappers
  import opened Seqs
  import opened Text
  import opened Frames
  import opened Schema
  import opened Lineage
  import opened Engine
  import opened Runner
  import opened Assembly
  import opened FileNames

  /** The four fields, as `save_state` returns them. */
  datatype PipelineState = PipelineState(current: Table, initial: Table, failed: set<int>, history: seq<Step>)

  /** The key column whose absence raises KeyError on the column-less frame. */
  const PARAM_INDEX := "param_index"

  /** No row of the table belongs to a failed parameter set. */
  predicate FreeOf(t: Table, failed: set<int>) {
    forall j :: 0 <= j < |t.rows| ==> t.rows[j].key.paramIndex !in failed
  }

  /** `_handle_failed_simulations`: the failed set only grows, and exactly the
      rows of failed parameter sets leave both tables. */
  function HandleFailed(s: PipelineState, ids: set<int>): (r: PipelineState)
    ensures s.failed <= r.failed && ids <= r.failed && r.history == s.history
    ensures forall row :: row in r.current.rows <==> row in s.current.rows && row.key.paramIndex !in s.failed + ids
    ensures forall row :: row in r.initial.rows <==> row in s.initial.rows && row.key.paramIndex !in s.failed + ids
    ensures r.current.columns == s.current.columns && r.initial.columns == s.initial.columns
    ensures FreeOf(r.current, r.failed) && FreeOf(r.initial, r.failed)
  {
    var failed := s.failed + ids;
    var r := PipelineState(Purge(s.current, failed), Purge(s.initial, failed), failed, s.history);
    assert forall j :: 0 <= j < |r.current.rows| ==> r.current.rows[j] in r.current.rows;
    assert forall j :: 0 <= j < |r.initial.rows| ==> r.initial.rows[j] in r.initial.rows;
    r
  }

  /** `df['param_index'].unique()`: every parameter set of the table once,
      in order of first appearance. */
  function UniqueParamIndices(t: Table): (pis: seq<int>)
    ensures NoDup(pis)
    ensures forall p :: p in pis <==> p in ParamIndexSet(t.rows)
  {
    var col := seq(|t.rows|, j requires 0 <= j < |t.rows| => t.rows[j].key.paramIndex);
    forall p | p in ParamIndexSet(t.rows) ensures p in col {
      var r :| r in t.rows && r.key.paramIndex == p;
      var j :| 0 <= j < |t.rows| && t.rows[j] == r;
      assert col[j] == p;
    }
    Dedupe(col)
  }

  /** The solver over every parameter set of the perturbed table, its
      failures folded into the state, and the results without any failed
      set. None stands for the column-less frame, on which
      `results_df['param_index']` raises. */
  function Simulate(s: PipelineState, perturbed: Table, solve: Solver): (PipelineState, Option<Table>) {
    var (results, ids) := SimulationsWithDuplicates(perturbed, UniqueParamIndices(perturbed), solve);
    var s1 := HandleFailed(s, ids);
    (s1, if results.None? then None else Some(Purge(results.value, s1.failed)))
  }

  /** A step's record on success: its results become the current table, with
      the species copied back to their input names and the simulation
      layout. */
  function Advance(s: PipelineState, step: Step): PipelineState {
    PipelineState(ReorderForSimulation(RenamedBackToInput(step.results)), s.initial, s.failed, s.history + [step])
  }

  // ----- perform_knockout -----

  /** The step's name and targets: the custom parameters when given, else the
      gene's parameters. */
  function KnockoutTargets(gene: Option<string>, customParams: Option<seq<string>>): Result<(string, seq<string>), Error> {
    if customParams.Some? then Success((if gene.Some? then gene.value else "CustomParams", customParams.value))
    else if gene.None? then Failure(NoTarget)
    else
      var ps := ProteinParameters(gene.value, None);
      if ps.Failure? then Failure(ps.error) else Success((gene.value, ps.value))
  }

  /** The debug read `current_data[param].iloc[0]` of a target that is a
      column of a table without rows. */
  predicate ReadsEmpty(t: Table, params: seq<string>) {
    t.rows == [] && exists p :: p in params && p in t.columns
  }

  /** The value a multiplying knockout writes for a key: the initial value
      (0 when the key is not in the initial table) times the multiplier. */
  function FromInitial(initial: Table, p: string, m: real): Key -> Option<Value> {
    k => var orig := Lookup(initial.rows, k);
         Some(Mul(if orig.Some? then Get(orig.value, p) else Num(0.0), Num(m)))
  }

  /** The targets overwritten row by row from the initial table, in order. */
  function WrittenFromInitial(t: Table, params: seq<string>, initial: Table, pm: seq<(string, real)>, koMultiplier: real): (r: Table)
    ensures |r.rows| == |t.rows|
    decreases |params|
  {
    if params == [] then t
    else
      var p := params[|params| - 1];
      AtRows(WrittenFromInitial(t, params[..|params| - 1], initial, pm, koMultiplier), p,
             FromInitial(initial, p, Entry(pm, p).GetOr(koMultiplier)))
  }

  /** The overwrite of a multiplying knockout: reading a target that is not
      an initial column raises KeyError, at the first such target. */
  function MultipliedFromInitial(t: Table, params: seq<string>, initial: Table, pm: seq<(string, real)>, koMultiplier: real): Result<Table, Error> {
    var missing := Filter(params, Absent(initial.columns));
    if missing != [] then Failure(MissingColumn(missing[0]))
    else Success(WrittenFromInitial(t, params, initial, pm, koMultiplier))
  }

  /** The results of a knockout: the tagged species, the initial parameter
      columns merged in, and the targets overwritten. */
  function KnockoutWritten(named: Table, initial: Table, params: seq<string>, koMethod: string, koValue: real,
                           koMultiplier: real, pm: seq<(string, real)>): Result<Table, Error> {
    var merged := LeftMerge(named, initial, ParamColumns(initial));
    if koMethod == "set" then Success(SetParams(merged, params, Num(koValue)))
    else MultipliedFromInitial(merged, params, initial, pm, koMultiplier)
  }

  function KoMethodOf(koMethod: string, koValue: real, koMultiplier: real, pm: seq<(string, real)>): KoMethod {
    if koMethod == "set" then SetTo(koValue) else MultiplyBy(koMultiplier, pm)
  }

  /** `perform_knockout`: the new state and the results or the error. */
  function KnockoutStep(s: PipelineState, gene: Option<string>, koValue: real, koMethod: string, koMultiplier: real,
                        customParams: Option<seq<string>>, pm: seq<(string, real)>, solve: Solver, rng: Rng): (PipelineState, Result<Table, Error>)
  {
    var targets := KnockoutTargets(gene, customParams);
    if targets.Failure? then (s, Failure(targets.error))
    else KnockoutOf(s, targets.value.0, targets.value.1, koValue, koMethod, koMultiplier, pm, solve, rng)
  }

  /** `perform_knockout` once the step's name and targets are known. */
  function KnockoutOf(s: PipelineState, name: string, params: seq<string>, koValue: real, koMethod: string, koMultiplier: real,
                      pm: seq<(string, real)>, solve: Solver, rng: Rng): (PipelineState, Result<Table, Error>)
  {
    if ReadsEmpty(s.current, params) then (s, Failure(EmptyTable))
    else if koMethod != "set" && koMethod != "multiply" then (s, Failure(UnknownKnockoutMethod(koMethod)))
    else
      var perturbed := Perturbed(s.current, params, KnockoutBy(koMethod, koValue, koMultiplier, pm), rng);
      if perturbed.Failure? then (s, Failure(perturbed.error))
      else KnockoutSimulated(s, name, params, perturbed.value, koValue, koMethod, koMultiplier, pm, solve)
  }

  /** `perform_knockout` from the simulation of the perturbed table on. */
  function KnockoutSimulated(s: PipelineState, name: string, params: seq<string>, perturbed: Table, koValue: real,
                             koMethod: string, koMultiplier: real, pm: seq<(string, real)>, solve: Solver): (PipelineState, Result<Table, Error>)
  {
    var (s1, filtered) := Simulate(s, perturbed, solve);
    if filtered.None? then (s1, Failure(MissingColumn(PARAM_INDEX)))
    else KnockoutRecorded(s1, name, params, filtered.value, koValue, koMethod, koMultiplier, pm)
  }

  /** `perform_knockout` from the solver's filtered results on: name them,
      merge and overwrite, and record the step unless nothing is left. */
  function KnockoutRecorded(s: PipelineState, name: string, params: seq<string>, filtered: Table, koValue: real,
                            koMethod: string, koMultiplier: real, pm: seq<(string, real)>): (PipelineState, Result<Table, Error>)
  {
    var written := KnockoutWritten(StateNames(filtered, KO, name, s.history), s.initial, params,
                                   koMethod, koValue, koMultiplier, pm);
    if written.Failure? then (s, Failure(written.error))
    else if written.value.rows == [] then (s, Failure(NoValidResults))
    else (Advance(s, Knockout(name, written.value, params, KoMethodOf(koMethod, koValue, koMultiplier, pm))), written)
  }

  // ----- perform_knockdown and perform_overexpression -----

  /** `df[p] = df.apply(lambda row: updated_vals.get(key, NaN))`: a target's
      cells taken by key from the perturbed table. */
  function Refreshed(t: Table, src: Table, p: string): (vals: seq<Value>)
    ensures |vals| == |t.rows|
  {
    seq(|t.rows|, j requires 0 <= j < |t.rows| =>
      var m := Lookup(src.rows, t.rows[j].key); if m.Some? then Get(m.value, p) else NaN)
  }

  function Refresh(t: Table, params: seq<string>, src: Table): (r: Table)
    ensures |r.rows| == |t.rows|
    decreases |params|
  {
    if params == [] then t
    else
      var prev := Refresh(t, params[..|params| - 1], src);
      Assign(prev, params[|params| - 1], Refreshed(prev, src, params[|params| - 1]))
  }

  /** After the solver: the multiplier column from the perturbed table, the
      tagged species, the current parameter columns, and the targets'
      perturbed values. */
  function Recombined(filtered: Table, perturbed: Table, multiplierColumn: string, kind: Kind, gene: string,
                      history: seq<Step>, current: Table, targets: seq<string>): Table {
    var withMultiplier := LeftMerge(filtered, perturbed, [multiplierColumn]);
    var merged := LeftMerge(StateNames(withMultiplier, kind, gene, history), current, ParamColumns(current));
    Refresh(merged, targets, perturbed)
  }

  function IsKnockdownApproach(approach: string): bool {
    approach == "beta" || approach == "truncnorm" || approach == "direct"
  }

  /** `perform_knockdown`. The state-column check renames `current_data` in
      place, so its rename survives the errors raised after it. */
  function KnockdownStep(s: PipelineState, gene: string, betaA: real, betaB: real, kdMeanEff: real, maxKdPct: real,
                         approach: string, spread: real, solve: Solver, rng: Rng): (PipelineState, Result<Table, Error>)
  {
    var params := [KnockdownParameter(gene)];
    var restored := RestoreStateColumns(s.current, s.history);
    var s0 := s.(current := restored.0);
    if restored.1.Some? then (s0, Failure(restored.1.value))
    else if !IsKnockdownApproach(approach) then (s0, Failure(UnknownKnockdownApproach(approach)))
    else
      var perturbed := Perturbed(s0.current, params, KnockdownBy(approach, betaA, betaB, kdMeanEff, maxKdPct, spread), rng);
      if perturbed.Failure? then (s0, Failure(perturbed.error))
      else KnockdownSimulated(s0, gene, params, perturbed.value, approach, solve)
  }

  /** `perform_knockdown` from the simulation of the perturbed table on. */
  function KnockdownSimulated(s: PipelineState, gene: string, params: seq<string>, perturbed: Table, approach: string,
                              solve: Solver): (PipelineState, Result<Table, Error>)
  {
    var (s1, filtered) := Simulate(s, perturbed, solve);
    if filtered.None? then (s1, Failure(MissingColumn(PARAM_INDEX)))
    else KnockdownRecorded(s1, gene, params, filtered.value, perturbed, approach)
  }

  /** `perform_knockdown` from the solver's filtered results on. */
  function KnockdownRecorded(s: PipelineState, gene: string, params: seq<string>, filtered: Table, perturbed: Table,
                             approach: string): (PipelineState, Result<Table, Error>)
  {
    var results := Recombined(filtered, perturbed, KNOCKDOWN_MULTIPLIER, KD, gene, s.history, s.current, params);
    (Advance(s, Knockdown(gene, results, approach)), Success(results))
  }

  /** The overexpression multipliers, None for an unknown method. */
  function OverexpressionMultipliers(rng: Rng, oeMethod: string, betaA: real, betaB: real, maxMult: real, setMult: real, n: nat): (m: Option<seq<Value>>)
    ensures m.Some? ==> |m.value| == n
  {
    if oeMethod == "beta" then Some(BetaOverexpressionMultipliers(rng, betaA, betaB, maxMult, n))
    else if oeMethod == "set" then Some(Fill(n, Num(setMult)))
    else None
  }

  function OeMethodOf(oeMethod: string, betaA: real, betaB: real, maxMult: real, setMult: real): OeMethod {
    if oeMethod == "beta" then BetaScaled(betaA, betaB, maxMult) else FixedMultiplier(setMult)
  }

  function Present(columns: seq<string>): string -> bool {
    c => c in columns
  }

  /** The debug print after each multiplied target reads the target from the
      current table (KeyError when it is only the multiplier column) and its
      first row (IndexError on a table without rows); the first target that
      fails decides the error. */
  function OverexpressionGuard(params: seq<string>, marked: seq<string>, current: Table): Option<Error> {
    if params == [] then None
    else if params[0] in marked && params[0] !in current.columns then Some(MissingColumn(params[0]))
    else if params[0] in marked && current.rows == [] then Some(EmptyTable)
    else OverexpressionGuard(params[1..], marked, current)
  }

  /** The targets present in the table multiplied by the multipliers. */
  function Overexpressed(marked: Table, params: seq<string>, current: Table, mults: seq<Value>): Result<Table, Error> {
    var guard := OverexpressionGuard(params, marked.columns, current);
    if guard.Some? then Failure(guard.value)
    else Success(ScaleParams(marked, Filter(params, Present(marked.columns)), RowFactor(mults)))
  }

  /** The targets: the custom parameters when given, else the gene's. */
  function OverexpressionTargets(gene: string, customParams: Option<seq<string>>): Result<seq<string>, Error> {
    if customParams.Some? then Success(customParams.value) else ProteinParameters(gene, None)
  }

  /** `perform_overexpression`. Absent targets are skipped, not reported. */
  function OverexpressionStep(s: PipelineState, gene: string, oeMethod: string, betaA: real, betaB: real, maxMult: real,
                              setMult: real, customParams: Option<seq<string>>, solve: Solver, rng: Rng): (PipelineState, Result<Table, Error>)
  {
    var targets := OverexpressionTargets(gene, customParams);
    if targets.Failure? then (s, Failure(targets.error))
    else
      var params := targets.value;
      var restored := RestoreStateColumns(s.current, s.history);
      var s0 := s.(current := restored.0);
      if restored.1.Some? then (s0, Failure(restored.1.value))
      else
        var mults := OverexpressionMultipliers(rng, oeMethod, betaA, betaB, maxMult, setMult, |s0.current.rows|);
        if mults.None? then (s0, Failure(UnknownOverexpressionMethod(oeMethod)))
        else
          var marked := Assign(s0.current, OVEREXPRESSION_MULTIPLIER, mults.value);
          var perturbed := Overexpressed(marked, params, s0.current, mults.value);
          if perturbed.Failure? then (s0, Failure(perturbed.error))
          else OverexpressionSimulated(s0, gene, params, perturbed.value, OeMethodOf(oeMethod, betaA, betaB, maxMult, setMult), solve)
  }

  /** `perform_overexpression` from the simulation of the perturbed table on. */
  function OverexpressionSimulated(s: PipelineState, gene: string, params: seq<string>, perturbed: Table, how: OeMethod,
                                   solve: Solver): (PipelineState, Result<Table, Error>)
  {
    var (s1, filtered) := Simulate(s, perturbed, solve);
    if filtered.None? then (s1, Failure(MissingColumn(PARAM_INDEX)))
    else OverexpressionRecorded(s1, gene, params, filtered.value, perturbed, how)
  }

  /** `perform_overexpression` from the solver's filtered results on. */
  function OverexpressionRecorded(s: PipelineState, gene: string, params: seq<string>, filtered: Table, perturbed: Table,
                                  how: OeMethod): (PipelineState, Result<Table, Error>)
  {
    var results := Recombined(filtered, perturbed, OVEREXPRESSION_MULTIPLIER, OE, gene, s.history,
                              s.current, Filter(params, Present(perturbed.columns)));
    (Advance(s, Overexpression(gene, results, params, how)), Success(results))
  }

  // ----- reset_to_last_knockout -----

  /** The position of the last knockout in the history. */
  function LastKnockout(history: seq<Step>): (i: Option<nat>)
    ensures i.None? <==> forall j :: 0 <= j < |history| ==> !history[j].Knockout?
    ensures i.Some? ==> i.value < |history| && history[i.value].Knockout? &&
                        forall j :: i.value < j < |history| ==> !history[j].Knockout?
    decreases |history|
  {
    if history == [] then None
    else if Last(history).Knockout? then Some(|history| - 1)
    else LastKnockout(history[..|history| - 1])
  }

  /** `reset_to_last_knockout` */
  function ResetToLastKnockout(s: PipelineState): PipelineState {
    var i := LastKnockout(s.history);
    if i.None? then s
    else PipelineState(s.history[i.value].results, s.initial, s.failed, s.history[..i.value + 1])
  }

  // ----- the loops of the operations -----

  /** The loop of debug reads before a knockout. */
  method ReadsEmptyTable(t: Table, params: seq<string>) returns (empty: bool)
    ensures empty == ReadsEmpty(t, params)
  {
    var found := false;
    for i := 0 to |params|
      invariant found <==> exists p :: p in params[..i] && p in t.columns
    {
      assert params[..i + 1] == params[..i] + [params[i]];
      if params[i] in t.columns {
        found := true;
      }
    }
    assert params[..|params|] == params;
    empty := found && |t.rows| == 0;
  }

  /** The overwrite loop of a multiplying knockout: per target, the initial
      values by key, then one `.at` write per row. */
  method MultiplyFromInitial(t: Table, params: seq<string>, initial: Table, pm: seq<(string, real)>, koMultiplier: real)
    returns (r: Result<Table, Error>)
    ensures r == MultipliedFromInitial(t, params, initial, pm, koMultiplier)
  {
    var table := t;
    for i := 0 to |params|
      invariant Filter(params[..i], Absent(initial.columns)) == []
      invariant table == WrittenFromInitial(t, params[..i], initial, pm, koMultiplier)
    {
      var p := params[i];
      if p !in initial.columns {
        FirstSurvivor(params, i, Absent(initial.columns));
        return Failure(MissingColumn(p));
      }
      FilterSnoc(params[..i], p, Absent(initial.columns));
      assert params[..i + 1] == params[..i] + [p];
      assert params[..i + 1][..i] == params[..i];
      table := SetAt(table, p, FromInitial(initial, p, Entry(pm, p).GetOr(koMultiplier)));
    }
    assert params[..|params|] == params;
    r := Success(table);
  }

  /** The targets' cells taken from the perturbed table, target by target. */
  method RefreshTargets(t: Table, params: seq<string>, src: Table) returns (r: Table)
    ensures r == Refresh(t, params, src)
  {
    r := t;
    for i := 0 to |params|
      invariant r == Refresh(t, params[..i], src)
    {
      assert params[..i + 1][..i] == params[..i];
      r := Assign(r, params[i], Refreshed(r, src, params[i]));
    }
    assert params[..|params|] == params;
  }

  /** The same for the targets that are columns of the perturbed table. */
  method RefreshPresentTargets(t: Table, params: seq<string>, src: Table) returns (r: Table)
    ensures r == Refresh(t, Filter(params, Present(src.columns)), src)
  {
    r := t;
    for i := 0 to |params|
      invariant r == Refresh(t, Filter(params[..i], Present(src.columns)), src)
    {
      PresentSnoc(params, i, src.columns);
      if params[i] in src.columns {
        r := Assign(r, params[i], Refreshed(r, src, params[i]));
      }
    }
    assert params[..|params|] == params;
  }

  /** One more element of a list, filtered by presence in `columns`. */
  lemma PresentSnoc(params: seq<string>, i: nat, columns: seq<string>)
    requires i < |params|
    ensures var ps := Filter(params[..i + 1], Present(columns));
      && (params[i] in columns ==> ps != [] && ps[..|ps| - 1] == Filter(params[..i], Present(columns)) && ps[|ps| - 1] == params[i])
      && (params[i] !in columns ==> ps == Filter(params[..i], Present(columns)))
  {
    FilterSnoc(params[..i], params[i], Present(columns));
    assert params[..i + 1] == params[..i] + [params[i]];
    assert Present(columns)(params[i]) <==> params[i] in columns;
  }

  /** The multiplying loop of an overexpression, with its debug reads. */
  method Overexpress(marked: Table, params: seq<string>, current: Table, mults: seq<Value>) returns (r: Result<Table, Error>)
    requires |mults| == |marked.rows|
    ensures r == Overexpressed(marked, params, current, mults)
  {
    var perturbed := marked;
    for i := 0 to |params|
      invariant perturbed == ScaleParams(marked, Filter(params[..i], Present(marked.columns)), RowFactor(mults))
      invariant OverexpressionGuard(params, marked.columns, current) == OverexpressionGuard(params[i..], marked.columns, current)
    {
      var p := params[i];
      PresentSnoc(params, i, marked.columns);
      GuardStep(params, i, marked.columns, current);
      ScaledColumns(marked, Filter(params[..i], Present(marked.columns)), RowFactor(mults));
      if p in perturbed.columns {
        perturbed := Assign(perturbed, p, Times(Column(perturbed, p), Factors(RowFactor(mults), p, |perturbed.rows|)));
        if p !in current.columns {
          return Failure(MissingColumn(p));
        }
        if |current.rows| == 0 {
          return Failure(EmptyTable);
        }
      }
    }
    assert params[..|params|] == params;
    r := Success(perturbed);
  }

  lemma GuardStep(params: seq<string>, i: nat, marked: seq<string>, current: Table)
    requires i < |params|
    ensures OverexpressionGuard(params[i..], marked, current) ==
      if params[i] in marked && params[i] !in current.columns then Some(MissingColumn(params[i]))
      else if params[i] in marked && current.rows == [] then Some(EmptyTable)
      else OverexpressionGuard(params[i + 1..], marked, current)
  {
    assert params[i..][0] == params[i] && params[i..][1..] == params[i + 1..];
  }

  /** Scaling columns of the table does not change which columns it has. */
  lemma ScaledColumns(t: Table, params: seq<string>, factor: (string, nat) -> Value)
    requires forall p :: p in params ==> p in t.columns
    ensures forall c :: c in ScaleParams(t, params, factor).columns <==> c in t.columns
  {
    ScaleParamsShape(t, params, factor);
  }

  /** The loop of `reset_to_last_knockout` that finds the last knockout. */
  method FindLastKnockout(history: seq<Step>) returns (last: Option<nat>)
    ensures last == LastKnockout(history)
  {
    last := None;
    for idx := 0 to |history|
      invariant last == LastKnockout(history[..idx])
    {
      assert history[..idx + 1][..idx] == history[..idx];
      if history[idx].Knockout? {
        last := Some(idx);
      }
    }
    assert history[..|history|] == history;
  }

  /** The merge and overwrite that produce a knockout's results. */
  method WriteKnockout(named: Table, initial: Table, params: seq<string>, koMethod: string, koValue: real,
                       koMultiplier: real, pm: seq<(string, real)>) returns (r: Result<Table, Error>)
    ensures r == KnockoutWritten(named, initial, params, koMethod, koValue, koMultiplier, pm)
  {
    var merged := LeftMerge(named, initial, ParamColumns(initial));
    if koMethod == "set" {
      var t := SetColumns(merged, params, Num(koValue));
      r := Success(t);
    } else {
      r := MultiplyFromInitial(merged, params, initial, pm, koMultiplier);
    }
  }

  /** The choice of targets at the head of `perform_knockout`. */
  method FindKnockoutTargets(gene: Option<string>, customParams: Option<seq<string>>)
    returns (r: Result<(string, seq<string>), Error>)
    ensures r == KnockoutTargets(gene, customParams)
  {
    if customParams.Some? {
      r := Success((if gene.Some? then gene.value else "CustomParams", customParams.value));
    } else if gene.Some? {
      var ps := GetProteinParameters(gene.value, None);
      if ps.Failure? {
        return Failure(ps.error);
      }
      r := Success((gene.value, ps.value));
    } else {
      r := Failure(NoTarget);
    }
  }

  // ----- the class -----

  class PerturbationPipeline {
    var currentData: Table
    var initialData: Table
    var failedIndices: set<int>
    var history: seq<Step>

    function Snapshot(): PipelineState
      reads this
    {
      PipelineState(currentData, initialData, failedIndices, history)
    }

    /** `__init__`: both tables start as the initial data. */
    constructor(initial: Table)
      ensures Snapshot() == PipelineState(initial, initial, {}, [])
    {
      currentData := initial;
      initialData := initial;
      failedIndices := {};
      history := [];
    }

    /** `save_state` */
    method SaveState() returns (state: PipelineState)
      ensures state == Snapshot()
    {
      state := PipelineState(currentData, initialData, failedIndices, history);
    }

    /** `load_state` */
    method LoadState(state: PipelineState)
      modifies this
      ensures Snapshot() == state
    {
      currentData := state.current;
      initialData := state.initial;
      failedIndices := state.failed;
      history := state.history;
    }

    /** `_handle_failed_simulations` */
    method HandleFailedSimulations(ids: set<int>)
      modifies this
      ensures Snapshot() == HandleFailed(old(Snapshot()), ids)
    {
      failedIndices := failedIndices + ids;
      currentData := Purge(currentData, failedIndices);
      initialData := Purge(initialData, failedIndices);
    }

    /** `perform_knockout` */
    method PerformKnockout(gene: Option<string>, koValue: real, koMethod: string, koMultiplier: real,
                           customParams: Option<seq<string>>, pm: seq<(string, real)>, solve: Solver, rng: Rng)
      returns (r: Result<Table, Error>)
      modifies this
      ensures (Snapshot(), r) == KnockoutStep(old(Snapshot()), gene, koValue, koMethod, koMultiplier, customParams, pm, solve, rng)
    {
      var targets := FindKnockoutTargets(gene, customParams);
      if targets.Failure? {
        return Failure(targets.error);
      }
      r := KnockoutWith(targets.value.0, targets.value.1, koValue, koMethod, koMultiplier, pm, solve, rng);
    }

    /** `perform_knockout` from the check of the targets on. */
    method KnockoutWith(name: string, params: seq<string>, koValue: real, koMethod: string, koMultiplier: real,
                        pm: seq<(string, real)>, solve: Solver, rng: Rng)
      returns (r: Result<Table, Error>)
      modifies this
      ensures (Snapshot(), r) == KnockoutOf(old(Snapshot()), name, params, koValue, koMethod, koMultiplier, pm, solve, rng)
    {
      var empty := ReadsEmptyTable(currentData, params);
      if empty {
        return Failure(EmptyTable);
      }
      if koMethod != "set" && koMethod != "multiply" {
        return Failure(UnknownKnockoutMethod(koMethod));
      }
      var perturbed := PerturbParams(currentData, params, KnockoutBy(koMethod, koValue, koMultiplier, pm), rng);
      if perturbed.Failure? {
        return Failure(perturbed.error);
      }
      r := SimulateKnockout(name, params, perturbed.value, koValue, koMethod, koMultiplier, pm, solve);
    }

    /** `perform_knockout` from the simulation on. */
    method SimulateKnockout(name: string, params: seq<string>, perturbed: Table, koValue: real, koMethod: string,
                            koMultiplier: real, pm: seq<(string, real)>, solve: Solver)
      returns (r: Result<Table, Error>)
      modifies this
      ensures (Snapshot(), r) == KnockoutSimulated(old(Snapshot()), name, params, perturbed, koValue, koMethod, koMultiplier, pm, solve)
    {
      var results, ids := RunSimulationsWithDuplicates(perturbed, UniqueParamIndices(perturbed), solve);
      HandleFailedSimulations(ids);
      if results.None? {
        return Failure(MissingColumn(PARAM_INDEX));
      }
      var filtered := Purge(results.value, failedIndices);
      r := RecordKnockout(name, params, filtered, koValue, koMethod, koMultiplier, pm);
    }

    /** `perform_knockout` from the filtered results on. */
    method RecordKnockout(name: string, params: seq<string>, filtered: Table, koValue: real, koMethod: string,
                          koMultiplier: real, pm: seq<(string, real)>) returns (r: Result<Table, Error>)
      modifies this
      ensures (Snapshot(), r) == KnockoutRecorded(old(Snapshot()), name, params, filtered, koValue, koMethod, koMultiplier, pm)
    {
      var named := UpdateStateNames(filtered, KO, name, history);
      var written := WriteKnockout(named, initialData, params, koMethod, koValue, koMultiplier, pm);
      if written.Failure? {
        return Failure(written.error);
      }
      if |written.value.rows| == 0 {
        return Failure(NoValidResults);
      }
      history := history + [Knockout(name, written.value, params, KoMethodOf(koMethod, koValue, koMultiplier, pm))];
      var renamed := RenameBackToInput(written.value);
      currentData := ReorderForSimulation(renamed);
      r := written;
    }

    /** The state-column check of perform_knockdown and perform_overexpression. */
    method RestoreStates() returns (err: Option<Error>)
      modifies this
      ensures currentData == RestoreStateColumns(old(currentData), history).0
      ensures err == RestoreStateColumns(old(currentData), history).1
      ensures initialData == old(initialData) && failedIndices == old(failedIndices) && history == old(history)
    {
      err := None;
      if !HasStates(currentData.columns) && |history| > 0 && Last(history).Knockout? {
        currentData := ReverseRename(currentData, Last(history).gene);
        if !HasStates(currentData.columns) {
          err := Some(StateColumnsNotRestored);
        }
      }
    }

    /** `perform_knockdown` */
    method PerformKnockdown(gene: string, betaA: real, betaB: real, kdMeanEff: real, maxKdPct: real,
                            approach: string, spread: real, solve: Solver, rng: Rng)
      returns (r: Result<Table, Error>)
      modifies this
      ensures (Snapshot(), r) == KnockdownStep(old(Snapshot()), gene, betaA, betaB, kdMeanEff, maxKdPct, approach, spread, solve, rng)
    {
      var params := [KnockdownParameter(gene)];
      var err := RestoreStates();
      if err.Some? {
        return Failure(err.value);
      }
      if approach != "beta" && approach != "truncnorm" && approach != "direct" {
        return Failure(UnknownKnockdownApproach(approach));
      }
      var perturbed := PerturbParams(currentData, params, KnockdownBy(approach, betaA, betaB, kdMeanEff, maxKdPct, spread), rng);
      if perturbed.Failure? {
        return Failure(perturbed.error);
      }
      r := SimulateKnockdown(gene, params, perturbed.value, approach, solve);
    }

    /** `perform_knockdown` from the simulation on. */
    method SimulateKnockdown(gene: string, params: seq<string>, perturbed: Table, approach: string, solve: Solver)
      returns (r: Result<Table, Error>)
      modifies this
      ensures (Snapshot(), r) == KnockdownSimulated(old(Snapshot()), gene, params, perturbed, approach, solve)
    {
      var results, ids := RunSimulationsWithDuplicates(perturbed, UniqueParamIndices(perturbed), solve);
      HandleFailedSimulations(ids);
      if results.None? {
        return Failure(MissingColumn(PARAM_INDEX));
      }
      var filtered := Purge(results.value, failedIndices);
      r := RecordKnockdown(gene, params, filtered, perturbed, approach);
    }

    /** `perform_knockdown` from the filtered results on. */
    method RecordKnockdown(gene: string, params: seq<string>, filtered: Table, perturbed: Table, approach: string)
      returns (r: Result<Table, Error>)
      modifies this
      ensures (Snapshot(), r) == KnockdownRecorded(old(Snapshot()), gene, params, filtered, perturbed, approach)
    {
      var withMultiplier := LeftMerge(filtered, perturbed, [KNOCKDOWN_MULTIPLIER]);
      var named := UpdateStateNames(withMultiplier, KD, gene, history);
      var merged := LeftMerge(named, currentData, ParamColumns(currentData));
      var refreshed := RefreshTargets(merged, params, perturbed);
      history := history + [Knockdown(gene, refreshed, approach)];
      var renamed := RenameBackToInput(refreshed);
      currentData := ReorderForSimulation(renamed);
      r := Success(refreshed);
    }

    /** `perform_overexpression` */
    method PerformOverexpression(gene: string, oeMethod: string, betaA: real, betaB: real, maxMult: real, setMult: real,
                                 customParams: Option<seq<string>>, solve: Solver, rng: Rng)
      returns (r: Result<Table, Error>)
      modifies this
      ensures (Snapshot(), r) == OverexpressionStep(old(Snapshot()), gene, oeMethod, betaA, betaB, maxMult, setMult, customParams, solve, rng)
    {
      var params: seq<string>;
      if customParams.Some? {
        params := customParams.value;
      } else {
        var ps := GetProteinParameters(gene, None);
        if ps.Failure? {
          return Failure(ps.error);
        }
        params := ps.value;
      }
      var err := RestoreStates();
      if err.Some? {
        return Failure(err.value);
      }
      var n := |currentData.rows|;
      var mults: seq<Value>;
      if oeMethod == "beta" {
        mults := BetaOverexpressionMultipliers(rng, betaA, betaB, maxMult, n);
      } else if oeMethod == "set" {
        mults := Fill(n, Num(setMult));
      } else {
        return Failure(UnknownOverexpressionMethod(oeMethod));
      }
      var marked := Assign(currentData, OVEREXPRESSION_MULTIPLIER, mults);
      var perturbed := Overexpress(marked, params, currentData, mults);
      if perturbed.Failure? {
        return Failure(perturbed.error);
      }
      r := SimulateOverexpression(gene, params, perturbed.value, OeMethodOf(oeMethod, betaA, betaB, maxMult, setMult), solve);
    }

    /** `perform_overexpression` from the simulation on. */
    method SimulateOverexpression(gene: string, params: seq<string>, perturbed: Table, how: OeMethod, solve: Solver)
      returns (r: Result<Table, Error>)
      modifies this
      ensures (Snapshot(), r) == OverexpressionSimulated(old(Snapshot()), gene, params, perturbed, how, solve)
    {
      var results, ids := RunSimulationsWithDuplicates(perturbed, UniqueParamIndices(perturbed), solve);
      HandleFailedSimulations(ids);
      if results.None? {
        return Failure(MissingColumn(PARAM_INDEX));
      }
      var filtered := Purge(results.value, failedIndices);
      r := RecordOverexpression(gene, params, filtered, perturbed, how);
    }

    /** `perform_overexpression` from the filtered results on. */
    method RecordOverexpression(gene: string, params: seq<string>, filtered: Table, perturbed: Table, how: OeMethod)
      returns (r: Result<Table, Error>)
      modifies this
      ensures (Snapshot(), r) == OverexpressionRecorded(old(Snapshot()), gene, params, filtered, perturbed, how)
    {
      var withMultiplier := LeftMerge(filtered, perturbed, [OVEREXPRESSION_MULTIPLIER]);
      var named := UpdateStateNames(withMultiplier, OE, gene, history);
      var merged := LeftMerge(named, currentData, ParamColumns(currentData));
      var refreshed := RefreshPresentTargets(merged, params, perturbed);
      history := history + [Overexpression(gene, refreshed, params, how)];
      var renamed := RenameBackToInput(refreshed);
      currentData := ReorderForSimulation(renamed);
      r := Success(refreshed);
    }

    /** `reset_to_last_knockout` */
    method ResetToLastKnockoutStep()
      modifies this
      ensures Snapshot() == ResetToLastKnockout(old(Snapshot()))
    {
      if history == [] {
        return;
      }
      var last := FindLastKnockout(history);
      if last.None? {
        return;
      }
      var i := last.value;
      history := history[..i + 1];
      currentData := history[i].results;
    }

    /** `get_final_results`: the initial data merged with every step's
        results; the state is left as it is. */
    method GetFinalResults() returns (r: Table)
      ensures r == FinalResults(initialData, history)
    {
      r := AssembleFinalResults(initialData, history);
    }

    /** The file name of `save_results` for the given date; the directory and
        the CSV file themselves are not modelled. */
    method SaveResultsFileName(date: string, cellLine: string, version: string, betaA: Option<real>, betaB: Option<real>)
      returns (r: Result<string, Error>)
      ensures r == FileName(date, cellLine, history, betaA, betaB, version)
    {
      r := BuildFileName(date, cellLine, history, betaA, betaB, version);
    }
  }
}
