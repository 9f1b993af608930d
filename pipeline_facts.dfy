/** What the pipeline's operations promise: which errors leave the state
    alone, how the history grows, that the failed set only grows and that no
    row of a failed parameter set survives a step, the values the targets end
    up with, and what `reset_to_last_knockout` restores. */
module PipelineFacts {
  import opened Wrappers
  import opened Seqs
  import opened Text
  import opened Frames
  import opened Schema
  import opened Lineage
  import opened Engine
  import opened Runner
  import opened Pipeline

  /** Copying the species back and reordering keep the rows of a step's
      results. */
  lemma AdvanceKeys(results: Table)
    ensures SameKeys(ReorderForSimulation(RenamedBackToInput(results)), results)
  {
    RenamedBackFills(results);
    ReorderForSimulationLayout(RenamedBackToInput(results));
  }

  /** The results the solver produced, with the failed sets dropped, contain
      no failed row, and every row's key is a key of the perturbed table. */
  lemma SimulateFacts(s: PipelineState, perturbed: Table, solve: Solver)
    ensures var (s1, filtered) := Simulate(s, perturbed, solve);
      && s1 == HandleFailed(s, s1.failed - s.failed)
      && (filtered.Some? ==>
            && filtered.value.columns == OUTPUT_STATES
            && FreeOf(filtered.value, s1.failed)
            && forall j :: 0 <= j < |filtered.value.rows| ==> filtered.value.rows[j].key in Keys(perturbed.rows))
  {
    var pis := UniqueParamIndices(perturbed);
    var (results, ids) := SimulationsWithDuplicates(perturbed, pis, solve);
    RunnerOutcome(perturbed, pis, solve);
    var (s1, filtered) := Simulate(s, perturbed, solve);
    assert s.failed + (s1.failed - s.failed) == s.failed + ids;
    if filtered.Some? {
      var f := filtered.value;
      forall j | 0 <= j < |f.rows|
        ensures f.rows[j].key.paramIndex !in s1.failed && f.rows[j].key in Keys(perturbed.rows)
      {
        assert f.rows[j] in f.rows;
        assert f.rows[j] in results.value.rows;
        assert f.rows[j].key in Keys(results.value.rows);
      }
    }
  }

  // ----- perform_knockout -----

  /** A target's value after a multiplying knockout: its initial value times
      the multiplier, 0 for a key the initial table lacks. */
  function InitialTimes(initial: Table, k: Key, p: string, m: real): (v: Value)
    ensures k !in Keys(initial.rows) ==> v == Num(0.0)
  {
    if k in Keys(initial.rows) then Mul(Get(Lookup(initial.rows, k).value, p), Num(m)) else Num(0.0)
  }

  /** The multiplying overwrite keeps the rows and the leading columns and
      adds no column but a target. */
  lemma {:induction false} WrittenFromInitialShape(t: Table, params: seq<string>, initial: Table, pm: seq<(string, real)>, m: real)
    ensures var r := WrittenFromInitial(t, params, initial, pm, m);
      && SameKeys(r, t)
      && |t.columns| <= |r.columns| && r.columns[..|t.columns|] == t.columns
      && (forall c :: c in r.columns ==> c in t.columns || c in params)
    decreases |params|
  {
    if params != [] {
      var init := params[..|params| - 1];
      var p := params[|params| - 1];
      WrittenFromInitialShape(t, init, initial, pm, m);
      var prev := WrittenFromInitial(t, init, initial, pm, m);
      AtRowsFacts(prev, p, FromInitial(initial, p, Entry(pm, p).GetOr(m)));
      var r := WrittenFromInitial(t, params, initial, pm, m);
      assert r.columns[..|t.columns|] == r.columns[..|prev.columns|][..|t.columns|];
      forall c | c in r.columns ensures c in t.columns || c in params {
        if c != p && c !in t.columns {
          assert c in init;
        }
      }
    }
  }

  /** One overwrite writes its target in every row. */
  lemma FromInitialStep(prev: Table, initial: Table, p: string, m: real, j: nat)
    requires j < |prev.rows|
    ensures Get(AtRows(prev, p, FromInitial(initial, p, m)).rows[j], p) == InitialTimes(initial, prev.rows[j].key, p, m)
  {
    AtRowsFacts(prev, p, FromInitial(initial, p, m));
    assert Mul(Num(0.0), Num(m)) == Num(0.0);
  }

  /** The multiplying overwrite: every target holds its initial value times
      its multiplier, every other cell is unchanged. */
  lemma {:induction false} WrittenFromInitialValues(t: Table, params: seq<string>, initial: Table, pm: seq<(string, real)>, m: real)
    ensures var r := WrittenFromInitial(t, params, initial, pm, m);
      && (forall j, p :: 0 <= j < |t.rows| && p in params ==>
            Get(r.rows[j], p) == InitialTimes(initial, t.rows[j].key, p, Entry(pm, p).GetOr(m)))
      && (forall j, c :: 0 <= j < |t.rows| && c !in params ==> Get(r.rows[j], c) == Get(t.rows[j], c))
    decreases |params|
  {
    if params != [] {
      var init := params[..|params| - 1];
      var p := params[|params| - 1];
      WrittenFromInitialValues(t, init, initial, pm, m);
      WrittenFromInitialShape(t, init, initial, pm, m);
      var prev := WrittenFromInitial(t, init, initial, pm, m);
      var mult := Entry(pm, p).GetOr(m);
      AtRowsFacts(prev, p, FromInitial(initial, p, mult));
      var r := WrittenFromInitial(t, params, initial, pm, m);
      forall j, q | 0 <= j < |t.rows| && q in params
        ensures Get(r.rows[j], q) == InitialTimes(initial, t.rows[j].key, q, Entry(pm, q).GetOr(m))
      {
        if q == p {
          FromInitialStep(prev, initial, p, mult, j);
        } else {
          assert q in init;
        }
      }
      forall j, c | 0 <= j < |t.rows| && c !in params ensures Get(r.rows[j], c) == Get(t.rows[j], c) {
        assert c != p && c !in init;
      }
    }
  }

  /** What a successful knockout is made of: the solver ran on the
      perturbed table and the results are the written table. */
  lemma KnockoutSucceeded(s: PipelineState, gene: Option<string>, koValue: real, koMethod: string, koMultiplier: real,
                          customParams: Option<seq<string>>, pm: seq<(string, real)>, solve: Solver, rng: Rng)
    requires KnockoutStep(s, gene, koValue, koMethod, koMultiplier, customParams, pm, solve, rng).1.Success?
    ensures KnockoutTargets(gene, customParams).Success?
    ensures var (s', r) := KnockoutStep(s, gene, koValue, koMethod, koMultiplier, customParams, pm, solve, rng);
      var (name, params) := KnockoutTargets(gene, customParams).value;
      var perturbed := Perturbed(s.current, params, KnockoutBy(koMethod, koValue, koMultiplier, pm), rng);
      && (koMethod == "set" || koMethod == "multiply")
      && perturbed.Success?
      && var (s1, filtered) := Simulate(s, perturbed.value, solve);
      && filtered.Some?
      && s'.initial == s1.initial && s'.failed == s1.failed
      && r == KnockoutWritten(StateNames(filtered.value, KO, name, s.history), s1.initial, params, koMethod, koValue, koMultiplier, pm)
      && r.value.rows != []
      && s' == Advance(s1, Knockout(name, r.value, params, KoMethodOf(koMethod, koValue, koMultiplier, pm)))
  {
  }

  /** The targets after the overwrite: the knockout value, or the initial
      value times the multiplier. */
  lemma KnockoutWrittenValues(named: Table, initial: Table, params: seq<string>, koMethod: string, koValue: real,
                              koMultiplier: real, pm: seq<(string, real)>)
    requires KnockoutWritten(named, initial, params, koMethod, koValue, koMultiplier, pm).Success?
    ensures var w := KnockoutWritten(named, initial, params, koMethod, koValue, koMultiplier, pm).value;
      forall j, p :: 0 <= j < |w.rows| && p in params ==>
        Get(w.rows[j], p) == if koMethod == "set" then Num(koValue) else InitialTimes(initial, w.rows[j].key, p, Entry(pm, p).GetOr(koMultiplier))
  {
    var merged := LeftMerge(named, initial, ParamColumns(initial));
    if koMethod == "set" {
      SetParamsCells(merged, params, Num(koValue));
    } else {
      WrittenFromInitialValues(merged, params, initial, pm, koMultiplier);
      WrittenFromInitialShape(merged, params, initial, pm, koMultiplier);
    }
  }

  /** Knockout results with `'set'`: every target holds the knockout value
      in every row, and the results are never empty. */
  lemma KnockoutSetValues(s: PipelineState, gene: Option<string>, koValue: real, koMultiplier: real,
                          customParams: Option<seq<string>>, pm: seq<(string, real)>, solve: Solver, rng: Rng)
    requires KnockoutStep(s, gene, koValue, "set", koMultiplier, customParams, pm, solve, rng).1.Success?
    ensures KnockoutTargets(gene, customParams).Success?
    ensures var r := KnockoutStep(s, gene, koValue, "set", koMultiplier, customParams, pm, solve, rng).1.value;
      && r.rows != []
      && forall j, p :: 0 <= j < |r.rows| && p in KnockoutTargets(gene, customParams).value.1 ==> Get(r.rows[j], p) == Num(koValue)
  {
    KnockoutSucceeded(s, gene, koValue, "set", koMultiplier, customParams, pm, solve, rng);
    var (name, params) := KnockoutTargets(gene, customParams).value;
    var perturbed := Perturbed(s.current, params, KnockoutBy("set", koValue, koMultiplier, pm), rng).value;
    var (s1, filtered) := Simulate(s, perturbed, solve);
    var merged := LeftMerge(StateNames(filtered.value, KO, name, s.history), s1.initial, ParamColumns(s1.initial));
    var w := SetParams(merged, params, Num(koValue));
    var r := KnockoutStep(s, gene, koValue, "set", koMultiplier, customParams, pm, solve, rng).1.value;
    assert r == w;
    forall j, p | 0 <= j < |r.rows| && p in params ensures Get(r.rows[j], p) == Num(koValue) {
      SetCell(merged, params, Num(koValue), j, p);
    }
  }

  lemma SetCell(t: Table, params: seq<string>, v: Value, j: nat, p: string)
    requires j < |t.rows| && p in params
    ensures Get(SetParams(t, params, v).rows[j], p) == v
  {
    SetParamsCells(t, params, v);
  }

  /** Knockout results with `'multiply'`: every target holds its initial
      value times its custom or default multiplier, 0 for a key missing from
      the initial table, and the results are never empty. */
  lemma KnockoutMultiplyValues(s: PipelineState, gene: Option<string>, koValue: real, koMultiplier: real,
                               customParams: Option<seq<string>>, pm: seq<(string, real)>, solve: Solver, rng: Rng)
    requires KnockoutStep(s, gene, koValue, "multiply", koMultiplier, customParams, pm, solve, rng).1.Success?
    ensures KnockoutTargets(gene, customParams).Success?
    ensures var (s', r) := KnockoutStep(s, gene, koValue, "multiply", koMultiplier, customParams, pm, solve, rng);
      && r.value.rows != []
      && forall j, p :: 0 <= j < |r.value.rows| && p in KnockoutTargets(gene, customParams).value.1 ==>
           Get(r.value.rows[j], p) == InitialTimes(s'.initial, r.value.rows[j].key, p, Entry(pm, p).GetOr(koMultiplier))
  {
    KnockoutSucceeded(s, gene, koValue, "multiply", koMultiplier, customParams, pm, solve, rng);
    var (name, params) := KnockoutTargets(gene, customParams).value;
    var perturbed := Perturbed(s.current, params, KnockoutBy("multiply", koValue, koMultiplier, pm), rng).value;
    var (s1, filtered) := Simulate(s, perturbed, solve);
    KnockoutWrittenValues(StateNames(filtered.value, KO, name, s.history), s1.initial, params, "multiply", koValue, koMultiplier, pm);
  }

  /** The knockout's results carry the tagged species columns
      ("cFOS post FOSKO", ...) that a later knockdown or overexpression
      renames back. */
  predicate Tagged(t: Table, gene: string) {
    forall i :: 0 <= i < |OUTPUT_STATES| ==> KoReversePairs(gene)[i].0 in t.columns
  }

  /** A knockout's written results keep the rows of the solver's results and
      carry the tagged species columns. */
  lemma KnockoutWrittenShape(filtered: Table, name: string, history: seq<Step>, initial: Table, params: seq<string>,
                             koMethod: string, koValue: real, koMultiplier: real, pm: seq<(string, real)>)
    requires filtered.columns == OUTPUT_STATES
    requires KnockoutWritten(StateNames(filtered, KO, name, history), initial, params, koMethod, koValue, koMultiplier, pm).Success?
    ensures var w := KnockoutWritten(StateNames(filtered, KO, name, history), initial, params, koMethod, koValue, koMultiplier, pm).value;
      SameKeys(w, filtered) && Tagged(w, name)
  {
    var named := StateNames(filtered, KO, name, history);
    StateNamesTagged(filtered, KO, name, history);
    var merged := LeftMerge(named, initial, ParamColumns(initial));
    var w := KnockoutWritten(named, initial, params, koMethod, koValue, koMultiplier, pm).value;
    if koMethod == "set" {
      SetParamsShape(merged, params, Num(koValue));
    } else {
      WrittenFromInitialShape(merged, params, initial, pm, koMultiplier);
    }
    forall i | 0 <= i < |OUTPUT_STATES| ensures KoReversePairs(name)[i].0 in w.columns {
      assert Suffix(KO, name, history) == Suffix(KO, name, []);
      assert OUTPUT_STATES[i] in filtered.columns;
      assert KoReversePairs(name)[i].0 in named.columns;
      assert KoReversePairs(name)[i].0 in merged.columns;
      if koMethod != "set" {
        assert merged.columns == w.columns[..|merged.columns|];
        assert w.columns[..|merged.columns|] <= w.columns;
      }
    }
  }

  /** From the simulation on, a knockout raises only for a missing column or
      for an empty result, after the failed sets have been purged from both
      tables; on success it appends exactly one record, whose results carry
      the tagged species columns and no failed row. */
  lemma SimulatedKnockoutOutcome(s: PipelineState, name: string, params: seq<string>, perturbed: Table, koValue: real,
                                 koMethod: string, koMultiplier: real, pm: seq<(string, real)>, solve: Solver)
    ensures var (s', r) := KnockoutSimulated(s, name, params, perturbed, koValue, koMethod, koMultiplier, pm, solve);
      && s.failed <= s'.failed
      && s'.initial.columns == s.initial.columns
      && FreeOf(s'.initial, s'.failed)
      && (r.Failure? ==> s'.history == s.history && (r.error.MissingColumn? || r.error == NoValidResults))
      && (r == Failure(NoValidResults) ==>
            s'.current == Purge(s.current, s'.failed) && s'.initial == Purge(s.initial, s'.failed))
      && (r.Success? ==>
            && s'.history == s.history + [Knockout(name, r.value, params, KoMethodOf(koMethod, koValue, koMultiplier, pm))]
            && s'.current == ReorderForSimulation(RenamedBackToInput(r.value))
            && FreeOf(r.value, s'.failed) && FreeOf(s'.current, s'.failed)
            && Tagged(r.value, name))
  {
    var (s', r) := KnockoutSimulated(s, name, params, perturbed, koValue, koMethod, koMultiplier, pm, solve);
    SimulateFacts(s, perturbed, solve);
    var (s1, filtered) := Simulate(s, perturbed, solve);
    if filtered.Some? {
      assert (s', r) == KnockoutRecorded(s1, name, params, filtered.value, koValue, koMethod, koMultiplier, pm);
      if r.Success? {
        KnockoutWrittenShape(filtered.value, name, s.history, s1.initial, params, koMethod, koValue, koMultiplier, pm);
        AdvanceKeys(r.value);
      }
    }
  }

  /** A knockout either raises, with the history unchanged, or appends
      exactly one record whose results become the current table. Errors
      raised before the solver runs leave the whole state unchanged; the
      failed set only grows; when no valid row remains, the failed sets have
      already been purged from both tables. A successful knockout leaves no
      row of a failed set in its results or in either table, and its results
      carry the tagged species columns. */
  lemma KnockoutOutcome(s: PipelineState, gene: Option<string>, koValue: real, koMethod: string, koMultiplier: real,
                        customParams: Option<seq<string>>, pm: seq<(string, real)>, solve: Solver, rng: Rng)
    ensures var (s', r) := KnockoutStep(s, gene, koValue, koMethod, koMultiplier, customParams, pm, solve, rng);
      && s.failed <= s'.failed
      && s'.initial.columns == s.initial.columns
      && (r.Failure? ==> s'.history == s.history)
      && (r.Failure? && !r.error.MissingColumn? && r.error != NoValidResults ==> s' == s)
      && (r == Failure(NoValidResults) ==>
            s'.current == Purge(s.current, s'.failed) && s'.initial == Purge(s.initial, s'.failed))
      && (r.Success? ==>
            && s'.history == s.history + [Knockout(KnockoutTargets(gene, customParams).value.0, r.value,
                                                   KnockoutTargets(gene, customParams).value.1,
                                                   KoMethodOf(koMethod, koValue, koMultiplier, pm))]
            && s'.current == ReorderForSimulation(RenamedBackToInput(r.value))
            && FreeOf(r.value, s'.failed) && FreeOf(s'.current, s'.failed) && FreeOf(s'.initial, s'.failed)
            && Tagged(r.value, KnockoutTargets(gene, customParams).value.0))
  {
    var targets := KnockoutTargets(gene, customParams);
    if targets.Success? {
      var (name, params) := targets.value;
      if !ReadsEmpty(s.current, params) && (koMethod == "set" || koMethod == "multiply") {
        var perturbed := Perturbed(s.current, params, KnockoutBy(koMethod, koValue, koMultiplier, pm), rng);
        if perturbed.Success? {
          SimulatedKnockoutOutcome(s, name, params, perturbed.value, koValue, koMethod, koMultiplier, pm, solve);
        }
      }
    }
  }

  // ----- perform_knockdown and perform_overexpression -----

  /** Refreshing the targets from the perturbed table: each target holds the
      perturbed table's cell for its key (NaN for a key it lacks); other
      cells and the rows stay. */
  lemma {:induction false} RefreshFacts(t: Table, params: seq<string>, src: Table)
    ensures var r := Refresh(t, params, src);
      && SameKeys(r, t)
      && (forall j, p :: 0 <= j < |t.rows| && p in params ==>
            Get(r.rows[j], p) == if t.rows[j].key in Keys(src.rows) then Get(Lookup(src.rows, t.rows[j].key).value, p) else NaN)
      && (forall j, c :: 0 <= j < |t.rows| && c !in params ==> Get(r.rows[j], c) == Get(t.rows[j], c))
    decreases |params|
  {
    if params != [] {
      var init := params[..|params| - 1];
      var p := params[|params| - 1];
      assert params == init + [p];
      RefreshFacts(t, init, src);
      var prev := Refresh(t, init, src);
      AssignFacts(prev, p, Refreshed(prev, src, p));
      forall j, q | 0 <= j < |t.rows| && q in params
        ensures Get(Refresh(t, params, src).rows[j], q) ==
          if t.rows[j].key in Keys(src.rows) then Get(Lookup(src.rows, t.rows[j].key).value, q) else NaN
      {
        if q != p {
          assert q in init;
        }
      }
    }
  }

  /** A multiplier column's name is neither a species name nor a tagged one. */
  predicate Untagged(c: string) {
    |c| > 0 && c[0] !in "cFJ"
  }

  lemma UntaggedFacts(c: string, suffix: string)
    requires Untagged(c)
    ensures c !in OUTPUT_STATES
    ensures forall i :: 0 <= i < |OUTPUT_STATES| ==> c != OUTPUT_STATES[i] + " " + suffix
  {
    forall i | 0 <= i < |OUTPUT_STATES| ensures c != OUTPUT_STATES[i] + " " + suffix && c != OUTPUT_STATES[i] {
      assert (OUTPUT_STATES[i] + " " + suffix)[0] == OUTPUT_STATES[i][0];
    }
  }

  /** After the solver, a knockdown's or overexpression's results keep the
      solver's rows; each row's multiplier column and targets hold the cells
      of the perturbed row with its key. */
  lemma RecombinedValues(filtered: Table, perturbed: Table, col: string, kind: Kind, gene: string,
                         history: seq<Step>, current: Table, targets: seq<string>)
    requires filtered.columns == OUTPUT_STATES && Untagged(col) && col !in targets
    requires forall j :: 0 <= j < |filtered.rows| ==> filtered.rows[j].key in Keys(perturbed.rows)
    ensures var r := Recombined(filtered, perturbed, col, kind, gene, history, current, targets);
      && SameKeys(r, filtered)
      && forall j :: 0 <= j < |r.rows| ==>
           && r.rows[j].key in Keys(perturbed.rows)
           && Get(r.rows[j], col) == Get(Lookup(perturbed.rows, r.rows[j].key).value, col)
           && forall p :: p in targets ==> Get(r.rows[j], p) == Get(Lookup(perturbed.rows, r.rows[j].key).value, p)
  {
    var withMultiplier := LeftMerge(filtered, perturbed, [col]);
    UntaggedFacts(col, Suffix(kind, gene, history));
    assert NewColumns(filtered.columns, [col]) == [col];
    assert col in withMultiplier.columns;
    var named := StateNames(withMultiplier, kind, gene, history);
    StateNamesTagged(withMultiplier, kind, gene, history);
    var merged := LeftMerge(named, current, ParamColumns(current));
    assert col in named.columns;
    assert col !in NewColumns(named.columns, ParamColumns(current));
    RefreshFacts(merged, targets, perturbed);
    var r := Recombined(filtered, perturbed, col, kind, gene, history, current, targets);
    forall j | 0 <= j < |r.rows|
      ensures Get(r.rows[j], col) == Get(Lookup(perturbed.rows, r.rows[j].key).value, col)
    {
      assert Get(r.rows[j], col) == Get(merged.rows[j], col) == Get(named.rows[j], col) == Get(withMultiplier.rows[j], col);
    }
  }

  /** A row looked up by key in a table that keeps another table's rows, key
      for key, stands at the position of a row with that key. */
  lemma LookupPosition(t: Table, perturbed: Table, k: Key)
    requires |perturbed.rows| == |t.rows| && forall i :: 0 <= i < |t.rows| ==> perturbed.rows[i].key == t.rows[i].key
    requires k in Keys(perturbed.rows)
    ensures exists i :: 0 <= i < |t.rows| && t.rows[i].key == k && Lookup(perturbed.rows, k).value == perturbed.rows[i]
  {
    var m := Lookup(perturbed.rows, k).value;
    var i :| 0 <= i < |perturbed.rows| && perturbed.rows[i] == m;
    assert t.rows[i].key == k;
  }

  lemma KnockdownParameterUntagged(gene: string)
    ensures KnockdownParameter(gene) != KNOCKDOWN_MULTIPLIER
  {
    assert KnockdownParameter(gene)[0] == '(';
  }

  /** From the simulation on, a knockdown raises only when the solver's
      results lack the parameter index, and keeps the failed sets out of the
      initial table. */
  lemma SimulatedKnockdownOutcome(s: PipelineState, gene: string, params: seq<string>, perturbed: Table, approach: string,
                                  solve: Solver)
    ensures var (s', r) := KnockdownSimulated(s, gene, params, perturbed, approach, solve);
      && s.failed <= s'.failed
      && s'.initial.columns == s.initial.columns
      && FreeOf(s'.initial, s'.failed)
      && (r.Failure? ==> s'.history == s.history && r.error == MissingColumn(PARAM_INDEX))
  {
    SimulateFacts(s, perturbed, solve);
  }

  /** From the simulation on, an overexpression raises only when the
      solver's results lack the parameter index, and keeps the failed sets
      out of the initial table. */
  lemma SimulatedOverexpressionOutcome(s: PipelineState, gene: string, params: seq<string>, perturbed: Table, how: OeMethod,
                                       solve: Solver)
    ensures var (s', r) := OverexpressionSimulated(s, gene, params, perturbed, how, solve);
      && s.failed <= s'.failed
      && s'.initial.columns == s.initial.columns
      && FreeOf(s'.initial, s'.failed)
      && (r.Failure? ==> s'.history == s.history && r.error == MissingColumn(PARAM_INDEX))
  {
    SimulateFacts(s, perturbed, solve);
  }

  /** What a successful knockdown is made of: the state columns were
      restored, the approach is known, the solver ran on the perturbed table
      and the results are the recombined table. */
  lemma KnockdownSucceeded(s: PipelineState, gene: string, betaA: real, betaB: real, kdMeanEff: real, maxKdPct: real,
                           approach: string, spread: real, solve: Solver, rng: Rng)
    requires KnockdownStep(s, gene, betaA, betaB, kdMeanEff, maxKdPct, approach, spread, solve, rng).1.Success?
    ensures var restored := RestoreStateColumns(s.current, s.history);
      var s0 := s.(current := restored.0);
      var params := [KnockdownParameter(gene)];
      var perturbed := Perturbed(s0.current, params, KnockdownBy(approach, betaA, betaB, kdMeanEff, maxKdPct, spread), rng);
      && restored.1.None? && IsKnockdownApproach(approach) && perturbed.Success?
      && var (s1, filtered) := Simulate(s0, perturbed.value, solve);
      && filtered.Some?
      && var results := Recombined(filtered.value, perturbed.value, KNOCKDOWN_MULTIPLIER, KD, gene, s.history, s1.current, params);
      && KnockdownStep(s, gene, betaA, betaB, kdMeanEff, maxKdPct, approach, spread, solve, rng) ==
           (Advance(s1, Knockdown(gene, results, approach)), Success(results))
  {
  }

  /** A knockdown either raises, with the history unchanged, or succeeds.
      The state-column rename survives every error; errors raised before
      the solver runs change nothing else; the failed set only grows. */
  lemma KnockdownOutcome(s: PipelineState, gene: string, betaA: real, betaB: real, kdMeanEff: real, maxKdPct: real,
                         approach: string, spread: real, solve: Solver, rng: Rng)
    ensures var (s', r) := KnockdownStep(s, gene, betaA, betaB, kdMeanEff, maxKdPct, approach, spread, solve, rng);
      var restored := RestoreStateColumns(s.current, s.history);
      && s.failed <= s'.failed
      && s'.initial.columns == s.initial.columns
      && (restored.1.Some? ==> r == Failure(restored.1.value))
      && (!IsKnockdownApproach(approach) ==> r.Failure?)
      && (r.Failure? ==> s'.history == s.history)
      && (r.Failure? && r.error != MissingColumn(PARAM_INDEX) ==> s' == s.(current := restored.0))
  {
    var restored := RestoreStateColumns(s.current, s.history);
    var s0 := s.(current := restored.0);
    var params := [KnockdownParameter(gene)];
    var pert := KnockdownBy(approach, betaA, betaB, kdMeanEff, maxKdPct, spread);
    if restored.1.None? && IsKnockdownApproach(approach) {
      PerturbedErrors(s0.current, params, pert, rng);
      var perturbed := Perturbed(s0.current, params, pert, rng);
      if perturbed.Success? {
        SimulatedKnockdownOutcome(s0, gene, params, perturbed.value, approach, solve);
      }
    }
  }

  /** A successful knockdown appends one record whose results become the
      current table, and leaves no row of a failed set in its results or in
      either table. */
  lemma KnockdownKeepsFailedOut(s: PipelineState, gene: string, betaA: real, betaB: real, kdMeanEff: real, maxKdPct: real,
                                approach: string, spread: real, solve: Solver, rng: Rng)
    requires KnockdownStep(s, gene, betaA, betaB, kdMeanEff, maxKdPct, approach, spread, solve, rng).1.Success?
    ensures var (s', r) := KnockdownStep(s, gene, betaA, betaB, kdMeanEff, maxKdPct, approach, spread, solve, rng);
      && s'.history == s.history + [Knockdown(gene, r.value, approach)]
      && s'.current == ReorderForSimulation(RenamedBackToInput(r.value))
      && FreeOf(r.value, s'.failed) && FreeOf(s'.current, s'.failed) && FreeOf(s'.initial, s'.failed)
  {
    KnockdownSucceeded(s, gene, betaA, betaB, kdMeanEff, maxKdPct, approach, spread, solve, rng);
    var restored := RestoreStateColumns(s.current, s.history).0;
    var s0 := s.(current := restored);
    var p := KnockdownParameter(gene);
    var pert := KnockdownBy(approach, betaA, betaB, kdMeanEff, maxKdPct, spread);
    var perturbed := Perturbed(restored, [p], pert, rng).value;
    SimulateFacts(s0, perturbed, solve);
    var (s1, filtered) := Simulate(s0, perturbed, solve);
    RecombinedKeys(filtered.value, perturbed, KNOCKDOWN_MULTIPLIER, KD, gene, s.history, s1.current, [p]);
    AdvanceKeys(Recombined(filtered.value, perturbed, KNOCKDOWN_MULTIPLIER, KD, gene, s.history, s1.current, [p]));
  }

  /** One row of knockdown results: the target and the multiplier column
      come from the restored row with its key and that row's multiplier. */
  lemma KnockdownRow(restored: Table, perturbed: Table, p: string, mults: seq<Value>, row: Row)
    requires |mults| == |restored.rows| == |perturbed.rows|
    requires forall i :: 0 <= i < |restored.rows| ==> perturbed.rows[i].key == restored.rows[i].key
    requires forall i :: 0 <= i < |restored.rows| ==> Get(perturbed.rows[i], p) == Mul(Get(restored.rows[i], p), mults[i])
    requires forall i :: 0 <= i < |restored.rows| ==> Get(perturbed.rows[i], KNOCKDOWN_MULTIPLIER) == mults[i]
    requires row.key in Keys(perturbed.rows)
    requires Get(row, p) == Get(Lookup(perturbed.rows, row.key).value, p)
    requires Get(row, KNOCKDOWN_MULTIPLIER) == Get(Lookup(perturbed.rows, row.key).value, KNOCKDOWN_MULTIPLIER)
    ensures exists i :: 0 <= i < |restored.rows| && restored.rows[i].key == row.key &&
              Get(row, p) == Mul(Get(restored.rows[i], p), mults[i]) && Get(row, KNOCKDOWN_MULTIPLIER) == mults[i]
  {
    LookupPosition(restored, perturbed, row.key);
  }

  /** A row of knockdown results against the restored current table: it
      comes from the restored row with its key, whose target it holds
      multiplied by that row's multiplier, which it records. */
  predicate KnockedDownFrom(row: Row, restored: Table, p: string, mults: seq<Value>) {
    exists i :: 0 <= i < |restored.rows| && i < |mults| && restored.rows[i].key == row.key &&
      Get(row, p) == Mul(Get(restored.rows[i], p), mults[i]) && Get(row, KNOCKDOWN_MULTIPLIER) == mults[i]
  }

  /** The recombined knockdown results, row by row against the restored
      current table. */
  lemma KnockdownResults(filtered: Table, perturbed: Table, gene: string, history: seq<Step>, current: Table,
                         restored: Table, p: string, mults: seq<Value>)
    requires filtered.columns == OUTPUT_STATES && p != KNOCKDOWN_MULTIPLIER
    requires forall j :: 0 <= j < |filtered.rows| ==> filtered.rows[j].key in Keys(perturbed.rows)
    requires |mults| == |restored.rows| == |perturbed.rows|
    requires forall i :: 0 <= i < |restored.rows| ==> perturbed.rows[i].key == restored.rows[i].key
    requires forall i :: 0 <= i < |restored.rows| ==> Get(perturbed.rows[i], p) == Mul(Get(restored.rows[i], p), mults[i])
    requires forall i :: 0 <= i < |restored.rows| ==> Get(perturbed.rows[i], KNOCKDOWN_MULTIPLIER) == mults[i]
    ensures var r := Recombined(filtered, perturbed, KNOCKDOWN_MULTIPLIER, KD, gene, history, current, [p]);
      forall j :: 0 <= j < |r.rows| ==> KnockedDownFrom(r.rows[j], restored, p, mults)
  {
    RecombinedValues(filtered, perturbed, KNOCKDOWN_MULTIPLIER, KD, gene, history, current, [p]);
    var r := Recombined(filtered, perturbed, KNOCKDOWN_MULTIPLIER, KD, gene, history, current, [p]);
    forall j | 0 <= j < |r.rows|
      ensures KnockedDownFrom(r.rows[j], restored, p, mults)
    {
      KnockdownRow(restored, perturbed, p, mults, r.rows[j]);
    }
  }

  /** Knockdown results: in every row the knocked-down basal parameter is
      its value in the restored current row with the same key times that
      row's multiplier, and `knockdown_multiplier` records the multiplier. */
  lemma KnockdownValues(s: PipelineState, gene: string, betaA: real, betaB: real, kdMeanEff: real, maxKdPct: real,
                        approach: string, spread: real, solve: Solver, rng: Rng)
    requires KnockdownStep(s, gene, betaA, betaB, kdMeanEff, maxKdPct, approach, spread, solve, rng).1.Success?
    ensures var r := KnockdownStep(s, gene, betaA, betaB, kdMeanEff, maxKdPct, approach, spread, solve, rng).1.value;
      var restored := RestoreStateColumns(s.current, s.history).0;
      var mults := KnockdownMultipliers(rng, KnockdownBy(approach, betaA, betaB, kdMeanEff, maxKdPct, spread), |restored.rows|);
      && mults.Some?
      && forall j :: 0 <= j < |r.rows| ==> KnockedDownFrom(r.rows[j], restored, KnockdownParameter(gene), mults.value)
  {
    KnockdownSucceeded(s, gene, betaA, betaB, kdMeanEff, maxKdPct, approach, spread, solve, rng);
    var restored := RestoreStateColumns(s.current, s.history).0;
    var s0 := s.(current := restored);
    var p := KnockdownParameter(gene);
    var pert := KnockdownBy(approach, betaA, betaB, kdMeanEff, maxKdPct, spread);
    var perturbed := Perturbed(restored, [p], pert, rng).value;
    KnockdownParameterUntagged(gene);
    PerturbedKnockdown(restored, [p], pert, rng);
    PerturbedKeepsRows(restored, [p], pert, rng);
    var mults := KnockdownMultipliers(rng, pert, |restored.rows|).value;
    SimulateFacts(s0, perturbed, solve);
    var (s1, filtered) := Simulate(s0, perturbed, solve);
    KnockdownResults(filtered.value, perturbed, gene, s.history, s1.current, restored, p, mults);
  }

  /** The overexpression guard raises exactly when a target that is a
      column of the marked table is missing from the current table or the
      current table has no rows. */
  lemma {:induction false} GuardFacts(params: seq<string>, marked: seq<string>, current: Table)
    ensures OverexpressionGuard(params, marked, current).None? <==>
              forall p :: p in params && p in marked ==> p in current.columns && current.rows != []
    decreases |params|
  {
    if params != [] {
      GuardFacts(params[1..], marked, current);
      assert forall p :: p in params <==> p == params[0] || p in params[1..];
    }
  }

  /** The overexpression of the marked table: it raises exactly as the guard
      says; otherwise the targets present in the marked table are
      multiplied by the row's multiplier (once, when no target repeats),
      every other cell and the columns stay. */
  lemma OverexpressedFacts(marked: Table, params: seq<string>, current: Table, mults: seq<Value>)
    requires |mults| == |marked.rows|
    ensures var r := Overexpressed(marked, params, current, mults);
      && (r.Failure? <==> exists p :: p in params && p in marked.columns && (p !in current.columns || current.rows == []))
      && (r.Success? ==>
            && SameKeys(r.value, marked)
            && (forall c :: c in r.value.columns <==> c in marked.columns)
            && (forall j, c :: 0 <= j < |marked.rows| && (c !in params || c !in marked.columns) ==>
                  Get(r.value.rows[j], c) == Get(marked.rows[j], c))
            && (NoDup(params) ==>
                  forall j, p :: 0 <= j < |marked.rows| && p in params && p in marked.columns ==>
                    Get(r.value.rows[j], p) == Mul(Get(marked.rows[j], p), mults[j])))
  {
    GuardFacts(params, marked.columns, current);
    var ps := Filter(params, Present(marked.columns));
    ScaleParamsShape(marked, ps, RowFactor(mults));
    ScaledColumns(marked, ps, RowFactor(mults));
    ScaleParamsOthers(marked, ps, RowFactor(mults));
    if NoDup(params) {
      FilterNoDup(params, Present(marked.columns));
      ScaleParamsCells(marked, ps, RowFactor(mults));
    }
  }

  /** What a successful overexpression is made of. */
  lemma OverexpressionSucceeded(s: PipelineState, gene: string, oeMethod: string, betaA: real, betaB: real, maxMult: real,
                                setMult: real, customParams: Option<seq<string>>, solve: Solver, rng: Rng)
    requires OverexpressionStep(s, gene, oeMethod, betaA, betaB, maxMult, setMult, customParams, solve, rng).1.Success?
    ensures var targets := OverexpressionTargets(gene, customParams);
      var restored := RestoreStateColumns(s.current, s.history);
      var s0 := s.(current := restored.0);
      var mults := OverexpressionMultipliers(rng, oeMethod, betaA, betaB, maxMult, setMult, |s0.current.rows|);
      && targets.Success? && restored.1.None? && mults.Some?
      && var marked := Assign(s0.current, OVEREXPRESSION_MULTIPLIER, mults.value);
      && var perturbed := Overexpressed(marked, targets.value, s0.current, mults.value);
      && perturbed.Success?
      && var (s1, filtered) := Simulate(s0, perturbed.value, solve);
      && filtered.Some?
      && var results := Recombined(filtered.value, perturbed.value, OVEREXPRESSION_MULTIPLIER, OE, gene, s.history,
                                   s1.current, Filter(targets.value, Present(perturbed.value.columns)));
      && OverexpressionStep(s, gene, oeMethod, betaA, betaB, maxMult, setMult, customParams, solve, rng) ==
           (Advance(s1, Overexpression(gene, results, targets.value, OeMethodOf(oeMethod, betaA, betaB, maxMult, setMult))), Success(results))
  {
  }

  /** An overexpression either raises, with the history unchanged, or
      succeeds. An unknown gene changes nothing; after it, the state-column
      rename survives every error, and errors raised before the solver runs
      change nothing else; a target that is a column of a table without rows
      raises; the failed set only grows. */
  lemma OverexpressionOutcome(s: PipelineState, gene: string, oeMethod: string, betaA: real, betaB: real, maxMult: real,
                              setMult: real, customParams: Option<seq<string>>, solve: Solver, rng: Rng)
    ensures var (s', r) := OverexpressionStep(s, gene, oeMethod, betaA, betaB, maxMult, setMult, customParams, solve, rng);
      var targets := OverexpressionTargets(gene, customParams);
      var restored := RestoreStateColumns(s.current, s.history);
      && s.failed <= s'.failed
      && s'.initial.columns == s.initial.columns
      && (targets.Failure? ==> s' == s && r == Failure(targets.error))
      && (targets.Success? && restored.1.Some? ==> r == Failure(restored.1.value))
      && (targets.Success? && oeMethod != "beta" && oeMethod != "set" ==> r.Failure?)
      && (targets.Success? && restored.0.rows == [] && (exists p :: p in targets.value && p in restored.0.columns) ==> r.Failure?)
      && (r.Failure? ==> s'.history == s.history)
      && (r.Failure? && targets.Success? && r.error != MissingColumn(PARAM_INDEX) ==> s' == s.(current := restored.0))
  {
    var targets := OverexpressionTargets(gene, customParams);
    var restored := RestoreStateColumns(s.current, s.history);
    var s0 := s.(current := restored.0);
    var mults := OverexpressionMultipliers(rng, oeMethod, betaA, betaB, maxMult, setMult, |s0.current.rows|);
    if targets.Success? && restored.1.None? && mults.Some? {
      var marked := Assign(s0.current, OVEREXPRESSION_MULTIPLIER, mults.value);
      AssignFacts(s0.current, OVEREXPRESSION_MULTIPLIER, mults.value);
      OverexpressedFacts(marked, targets.value, s0.current, mults.value);
      var perturbed := Overexpressed(marked, targets.value, s0.current, mults.value);
      if perturbed.Success? {
        SimulatedOverexpressionOutcome(s0, gene, targets.value, perturbed.value,
                                       OeMethodOf(oeMethod, betaA, betaB, maxMult, setMult), solve);
      }
    }
  }

  /** A successful overexpression appends one record whose results become
      the current table, and leaves no row of a failed set in its results or
      in either table. */
  lemma OverexpressionKeepsFailedOut(s: PipelineState, gene: string, oeMethod: string, betaA: real, betaB: real, maxMult: real,
                                     setMult: real, customParams: Option<seq<string>>, solve: Solver, rng: Rng)
    requires OverexpressionStep(s, gene, oeMethod, betaA, betaB, maxMult, setMult, customParams, solve, rng).1.Success?
    ensures var (s', r) := OverexpressionStep(s, gene, oeMethod, betaA, betaB, maxMult, setMult, customParams, solve, rng);
      && s'.history == s.history + [Overexpression(gene, r.value, OverexpressionTargets(gene, customParams).value,
                                                   OeMethodOf(oeMethod, betaA, betaB, maxMult, setMult))]
      && s'.current == ReorderForSimulation(RenamedBackToInput(r.value))
      && FreeOf(r.value, s'.failed) && FreeOf(s'.current, s'.failed) && FreeOf(s'.initial, s'.failed)
  {
    OverexpressionSucceeded(s, gene, oeMethod, betaA, betaB, maxMult, setMult, customParams, solve, rng);
    var params := OverexpressionTargets(gene, customParams).value;
    var restored := RestoreStateColumns(s.current, s.history).0;
    var s0 := s.(current := restored);
    var mults := OverexpressionMultipliers(rng, oeMethod, betaA, betaB, maxMult, setMult, |restored.rows|).value;
    var marked := Assign(restored, OVEREXPRESSION_MULTIPLIER, mults);
    var perturbed := Overexpressed(marked, params, restored, mults).value;
    SimulateFacts(s0, perturbed, solve);
    var (s1, filtered) := Simulate(s0, perturbed, solve);
    var targets := Filter(params, Present(perturbed.columns));
    var r := Recombined(filtered.value, perturbed, OVEREXPRESSION_MULTIPLIER, OE, gene, s.history, s1.current, targets);
    assert r == OverexpressionStep(s, gene, oeMethod, betaA, betaB, maxMult, setMult, customParams, solve, rng).1.value;
    RecombinedKeys(filtered.value, perturbed, OVEREXPRESSION_MULTIPLIER, OE, gene, s.history, s1.current, targets);
    AdvanceKeys(r);
  }

  /** Recombining keeps the solver's rows, whatever the targets. */
  lemma RecombinedKeys(filtered: Table, perturbed: Table, col: string, kind: Kind, gene: string,
                       history: seq<Step>, current: Table, targets: seq<string>)
    ensures SameKeys(Recombined(filtered, perturbed, col, kind, gene, history, current, targets), filtered)
  {
    var withMultiplier := LeftMerge(filtered, perturbed, [col]);
    StateNamesTagged(withMultiplier, kind, gene, history);
    var merged := LeftMerge(StateNames(withMultiplier, kind, gene, history), current, ParamColumns(current));
    RefreshFacts(merged, targets, perturbed);
  }

  /** A row of overexpression results against the restored current table:
      it comes from the restored row with its key, records that row's
      multiplier, and every target that is a column of the restored table
      is multiplied by it. */
  predicate ScaledFromRestored(row: Row, restored: Table, params: seq<string>, mults: seq<Value>) {
    exists i :: 0 <= i < |restored.rows| && i < |mults| && restored.rows[i].key == row.key &&
      Get(row, OVEREXPRESSION_MULTIPLIER) == mults[i] &&
      forall p :: p in params && p in restored.columns ==> Get(row, p) == Mul(Get(restored.rows[i], p), mults[i])
  }

  /** One row of overexpression results: the multiplier column and each
      target present in the restored table come from the restored row with
      its key and that row's multiplier. */
  lemma OverexpressionRow(restored: Table, perturbed: Table, params: seq<string>, mults: seq<Value>, row: Row)
    requires |mults| == |restored.rows| == |perturbed.rows|
    requires forall i :: 0 <= i < |restored.rows| ==> perturbed.rows[i].key == restored.rows[i].key
    requires forall i, p :: 0 <= i < |restored.rows| && p in params && p in restored.columns ==>
               Get(perturbed.rows[i], p) == Mul(Get(restored.rows[i], p), mults[i])
    requires forall i :: 0 <= i < |restored.rows| ==> Get(perturbed.rows[i], OVEREXPRESSION_MULTIPLIER) == mults[i]
    requires row.key in Keys(perturbed.rows)
    requires forall p :: p in params && p in restored.columns ==> Get(row, p) == Get(Lookup(perturbed.rows, row.key).value, p)
    requires Get(row, OVEREXPRESSION_MULTIPLIER) == Get(Lookup(perturbed.rows, row.key).value, OVEREXPRESSION_MULTIPLIER)
    ensures ScaledFromRestored(row, restored, params, mults)
  {
    LookupPosition(restored, perturbed, row.key);
    var i :| 0 <= i < |restored.rows| && restored.rows[i].key == row.key && Lookup(perturbed.rows, row.key).value == perturbed.rows[i];
    assert Get(row, OVEREXPRESSION_MULTIPLIER) == mults[i];
  }

  /** The perturbed table of an overexpression, row by row against the
      restored current table. */
  lemma OverexpressedRows(restored: Table, params: seq<string>, mults: seq<Value>)
    requires |mults| == |restored.rows| && NoDup(params) && OVEREXPRESSION_MULTIPLIER !in params
    requires Overexpressed(Assign(restored, OVEREXPRESSION_MULTIPLIER, mults), params, restored, mults).Success?
    ensures var perturbed := Overexpressed(Assign(restored, OVEREXPRESSION_MULTIPLIER, mults), params, restored, mults).value;
      && SameKeys(perturbed, restored)
      && (forall p :: p in params && p in restored.columns ==> p in perturbed.columns)
      && (forall i, p :: 0 <= i < |restored.rows| && p in params && p in restored.columns ==>
            Get(perturbed.rows[i], p) == Mul(Get(restored.rows[i], p), mults[i]))
      && (forall i :: 0 <= i < |restored.rows| ==> Get(perturbed.rows[i], OVEREXPRESSION_MULTIPLIER) == mults[i])
  {
    var marked := Assign(restored, OVEREXPRESSION_MULTIPLIER, mults);
    AssignFacts(restored, OVEREXPRESSION_MULTIPLIER, mults);
    OverexpressedFacts(marked, params, restored, mults);
  }

  /** Overexpression results: in every row each target present in the
      restored current table is its value in the restored row with the same
      key times that row's multiplier, and `overexpression_multiplier`
      records the multiplier. Targets absent from the table are skipped. */
  lemma OverexpressionValues(s: PipelineState, gene: string, oeMethod: string, betaA: real, betaB: real, maxMult: real,
                             setMult: real, customParams: Option<seq<string>>, solve: Solver, rng: Rng)
    requires OverexpressionStep(s, gene, oeMethod, betaA, betaB, maxMult, setMult, customParams, solve, rng).1.Success?
    requires var targets := OverexpressionTargets(gene, customParams);
      targets.Success? ==> NoDup(targets.value) && OVEREXPRESSION_MULTIPLIER !in targets.value
    ensures var r := OverexpressionStep(s, gene, oeMethod, betaA, betaB, maxMult, setMult, customParams, solve, rng).1.value;
      var params := OverexpressionTargets(gene, customParams).value;
      var restored := RestoreStateColumns(s.current, s.history).0;
      var mults := OverexpressionMultipliers(rng, oeMethod, betaA, betaB, maxMult, setMult, |restored.rows|);
      && mults.Some?
      && forall j :: 0 <= j < |r.rows| ==>
           ScaledFromRestored(r.rows[j], restored, params, mults.value)
  {
    OverexpressionSucceeded(s, gene, oeMethod, betaA, betaB, maxMult, setMult, customParams, solve, rng);
    var params := OverexpressionTargets(gene, customParams).value;
    var restored := RestoreStateColumns(s.current, s.history).0;
    var s0 := s.(current := restored);
    var mults := OverexpressionMultipliers(rng, oeMethod, betaA, betaB, maxMult, setMult, |restored.rows|).value;
    var perturbed := Overexpressed(Assign(restored, OVEREXPRESSION_MULTIPLIER, mults), params, restored, mults).value;
    OverexpressedRows(restored, params, mults);
    SimulateFacts(s0, perturbed, solve);
    var (s1, filtered) := Simulate(s0, perturbed, solve);
    OverexpressionResults(filtered.value, perturbed, gene, s.history, s1.current, restored, params, mults);
  }

  /** The recombined overexpression results, row by row against the
      restored current table. */
  lemma OverexpressionResults(filtered: Table, perturbed: Table, gene: string, history: seq<Step>, current: Table,
                              restored: Table, params: seq<string>, mults: seq<Value>)
    requires filtered.columns == OUTPUT_STATES && OVEREXPRESSION_MULTIPLIER !in params
    requires forall j :: 0 <= j < |filtered.rows| ==> filtered.rows[j].key in Keys(perturbed.rows)
    requires |mults| == |restored.rows| && SameKeys(perturbed, restored)
    requires forall p :: p in params && p in restored.columns ==> p in perturbed.columns
    requires forall i, p :: 0 <= i < |restored.rows| && p in params && p in restored.columns ==>
               Get(perturbed.rows[i], p) == Mul(Get(restored.rows[i], p), mults[i])
    requires forall i :: 0 <= i < |restored.rows| ==> Get(perturbed.rows[i], OVEREXPRESSION_MULTIPLIER) == mults[i]
    ensures var r := Recombined(filtered, perturbed, OVEREXPRESSION_MULTIPLIER, OE, gene, history, current,
                                Filter(params, Present(perturbed.columns)));
      forall j :: 0 <= j < |r.rows| ==>
        ScaledFromRestored(r.rows[j], restored, params, mults)
  {
    var targets := Filter(params, Present(perturbed.columns));
    assert Untagged(OVEREXPRESSION_MULTIPLIER);
    RecombinedValues(filtered, perturbed, OVEREXPRESSION_MULTIPLIER, OE, gene, history, current, targets);
    var r := Recombined(filtered, perturbed, OVEREXPRESSION_MULTIPLIER, OE, gene, history, current, targets);
    OverexpressionRows(r, restored, perturbed, params, targets, mults);
  }

  lemma OverexpressionRows(r: Table, restored: Table, perturbed: Table, params: seq<string>, targets: seq<string>, mults: seq<Value>)
    requires |mults| == |restored.rows| && SameKeys(perturbed, restored)
    requires forall p :: p in params && p in restored.columns ==> p in targets
    requires forall i, p :: 0 <= i < |restored.rows| && p in params && p in restored.columns ==>
               Get(perturbed.rows[i], p) == Mul(Get(restored.rows[i], p), mults[i])
    requires forall i :: 0 <= i < |restored.rows| ==> Get(perturbed.rows[i], OVEREXPRESSION_MULTIPLIER) == mults[i]
    requires forall j :: 0 <= j < |r.rows| ==>
               && r.rows[j].key in Keys(perturbed.rows)
               && Get(r.rows[j], OVEREXPRESSION_MULTIPLIER) == Get(Lookup(perturbed.rows, r.rows[j].key).value, OVEREXPRESSION_MULTIPLIER)
               && forall p :: p in targets ==> Get(r.rows[j], p) == Get(Lookup(perturbed.rows, r.rows[j].key).value, p)
    ensures forall j :: 0 <= j < |r.rows| ==>
              ScaledFromRestored(r.rows[j], restored, params, mults)
  {
    forall j | 0 <= j < |r.rows|
      ensures ScaledFromRestored(r.rows[j], restored, params, mults)
    {
      forall p | p in params && p in restored.columns
        ensures Get(r.rows[j], p) == Get(Lookup(perturbed.rows, r.rows[j].key).value, p)
      {
        assert p in targets;
      }
      OverexpressionRow(restored, perturbed, params, mults, r.rows[j]);
    }
  }

  // ----- the initial table across steps -----

  /** Every step either leaves the initial table and the failed set alone
      or has just purged the failed sets from the initial table. */
  lemma KnockoutInitial(s: PipelineState, gene: Option<string>, koValue: real, koMethod: string, koMultiplier: real,
                        customParams: Option<seq<string>>, pm: seq<(string, real)>, solve: Solver, rng: Rng)
    ensures var s' := KnockoutStep(s, gene, koValue, koMethod, koMultiplier, customParams, pm, solve, rng).0;
      (s'.initial == s.initial && s'.failed == s.failed) || FreeOf(s'.initial, s'.failed)
  {
    var targets := KnockoutTargets(gene, customParams);
    if targets.Success? {
      var (name, params) := targets.value;
      if !ReadsEmpty(s.current, params) && (koMethod == "set" || koMethod == "multiply") {
        var perturbed := Perturbed(s.current, params, KnockoutBy(koMethod, koValue, koMultiplier, pm), rng);
        if perturbed.Success? {
          SimulatedKnockoutOutcome(s, name, params, perturbed.value, koValue, koMethod, koMultiplier, pm, solve);
        }
      }
    }
  }

  lemma KnockdownInitial(s: PipelineState, gene: string, betaA: real, betaB: real, kdMeanEff: real, maxKdPct: real,
                         approach: string, spread: real, solve: Solver, rng: Rng)
    ensures var s' := KnockdownStep(s, gene, betaA, betaB, kdMeanEff, maxKdPct, approach, spread, solve, rng).0;
      (s'.initial == s.initial && s'.failed == s.failed) || FreeOf(s'.initial, s'.failed)
  {
    var restored := RestoreStateColumns(s.current, s.history);
    var s0 := s.(current := restored.0);
    var params := [KnockdownParameter(gene)];
    if restored.1.None? && IsKnockdownApproach(approach) {
      var perturbed := Perturbed(s0.current, params, KnockdownBy(approach, betaA, betaB, kdMeanEff, maxKdPct, spread), rng);
      if perturbed.Success? {
        SimulatedKnockdownOutcome(s0, gene, params, perturbed.value, approach, solve);
      }
    }
  }

  lemma OverexpressionInitial(s: PipelineState, gene: string, oeMethod: string, betaA: real, betaB: real, maxMult: real,
                              setMult: real, customParams: Option<seq<string>>, solve: Solver, rng: Rng)
    ensures var s' := OverexpressionStep(s, gene, oeMethod, betaA, betaB, maxMult, setMult, customParams, solve, rng).0;
      (s'.initial == s.initial && s'.failed == s.failed) || FreeOf(s'.initial, s'.failed)
  {
    var targets := OverexpressionTargets(gene, customParams);
    var restored := RestoreStateColumns(s.current, s.history);
    var s0 := s.(current := restored.0);
    var mults := OverexpressionMultipliers(rng, oeMethod, betaA, betaB, maxMult, setMult, |s0.current.rows|);
    if targets.Success? && restored.1.None? && mults.Some? {
      var marked := Assign(s0.current, OVEREXPRESSION_MULTIPLIER, mults.value);
      var perturbed := Overexpressed(marked, targets.value, s0.current, mults.value);
      if perturbed.Success? {
        SimulatedOverexpressionOutcome(s0, gene, targets.value, perturbed.value,
                                       OeMethodOf(oeMethod, betaA, betaB, maxMult, setMult), solve);
      }
    }
  }

  // ----- reset_to_last_knockout -----

  /** Without a knockout in the history, reset changes nothing. With one, it
      cuts the history just after the last knockout, makes that knockout's
      results the current table and keeps the initial table and the failed
      set; resetting twice is resetting once. */
  lemma ResetFacts(s: PipelineState)
    ensures var s' := ResetToLastKnockout(s);
      && s'.initial == s.initial && s'.failed == s.failed
      && ((forall j :: 0 <= j < |s.history| ==> !s.history[j].Knockout?) ==> s' == s)
      && ((exists j :: 0 <= j < |s.history| && s.history[j].Knockout?) ==>
            && FollowsKnockout(s'.history)
            && |s'.history| <= |s.history| && s'.history == s.history[..|s'.history|]
            && (forall j :: |s'.history| <= j < |s.history| ==> !s.history[j].Knockout?)
            && s'.current == Last(s'.history).results)
      && ResetToLastKnockout(s') == s'
  {
    var i := LastKnockout(s.history);
    if i.Some? {
      var h := s.history[..i.value + 1];
      assert Last(h) == s.history[i.value];
      assert LastKnockout(h) == Some(i.value);
    }
  }

  /** Every knockout in the history carries its tagged species columns. */
  predicate KnockoutsTagged(history: seq<Step>) {
    forall i :: 0 <= i < |history| && history[i].Knockout? ==> Tagged(history[i].results, history[i].gene)
  }

  /** After a reset to a knockout whose results carry their tagged species
      columns, the next knockdown or overexpression finds or restores the
      input species columns and does not raise for them. */
  lemma ResetThenRestore(s: PipelineState)
    requires KnockoutsTagged(s.history)
    requires exists j :: 0 <= j < |s.history| && s.history[j].Knockout?
    ensures var s' := ResetToLastKnockout(s);
      var (t, err) := RestoreStateColumns(s'.current, s'.history);
      err.None? && HasStates(t.columns)
  {
    ResetFacts(s);
    var s' := ResetToLastKnockout(s);
    var i := LastKnockout(s.history).value;
    assert Last(s'.history) == s.history[i];
    RestoreStateColumnsFacts(s'.current, s'.history);
    assert Tagged(s'.current, Last(s'.history).gene);
  }

  /** The failed set is not consulted by a reset: a knockout's results may
      hold rows of a parameter set that a later step found failed, and the
      reset brings them back into the current table. */
  lemma ResetMayRestoreFailedRows()
    ensures var row := Row(Key(7, 0), map[]);
      var results := Table([], [row]);
      var s := PipelineState(Table([], []), Table([], []), {7}, [Knockout("FOS", results, [], SetTo(0.0)), Knockdown("JUN", Table([], []), "beta")]);
      FreeOf(s.current, s.failed) && !FreeOf(ResetToLastKnockout(s).current, ResetToLastKnockout(s).failed)
  {
    var row := Row(Key(7, 0), map[]);
    var results := Table([], [row]);
    var s := PipelineState(Table([], []), Table([], []), {7}, [Knockout("FOS", results, [], SetTo(0.0)), Knockdown("JUN", Table([], []), "beta")]);
    assert Last(s.history).Knockdown? && s.history[..1] == [s.history[0]];
    assert LastKnockout(s.history) == Some(0);
    var s' := ResetToLastKnockout(s);
    assert s'.current == results && s'.current.rows[0].key.paramIndex == 7;
  }

  // ----- sequences of calls -----

  /** One call on the pipeline. */
  datatype Operation =
    | DoKnockout(koGene: Option<string>, koValue: real, koMethod: string, koMultiplier: real,
                 koCustom: Option<seq<string>>, paramMultipliers: seq<(string, real)>)
    | DoKnockdown(kdGene: string, kdBetaA: real, kdBetaB: real, kdMeanEff: real, maxKdPct: real, approach: string, spread: real)
    | DoOverexpression(oeGene: string, oeMethod: string, oeBetaA: real, oeBetaB: real, maxMult: real, setMult: real,
                       oeCustom: Option<seq<string>>)
    | DoReset

  /** The state after one call, whether it returned or raised. */
  function Apply(s: PipelineState, op: Operation, solve: Solver, rng: Rng): PipelineState {
    match op
    case DoKnockout(g, v, m, mult, c, pm) => KnockoutStep(s, g, v, m, mult, c, pm, solve, rng).0
    case DoKnockdown(g, a, b, e, mx, ap, sp) => KnockdownStep(s, g, a, b, e, mx, ap, sp, solve, rng).0
    case DoOverexpression(g, m, a, b, mx, sm, c) => OverexpressionStep(s, g, m, a, b, mx, sm, c, solve, rng).0
    case DoReset => ResetToLastKnockout(s)
  }

  /** The state after a sequence of calls. */
  function Run(s: PipelineState, ops: seq<Operation>, solve: Solver, rng: Rng): PipelineState
    decreases |ops|
  {
    if ops == [] then s else Apply(Run(s, ops[..|ops| - 1], solve, rng), ops[|ops| - 1], solve, rng)
  }

  /** Appending a step keeps every knockout tagged when the step is not a
      knockout or is a tagged one. */
  lemma TaggedAfter(history: seq<Step>, step: Step)
    requires KnockoutsTagged(history)
    requires step.Knockout? ==> Tagged(step.results, step.gene)
    ensures KnockoutsTagged(history + [step])
  {
    forall i | 0 <= i < |history| + 1 && (history + [step])[i].Knockout?
      ensures Tagged((history + [step])[i].results, (history + [step])[i].gene)
    {
      if i < |history| {
        assert (history + [step])[i] == history[i];
      }
    }
  }

  /** What one call preserves: the failed set only grows, the initial
      table keeps its columns and never holds a row of a failed set, and
      every knockout in the history keeps its tagged species columns. */
  lemma ApplyPreserves(s: PipelineState, op: Operation, solve: Solver, rng: Rng)
    ensures var s' := Apply(s, op, solve, rng);
      && s.failed <= s'.failed
      && s'.initial.columns == s.initial.columns
      && (FreeOf(s.initial, s.failed) ==> FreeOf(s'.initial, s'.failed))
      && (KnockoutsTagged(s.history) ==> KnockoutsTagged(s'.history))
  {
    match op
    case DoKnockout(g, v, m, mult, c, pm) => {
      KnockoutOutcome(s, g, v, m, mult, c, pm, solve, rng);
      KnockoutInitial(s, g, v, m, mult, c, pm, solve, rng);
      var (s', r) := KnockoutStep(s, g, v, m, mult, c, pm, solve, rng);
      if r.Success? && KnockoutsTagged(s.history) {
        TaggedAfter(s.history, s'.history[|s.history|]);
      }
    }
    case DoKnockdown(g, a, b, e, mx, ap, sp) => {
      KnockdownOutcome(s, g, a, b, e, mx, ap, sp, solve, rng);
      KnockdownInitial(s, g, a, b, e, mx, ap, sp, solve, rng);
      var (s', r) := KnockdownStep(s, g, a, b, e, mx, ap, sp, solve, rng);
      if r.Success? {
        KnockdownKeepsFailedOut(s, g, a, b, e, mx, ap, sp, solve, rng);
        if KnockoutsTagged(s.history) {
          TaggedAfter(s.history, Knockdown(g, r.value, ap));
        }
      }
    }
    case DoOverexpression(g, m, a, b, mx, sm, c) => {
      OverexpressionOutcome(s, g, m, a, b, mx, sm, c, solve, rng);
      OverexpressionInitial(s, g, m, a, b, mx, sm, c, solve, rng);
      var (s', r) := OverexpressionStep(s, g, m, a, b, mx, sm, c, solve, rng);
      if r.Success? {
        OverexpressionKeepsFailedOut(s, g, m, a, b, mx, sm, c, solve, rng);
        if KnockoutsTagged(s.history) {
          TaggedAfter(s.history, s'.history[|s.history|]);
        }
      }
    }
    case DoReset => {
      ResetFacts(s);
    }
  }

  /** Over any sequence of calls: the failed set only grows, the initial
      table keeps its columns and, once free of failed sets, stays free of
      them, and every knockout keeps its tagged species columns. */
  lemma {:induction false} RunPreserves(s: PipelineState, ops: seq<Operation>, solve: Solver, rng: Rng)
    ensures var s' := Run(s, ops, solve, rng);
      && s.failed <= s'.failed
      && s'.initial.columns == s.initial.columns
      && (FreeOf(s.initial, s.failed) ==> FreeOf(s'.initial, s'.failed))
      && (KnockoutsTagged(s.history) ==> KnockoutsTagged(s'.history))
    decreases |ops|
  {
    if ops != [] {
      RunPreserves(s, ops[..|ops| - 1], solve, rng);
      ApplyPreserves(Run(s, ops[..|ops| - 1], solve, rng), ops[|ops| - 1], solve, rng);
    }
  }
}
