/** `run_simulations_with_duplicates`: solve every (param_index,
    init_cond_index) pair of the requested parameter sets once, collecting
    the species levels of the pairs that converge and the parameter sets of
    the pairs that do not. The steady-state solver is an oracle. */
module Runner {
  import opened Wrappers
  import opened Seqs
  import opened Frames
  import opened Schema

  /** What the solver does for one pair: the five output species levels, a
      reported failure, or an exception (caught by the runner). */
  datatype SolveOutcome = Converged(levels: map<string, real>) | Failed | Raised

  /** The solver, given the pair and the rows of the table that carry it. */
  type Solver = (Key, seq<Row>) -> SolveOutcome

  function HasKey(k: Key): Row -> bool {
    (r: Row) => r.key == k
  }

  function HasParamIndex(pi: int): Row -> bool {
    (r: Row) => r.key.paramIndex == pi
  }

  /** `data[(param_index == k.paramIndex) & (init_cond_index == k.initCondIndex)]` */
  function PairRows(data: Table, k: Key): seq<Row> {
    Filter(data.rows, HasKey(k))
  }

  function InitCondIndices(rows: seq<Row>): (ics: seq<int>)
    ensures |ics| == |rows| && forall i :: 0 <= i < |rows| ==> ics[i] == rows[i].key.initCondIndex
  {
    seq(|rows|, i requires 0 <= i < |rows| => rows[i].key.initCondIndex)
  }

  /** The pairs of one parameter set: its `init_cond_index` values, unique,
      in order of first appearance. */
  function PairsOf(data: Table, pi: int): (ks: seq<Key>)
    ensures forall k :: k in ks <==> k.paramIndex == pi && k in Keys(data.rows)
    ensures NoDup(ks)
  {
    var ics := Dedupe(InitCondIndices(Filter(data.rows, HasParamIndex(pi))));
    KeysWithMembers(data, pi, ics);
    KeysWith(pi, ics)
  }

  /** The keys of one parameter set with the given initial-condition indices. */
  function KeysWith(pi: int, ics: seq<int>): (ks: seq<Key>)
    ensures |ks| == |ics| && forall i :: 0 <= i < |ics| ==> ks[i] == Key(pi, ics[i])
  {
    seq(|ics|, i requires 0 <= i < |ics| => Key(pi, ics[i]))
  }

  lemma KeysWithMembers(data: Table, pi: int, ics: seq<int>)
    requires ics == Dedupe(InitCondIndices(Filter(data.rows, HasParamIndex(pi))))
    ensures var ks := KeysWith(pi, ics);
      (forall k :: k in ks <==> k.paramIndex == pi && k in Keys(data.rows)) && NoDup(ks)
  {
    var rows := Filter(data.rows, HasParamIndex(pi));
    var ks := KeysWith(pi, ics);
    forall k: Key | k.paramIndex == pi && k in Keys(data.rows) ensures k in ks {
      var r :| r in data.rows && r.key == k;
      assert r in rows;
      var i :| 0 <= i < |rows| && rows[i] == r;
      assert InitCondIndices(rows)[i] == k.initCondIndex;
      assert k.initCondIndex in ics;
      var m :| 0 <= m < |ics| && ics[m] == k.initCondIndex;
      assert ks[m] == k;
    }
    forall k | k in ks ensures k.paramIndex == pi && k in Keys(data.rows) {
      var m :| 0 <= m < |ks| && ks[m] == k;
      assert ics[m] in InitCondIndices(rows);
      var i :| 0 <= i < |InitCondIndices(rows)| && InitCondIndices(rows)[i] == k.initCondIndex;
      assert rows[i] in data.rows && rows[i].key == k;
    }
  }

  /** All pairs, parameter set by parameter set. */
  function Pairs(data: Table, pis: seq<int>): seq<Key>
    decreases |pis|
  {
    if pis == [] then [] else Pairs(data, pis[..|pis| - 1]) + PairsOf(data, pis[|pis| - 1])
  }

  /** The result row of a converged pair: its key and the five output levels. */
  function ResultRow(k: Key, levels: map<string, real>): Row {
    Row(k, map c | c in levels && c in OUTPUT_STATES :: Num(levels[c]))
  }

  /** The collected result rows and failed parameter sets after the given
      pairs. */
  function Collected(data: Table, pairs: seq<Key>, solve: Solver): (seq<Row>, set<int>)
    decreases |pairs|
  {
    if pairs == [] then ([], {})
    else
      var (rows, failed) := Collected(data, pairs[..|pairs| - 1], solve);
      var k := pairs[|pairs| - 1];
      match solve(k, PairRows(data, k))
      case Converged(levels) => (rows + [ResultRow(k, levels)], failed)
      case _ => (rows, failed + {k.paramIndex})
  }

  /** The results frame (None for the column-less empty frame returned when
      nothing converged) and the failed parameter sets. */
  function SimulationsWithDuplicates(data: Table, pis: seq<int>, solve: Solver): (Option<Table>, set<int>) {
    var (rows, failed) := Collected(data, Pairs(data, pis), solve);
    (if rows == [] then None else Some(Table(OUTPUT_STATES, rows)), failed)
  }

  /** `run_simulations_with_duplicates`: per parameter set, its unique
      initial-condition indices; per pair, one solver call whose failure or
      exception only records the parameter set. */
  method RunSimulationsWithDuplicates(data: Table, pis: seq<int>, solve: Solver) returns (results: Option<Table>, failed: set<int>)
    ensures (results, failed) == SimulationsWithDuplicates(data, pis, solve)
  {
    var rows: seq<Row> := [];
    failed := {};
    ghost var done: seq<Key> := [];
    for i := 0 to |pis|
      invariant done == Pairs(data, pis[..i])
      invariant (rows, failed) == Collected(data, done, solve)
    {
      var pi := pis[i];
      var subset := Filter(data.rows, HasParamIndex(pi));
      var ics := Dedupe(InitCondIndices(subset));
      rows, failed := SolveInitialConditions(data, pi, ics, solve, done, rows, failed);
      assert pis[..i + 1][..i] == pis[..i];
      done := done + PairsOf(data, pi);
    }
    assert pis[..|pis|] == pis;
    results := if rows == [] then None else Some(Table(OUTPUT_STATES, rows));
  }

  /** The inner loop: one solver call per initial condition of a parameter set. */
  method SolveInitialConditions(data: Table, pi: int, ics: seq<int>, solve: Solver, ghost done: seq<Key>,
                                rows0: seq<Row>, failed0: set<int>) returns (rows: seq<Row>, failed: set<int>)
    requires (rows0, failed0) == Collected(data, done, solve)
    ensures (rows, failed) == Collected(data, done + seq(|ics|, i requires 0 <= i < |ics| => Key(pi, ics[i])), solve)
  {
    ghost var batch := seq(|ics|, i requires 0 <= i < |ics| => Key(pi, ics[i]));
    rows, failed := rows0, failed0;
    assert done + batch[..0] == done;
    for j := 0 to |ics|
      invariant (rows, failed) == Collected(data, done + batch[..j], solve)
    {
      var k := Key(pi, ics[j]);
      assert (done + batch[..j + 1])[..|done + batch[..j + 1]| - 1] == done + batch[..j];
      assert (done + batch[..j + 1])[|done + batch[..j + 1]| - 1] == k;
      var outcome := solve(k, Filter(data.rows, HasKey(k)));
      match outcome {
        case Converged(levels) =>
          rows := rows + [ResultRow(k, levels)];
        case _ =>
          failed := failed + {pi};
      }
    }
    assert batch[..|ics|] == batch;
  }

  predicate ConvergesAt(data: Table, solve: Solver, k: Key) {
    solve(k, PairRows(data, k)).Converged?
  }

  /** A parameter set is reported failed exactly when one of its pairs did
      not converge, whether the solver reported it or raised; a result row
      exists exactly for each converged pair. */
  lemma {:induction false} CollectedFacts(data: Table, pairs: seq<Key>, solve: Solver)
    ensures var (rows, failed) := Collected(data, pairs, solve);
      && (forall p :: p in failed <==> exists k :: k in pairs && k.paramIndex == p && !ConvergesAt(data, solve, k))
      && (forall r :: r in rows ==> r.key in pairs && ConvergesAt(data, solve, r.key))
      && (forall k :: k in pairs && ConvergesAt(data, solve, k) ==> k in Keys(rows))
    decreases |pairs|
  {
    if pairs != [] {
      var init := pairs[..|pairs| - 1];
      var k := pairs[|pairs| - 1];
      assert pairs == init + [k];
      CollectedFacts(data, init, solve);
      var (rows, failed) := Collected(data, init, solve);
      var (rows', failed') := Collected(data, pairs, solve);
      forall p | p in failed' ensures exists k' :: k' in pairs && k'.paramIndex == p && !ConvergesAt(data, solve, k') {
        if p !in failed {
          assert k.paramIndex == p && !ConvergesAt(data, solve, k);
        } else {
          var k' :| k' in init && k'.paramIndex == p && !ConvergesAt(data, solve, k');
          assert k' in pairs;
        }
      }
      forall k' | k' in pairs && ConvergesAt(data, solve, k') ensures k' in Keys(rows') {
        if k' in init {
          var r :| r in rows && r.key == k';
          assert r in rows';
        } else {
          assert rows'[|rows'| - 1].key == k';
        }
      }
    }
  }

  /** The runner never raises: its failed set and result keys are exactly
      what the solver decided, pair by pair, over the requested parameter
      sets; it returns no table exactly when no pair converged. */
  lemma RunnerOutcome(data: Table, pis: seq<int>, solve: Solver)
    ensures var (results, failed) := SimulationsWithDuplicates(data, pis, solve);
      && (forall p :: p in failed ==> p in pis)
      && (forall k :: k in Keys(data.rows) && k.paramIndex in pis && !ConvergesAt(data, solve, k) ==> k.paramIndex in failed)
      && (results.None? <==> forall k :: k in Keys(data.rows) && k.paramIndex in pis ==> !ConvergesAt(data, solve, k))
      && (results.Some? ==>
            results.value.columns == OUTPUT_STATES &&
            Keys(results.value.rows) == set k | k in Keys(data.rows) && k.paramIndex in pis && ConvergesAt(data, solve, k))
  {
    var pairs := Pairs(data, pis);
    PairsMembers(data, pis);
    CollectedFacts(data, pairs, solve);
    var (rows, failed) := Collected(data, pairs, solve);
    if rows == [] {
      forall k | k in Keys(data.rows) && k.paramIndex in pis ensures !ConvergesAt(data, solve, k) {
        assert k in pairs;
      }
    } else {
      assert rows[0] in rows;
    }
  }

  /** The pairs are the table's keys whose parameter set was requested. */
  lemma {:induction false} PairsMembers(data: Table, pis: seq<int>)
    ensures forall k :: k in Pairs(data, pis) <==> k in Keys(data.rows) && k.paramIndex in pis
    decreases |pis|
  {
    if pis != [] {
      var init := pis[..|pis| - 1];
      PairsMembers(data, init);
      assert pis == init + [pis[|pis| - 1]];
    }
  }

  /** Requesting distinct parameter sets solves every pair once. */
  lemma {:induction false} PairsDistinct(data: Table, pis: seq<int>)
    requires NoDup(pis)
    ensures NoDup(Pairs(data, pis))
    decreases |pis|
  {
    if pis != [] {
      var init := pis[..|pis| - 1];
      var pi := pis[|pis| - 1];
      assert pis == init + [pi];
      assert NoDup(init);
      PairsDistinct(data, init);
      PairsMembers(data, init);
      forall k | k in Pairs(data, init) ensures k !in PairsOf(data, pi) {
        assert k.paramIndex in init;
      }
      NoDupAppend(Pairs(data, init), PairsOf(data, pi));
    }
  }
}
