/** The pipeline's fixed vocabulary: the species columns under their input
    and output names, the fifteen kinetic parameters, the gene-to-parameter
    table, the errors the pipeline raises, and the column layout the
    steady-state solver expects (`reorder_for_simulation`). */
module Schema {
  import opened Wrappers
  import opened Seqs
  import opened Frames
  import Text

  /** Species columns as the pipeline reads them (STATE_MAPPINGS['input']). */
  const INPUT_STATES: seq<string> := ["fos", "jun", "fra1", "fra2", "jund"]
  /** Species columns as the solver writes them (STATE_MAPPINGS['output']). */
  const OUTPUT_STATES: seq<string> := ["cFOS", "cJUN", "FRA1", "FRA2", "JUND"]

  const FOS_CATEGORY := "FOS_category"
  const KNOCKDOWN_MULTIPLIER := "knockdown_multiplier"
  const OVEREXPRESSION_MULTIPLIER := "overexpression_multiplier"

  const PARAMETERS: seq<string> := [
    "(basal_fos).v", "(basal_jun).v",
    "(basal_fra1).v", "(basal_fra2).v", "(basal_jund).v",
    "(jun_by_junjun).beta", "(jun_by_junfos).beta",
    "(fra1_by_junfra1).beta", "(fra1_by_jundfos).beta",
    "(fra2_by_junfra2).beta", "(degradation_fos).k1",
    "(degradation_jun).k1", "(degradation_fra1).k1",
    "(degradation_fra2).k1", "(degradation_jund).k1"
  ]

  /** What the pipeline raises. Each constructor names the Python exception
      it stands for. */
  datatype Error =
    | UnknownProtein(protein: string)               // ValueError
    | UnknownParameterType(parameterType: string)   // ValueError
    | NoTarget                                      // ValueError: neither gene nor custom parameters
    | UnknownKnockoutMethod(koMethod: string)       // ValueError
    | UnknownKnockdownApproach(approach: string)    // ValueError
    | UnknownOverexpressionMethod(oeMethod: string) // ValueError
    | ParametersNotFound(missing: seq<string>)      // ValueError
    | StateColumnsNotRestored                       // ValueError: post-KO columns could not be renamed back
    | NoValidResults                                // ValueError: knockout left no rows
    | MissingColumn(column: string)                 // KeyError
    | EmptyTable                                    // IndexError: `.iloc[0]` of a table without rows
    | MalformedParameterName(parameter: string)     // IndexError: `split('.')[-2]` of a name without '.'

  /** PROTEIN_PARAMETERS: per gene, its parameter types in declared order. */
  const PROTEIN_PARAMETERS: seq<(string, seq<(string, seq<string>)>)> := [
    ("FOS", [("basal", ["(basal_fos).v"])]),
    ("JUN", [("basal", ["(basal_jun).v"]), ("induced", ["(jun_by_junjun).beta", "(jun_by_junfos).beta"])]),
    ("FRA1", [("basal", ["(basal_fra1).v"]), ("induced", ["(fra1_by_junfra1).beta", "(fra1_by_jundfos).beta"])]),
    ("FRA2", [("basal", ["(basal_fra2).v"]), ("induced", ["(fra2_by_junfra2).beta"])]),
    ("JUND", [("basal", ["(basal_jund).v"])])
  ]

  /** `d[k]` for a dict given as its items in insertion order. */
  function Entry<V>(items: seq<(string, V)>, k: string): (m: Option<V>)
    ensures m.None? <==> forall i :: 0 <= i < |items| ==> items[i].0 != k
  {
    if items == [] then None
    else if items[0].0 == k then Some(items[0].1)
    else Entry(items[1..], k)
  }

  function TypeNames(lists: seq<(string, seq<string>)>): (names: seq<string>)
    ensures |names| == |lists|
  {
    seq(|lists|, i requires 0 <= i < |lists| => lists[i].0)
  }

  function AllLists(lists: seq<(string, seq<string>)>): seq<string> {
    if lists == [] then [] else lists[0].1 + AllLists(lists[1..])
  }

  /** The loop over `parameter_types`: fails on the first unknown type. */
  function SelectTypes(lists: seq<(string, seq<string>)>, types: seq<string>): Result<seq<string>, Error> {
    if types == [] then Success([])
    else match Entry(lists, types[0])
      case None => Failure(UnknownParameterType(types[0]))
      case Some(l) =>
        match SelectTypes(lists, types[1..])
        case Failure(e) => Failure(e)
        case Success(rest) => Success(l + rest)
  }

  /** What `get_protein_parameters(protein, parameter_types)` returns. */
  function ProteinParameters(protein: string, types: Option<seq<string>>): (r: Result<seq<string>, Error>)
    ensures Entry(PROTEIN_PARAMETERS, protein).None? ==> r == Failure(UnknownProtein(protein))
  {
    match Entry(PROTEIN_PARAMETERS, protein)
    case None => Failure(UnknownProtein(protein))
    case Some(lists) =>
      match types
      case None => Success(AllLists(lists))
      case Some(ts) => SelectTypes(lists, ts)
  }

  /** A successful tail result with `acc` in front of it; failures pass through. */
  function Prepend(acc: seq<string>, r: Result<seq<string>, Error>): Result<seq<string>, Error> {
    if r.Success? then Success(acc + r.value) else r
  }

  /** `get_protein_parameters`: the two loops that extend the result list. */
  method GetProteinParameters(protein: string, types: Option<seq<string>>) returns (r: Result<seq<string>, Error>)
    ensures r == ProteinParameters(protein, types)
  {
    var entry := Entry(PROTEIN_PARAMETERS, protein);
    if entry.None? {
      return Failure(UnknownProtein(protein));
    }
    var lists := entry.value;
    var selected: seq<string> := [];
    if types.None? {
      var i := 0;
      while i < |lists|
        invariant 0 <= i <= |lists|
        invariant selected + AllLists(lists[i..]) == AllLists(lists)
      {
        assert lists[i..][1..] == lists[i + 1..];
        selected := selected + lists[i].1;
        i := i + 1;
      }
      assert lists[i..] == [] && selected + [] == selected;
      return Success(selected);
    }
    var ts := types.value;
    var i := 0;
    assert ts[0..] == ts;
    assert SelectTypes(lists, ts).Success? ==> [] + SelectTypes(lists, ts).value == SelectTypes(lists, ts).value;
    while i < |ts|
      invariant 0 <= i <= |ts|
      invariant SelectTypes(lists, ts) == Prepend(selected, SelectTypes(lists, ts[i..]))
    {
      assert ts[i..][0] == ts[i] && ts[i..][1..] == ts[i + 1..];
      var l := Entry(lists, ts[i]);
      if l.None? {
        return Failure(UnknownParameterType(ts[i]));
      }
      assert selected + (l.value + []) == (selected + l.value) + [];
      assert forall x :: selected + (l.value + x) == (selected + l.value) + x;
      selected := selected + l.value;
      i := i + 1;
    }
    assert ts[i..] == [] && selected + [] == selected;
    return Success(selected);
  }

  /** Requesting types fails exactly when one of them is not declared for the
      gene, and then it names the first such type in request order. */
  lemma {:induction false} SelectTypesFails(lists: seq<(string, seq<string>)>, types: seq<string>)
    ensures SelectTypes(lists, types).Failure? <==> exists i :: 0 <= i < |types| && types[i] !in TypeNames(lists)
    ensures SelectTypes(lists, types).Failure? ==>
      exists i :: 0 <= i < |types| && types[i] !in TypeNames(lists) &&
        SelectTypes(lists, types).error == UnknownParameterType(types[i]) &&
        forall j :: 0 <= j < i ==> types[j] in TypeNames(lists)
  {
    if types != [] {
      SelectTypesFails(lists, types[1..]);
      EntryIsTypeName(lists, types[0]);
      if Entry(lists, types[0]).Some? {
        forall i | 0 <= i < |types| - 1 ensures types[1..][i] == types[i + 1] { }
        if SelectTypes(lists, types).Failure? {
          var i :| 0 <= i < |types| - 1 && types[1..][i] !in TypeNames(lists) &&
            SelectTypes(lists, types[1..]).error == UnknownParameterType(types[1..][i]) &&
            forall j :: 0 <= j < i ==> types[1..][j] in TypeNames(lists);
          assert types[i + 1] !in TypeNames(lists);
          assert forall j :: 0 <= j < i + 1 ==> types[j] in TypeNames(lists) by {
            forall j | 0 <= j < i + 1 ensures types[j] in TypeNames(lists) {
              if j > 0 { assert types[j] == types[1..][j - 1]; }
            }
          }
        } else {
          forall i | 0 <= i < |types| ensures types[i] in TypeNames(lists) {
            if i > 0 { assert types[i] == types[1..][i - 1]; }
          }
        }
      }
    }
  }

  lemma {:induction false} EntryIsTypeName(lists: seq<(string, seq<string>)>, k: string)
    ensures Entry(lists, k).Some? <==> k in TypeNames(lists)
  {
    if lists != [] {
      EntryIsTypeName(lists[1..], k);
      assert TypeNames(lists) == [lists[0].0] + TypeNames(lists[1..]);
    }
  }

  /** Requested types are concatenated in request order. */
  lemma {:induction false} SelectTypesAppend(lists: seq<(string, seq<string>)>, a: seq<string>, b: seq<string>)
    requires SelectTypes(lists, a).Success? && SelectTypes(lists, b).Success?
    ensures SelectTypes(lists, a + b) == Success(SelectTypes(lists, a).value + SelectTypes(lists, b).value)
  {
    if a != [] {
      assert (a + b)[0] == a[0] && (a + b)[1..] == a[1..] + b;
      var l := Entry(lists, a[0]).value;
      assert SelectTypes(lists, a[1..]).Success?;
      SelectTypesAppend(lists, a[1..], b);
      var x, y := SelectTypes(lists, a[1..]).value, SelectTypes(lists, b).value;
      assert SelectTypes(lists, a).value == l + x;
      assert SelectTypes(lists, a + b).value == l + (x + y);
      assert l + (x + y) == (l + x) + y;
    } else {
      assert a + b == b;
      assert SelectTypes(lists, a).value == [];
      assert [] + SelectTypes(lists, b).value == SelectTypes(lists, b).value;
    }
  }

  /** Asking for every declared type, in declared order, is the same as
      asking for none: with no types given, the gene's lists are concatenated
      in declared order. */
  lemma {:induction false} SelectAllTypes(lists: seq<(string, seq<string>)>)
    requires NoDup(TypeNames(lists))
    ensures SelectTypes(lists, TypeNames(lists)) == Success(AllLists(lists))
  {
    if lists != [] {
      var rest := lists[1..];
      var names := TypeNames(lists);
      assert names == [lists[0].0] + TypeNames(rest);
      assert names[1..] == TypeNames(rest);
      assert NoDup(TypeNames(rest)) by {
        forall i, j | 0 <= i < j < |TypeNames(rest)| ensures TypeNames(rest)[i] != TypeNames(rest)[j] {
          assert TypeNames(rest)[i] == names[i + 1] && TypeNames(rest)[j] == names[j + 1];
        }
      }
      assert lists[0].0 !in TypeNames(rest) by {
        forall i | 0 <= i < |TypeNames(rest)| ensures TypeNames(rest)[i] != lists[0].0 {
          assert TypeNames(rest)[i] == names[i + 1] && names[0] == lists[0].0;
        }
      }
      SelectAllTypes(rest);
      SelectTypesSkipsHead(lists, TypeNames(rest));
    }
  }

  lemma {:induction false} SelectTypesSkipsHead(lists: seq<(string, seq<string>)>, types: seq<string>)
    requires lists != [] && lists[0].0 !in types
    ensures SelectTypes(lists, types) == SelectTypes(lists[1..], types)
  {
    if types != [] {
      SelectTypesSkipsHead(lists, types[1..]);
    }
  }

  /** get_protein_parameters with no types is the same as asking for all of
      the gene's types in the order they are declared. */
  lemma GetProteinParametersDefault(protein: string)
    requires Entry(PROTEIN_PARAMETERS, protein).Some?
    ensures ProteinParameters(protein, None) ==
      ProteinParameters(protein, Some(TypeNames(Entry(PROTEIN_PARAMETERS, protein).value)))
  {
    SelectAllTypes(Entry(PROTEIN_PARAMETERS, protein).value);
  }

  /** The single parameter perform_knockdown targets: `(basal_<gene>).v`. */
  function KnockdownParameter(gene: string): string {
    "(basal_" + Text.ToLower(gene) + ").v"
  }

  /** For every gene of the table, the knockdown target built from the
      gene's name is exactly the gene's declared basal parameter list. */
  lemma KnockdownTargetIsBasal(gene: string)
    requires Entry(PROTEIN_PARAMETERS, gene).Some?
    ensures ProteinParameters(gene, Some(["basal"])) == Success([KnockdownParameter(gene)])
  {
    var lists := Entry(PROTEIN_PARAMETERS, gene).value;
    if gene == "FOS" {
      assert KnockdownParameter(gene) == "(basal_fos).v";
    } else if gene == "JUN" {
      assert KnockdownParameter(gene) == "(basal_jun).v";
    } else if gene == "FRA1" {
      assert KnockdownParameter(gene) == "(basal_fra1).v";
    } else if gene == "FRA2" {
      assert KnockdownParameter(gene) == "(basal_fra2).v";
    } else {
      assert gene == "JUND";
      assert KnockdownParameter(gene) == "(basal_jund).v";
    }
    assert lists[0] == ("basal", [KnockdownParameter(gene)]);
    SelectFirstType(lists);
  }

  lemma SelectFirstType(lists: seq<(string, seq<string>)>)
    requires lists != []
    ensures SelectTypes(lists, [lists[0].0]) == Success(lists[0].1)
  {
    assert [lists[0].0][1..] == [];
    assert lists[0].1 + [] == lists[0].1;
  }

  /** The column layout run_simulations() is positional about: parameters,
      then species (after the two implicit key columns). */
  const SIMULATION_ORDER: seq<string> := PARAMETERS + INPUT_STATES

  /** `reorder_for_simulation(df)` */
  function ReorderForSimulation(t: Table): Table {
    Project(t, SIMULATION_ORDER)
  }

  /** reorder_for_simulation keeps exactly the layout's columns that the
      table has, in layout order, with every row's key and kept cells as they
      were. */
  lemma ReorderForSimulationLayout(t: Table)
    ensures var r := ReorderForSimulation(t);
      && (forall c :: c in r.columns <==> c in SIMULATION_ORDER && c in t.columns)
      && (forall i, j :: 0 <= i < j < |r.columns| ==>
            IndexOf(SIMULATION_ORDER, r.columns[i]) < IndexOf(SIMULATION_ORDER, r.columns[j]))
      && |r.rows| == |t.rows|
      && (forall i, c :: 0 <= i < |t.rows| && c in r.columns ==>
            r.rows[i].key == t.rows[i].key && Get(r.rows[i], c) == Get(t.rows[i], c))
  {
    assert NoDup(SIMULATION_ORDER);
    FilterKeepsOrder(SIMULATION_ORDER, c => c in t.columns);
  }

  /** `[c for c in df.columns if c not in STATE_MAPPINGS['input'] + ['FOS_category']]` */
  function ParamColumns(t: Table): seq<string> {
    Filter(t.columns, c => c !in INPUT_STATES && c != FOS_CATEGORY)
  }
}
