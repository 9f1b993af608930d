/** The pipeline's record of what was done (`perturbation_history`) and the
    naming of species columns across chained steps: the solver's output
    columns are tagged with the step that produced them ("cFOS post FOSKO",
    "cJUN post FOSKO JUNKD"), then copied back under the input names so the
    next step can start from them. */
module Lineage {
  import opened Wrappers
  import opened Seqs
  import opened Text
  import opened Frames
  import opened Schema

  /** How a knockout changed its parameters. */
  datatype KoMethod =
    | SetTo(koValue: real)
    | MultiplyBy(koMultiplier: real, paramMultipliers: seq<(string, real)>)

  /** How an overexpression drew its multipliers. */
  datatype OeMethod =
    | BetaScaled(betaA: real, betaB: real, maxMult: real)
    | FixedMultiplier(setMult: real)

  /** One entry of `perturbation_history`. */
  datatype Step =
    | Knockout(gene: string, results: Table, koParams: seq<string>, koMethod: KoMethod)
    | Knockdown(gene: string, results: Table, kdApproach: string)
    | Overexpression(gene: string, results: Table, oeParams: seq<string>, oeMethod: OeMethod)

  datatype Kind = KO | KD | OE

  function Tag(kind: Kind): string {
    match kind
    case KO => "KO"
    case KD => "KD"
    case OE => "OE"
  }

  predicate FollowsKnockout(history: seq<Step>) {
    |history| > 0 && Last(history).Knockout?
  }

  /** The suffix `_update_state_names` gives this step's species columns. */
  function Suffix(kind: Kind, gene: string, history: seq<Step>): string {
    if FollowsKnockout(history) && kind != KO then
      "post " + Last(history).gene + "KO " + gene + Tag(kind)
    else
      "post " + gene + Tag(kind)
  }

  /** The rename map of `_update_state_names`: each output species to its
      tagged name. */
  function NamePairs(suffix: string): (pairs: seq<(string, string)>)
    ensures |pairs| == |OUTPUT_STATES|
  {
    seq(|OUTPUT_STATES|, i requires 0 <= i < |OUTPUT_STATES| => (OUTPUT_STATES[i], OUTPUT_STATES[i] + " " + suffix))
  }

  /** What `_update_state_names(data, {type, gene})` returns. */
  function StateNames(t: Table, kind: Kind, gene: string, history: seq<Step>): Table {
    RenameColumns(t, NamePairs(Suffix(kind, gene, history)))
  }

  /** `_update_state_names`: build the rename map species by species, then
      rename. */
  method UpdateStateNames(t: Table, kind: Kind, gene: string, history: seq<Step>) returns (r: Table)
    ensures r == StateNames(t, kind, gene, history)
  {
    var suffix := Suffix(kind, gene, history);
    var pairs: seq<(string, string)> := [];
    var i := 0;
    while i < |OUTPUT_STATES|
      invariant 0 <= i <= |OUTPUT_STATES|
      invariant pairs == NamePairs(suffix)[..i]
    {
      pairs := pairs + [(OUTPUT_STATES[i], OUTPUT_STATES[i] + " " + suffix)];
      i := i + 1;
    }
    assert pairs == NamePairs(suffix);
    r := RenameColumns(t, pairs);
  }

  /** All five output names have four characters, so no string starts with
      two of them. */
  lemma OutputNamesExclusive(s: string, i: int, j: int)
    requires 0 <= i < |OUTPUT_STATES| && 0 <= j < |OUTPUT_STATES|
    requires StartsWith(s, OUTPUT_STATES[i]) && StartsWith(s, OUTPUT_STATES[j])
    ensures i == j
  {
    assert |OUTPUT_STATES[i]| == 4 && |OUTPUT_STATES[j]| == 4;
  }

  /** Neither name is a prefix of the other. */
  predicate Apart(x: string, y: string) {
    !StartsWith(x, y) && !StartsWith(y, x)
  }

  /** No name of the list is a prefix of another, so no column name starts
      with two of them. */
  predicate Exclusive(outs: seq<string>) {
    forall a, b :: 0 <= a < |outs| && 0 <= b < |outs| && a != b ==> Apart(outs[a], outs[b])
  }

  lemma OutputsExclusive()
    ensures Exclusive(OUTPUT_STATES)
  {
    forall a, b | 0 <= a < |OUTPUT_STATES| && 0 <= b < |OUTPUT_STATES| && a != b
      ensures Apart(OUTPUT_STATES[a], OUTPUT_STATES[b])
    {
      assert |OUTPUT_STATES[a]| == 4 && |OUTPUT_STATES[b]| == 4;
      assert OUTPUT_STATES[a] != OUTPUT_STATES[b];
    }
  }

  /** Two prefixes of one string are prefixes of each other. */
  lemma PrefixesNest(col: string, x: string, y: string)
    requires StartsWith(col, x)
    ensures StartsWith(col, y) ==> StartsWith(x, y) || StartsWith(y, x)
  {
    if StartsWith(col, y) {
      if |y| <= |x| {
        assert x[..|y|] == col[..|x|][..|y|];
      } else {
        assert y[..|x|] == col[..|y|][..|x|];
      }
    }
  }

  lemma NamePairsIndependent(suffix: string)
    ensures Independent(NamePairs(suffix))
  {
    var pairs := NamePairs(suffix);
    forall i, j | 0 <= i < |pairs| && 0 <= j < |pairs| ensures pairs[i].0 != pairs[j].1 {
      assert |pairs[i].0| == 4;
    }
    forall i, j | 0 <= i < j < |pairs| ensures pairs[i].0 != pairs[j].0 && pairs[i].1 != pairs[j].1 {
      assert pairs[i].1[..4] == pairs[i].0 && pairs[j].1[..4] == pairs[j].0;
    }
  }

  /** Tagging moves every output species present to its tagged name, with
      the same cells, and leaves every other column alone. */
  lemma StateNamesTagged(t: Table, kind: Kind, gene: string, history: seq<Step>)
    ensures var r := StateNames(t, kind, gene, history);
      var suffix := Suffix(kind, gene, history);
      && |r.rows| == |t.rows|
      && (forall j :: 0 <= j < |t.rows| ==> r.rows[j].key == t.rows[j].key)
      && (forall i :: 0 <= i < |OUTPUT_STATES| ==> OUTPUT_STATES[i] !in r.columns)
      && (forall i :: 0 <= i < |OUTPUT_STATES| && OUTPUT_STATES[i] in t.columns ==> OUTPUT_STATES[i] + " " + suffix in r.columns)
      && (forall i, j :: 0 <= i < |OUTPUT_STATES| && OUTPUT_STATES[i] in t.columns && 0 <= j < |t.rows| ==>
            Get(r.rows[j], OUTPUT_STATES[i] + " " + suffix) == Get(t.rows[j], OUTPUT_STATES[i]))
      && (forall c :: c !in OUTPUT_STATES && (forall i :: 0 <= i < |OUTPUT_STATES| ==> c != OUTPUT_STATES[i] + " " + suffix) ==>
            (c in r.columns <==> c in t.columns) &&
            forall j :: 0 <= j < |t.rows| ==> Get(r.rows[j], c) == Get(t.rows[j], c))
  {
    var suffix := Suffix(kind, gene, history);
    var pairs := NamePairs(suffix);
    NamePairsIndependent(suffix);
    RenameColumnsFacts(t, pairs);
    var r := StateNames(t, kind, gene, history);
    forall i | 0 <= i < |OUTPUT_STATES| ensures OUTPUT_STATES[i] !in r.columns {
      assert pairs[i].0 == OUTPUT_STATES[i];
      forall k | 0 <= k < |pairs| ensures OUTPUT_STATES[i] != pairs[k].1 {
        assert |pairs[k].1| > 4;
      }
    }
    forall i | 0 <= i < |OUTPUT_STATES| && OUTPUT_STATES[i] in t.columns ensures OUTPUT_STATES[i] + " " + suffix in r.columns {
      assert pairs[i].0 == OUTPUT_STATES[i] && pairs[i].1 == OUTPUT_STATES[i] + " " + suffix;
    }
    forall c | c !in OUTPUT_STATES && (forall i :: 0 <= i < |OUTPUT_STATES| ==> c != OUTPUT_STATES[i] + " " + suffix)
      ensures forall k :: 0 <= k < |pairs| ==> c != pairs[k].0 && c != pairs[k].1
    {
      forall k | 0 <= k < |pairs| ensures c != pairs[k].0 && c != pairs[k].1 {
        assert pairs[k].0 == OUTPUT_STATES[k];
      }
    }
  }

  // ----- _rename_back_to_input -----

  /** The test `col.startswith(c) and 'post' in col`. */
  function PostOf(out: string): string -> bool {
    col => StartsWith(col, out) && Contains(col, "post")
  }

  function StartsWithName(out: string): string -> bool {
    col => StartsWith(col, out)
  }

  /** `post_cols` after the first `n` species of `outs` (the output species
      in the pipeline). */
  function PostBlocks(columns: seq<string>, outs: seq<string>, n: nat): seq<string>
    requires n <= |outs|
  {
    Blocks(columns, PostSelectors(outs), n)
  }

  /** The `post` test of each name. */
  function PostSelectors(outs: seq<string>): (sels: seq<string -> bool>)
    ensures |sels| == |outs|
  {
    seq(|outs|, k requires 0 <= k < |outs| => PostOf(outs[k]))
  }

  /** `rename_to_input` after the first `n` output species, as (source,
      target) items in insertion order. */
  function CopyPairs(post: seq<string>, n: nat): seq<(string, string)>
    requires n <= |OUTPUT_STATES|
  {
    if n == 0 then []
    else
      var matching := Filter(post, StartsWithName(OUTPUT_STATES[n - 1]));
      CopyPairs(post, n - 1) + (if matching == [] then [] else [(matching[0], INPUT_STATES[n - 1])])
  }

  /** What `_rename_back_to_input(df, ...)` returns. */
  function RenamedBackToInput(t: Table): Table {
    CopyColumns(t, CopyPairs(PostBlocks(t.columns, OUTPUT_STATES, |OUTPUT_STATES|), |OUTPUT_STATES|))
  }

  /** `_rename_back_to_input`: collect the tagged columns, pick the first one
      per species, and copy it under the species' input name. */
  method RenameBackToInput(t: Table) returns (r: Table)
    ensures r == RenamedBackToInput(t)
  {
    var post := CollectPostColumns(t.columns);
    var pairs := FirstMatches(post);
    r := t;
    var k := 0;
    while k < |pairs|
      invariant 0 <= k <= |pairs|
      invariant r == CopyColumns(t, pairs[..k])
    {
      assert pairs[..k + 1][..k] == pairs[..k];
      r := Assign(r, pairs[k].1, Column(r, pairs[k].0));
      k := k + 1;
    }
    assert pairs[..k] == pairs;
  }

  /** The nested loop that fills `post_cols`. */
  method CollectPostColumns(columns: seq<string>) returns (post: seq<string>)
    ensures post == PostBlocks(columns, OUTPUT_STATES, |OUTPUT_STATES|)
  {
    post := [];
    var i := 0;
    while i < |OUTPUT_STATES|
      invariant 0 <= i <= |OUTPUT_STATES|
      invariant post == PostBlocks(columns, OUTPUT_STATES, i)
    {
      var block := CollectBlock(columns, OUTPUT_STATES[i]);
      post := post + block;
      i := i + 1;
    }
  }

  /** The tagged columns of one species, in column order. */
  method CollectBlock(columns: seq<string>, out: string) returns (block: seq<string>)
    ensures block == Filter(columns, PostOf(out))
  {
    block := [];
    for j := 0 to |columns|
      invariant block == Filter(columns[..j], PostOf(out))
    {
      FilterSnoc(columns[..j], columns[j], PostOf(out));
      assert columns[..j + 1] == columns[..j] + [columns[j]];
      if StartsWith(columns[j], out) && Contains(columns[j], "post") {
        block := block + [columns[j]];
      }
    }
    assert columns[..|columns|] == columns;
  }

  /** The loop that fills `rename_to_input`. */
  method FirstMatches(post: seq<string>) returns (pairs: seq<(string, string)>)
    ensures pairs == CopyPairs(post, |OUTPUT_STATES|)
  {
    pairs := [];
    var i := 0;
    while i < |OUTPUT_STATES|
      invariant 0 <= i <= |OUTPUT_STATES|
      invariant pairs == CopyPairs(post, i)
    {
      var matching := Filter(post, StartsWithName(OUTPUT_STATES[i]));
      if matching != [] {
        pairs := pairs + [(matching[0], INPUT_STATES[i])];
      }
      i := i + 1;
    }
  }

  /** The tagged column that `_rename_back_to_input` copies for species i. */
  function FirstTagged(columns: seq<string>, i: nat): Option<string>
    requires i < |OUTPUT_STATES|
  {
    var m := Filter(columns, PostOf(OUTPUT_STATES[i]));
    if m == [] then None else Some(m[0])
  }

  /** It is the leftmost column that starts with the species' output name
      and mentions "post", and there is none exactly when no column does. */
  lemma FirstTaggedIsLeftmost(columns: seq<string>, i: nat)
    requires i < |OUTPUT_STATES|
    ensures FirstTagged(columns, i).None? <==> forall c :: c in columns ==> !PostOf(OUTPUT_STATES[i])(c)
    ensures FirstTagged(columns, i).Some? ==>
      exists k :: 0 <= k < |columns| && columns[k] == FirstTagged(columns, i).value &&
        StartsWith(columns[k], OUTPUT_STATES[i]) && Contains(columns[k], "post") &&
        (forall l :: 0 <= l < k ==> !PostOf(OUTPUT_STATES[i])(columns[l]))
  {
    if FirstTagged(columns, i).Some? {
      FilterHead(columns, PostOf(OUTPUT_STATES[i]));
    }
  }

  lemma ExclusiveApart(outs: seq<string>, a: nat, b: nat, col: string)
    requires Exclusive(outs) && a < |outs| && b < |outs| && a != b && StartsWith(col, outs[a])
    ensures !StartsWith(col, outs[b])
  {
    assert Apart(outs[a], outs[b]);
    PrefixesNest(col, outs[a], outs[b]);
  }

  /** Selecting by output name from all tagged columns finds exactly the
      species' own tagged columns: the other species' blocks cannot match. */
  lemma MatchingBlock(columns: seq<string>, outs: seq<string>, i: nat, n: nat)
    requires i < n <= |outs| && Exclusive(outs)
    ensures Filter(PostBlocks(columns, outs, n), StartsWithName(outs[i])) == Filter(columns, PostOf(outs[i]))
  {
    var sels := PostSelectors(outs);
    var f := StartsWithName(outs[i]);
    assert sels[i] == PostOf(outs[i]);
    forall k, x | 0 <= k < n && k != i && sels[k](x) ensures !f(x) {
      assert sels[k] == PostOf(outs[k]);
      ExclusiveApart(outs, k, i, x);
    }
    BlocksSelect(columns, sels, f, i, n);
  }

  lemma InputNotTagged(i: nat, k: nat)
    requires i < |INPUT_STATES| && k < |OUTPUT_STATES|
    ensures !StartsWith(INPUT_STATES[i], OUTPUT_STATES[k])
  {
    assert INPUT_STATES[i][0] in "fj" && OUTPUT_STATES[k][0] in "cFJ";
  }

  /** The first tagged column of every species, in species order. */
  function Tags(columns: seq<string>): (tags: seq<Option<string>>)
    ensures |tags| == |OUTPUT_STATES|
  {
    seq(|OUTPUT_STATES|, i requires 0 <= i < |OUTPUT_STATES| => FirstTagged(columns, i))
  }

  lemma TaggedStartsWith(columns: seq<string>, i: nat)
    requires i < |OUTPUT_STATES| && FirstTagged(columns, i).Some?
    ensures StartsWith(FirstTagged(columns, i).value, OUTPUT_STATES[i])
  {
    var m := Filter(columns, PostOf(OUTPUT_STATES[i]));
    assert m[0] in m;
  }

  /** The copy map built from the tags of the first `n` species. */
  function TaggedPairs(tags: seq<Option<string>>, n: nat): seq<(string, string)>
    requires n <= |tags| <= |INPUT_STATES|
  {
    if n == 0 then []
    else
      TaggedPairs(tags, n - 1) + (if tags[n - 1].None? then [] else [(tags[n - 1].value, INPUT_STATES[n - 1])])
  }

  /** Over all the blocks, the columns of species `i` are its own block. */
  lemma MatchingAll(columns: seq<string>, i: nat)
    requires i < |OUTPUT_STATES|
    ensures Filter(PostBlocks(columns, OUTPUT_STATES, |OUTPUT_STATES|), StartsWithName(OUTPUT_STATES[i])) == Filter(columns, PostOf(OUTPUT_STATES[i]))
  {
    OutputsExclusive();
    MatchingBlock(columns, OUTPUT_STATES, i, |OUTPUT_STATES|);
  }

  lemma {:induction false} CopyPairsAreTagged(columns: seq<string>, n: nat)
    requires n <= |OUTPUT_STATES|
    ensures CopyPairs(PostBlocks(columns, OUTPUT_STATES, |OUTPUT_STATES|), n) == TaggedPairs(Tags(columns), n)
  {
    if n > 0 {
      CopyPairsAreTagged(columns, n - 1);
      MatchingAll(columns, n - 1);
      var post := PostBlocks(columns, OUTPUT_STATES, |OUTPUT_STATES|);
      var matching := Filter(post, StartsWithName(OUTPUT_STATES[n - 1]));
      var tags := Tags(columns);
      assert tags[n - 1] == FirstTagged(columns, n - 1);
      TaggedPairsStep(tags, n);
      assert CopyPairs(post, n) == CopyPairs(post, n - 1) + (if matching == [] then [] else [(matching[0], INPUT_STATES[n - 1])]);
    }
  }

  /** The input names of the first `n` species that have a tagged column. */
  function Filled(tags: seq<Option<string>>, n: nat): set<string>
    requires n <= |tags| <= |INPUT_STATES|
  {
    set i | 0 <= i < n && tags[i].Some? :: INPUT_STATES[i]
  }

  lemma FilledStep(tags: seq<Option<string>>, n: nat)
    requires 0 < n <= |tags| <= |INPUT_STATES|
    ensures Filled(tags, n) == Filled(tags, n - 1) + (if tags[n - 1].Some? then {INPUT_STATES[n - 1]} else {})
  {
  }

  lemma TaggedPairsStep(tags: seq<Option<string>>, n: nat)
    requires 0 < n <= |tags| <= |INPUT_STATES|
    ensures tags[n - 1].None? ==> TaggedPairs(tags, n) == TaggedPairs(tags, n - 1)
    ensures tags[n - 1].Some? ==> TaggedPairs(tags, n) == TaggedPairs(tags, n - 1) + [(tags[n - 1].value, INPUT_STATES[n - 1])]
  {
    assert TaggedPairs(tags, n - 1) + [] == TaggedPairs(tags, n - 1);
  }

  /** Copying the tags of the first `n` species adds the filled input
      columns after the table's own. */
  lemma {:induction false} TaggedCopiesColumns(t: Table, tags: seq<Option<string>>, n: nat)
    requires n <= |tags| == |INPUT_STATES|
    ensures var r := CopyColumns(t, TaggedPairs(tags, n));
      && |t.columns| <= |r.columns| && r.columns[..|t.columns|] == t.columns
      && (forall c :: c in r.columns <==> c in t.columns || c in Filled(tags, n))
  {
    if n > 0 {
      var m := n - 1;
      TaggedCopiesColumns(t, tags, m);
      TaggedPairsStep(tags, n);
      FilledStep(tags, n);
      if tags[m].Some? {
        var prev := TaggedPairs(tags, m);
        var mid := CopyColumns(t, prev);
        var pairs := prev + [(tags[m].value, INPUT_STATES[m])];
        assert pairs[..|pairs| - 1] == prev;
        AssignFacts(mid, INPUT_STATES[m], Column(mid, tags[m].value));
        var r := CopyColumns(t, pairs);
        assert r.columns[..|t.columns|] == r.columns[..|mid.columns|][..|t.columns|];
      }
    }
  }

  /** Copying the tags of the first `n` species: each filled input column
      holds its tag's cells and no other cell changes. */
  lemma {:induction false} TaggedCopiesCells(t: Table, tags: seq<Option<string>>, n: nat)
    requires n <= |tags| == |INPUT_STATES| && |OUTPUT_STATES| == |INPUT_STATES|
    requires forall i :: 0 <= i < |tags| && tags[i].Some? ==> StartsWith(tags[i].value, OUTPUT_STATES[i])
    ensures var r := CopyColumns(t, TaggedPairs(tags, n));
      && (forall j :: 0 <= j < |t.rows| ==> r.rows[j].key == t.rows[j].key)
      && (forall i, j :: 0 <= i < n && tags[i].Some? && 0 <= j < |t.rows| ==>
            Get(r.rows[j], INPUT_STATES[i]) == Get(t.rows[j], tags[i].value))
      && (forall c, j :: 0 <= j < |t.rows| && c !in Filled(tags, n) ==> Get(r.rows[j], c) == Get(t.rows[j], c))
  {
    if n > 0 {
      var m := n - 1;
      TaggedCopiesCells(t, tags, m);
      TaggedPairsStep(tags, n);
      FilledStep(tags, n);
      if tags[m].Some? {
        var prev := TaggedPairs(tags, m);
        var mid := CopyColumns(t, prev);
        var pairs := prev + [(tags[m].value, INPUT_STATES[m])];
        assert pairs[..|pairs| - 1] == prev;
        var col := Column(mid, tags[m].value);
        AssignFacts(mid, INPUT_STATES[m], col);
        var r := CopyColumns(t, pairs);
        assert r == Assign(mid, INPUT_STATES[m], col);
        assert tags[m].value !in Filled(tags, m) by {
          forall i | 0 <= i < m && tags[i].Some? ensures tags[m].value != INPUT_STATES[i] {
            InputNotTagged(i, m);
          }
        }
        forall i, j | 0 <= i < n && tags[i].Some? && 0 <= j < |t.rows|
          ensures Get(r.rows[j], INPUT_STATES[i]) == Get(t.rows[j], tags[i].value)
        {
          if i < m {
            assert INPUT_STATES[i] != INPUT_STATES[m];
            assert Get(r.rows[j], INPUT_STATES[i]) == Get(mid.rows[j], INPUT_STATES[i]);
          } else {
            assert Get(r.rows[j], INPUT_STATES[m]) == col[j] == Get(mid.rows[j], tags[m].value);
          }
        }
        forall c, j | 0 <= j < |t.rows| && c !in Filled(tags, n)
          ensures Get(r.rows[j], c) == Get(t.rows[j], c)
        {
          assert c != INPUT_STATES[m] && c !in Filled(tags, m);
          assert Get(r.rows[j], c) == Get(mid.rows[j], c);
        }
      }
    }
  }

  /** What `_rename_back_to_input` does: each species with a tagged column
      gets an input column holding the cells of the first such column; the
      table's own columns stay in front, in place, and no other cell
      changes (a species with no tagged column keeps its input column as it
      was). */
  lemma RenamedBackFills(t: Table)
    ensures var r := RenamedBackToInput(t);
      var tags := Tags(t.columns);
      && |r.rows| == |t.rows|
      && (forall j :: 0 <= j < |t.rows| ==> r.rows[j].key == t.rows[j].key)
      && (forall i, j :: 0 <= i < |OUTPUT_STATES| && tags[i].Some? && 0 <= j < |t.rows| ==>
            INPUT_STATES[i] in r.columns && Get(r.rows[j], INPUT_STATES[i]) == Get(t.rows[j], tags[i].value))
      && |t.columns| <= |r.columns| && r.columns[..|t.columns|] == t.columns
      && (forall c :: c in r.columns <==> c in t.columns || c in Filled(tags, |OUTPUT_STATES|))
      && (forall c, j :: 0 <= j < |t.rows| && c !in Filled(tags, |OUTPUT_STATES|) ==> Get(r.rows[j], c) == Get(t.rows[j], c))
  {
    var tags := Tags(t.columns);
    CopyPairsAreTagged(t.columns, |OUTPUT_STATES|);
    forall i | 0 <= i < |tags| && tags[i].Some? ensures StartsWith(tags[i].value, OUTPUT_STATES[i]) {
      TaggedStartsWith(t.columns, i);
    }
    var r := CopyColumns(t, TaggedPairs(tags, |OUTPUT_STATES|));
    assert RenamedBackToInput(t) == r;
    TaggedCopiesColumns(t, tags, |OUTPUT_STATES|);
    TaggedCopiesCells(t, tags, |OUTPUT_STATES|);
    forall i | 0 <= i < |OUTPUT_STATES| && tags[i].Some? ensures INPUT_STATES[i] in r.columns {
      assert INPUT_STATES[i] in Filled(tags, |OUTPUT_STATES|);
    }
  }

  // ----- the state-column check of perform_knockdown / perform_overexpression -----

  predicate HasStates(columns: seq<string>) {
    forall s :: s in INPUT_STATES ==> s in columns
  }

  /** `reverse_rename`: the previous knockout's tagged columns back to the
      input names. The names it looks for are the ones a knockout of the gene
      gives the species. */
  function KoReversePairs(gene: string): (pairs: seq<(string, string)>)
    ensures |pairs| == |OUTPUT_STATES|
    ensures forall i :: 0 <= i < |pairs| ==> pairs[i].0 == OUTPUT_STATES[i] + " " + Suffix(KO, gene, [])
  {
    seq(|OUTPUT_STATES|, i requires 0 <= i < |OUTPUT_STATES| => (OUTPUT_STATES[i] + " post " + gene + "KO", INPUT_STATES[i]))
  }

  /** The check at the start of perform_knockdown and perform_overexpression:
      the table it leaves in `current_data` (it renames in place) and the
      error it raises. */
  function RestoreStateColumns(current: Table, history: seq<Step>): (Table, Option<Error>) {
    if HasStates(current.columns) || !FollowsKnockout(history) then (current, None)
    else
      var t := RenameColumns(current, KoReversePairs(Last(history).gene));
      (t, if HasStates(t.columns) then None else Some(StateColumnsNotRestored))
  }

  /** The loop that builds `reverse_rename`, then the rename. */
  method ReverseRename(current: Table, gene: string) returns (r: Table)
    ensures r == RenameColumns(current, KoReversePairs(gene))
  {
    var pairs: seq<(string, string)> := [];
    var i := 0;
    while i < |OUTPUT_STATES|
      invariant 0 <= i <= |OUTPUT_STATES|
      invariant pairs == KoReversePairs(gene)[..i]
    {
      pairs := pairs + [(OUTPUT_STATES[i] + " post " + gene + "KO", INPUT_STATES[i])];
      i := i + 1;
    }
    assert pairs == KoReversePairs(gene);
    r := RenameColumns(current, pairs);
  }

  lemma KoReversePairsIndependent(gene: string)
    ensures Independent(KoReversePairs(gene))
  {
    var pairs := KoReversePairs(gene);
    forall i | 0 <= i < |pairs| ensures StartsWith(pairs[i].0, OUTPUT_STATES[i]) {
      assert pairs[i].0[..4] == OUTPUT_STATES[i];
    }
    forall i, j | 0 <= i < |pairs| && 0 <= j < |pairs| ensures pairs[i].0 != pairs[j].1 {
      InputNotTagged(j, i);
    }
    forall i, j | 0 <= i < j < |pairs| ensures pairs[i].0 != pairs[j].0 && pairs[i].1 != pairs[j].1 {
      assert pairs[i].0[..4] == OUTPUT_STATES[i] && pairs[j].0[..4] == OUTPUT_STATES[j];
    }
  }

  /** The check raises exactly when a species column is missing right after
      a knockout and that knockout's tagged column for it is missing too;
      otherwise every species column is there afterwards, except when the
      previous step was not a knockout, where the table is left untouched.
      Each species column it restores carries the tagged column's cells. */
  lemma RestoreStateColumnsFacts(current: Table, history: seq<Step>)
    ensures var (t, err) := RestoreStateColumns(current, history);
      && (err.Some? <==>
            !HasStates(current.columns) && FollowsKnockout(history) &&
            exists i :: 0 <= i < |INPUT_STATES| && INPUT_STATES[i] !in current.columns &&
              KoReversePairs(Last(history).gene)[i].0 !in current.columns)
      && (err.None? && FollowsKnockout(history) ==> HasStates(t.columns))
      && (!FollowsKnockout(history) || HasStates(current.columns) ==> t == current)
      && |t.rows| == |current.rows|
      && (forall j :: 0 <= j < |current.rows| ==> t.rows[j].key == current.rows[j].key)
      && (t != current ==>
            forall i, j :: (0 <= i < |INPUT_STATES| && 0 <= j < |current.rows| &&
                            KoReversePairs(Last(history).gene)[i].0 in current.columns) ==>
              Get(t.rows[j], INPUT_STATES[i]) == Get(current.rows[j], KoReversePairs(Last(history).gene)[i].0))
  {
    if !HasStates(current.columns) && FollowsKnockout(history) {
      var pairs := KoReversePairs(Last(history).gene);
      KoReversePairsIndependent(Last(history).gene);
      RenameColumnsFacts(current, pairs);
      var t := RenameColumns(current, pairs);
      forall i | 0 <= i < |INPUT_STATES|
        ensures INPUT_STATES[i] in t.columns <==> INPUT_STATES[i] in current.columns || pairs[i].0 in current.columns
      {
        forall k | 0 <= k < |pairs| ensures INPUT_STATES[i] != pairs[k].0 {
          InputNotTagged(i, k);
          assert pairs[k].0[..4] == OUTPUT_STATES[k];
        }
        if pairs[i].0 in current.columns {
          assert pairs[i].1 == INPUT_STATES[i];
        }
        if INPUT_STATES[i] in t.columns && INPUT_STATES[i] !in current.columns {
          var k :| 0 <= k < |pairs| && INPUT_STATES[i] == pairs[k].1 && pairs[k].0 in current.columns;
          assert k == i;
        }
      }
    }
  }
}
