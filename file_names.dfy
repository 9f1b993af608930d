/** The file name `save_results` writes the final table under: the date, the
    cell line, one part per step of the history, the beta shape parameters
    when both are given, and the version. The date is a parameter; creating
    the directory and writing the CSV file are not modelled. */
module FileNames {
  import opened Wrappers
  import opened Seqs
  import opened Text
  import opened Schema
  import opened Lineage

  // ----- fixed-point rendering of a number (`f"{x:.2f}"`, `f"{x:.4f}"`) -----

  function Abs(x: real): (a: real)
    ensures a >= 0.0 && (a == x || a == -x)
  {
    if x < 0.0 then -x else x
  }

  /** The integer nearest to `y`, an exact tie going to the even neighbour. */
  function RoundHalfEven(y: real): (n: nat)
    requires y >= 0.0
    ensures n as real - y <= 0.5 && y - n as real <= 0.5
    ensures (n as real - y == 0.5 || y - n as real == 0.5) ==> n % 2 == 0
  {
    var f := y.Floor;
    var d := y - f as real;
    if d < 0.5 then f
    else if d > 0.5 then f + 1
    else if f % 2 == 0 then f
    else f + 1
  }

  /** `x * 10^k`, by repeated multiplication by ten. */
  function Scale(x: real, k: nat): (y: real)
    ensures x >= 0.0 ==> y >= 0.0
    ensures x < 0.0 ==> y < 0.0
  {
    if k == 0 then x else 10.0 * Scale(x, k - 1)
  }

  lemma {:induction false} ScaleNegate(x: real, k: nat)
    ensures Scale(-x, k) == -Scale(x, k)
  {
    if k > 0 {
      ScaleNegate(x, k - 1);
    }
  }

  /** `s` preceded by zeros up to `width` characters. */
  function PadZeros(s: string, width: nat): (r: string)
    ensures |r| == if |s| < width then width else |s|
  {
    if |s| < width then seq(width - |s|, _ => '0') + s else s
  }

  /** The rounded magnitude in units of the last place. */
  function Units(x: real, places: nat): nat {
    RoundHalfEven(Scale(Abs(x), places))
  }

  /** A sign, then `digits` with a point before the last `places` of them. */
  function Rendered(neg: bool, digits: string, places: nat): string
    requires |digits| >= places + 1
  {
    (if neg then "-" else "") + RenderedBody(digits, places)
  }

  function RenderedBody(digits: string, places: nat): string
    requires |digits| >= places + 1
  {
    digits[..|digits| - places] + "." + digits[|digits| - places..]
  }

  /** Python's fixed-point format with `places` decimals: a minus sign for a
      negative number (also when it rounds to zero), then the digits of the
      rounded magnitude, padded with zeros to one more than `places`, with a
      point before the last `places` of them. */
  function FormatFixed(x: real, places: nat): (s: string)
  {
    Rendered(x < 0.0, PadZeros(NatToString(Units(x, places)), places + 1), places)
  }

  /** The number a fixed-point rendering with `places` decimals stands for,
      in units of the last place: its digits read without the point, with
      the sign. */
  function ReadUnits(s: string, places: nat): int {
    if |s| > 0 && s[0] == '-' then -(ReadDigits(s[1..], places) as int) else ReadDigits(s, places)
  }

  /** An unsigned rendering read without its point. */
  function ReadDigits(body: string, places: nat): nat {
    if |body| < places + 1 then 0
    else ParseNat(body[..|body| - places - 1] + body[|body| - places..])
  }

  /** Zero-padded decimal digits read back as the number. */
  lemma PaddedDigits(n: nat, width: nat)
    ensures var d := PadZeros(NatToString(n), width);
      |d| >= width && d[0] != '-' && ParseNat(d) == n
  {
    var plain := NatToString(n);
    ParseNatToString(n);
    if |plain| < width {
      ParseNatLeadingZeros(width - |plain|, plain);
    }
  }

  /** Reading a rendering drops the point and keeps the sign. */
  lemma ReadRendered(neg: bool, digits: string, places: nat)
    requires |digits| >= places + 1 && digits[0] != '-'
    ensures ReadUnits(Rendered(neg, digits, places), places) == if neg then -(ParseNat(digits) as int) else ParseNat(digits)
  {
    var body := RenderedBody(digits, places);
    RenderedBodyFacts(digits, places);
    assert ReadDigits(body, places) == ParseNat(digits);
    var s := Rendered(neg, digits, places);
    if neg {
      assert s == "-" + body;
      assert s[0] == '-' && s[1..] == body;
    } else {
      assert s == body;
      assert s[0] != '-';
    }
  }

  /** The rendering without its sign: the point sits `places` from the end,
      and dropping it gives the digits back. */
  lemma RenderedBodyFacts(digits: string, places: nat)
    requires |digits| >= places + 1
    ensures var body := RenderedBody(digits, places);
      && |body| == |digits| + 1 && body[0] == digits[0]
      && body[..|body| - places - 1] + body[|body| - places..] == digits
  {
    var w := digits[..|digits| - places];
    var f := digits[|digits| - places..];
    var body := w + "." + f;
    assert body[..|w|] == w;
    assert body[|w| + 1..] == f;
    assert w + f == digits;
  }

  /** The rendering reads back as the rounded magnitude with the sign of the
      number. */
  lemma FormatFixedReads(x: real, places: nat)
    ensures ReadUnits(FormatFixed(x, places), places) == if x < 0.0 then -(Units(x, places) as int) else Units(x, places)
  {
    var n := Units(x, places);
    PaddedDigits(n, places + 1);
    ReadRendered(x < 0.0, PadZeros(NatToString(n), places + 1), places);
  }

  /** Reading a rendering back gives the number up to half a unit in the last
      place, an exact tie going to an even last digit. */
  lemma FormatFixedReadsBack(x: real, places: nat)
    ensures var e := ReadUnits(FormatFixed(x, places), places) as real - Scale(x, places);
      && -0.5 <= e <= 0.5
      && ((e == 0.5 || e == -0.5) ==> Units(x, places) % 2 == 0)
  {
    FormatFixedReads(x, places);
    var n := Units(x, places);
    var y := Scale(Abs(x), places);
    assert n == RoundHalfEven(y);
    if x < 0.0 {
      ScaleNegate(x, places);
      assert Scale(x, places) == -y;
    }
  }

  // ----- the parts of the name -----

  /** `param.split('.')[-2].split('_')[-1] if '_' in param else
      param.split('.')[-2]`: a name without '.' raises IndexError. */
  function ParamShort(param: string): (r: Result<string, Error>)
  {
    var dots := Split(param, '.');
    if |dots| < 2 then Failure(MalformedParameterName(param))
    else
      var segment := dots[|dots| - 2];
      if '_' in param then Success(Last(Split(segment, '_'))) else Success(segment)
  }

  /** Splitting yields more than one piece exactly when the separator occurs. */
  lemma {:induction false} SplitPieces(s: string, sep: char)
    ensures |Split(s, sep)| >= 2 <==> sep in s
    decreases |s|
  {
    if s != [] {
      SplitPieces(s[1..], sep);
      assert s == [s[0]] + s[1..];
    }
  }

  lemma {:induction false} SplitWithout(s: string, sep: char)
    requires sep !in s
    ensures Split(s, sep) == [s]
    decreases |s|
  {
    if s != [] {
      SplitWithout(s[1..], sep);
      assert s == [s[0]] + s[1..];
    }
  }

  /** Splitting at the first separator. */
  lemma {:induction false} SplitAtFirst(a: string, sep: char, b: string)
    requires sep !in a
    ensures Split(a + [sep] + b, sep) == [a] + Split(b, sep)
    decreases |a|
  {
    if a == [] {
      assert a + [sep] + b == [sep] + b;
      assert ([sep] + b)[1..] == b;
    } else {
      assert (a + [sep] + b)[1..] == a[1..] + [sep] + b;
      SplitAtFirst(a[1..], sep, b);
      assert [a[0]] + a[1..] == a;
    }
  }

  /** Every character of a piece occurs in the string split. */
  lemma {:induction false} SplitPieceChars(s: string, sep: char, k: nat)
    requires k < |Split(s, sep)|
    ensures forall ch :: ch in Split(s, sep)[k] ==> ch in s
    decreases |s|
  {
    if s != [] {
      var rest := Split(s[1..], sep);
      if s[0] == sep {
        if k > 0 {
          SplitPieceChars(s[1..], sep, k - 1);
        }
      } else {
        SplitPieceChars(s[1..], sep, if k == 0 then 0 else k);
      }
    }
  }

  /** The short name fails exactly for a name without '.'; otherwise it holds
      no '.' and no '_', and only characters of the name. */
  lemma ParamShortFacts(param: string)
    ensures ParamShort(param).Failure? <==> '.' !in param
    ensures ParamShort(param).Success? ==>
      var r := ParamShort(param).value;
      '.' !in r && '_' !in r && forall ch :: ch in r ==> ch in param
  {
    var dots := Split(param, '.');
    SplitPieces(param, '.');
    if |dots| >= 2 {
      var segment := dots[|dots| - 2];
      SplitPieceChars(param, '.', |dots| - 2);
      if '_' in param {
        var pieces := Split(segment, '_');
        SplitPieceChars(segment, '_', |pieces| - 1);
      }
    }
  }

  /** The last piece after a separator followed by a piece without it. */
  lemma {:induction false} SplitLast(a: string, sep: char, b: string)
    requires sep !in b
    ensures Last(Split(a + [sep] + b, sep)) == b
    decreases |a|
  {
    if a == [] {
      SplitAtFirst(a, sep, b);
      SplitWithout(b, sep);
    } else {
      var rest := Split(a[1..] + [sep] + b, sep);
      assert (a + [sep] + b)[1..] == a[1..] + [sep] + b;
      SplitLast(a[1..], sep, b);
      SplitPieces(a[1..] + [sep] + b, sep);
      assert (a[1..] + [sep] + b)[|a| - 1] == sep;
    }
  }

  /** For a name `<a>_<b>.<last>` with no '.' before the last one and no '_'
      in `b`, the short name is `b`. */
  lemma ParamShortOf(a: string, b: string, last: string)
    requires '.' !in a && '.' !in b && '.' !in last && '_' !in b
    ensures ParamShort(a + "_" + b + "." + last) == Success(b)
  {
    var segment := a + "_" + b;
    var param := segment + "." + last;
    SplitAtFirst(segment, '.', last);
    SplitWithout(last, '.');
    assert Split(param, '.') == [segment, last];
    assert param[|a|] == '_';
    SplitLast(a, '_', b);
  }

  /** The short name of a gene parameter keeps the text after the last '_'
      before the '.', closing parenthesis included. */
  lemma ParamShortExample()
    ensures ParamShort("(basal_fos).v") == Success("fos)")
  {
    ParamShortOf("(basal", "fos)", "v");
    assert "(basal" + "_" + "fos)" + "." + "v" == "(basal_fos).v";
  }

  /** The custom-multiplier entries, `f"{param_short}{mult:.2f}"` each; the
      first malformed name decides the error. */
  function MultiplierInfo(pm: seq<(string, real)>): (r: Result<seq<string>, Error>)
    ensures r.Success? ==> |r.value| == |pm|
    decreases |pm|
  {
    if pm == [] then Success([])
    else
      var prev := MultiplierInfo(pm[..|pm| - 1]);
      var short := ParamShort(pm[|pm| - 1].0);
      if prev.Failure? then prev
      else if short.Failure? then Failure(short.error)
      else Success(prev.value + [short.value + FormatFixed(pm[|pm| - 1].1, 2)])
  }

  /** The part of the name for one step. */
  function Part(step: Step): Result<string, Error> {
    match step
    case Knockout(gene, _, _, SetTo(v)) => Success(gene + "_KO_set" + FormatFixed(v, 4))
    case Knockout(gene, _, _, MultiplyBy(m, pm)) =>
      if pm == [] then Success(gene + "_KO_mult" + FormatFixed(m, 2))
      else
        var info := MultiplierInfo(pm);
        if info.Failure? then Failure(info.error) else Success(gene + "_KO_custom_" + Join(info.value, "_"))
    case Overexpression(gene, _, _, FixedMultiplier(m)) => Success(gene + "_OE_set" + FormatFixed(m, 2))
    case Overexpression(gene, _, _, BetaScaled(_, _, maxMult)) => Success(gene + "_OE_max" + FormatFixed(maxMult, 2))
    case Knockdown(gene, _, _) => Success(gene + "_KD")
  }

  /** The parts of every step in order; the first failing step decides the
      error. */
  function Parts(history: seq<Step>): (r: Result<seq<string>, Error>)
    ensures r.Success? ==> |r.value| == |history|
  {
    Collect(history, Part)
  }

  /** `_a_{beta_a:.2f}_b_{beta_b:.2f}` when both shape parameters are given. */
  function BetaSuffix(betaA: Option<real>, betaB: Option<real>): string {
    if betaA.Some? && betaB.Some? then "_a_" + FormatFixed(betaA.value, 2) + "_b_" + FormatFixed(betaB.value, 2)
    else ""
  }

  /** The file name of `save_results`. */
  function FileName(date: string, cellLine: string, history: seq<Step>, betaA: Option<real>, betaB: Option<real>,
                    version: string): Result<string, Error>
  {
    var parts := Parts(history);
    if parts.Failure? then Failure(parts.error)
    else
      var head := date + "_" + cellLine + "_";
      var ending := "_" + version + ".csv";
      Success(head + Join(parts.value, "_") + ("_steady_states_results" + BetaSuffix(betaA, betaB) + ending))
  }

  // ----- what the name says -----

  /** A knockout step whose custom multipliers name a parameter without '.'. */
  predicate Unnamable(step: Step) {
    step.Knockout? && step.koMethod.MultiplyBy? && Undotted(step.koMethod.paramMultipliers)
  }

  /** Some entry names a parameter without '.'. */
  predicate Undotted(pm: seq<(string, real)>) {
    exists j :: 0 <= j < |pm| && '.' !in pm[j].0
  }

  lemma UndottedLast(pm: seq<(string, real)>)
    requires pm != []
    ensures Undotted(pm) <==> Undotted(pm[..|pm| - 1]) || '.' !in pm[|pm| - 1].0
  {
    var n := |pm| - 1;
    if Undotted(pm) {
      var j :| 0 <= j < |pm| && '.' !in pm[j].0;
      if j < n {
        assert pm[..n][j] == pm[j];
      }
    }
    if Undotted(pm[..n]) {
      var j :| 0 <= j < n && '.' !in pm[..n][j].0;
      assert pm[..n][j] == pm[j];
    }
  }

  lemma {:induction false} MultiplierInfoFails(pm: seq<(string, real)>)
    ensures MultiplierInfo(pm).Failure? <==> Undotted(pm)
    decreases |pm|
  {
    if pm != [] {
      var n := |pm| - 1;
      MultiplierInfoFails(pm[..n]);
      ParamShortFacts(pm[n].0);
      UndottedLast(pm);
      assert MultiplierInfo(pm).Failure? <==> MultiplierInfo(pm[..n]).Failure? || ParamShort(pm[n].0).Failure?;
    }
  }

  lemma PartFails(step: Step)
    ensures Part(step).Failure? <==> Unnamable(step)
  {
    if step.Knockout? && step.koMethod.MultiplyBy? {
      MultiplierInfoFails(step.koMethod.paramMultipliers);
    }
  }

  /** The name cannot be built exactly when some knockout's custom
      multipliers name a parameter without '.'. */
  lemma {:induction false} PartsFail(history: seq<Step>)
    ensures Parts(history).Failure? <==> exists i :: 0 <= i < |history| && Unnamable(history[i])
    decreases |history|
  {
    if history != [] {
      var n := |history| - 1;
      PartsFail(history[..n]);
      PartFails(history[n]);
      if exists i :: 0 <= i < |history| && Unnamable(history[i]) {
        var i :| 0 <= i < |history| && Unnamable(history[i]);
        if i < n {
          assert history[..n][i] == history[i];
        }
      }
      if exists i :: 0 <= i < n && Unnamable(history[..n][i]) {
        var i :| 0 <= i < n && Unnamable(history[..n][i]);
        assert history[..n][i] == history[i];
      }
    }
  }

  /** The tag a step's part carries after the gene. */
  function PartTag(step: Step): string {
    match step
    case Knockout(_, _, _, _) => "_KO"
    case Knockdown(_, _, _) => "_KD"
    case Overexpression(_, _, _, _) => "_OE"
  }

  lemma PartStarts(step: Step)
    requires Part(step).Success?
    ensures StartsWith(Part(step).value, step.gene + PartTag(step))
  {
    match step
    case Knockout(gene, _, _, SetTo(v)) => TagStarts(gene, "_KO", "_KO_set", FormatFixed(v, 4));
    case Knockout(gene, _, _, MultiplyBy(m, pm)) =>
      if pm == [] {
        TagStarts(gene, "_KO", "_KO_mult", FormatFixed(m, 2));
      } else {
        TagStarts(gene, "_KO", "_KO_custom_", Join(MultiplierInfo(pm).value, "_"));
      }
    case Overexpression(gene, _, _, FixedMultiplier(m)) => TagStarts(gene, "_OE", "_OE_set", FormatFixed(m, 2));
    case Overexpression(gene, _, _, BetaScaled(_, _, maxMult)) => TagStarts(gene, "_OE", "_OE_max", FormatFixed(maxMult, 2));
    case Knockdown(gene, _, _) => TagStarts(gene, "_KD", "_KD", "");
  }

  lemma TagStarts(gene: string, tag: string, word: string, rest: string)
    requires StartsWith(word, tag)
    ensures StartsWith(gene + word + rest, gene + tag)
  {
    var s := gene + word + rest;
    assert s[..|gene|] == gene;
    assert s[|gene|..|gene| + |tag|] == word[..|tag|];
    assert s[..|gene| + |tag|] == s[..|gene|] + s[|gene|..|gene| + |tag|];
  }

  lemma PartsEach(history: seq<Step>, i: nat)
    requires Parts(history).Success? && i < |history|
    ensures Part(history[i]).Success? && Parts(history).value[i] == Part(history[i]).value
  {
    CollectEach(history, Part, i);
  }

  /** Each part sits in the joined string between the ones around it. */
  lemma {:induction false} JoinInfix(parts: seq<string>, sep: string, i: nat) returns (before: string, after: string)
    requires i < |parts|
    ensures Join(parts, sep) == before + parts[i] + after
    decreases |parts|
  {
    if |parts| == 1 {
      before, after := "", "";
    } else if i == 0 {
      before, after := "", sep + Join(parts[1..], sep);
    } else {
      var b, a := JoinInfix(parts[1..], sep, i - 1);
      before, after := parts[0] + sep + b, a;
    }
  }

  /** A string built around the joined parts contains every part's prefix. */
  lemma JoinedMentions(head: string, parts: seq<string>, tail: string, i: nat, prefix: string)
    requires i < |parts| && StartsWith(parts[i], prefix)
    ensures Contains(head + Join(parts, "_") + tail, prefix)
  {
    var part := parts[i];
    var before, after := JoinInfix(parts, "_", i);
    assert part == prefix + part[|prefix|..];
    assert head + Join(parts, "_") + tail == (head + before) + prefix + (part[|prefix|..] + after + tail);
    ContainsInfix(head + before, prefix, part[|prefix|..] + after + tail);
  }

  /** A built name starts with the date and the cell line, ends with the
      version and the CSV extension, and names every step's gene with its
      kind. */
  lemma FileNameMentions(date: string, cellLine: string, history: seq<Step>, betaA: Option<real>, betaB: Option<real>,
                         version: string)
    requires FileName(date, cellLine, history, betaA, betaB, version).Success?
    ensures var name := FileName(date, cellLine, history, betaA, betaB, version).value;
      && StartsWith(name, date + "_" + cellLine + "_")
      && EndsWith(name, "_" + version + ".csv")
      && forall i :: 0 <= i < |history| ==> Contains(name, history[i].gene + PartTag(history[i]))
  {
    var name := FileName(date, cellLine, history, betaA, betaB, version).value;
    var parts := Parts(history).value;
    var head := date + "_" + cellLine + "_";
    var joined := Join(parts, "_");
    var results := "_steady_states_results";
    var beta := BetaSuffix(betaA, betaB);
    var ending := "_" + version + ".csv";
    var tail := results + beta + ending;
    assert name == head + joined + tail;
    AppendAssoc(head, joined, tail);
    StartsWithAppend(head, joined + tail);
    AppendAssoc(head + joined, results + beta, ending);
    EndsWithAppend(head + joined + (results + beta), ending);
    forall i | 0 <= i < |history| ensures Contains(name, history[i].gene + PartTag(history[i])) {
      PartsEach(history, i);
      PartStarts(history[i]);
      JoinedMentions(head, parts, tail, i, history[i].gene + PartTag(history[i]));
    }
  }

  // ----- the loop -----

  /** Once a prefix of the entries fails, all of them fail the same way. */
  lemma {:induction false} MultiplierInfoFailurePersists(pm: seq<(string, real)>, k: nat)
    requires k <= |pm| && MultiplierInfo(pm[..k]).Failure?
    ensures MultiplierInfo(pm) == MultiplierInfo(pm[..k])
    decreases |pm| - k
  {
    if k < |pm| {
      assert pm[..k + 1][..k] == pm[..k];
      MultiplierInfoFailurePersists(pm, k + 1);
    } else {
      assert pm[..k] == pm;
    }
  }

  /** The inner loop over `param_multipliers`. */
  method BuildMultiplierInfo(pm: seq<(string, real)>) returns (r: Result<seq<string>, Error>)
    ensures r == MultiplierInfo(pm)
  {
    var info: seq<string> := [];
    for j := 0 to |pm|
      invariant MultiplierInfo(pm[..j]) == Success(info)
    {
      assert pm[..j + 1][..j] == pm[..j];
      var short := ParamShort(pm[j].0);
      if short.Failure? {
        assert MultiplierInfo(pm[..j + 1]) == Failure(short.error);
        MultiplierInfoFailurePersists(pm, j + 1);
        return Failure(short.error);
      }
      info := info + [short.value + FormatFixed(pm[j].1, 2)];
    }
    assert pm[..|pm|] == pm;
    r := Success(info);
  }

  /** The body of the loop over the history: one step's part. */
  method BuildPart(step: Step) returns (r: Result<string, Error>)
    ensures r == Part(step)
  {
    match step
    case Knockout(gene, _, _, SetTo(v)) =>
      r := Success(gene + "_KO_set" + FormatFixed(v, 4));
    case Knockout(gene, _, _, MultiplyBy(m, pm)) =>
      if pm == [] {
        r := Success(gene + "_KO_mult" + FormatFixed(m, 2));
      } else {
        var info := BuildMultiplierInfo(pm);
        if info.Failure? {
          r := Failure(info.error);
        } else {
          r := Success(gene + "_KO_custom_" + Join(info.value, "_"));
        }
      }
    case Overexpression(gene, _, _, FixedMultiplier(m)) =>
      r := Success(gene + "_OE_set" + FormatFixed(m, 2));
    case Overexpression(gene, _, _, BetaScaled(_, _, maxMult)) =>
      r := Success(gene + "_OE_max" + FormatFixed(maxMult, 2));
    case Knockdown(gene, _, _) =>
      r := Success(gene + "_KD");
  }

  /** The loop of `save_results` that builds the parts and the name. */
  method BuildFileName(date: string, cellLine: string, history: seq<Step>, betaA: Option<real>, betaB: Option<real>,
                       version: string) returns (r: Result<string, Error>)
    ensures r == FileName(date, cellLine, history, betaA, betaB, version)
  {
    var parts: seq<string> := [];
    for i := 0 to |history|
      invariant Parts(history[..i]) == Success(parts)
    {
      assert history[..i + 1][..i] == history[..i];
      var part := BuildPart(history[i]);
      if part.Failure? {
        assert Parts(history[..i + 1]) == Failure(part.error);
        PartsFailurePersists(history, i + 1);
        return Failure(part.error);
      }
      parts := parts + [part.value];
    }
    assert history[..|history|] == history;
    var suffix := "";
    if betaA.Some? && betaB.Some? {
      suffix := "_a_" + FormatFixed(betaA.value, 2) + "_b_" + FormatFixed(betaB.value, 2);
    }
    var head := date + "_" + cellLine + "_";
    var ending := "_" + version + ".csv";
    r := Success(head + Join(parts, "_") + ("_steady_states_results" + suffix + ending));
  }

  /** Once a prefix of the history fails, the whole history fails the same way. */
  lemma PartsFailurePersists(history: seq<Step>, k: nat)
    requires k <= |history| && Parts(history[..k]).Failure?
    ensures Parts(history) == Parts(history[..k])
  {
    CollectFailurePersists(history, Part, k);
  }
}
