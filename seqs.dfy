/** Sequence utilities used to model Python list comprehensions over column
    names and rows: filtering, "remove duplicates keeping the first
    occurrence" (`list(dict.fromkeys(xs))`) and concatenation of lists. */
module Seqs {

  predicate NoDup<T(==)>(xs: seq<T>) {
    forall i, j :: 0 <= i < j < |xs| ==> xs[i] != xs[j]
  }

  /** Two duplicate-free sequences with nothing in common concatenate to a
      duplicate-free one. */
  lemma NoDupAppend<T>(a: seq<T>, b: seq<T>)
    requires NoDup(a) && NoDup(b)
    requires forall x :: x in a ==> x !in b
    ensures NoDup(a + b)
  {
    forall i, j | 0 <= i < j < |a + b| ensures (a + b)[i] != (a + b)[j] {
      if j < |a| {
        assert (a + b)[i] == a[i] && (a + b)[j] == a[j];
      } else if i < |a| {
        assert (a + b)[i] == a[i] && (a + b)[j] == b[j - |a|];
        assert a[i] in a && b[j - |a|] in b;
      } else {
        assert (a + b)[i] == b[i - |a|] && (a + b)[j] == b[j - |a|];
      }
    }
  }

  /** `[x for x in xs if p(x)]` */
  function Filter<T(!new)>(xs: seq<T>, p: T -> bool): (ys: seq<T>)
    ensures |ys| <= |xs|
    ensures forall y :: y in ys <==> y in xs && p(y)
  {
    if xs == [] then [] else (if p(xs[0]) then [xs[0]] else []) + Filter(xs[1..], p)
  }

  /** Filtering distributes over concatenation: together with the one-element
      case this fixes the order of the kept elements. */
  lemma {:induction false} FilterAppend<T(!new)>(a: seq<T>, b: seq<T>, p: T -> bool)
    ensures Filter(a + b, p) == Filter(a, p) + Filter(b, p)
  {
    if a == [] {
      assert a + b == b;
    } else {
      assert (a + b)[1..] == a[1..] + b;
      FilterAppend(a[1..], b, p);
    }
  }

  lemma FilterNoDup<T(!new)>(xs: seq<T>, p: T -> bool)
    requires NoDup(xs)
    ensures NoDup(Filter(xs, p))
  {
    if xs != [] {
      FilterNoDup(xs[1..], p);
    }
  }

  /** Python's `list(dict.fromkeys(xs))`: drop every repeated element, keeping
      the first occurrence. */
  function Dedupe<T(==,!new)>(xs: seq<T>): (ys: seq<T>)
    ensures NoDup(ys)
    ensures forall x :: x in ys <==> x in xs
    ensures InOrderOf(xs, ys)
    decreases |xs|
  {
    if xs == [] then []
    else
      var d := Dedupe(xs[..|xs| - 1]);
      assert xs == xs[..|xs| - 1] + [xs[|xs| - 1]];
      DedupeStep(xs[..|xs| - 1], xs[|xs| - 1], d);
      if xs[|xs| - 1] in d then d else d + [xs[|xs| - 1]]
  }

  /** One step of `Dedupe`: appending an element keeps first-occurrence order,
      whether it is new (it goes last) or seen before (it is dropped). */
  lemma DedupeStep<T>(xs: seq<T>, x: T, d: seq<T>)
    requires forall y :: y in d <==> y in xs
    requires InOrderOf(xs, d)
    ensures forall y :: y in d + [x] ==> y in xs + [x]
    ensures InOrderOf(xs + [x], d)
    ensures x !in xs ==> InOrderOf(xs + [x], d + [x])
  {
    forall i, j | 0 <= i < j < |d|
      ensures d[i] in xs + [x] && d[j] in xs + [x] && IndexOf(xs + [x], d[i]) < IndexOf(xs + [x], d[j])
    {
      IndexOfAppend(xs, [x], d[i]);
      IndexOfAppend(xs, [x], d[j]);
    }
    if x !in xs {
      var e := d + [x];
      forall i, j | 0 <= i < j < |e|
        ensures e[i] in xs + [x] && e[j] in xs + [x] && IndexOf(xs + [x], e[i]) < IndexOf(xs + [x], e[j])
      {
        assert e[i] == d[i];
        IndexOfAppend(xs, [x], d[i]);
        IndexOfAppend(xs, [x], e[j]);
      }
    }
  }

  /** Removing duplicates from `a + b` keeps `a` intact at the front when `a`
      has no duplicates itself. */
  lemma {:induction false} DedupeKeepsPrefix<T(!new)>(a: seq<T>, b: seq<T>)
    requires NoDup(a)
    ensures |a| <= |Dedupe(a + b)| && Dedupe(a + b)[..|a|] == a
    decreases |b|
  {
    if b == [] {
      assert a + b == a;
      DedupeOfNoDup(a);
    } else {
      var b' := b[..|b| - 1];
      assert (a + b)[..|a + b| - 1] == a + b';
      DedupeKeepsPrefix(a, b');
    }
  }

  lemma {:induction false} DedupeOfNoDup<T(!new)>(a: seq<T>)
    requires NoDup(a)
    ensures Dedupe(a) == a
    decreases |a|
  {
    if a != [] {
      var a' := a[..|a| - 1];
      assert NoDup(a');
      DedupeOfNoDup(a');
      assert a[|a| - 1] !in a';
      assert Dedupe(a) == a' + [a[|a| - 1]];
      assert a == a' + [a[|a| - 1]];
    }
  }

  /** `[x for l in ls for x in l]` */
  function Flatten<T>(ls: seq<seq<T>>): seq<T> {
    if ls == [] then [] else ls[0] + Flatten(ls[1..])
  }

  lemma {:induction false} FlattenAppend<T>(a: seq<seq<T>>, b: seq<seq<T>>)
    ensures Flatten(a + b) == Flatten(a) + Flatten(b)
  {
    if a == [] {
      assert a + b == b;
    } else {
      assert (a + b)[1..] == a[1..] + b;
      FlattenAppend(a[1..], b);
    }
  }

  /** Position of the first occurrence of x in xs. */
  function IndexOf<T(==)>(xs: seq<T>, x: T): (k: nat)
    requires x in xs
    ensures k < |xs| && xs[k] == x
    ensures forall j :: 0 <= j < k ==> xs[j] != x
  {
    if xs[0] == x then 0 else 1 + IndexOf(xs[1..], x)
  }

  lemma IndexOfTail<T>(xs: seq<T>, y: T)
    requires NoDup(xs) && xs != [] && y in xs[1..]
    ensures IndexOf(xs, y) == 1 + IndexOf(xs[1..], y)
  {
    var k :| 0 <= k < |xs[1..]| && xs[1..][k] == y;
    assert xs[0] != xs[k + 1];
  }

  /** The first occurrence of `y` in `a + b` is its first occurrence in `a`,
      or else `|a|` past its first occurrence in `b`. */
  lemma IndexOfAppend<T>(a: seq<T>, b: seq<T>, y: T)
    requires y in a + b
    ensures y in a ==> IndexOf(a + b, y) == IndexOf(a, y)
    ensures y !in a ==> y in b && IndexOf(a + b, y) == |a| + IndexOf(b, y)
  {
    var k := IndexOf(a + b, y);
    if y in a {
      var i := IndexOf(a, y);
      assert (a + b)[i] == y;
      assert k < |a| ==> a[k] == y;
    } else {
      var i := IndexOf(b, y);
      assert (a + b)[|a| + i] == y;
      assert k >= |a| && b[k - |a|] == y;
    }
  }

  /** Every element of `ys` comes later in `xs` than the ones before it in `ys`. */
  predicate InOrderOf<T(==)>(xs: seq<T>, ys: seq<T>)
    requires forall y :: y in ys ==> y in xs
  {
    forall i, j :: 0 <= i < j < |ys| ==> IndexOf(xs, ys[i]) < IndexOf(xs, ys[j])
  }

  /** An order within the tail of a list is an order within the list. */
  lemma InOrderTail<T>(xs: seq<T>, ys: seq<T>)
    requires NoDup(xs) && xs != []
    requires forall y :: y in ys ==> y in xs[1..]
    requires InOrderOf(xs[1..], ys)
    ensures forall y :: y in ys ==> y in xs
    ensures InOrderOf(xs, ys)
  {
    forall i, j | 0 <= i < j < |ys|
      ensures ys[i] in xs && ys[j] in xs && IndexOf(xs, ys[i]) < IndexOf(xs, ys[j])
    {
      IndexOfTail(xs, ys[i]);
      IndexOfTail(xs, ys[j]);
    }
  }

  /** Putting the head of a list in front of an order within its tail keeps
      an order within the list. */
  lemma InOrderCons<T>(xs: seq<T>, ys: seq<T>)
    requires NoDup(xs) && xs != []
    requires forall y :: y in ys ==> y in xs[1..]
    requires InOrderOf(xs[1..], ys)
    ensures forall y :: y in [xs[0]] + ys ==> y in xs
    ensures InOrderOf(xs, [xs[0]] + ys)
  {
    var zs := [xs[0]] + ys;
    forall i, j | 0 <= i < j < |zs|
      ensures zs[i] in xs && zs[j] in xs && IndexOf(xs, zs[i]) < IndexOf(xs, zs[j])
    {
      assert zs[j] == ys[j - 1];
      IndexOfTail(xs, ys[j - 1]);
      if i > 0 {
        assert zs[i] == ys[i - 1];
        IndexOfTail(xs, ys[i - 1]);
      }
    }
  }

  /** Filtering a list without duplicates keeps the survivors in the order
      they had in the list. */
  lemma {:induction false} FilterKeepsOrder<T(!new)>(xs: seq<T>, p: T -> bool)
    requires NoDup(xs)
    ensures InOrderOf(xs, Filter(xs, p))
  {
    if xs != [] {
      var rest := Filter(xs[1..], p);
      assert NoDup(xs[1..]);
      FilterKeepsOrder(xs[1..], p);
      if p(xs[0]) {
        assert Filter(xs, p) == [xs[0]] + rest;
        InOrderCons(xs, rest);
      } else {
        assert Filter(xs, p) == rest;
        InOrderTail(xs, rest);
      }
    }
  }

  /** Keeping some elements of an ordered list keeps it ordered. */
  lemma {:induction false} FilterInOrder<T(!new)>(xs: seq<T>, ys: seq<T>, p: T -> bool)
    requires forall y :: y in ys ==> y in xs
    requires InOrderOf(xs, ys)
    ensures forall y :: y in Filter(ys, p) ==> y in xs
    ensures InOrderOf(xs, Filter(ys, p))
  {
    if ys != [] {
      var rest := Filter(ys[1..], p);
      FilterInOrder(xs, ys[1..], p);
      if p(ys[0]) {
        var zs := [ys[0]] + rest;
        assert Filter(ys, p) == zs;
        forall i, j | 0 <= i < j < |zs|
          ensures zs[i] in xs && zs[j] in xs && IndexOf(xs, zs[i]) < IndexOf(xs, zs[j])
        {
          assert zs[j] == rest[j - 1];
          if i > 0 {
            assert zs[i] == rest[i - 1];
          } else {
            assert rest[j - 1] in rest;
            var k :| 0 <= k < |ys[1..]| && ys[1..][k] == zs[j];
            assert ys[k + 1] == zs[j];
          }
        }
      }
    }
  }

  /** In a list ordered by `a + b`, the elements that occur in `a` come
      before those that do not. */
  lemma InOrderSplit<T>(a: seq<T>, b: seq<T>, ys: seq<T>)
    requires forall y :: y in ys ==> y in a + b
    requires InOrderOf(a + b, ys)
    ensures forall i, j :: 0 <= i < |ys| && 0 <= j < |ys| && ys[i] in a && ys[j] !in a ==> i < j
  {
    forall i, j | 0 <= i < |ys| && 0 <= j < |ys| && ys[i] in a && ys[j] !in a
      ensures i < j
    {
      IndexOfAppend(a, b, ys[i]);
      IndexOfAppend(a, b, ys[j]);
    }
  }

  /** Keeping the elements that pass `p` of `Dedupe(a + b)`: each at most
      once, exactly those of `a` or `b` that pass, in first-occurrence order. */
  lemma DedupeFiltered<T(!new)>(a: seq<T>, b: seq<T>, p: T -> bool)
    ensures var f := Filter(Dedupe(a + b), p);
      && NoDup(f)
      && (forall c :: c in f <==> (c in a || c in b) && p(c))
      && (forall c :: c in f ==> c in a + b)
      && InOrderOf(a + b, f)
  {
    FilterNoDup(Dedupe(a + b), p);
    FilterInOrder(a + b, Dedupe(a + b), p);
  }

  /** ... and `a` itself comes first when it has no duplicates and all of it
      passes. */
  lemma DedupeFilteredPrefix<T(!new)>(a: seq<T>, b: seq<T>, p: T -> bool)
    requires NoDup(a) && forall c :: c in a ==> p(c)
    ensures |a| <= |Filter(Dedupe(a + b), p)| && Filter(Dedupe(a + b), p)[..|a|] == a
  {
    var d := Dedupe(a + b);
    DedupeKeepsPrefix(a, b);
    assert d == a + d[|a|..];
    FilterAppend(a, d[|a|..], p);
    FilterAll(a, p);
  }

  /** Elements kept in the order of `p + ((s + (x1 + x2)) + z)`: one that
      occurs in an earlier part comes before one that occurs in none of the
      earlier parts. */
  lemma OrderedSections<T>(p: seq<T>, s: seq<T>, x1: seq<T>, x2: seq<T>, z: seq<T>, ys: seq<T>)
    requires forall y :: y in ys ==> y in p + ((s + (x1 + x2)) + z)
    requires InOrderOf(p + ((s + (x1 + x2)) + z), ys)
    ensures forall i, j :: 0 <= i < |ys| && 0 <= j < |ys| && ys[i] in p && ys[j] !in p ==> i < j
    ensures forall i, j ::
      (0 <= i < |ys| && 0 <= j < |ys| && (ys[i] in p || ys[i] in s) && ys[j] !in p && ys[j] !in s)
      ==> i < j
    ensures forall i, j ::
      (0 <= i < |ys| && 0 <= j < |ys| && (ys[i] in p || ys[i] in s || ys[i] in x1) &&
       ys[j] !in p && ys[j] !in s && ys[j] !in x1)
      ==> i < j
    ensures forall i, j ::
      (0 <= i < |ys| && 0 <= j < |ys| && ys[i] !in z && ys[j] in z &&
       ys[j] !in p && ys[j] !in s && ys[j] !in x1 && ys[j] !in x2)
      ==> i < j
  {
    var all := p + ((s + (x1 + x2)) + z);
    InOrderSplit(p, (s + (x1 + x2)) + z, ys);
    assert all == (p + s) + ((x1 + x2) + z);
    InOrderSplit(p + s, (x1 + x2) + z, ys);
    assert all == ((p + s) + x1) + (x2 + z);
    InOrderSplit((p + s) + x1, x2 + z, ys);
    assert all == (((p + s) + x1) + x2) + z;
    InOrderSplit(((p + s) + x1) + x2, z, ys);
  }

  /** The elements each selector picks, selector by selector, for the first
      `n` selectors. */
  function Blocks<T(!new)>(xs: seq<T>, sels: seq<T -> bool>, n: nat): seq<T>
    requires n <= |sels|
  {
    if n == 0 then [] else Blocks(xs, sels, n - 1) + Filter(xs, sels[n - 1])
  }

  /** Selecting from the blocks up to `n` selects from the blocks before it,
      then from block `n - 1`. */
  lemma SelectLastBlock<T(!new)>(xs: seq<T>, sels: seq<T -> bool>, f: T -> bool, n: nat)
    requires 0 < n <= |sels|
    ensures Filter(Blocks(xs, sels, n), f) == Filter(Blocks(xs, sels, n - 1), f) + Filter(Filter(xs, sels[n - 1]), f)
  {
    FilterAppend(Blocks(xs, sels, n - 1), Filter(xs, sels[n - 1]), f);
  }

  /** A test that no block before `n` passes selects nothing from them. */
  lemma {:induction false} BlocksNone<T(!new)>(xs: seq<T>, sels: seq<T -> bool>, f: T -> bool, n: nat)
    requires n <= |sels|
    requires forall k, x :: 0 <= k < n && sels[k](x) ==> !f(x)
    ensures Filter(Blocks(xs, sels, n), f) == []
  {
    if n > 0 {
      BlocksNone(xs, sels, f, n - 1);
      FilterExcluded(xs, sels[n - 1], f);
      SelectLastBlock(xs, sels, f, n);
    }
  }

  /** A test that passes all of block `i` and nothing of the others selects
      exactly block `i`. */
  lemma {:induction false} BlocksSelect<T(!new)>(xs: seq<T>, sels: seq<T -> bool>, f: T -> bool, i: nat, n: nat)
    requires i < n <= |sels|
    requires forall x :: sels[i](x) ==> f(x)
    requires forall k, x :: 0 <= k < n && k != i && sels[k](x) ==> !f(x)
    ensures Filter(Blocks(xs, sels, n), f) == Filter(xs, sels[i])
  {
    SelectLastBlock(xs, sels, f, n);
    if i == n - 1 {
      BlocksNone(xs, sels, f, n - 1);
      FilterImplied(xs, sels[i], f);
    } else {
      BlocksSelect(xs, sels, f, i, n - 1);
      FilterExcluded(xs, sels[n - 1], f);
    }
  }

  lemma AppendAssoc<T>(a: seq<T>, b: seq<T>, c: seq<T>)
    ensures (a + b) + c == a + (b + c)
  {
  }

  /** One of the first `n` selectors picks `y`. */
  predicate Picked<T>(sels: seq<T -> bool>, n: nat, y: T)
    requires n <= |sels|
  {
    exists k :: 0 <= k < n && sels[k](y)
  }

  lemma PickedSnoc<T>(sels: seq<T -> bool>, n: nat, y: T)
    requires 0 < n <= |sels|
    ensures Picked(sels, n, y) <==> Picked(sels, n - 1, y) || sels[n - 1](y)
  {
    if Picked(sels, n, y) {
      var k :| 0 <= k < n && sels[k](y);
      if k < n - 1 {
        assert Picked(sels, n - 1, y);
      }
    }
  }

  /** An element is in the blocks up to `n` exactly when one of the first
      `n` selectors picks it. */
  lemma {:induction false} BlocksMembers<T(!new)>(xs: seq<T>, sels: seq<T -> bool>, n: nat, y: T)
    requires n <= |sels|
    ensures y in Blocks(xs, sels, n) <==> y in xs && Picked(sels, n, y)
  {
    if n > 0 {
      BlocksMembers(xs, sels, n - 1, y);
      PickedSnoc(sels, n, y);
    }
  }

  /** The blocks up to `k` begin the blocks up to `n`. */
  lemma {:induction false} BlocksPrefix<T(!new)>(xs: seq<T>, sels: seq<T -> bool>, k: nat, n: nat) returns (rest: seq<T>)
    requires k <= n <= |sels|
    ensures Blocks(xs, sels, n) == Blocks(xs, sels, k) + rest
    decreases n - k
  {
    if k == n {
      rest := [];
    } else {
      var rest' := BlocksPrefix(xs, sels, k, n - 1);
      var last := Filter(xs, sels[n - 1]);
      rest := rest' + last;
      calc {
        Blocks(xs, sels, n);
        Blocks(xs, sels, n - 1) + last;
        (Blocks(xs, sels, k) + rest') + last;
        { AppendAssoc(Blocks(xs, sels, k), rest', last); }
        Blocks(xs, sels, k) + rest;
      }
    }
  }

  /** A prefix of a prefix is a prefix. */
  lemma PrefixOfPrefix<T>(a: seq<T>, b: seq<T>, c: seq<T>)
    requires |a| <= |b| && b[..|a|] == a
    requires |b| <= |c| && c[..|b|] == b
    ensures |a| <= |c| && c[..|a|] == a
  {
    assert c[..|a|] == c[..|b|][..|a|];
  }

  lemma FilterSnoc<T(!new)>(xs: seq<T>, x: T, p: T -> bool)
    ensures Filter(xs + [x], p) == Filter(xs, p) + (if p(x) then [x] else [])
  {
    FilterAppend(xs, [x], p);
    assert Filter([x], p) == (if p(x) then [x] else []) + Filter([x][1..], p);
  }

  /** Filtering again by a weaker test keeps everything. */
  lemma {:induction false} FilterImplied<T(!new)>(xs: seq<T>, p: T -> bool, q: T -> bool)
    requires forall x :: p(x) ==> q(x)
    ensures Filter(Filter(xs, p), q) == Filter(xs, p)
  {
    if xs != [] {
      FilterImplied(xs[1..], p, q);
      if p(xs[0]) {
        var ys := [xs[0]] + Filter(xs[1..], p);
        assert Filter(xs, p) == ys;
        assert ys[0] == xs[0] && ys[1..] == Filter(xs[1..], p);
        assert Filter(ys, q) == [xs[0]] + Filter(ys[1..], q);
      } else {
        assert Filter(xs, p) == [] + Filter(xs[1..], p) == Filter(xs[1..], p);
      }
    }
  }

  /** Filtering again by an incompatible test keeps nothing. */
  lemma {:induction false} FilterExcluded<T(!new)>(xs: seq<T>, p: T -> bool, q: T -> bool)
    requires forall x :: p(x) ==> !q(x)
    ensures Filter(Filter(xs, p), q) == []
  {
    if xs != [] {
      FilterExcluded(xs[1..], p, q);
      if p(xs[0]) {
        var ys := [xs[0]] + Filter(xs[1..], p);
        assert Filter(xs, p) == ys;
        assert ys[0] == xs[0] && ys[1..] == Filter(xs[1..], p);
        assert Filter(ys, q) == [] + Filter(ys[1..], q);
      } else {
        assert Filter(xs, p) == [] + Filter(xs[1..], p) == Filter(xs[1..], p);
      }
    }
  }

  /** The first survivor of a filter is the first element that passes. */
  lemma {:induction false} FilterHead<T(!new)>(xs: seq<T>, p: T -> bool)
    requires Filter(xs, p) != []
    ensures exists k :: 0 <= k < |xs| && xs[k] == Filter(xs, p)[0] && p(xs[k]) &&
                        (forall l :: 0 <= l < k ==> !p(xs[l]))
  {
    if !p(xs[0]) {
      FilterHead(xs[1..], p);
      var k :| 0 <= k < |xs[1..]| && xs[1..][k] == Filter(xs[1..], p)[0] && p(xs[1..][k]) &&
        forall l :: 0 <= l < k ==> !p(xs[1..][l]);
      assert xs[k + 1] == Filter(xs, p)[0];
      forall l | 0 <= l < k + 1 ensures !p(xs[l]) {
        if l > 0 { assert xs[l] == xs[1..][l - 1]; }
      }
    }
  }

  /** When the first `i` elements fail a test and element `i` passes it,
      element `i` is the first survivor. */
  lemma FirstSurvivor<T(!new)>(xs: seq<T>, i: nat, p: T -> bool)
    requires i < |xs| && Filter(xs[..i], p) == [] && p(xs[i])
    ensures Filter(xs, p) != [] && Filter(xs, p)[0] == xs[i]
  {
    assert xs == xs[..i] + xs[i..];
    FilterAppend(xs[..i], xs[i..], p);
    assert xs[i..][0] == xs[i];
  }

  /** Filtering keeps a list whose every element passes. */
  lemma {:induction false} FilterAll<T(!new)>(xs: seq<T>, p: T -> bool)
    requires forall x :: x in xs ==> p(x)
    ensures Filter(xs, p) == xs
  {
    if xs != [] {
      FilterAll(xs[1..], p);
      assert xs == [xs[0]] + xs[1..];
    }
  }
}
