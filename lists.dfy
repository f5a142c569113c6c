/** Sequences as the dashboard pages use them: `Array.prototype.filter`,
    `splice`-style removal and insertion, and the "all or one value" select
    filters. */
module Lists {

  /** A select filter: the `'all'`/`'ALL'` option, or one enumeration value. */
  datatype Choice<T> = All | Only(value: T)

  /** `filter === 'all' || x === filter` */
  predicate Admits<T(==)>(c: Choice<T>, x: T) {
    c.All? || c.value == x
  }

  /** `xs.filter(keep)`: the elements that pass, in their original order. */
  function Filter<T>(xs: seq<T>, keep: T -> bool): (r: seq<T>)
    ensures |r| <= |xs|
    ensures forall i :: 0 <= i < |r| ==> r[i] in xs && keep(r[i])
    ensures forall i :: 0 <= i < |xs| && keep(xs[i]) ==> xs[i] in r
  {
    if xs == [] then []
    else (if keep(xs[0]) then [xs[0]] else []) + Filter(xs[1..], keep)
  }

  /** Each value occurs in the filtered list exactly as often as in the
      input when it passes, and not at all otherwise. */
  lemma {:induction false} FilterCounts<T>(xs: seq<T>, keep: T -> bool)
    ensures forall x :: multiset(Filter(xs, keep))[x] == if keep(x) then multiset(xs)[x] else 0
  {
    if xs != [] {
      FilterCounts(xs[1..], keep);
      assert xs == [xs[0]] + xs[1..];
      assert multiset(xs) == multiset{xs[0]} + multiset(xs[1..]);
    }
  }

  /** `ys` is obtained from `xs` by deleting elements, keeping the order of the rest. */
  ghost predicate IsSubsequence<T>(ys: seq<T>, xs: seq<T>)
    decreases |xs|
  {
    ys == [] ||
    (xs != [] &&
     ((ys[0] == xs[0] && IsSubsequence(ys[1..], xs[1..])) || IsSubsequence(ys, xs[1..])))
  }

  lemma {:induction false} FilterIsSubsequence<T>(xs: seq<T>, keep: T -> bool)
    ensures IsSubsequence(Filter(xs, keep), xs)
  {
    if xs != [] {
      FilterIsSubsequence(xs[1..], keep);
      var r := Filter(xs, keep);
      if keep(xs[0]) {
        assert r[0] == xs[0] && r[1..] == Filter(xs[1..], keep);
      } else {
        assert r == Filter(xs[1..], keep);
      }
    }
  }

  lemma {:induction false} FilterKeepsAll<T>(xs: seq<T>, keep: T -> bool)
    requires forall i :: 0 <= i < |xs| ==> keep(xs[i])
    ensures Filter(xs, keep) == xs
  {
    if xs != [] {
      assert keep(xs[0]);
      FilterKeepsAll(xs[1..], keep);
    }
  }

  lemma {:induction false} FilterKeepsNone<T>(xs: seq<T>, keep: T -> bool)
    requires forall i :: 0 <= i < |xs| ==> !keep(xs[i])
    ensures Filter(xs, keep) == []
  {
    if xs != [] {
      assert !keep(xs[0]);
      FilterKeepsNone(xs[1..], keep);
    }
  }

  /** The first element kept is the first element that passes. */
  lemma {:induction false} FilterFirst<T>(xs: seq<T>, keep: T -> bool, j: nat)
    requires j < |xs| && keep(xs[j])
    requires forall i :: 0 <= i < j ==> !keep(xs[i])
    ensures |Filter(xs, keep)| > 0 && Filter(xs, keep)[0] == xs[j]
  {
    if j > 0 {
      assert !keep(xs[0]);
      FilterFirst(xs[1..], keep, j - 1);
    }
  }

  lemma {:induction false} FilterConcat<T>(a: seq<T>, b: seq<T>, keep: T -> bool)
    ensures Filter(a + b, keep) == Filter(a, keep) + Filter(b, keep)
  {
    if a != [] {
      assert (a + b)[0] == a[0] && (a + b)[1..] == a[1..] + b;
      FilterConcat(a[1..], b, keep);
    } else {
      assert a + b == b;
    }
  }

  /** Filtering a list that starts with `x`: `x` is kept or not, the rest is filtered as before. */
  lemma FilterCons<T>(x: T, xs: seq<T>, keep: T -> bool)
    ensures Filter([x] + xs, keep) == (if keep(x) then [x] else []) + Filter(xs, keep)
  {
    assert ([x] + xs)[1..] == xs;
  }

  /** `s.splice(i, 1)` for an index inside `s`. */
  function RemoveAt<T>(s: seq<T>, i: nat): (r: seq<T>)
    requires i < |s|
    ensures |r| == |s| - 1
    ensures forall k :: 0 <= k < |r| ==> r[k] == if k < i then s[k] else s[k + 1]
  {
    s[..i] + s[i + 1..]
  }

  /** `s.splice(i, 0, x)` for `i <= |s|`. */
  function InsertAt<T>(s: seq<T>, i: nat, x: T): (r: seq<T>)
    requires i <= |s|
    ensures |r| == |s| + 1
    ensures r[i] == x
    ensures forall k :: 0 <= k < |r| ==> r[k] == if k < i then s[k] else if k == i then x else s[k - 1]
  {
    s[..i] + [x] + s[i..]
  }

  /** Taking an element out and putting it back anywhere keeps the multiset. */
  lemma ReinsertPermutes<T>(s: seq<T>, i: nat, j: nat)
    requires i < |s| && j <= |s| - 1
    ensures multiset(InsertAt(RemoveAt(s, i), j, s[i])) == multiset(s)
  {
    var rest := RemoveAt(s, i);
    assert s == s[..i] + [s[i]] + s[i + 1..];
    assert rest == s[..i] + s[i + 1..];
    assert rest == rest[..j] + rest[j..];
    calc {
      multiset(InsertAt(rest, j, s[i]));
      multiset(rest[..j] + [s[i]] + rest[j..]);
      multiset(rest[..j]) + multiset{s[i]} + multiset(rest[j..]);
      multiset(rest) + multiset{s[i]};
      multiset(s[..i]) + multiset(s[i + 1..]) + multiset{s[i]};
      multiset(s);
    }
  }

  /** Inserting `x` at `i` and then removing position `i` gives back `s`. */
  lemma RemoveInserted<T>(s: seq<T>, i: nat, x: T)
    requires i <= |s|
    ensures RemoveAt(InsertAt(s, i, x), i) == s
  {
  }

  /** The position in `xs` of the `k`-th element (counting from 0) that
      passes `keep`, or `|xs|` when fewer than `k + 1` elements pass. */
  function NthIndex<T>(xs: seq<T>, keep: T -> bool, k: nat): (i: nat)
    ensures i <= |xs|
  {
    if xs == [] || (keep(xs[0]) && k == 0) then 0
    else NthIndex(xs[1..], keep, if keep(xs[0]) then k - 1 else k) + 1
  }

  /** When at least `k + 1` elements pass, `NthIndex` lands on the `k`-th of them. */
  lemma {:induction false} NthIndexHit<T>(xs: seq<T>, keep: T -> bool, k: nat)
    requires k < |Filter(xs, keep)|
    ensures NthIndex(xs, keep, k) < |xs| && xs[NthIndex(xs, keep, k)] == Filter(xs, keep)[k]
  {
    assert xs == [xs[0]] + xs[1..];
    FilterCons(xs[0], xs[1..], keep);
    if !(keep(xs[0]) && k == 0) {
      var k' := if keep(xs[0]) then k - 1 else k;
      NthIndexHit(xs[1..], keep, k');
    }
  }

  /** When at most `k` elements pass, `NthIndex` runs off the end. */
  lemma {:induction false} NthIndexMiss<T>(xs: seq<T>, keep: T -> bool, k: nat)
    requires k >= |Filter(xs, keep)|
    ensures NthIndex(xs, keep, k) == |xs|
  {
    if xs != [] {
      assert xs == [xs[0]] + xs[1..];
      FilterCons(xs[0], xs[1..], keep);
      var k' := if keep(xs[0]) then k - 1 else k;
      NthIndexMiss(xs[1..], keep, k');
    }
  }

  /** Exactly `k` kept elements (or all of them) lie before `NthIndex`. */
  lemma {:induction false} NthIndexCount<T>(xs: seq<T>, keep: T -> bool, k: nat)
    ensures var n := |Filter(xs, keep)|;
            |Filter(xs[..NthIndex(xs, keep, k)], keep)| == if k < n then k else n
  {
    if xs == [] {
    } else if keep(xs[0]) && k == 0 {
      assert xs[..0] == [];
    } else {
      var tail := xs[1..];
      var k' := if keep(xs[0]) then k - 1 else k;
      var j := NthIndex(tail, keep, k');
      NthIndexCount(tail, keep, k');
      var head := if keep(xs[0]) then [xs[0]] else [];
      assert xs == [xs[0]] + tail;
      FilterCons(xs[0], tail, keep);
      assert |Filter(xs, keep)| == |head| + |Filter(tail, keep)|;
      assert NthIndex(xs, keep, k) == j + 1;
      assert xs[..j + 1] == [xs[0]] + tail[..j];
      FilterCons(xs[0], tail[..j], keep);
      assert |Filter(xs[..j + 1], keep)| == |head| + |Filter(tail[..j], keep)|;
    }
  }

  /** Filtering distributes over a cut of the list at any position. */
  lemma FilterSplit<T>(xs: seq<T>, i: nat, keep: T -> bool)
    requires i <= |xs|
    ensures Filter(xs, keep) == Filter(xs[..i], keep) + Filter(xs[i..], keep)
  {
    assert xs == xs[..i] + xs[i..];
    FilterConcat(xs[..i], xs[i..], keep);
  }

  /** Filtering twice is filtering once by the conjunction. */
  lemma {:induction false} FilterFilter<T>(xs: seq<T>, a: T -> bool, b: T -> bool, both: T -> bool)
    requires forall x :: both(x) == (a(x) && b(x))
    ensures Filter(Filter(xs, a), b) == Filter(xs, both)
  {
    if xs != [] {
      FilterFilter(xs[1..], a, b, both);
      assert xs == [xs[0]] + xs[1..];
      FilterCons(xs[0], xs[1..], a);
      FilterCons(xs[0], xs[1..], both);
      var rest := Filter(xs[1..], a);
      assert both(xs[0]) == (a(xs[0]) && b(xs[0]));
      if a(xs[0]) {
        FilterCons(xs[0], rest, b);
      } else {
        assert Filter(xs, a) == rest;
      }
    }
  }
}
