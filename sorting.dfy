/** The order both the loader and the CSV writer sort by: Python's key
    `(-len(word), word)`, i.e. longer words first, then code-point order. */
module Sorting {
  import opened Text

  /** `(-len(a), a) <= (-len(b), b)` as Python compares tuples. */
  predicate PlateLe(a: string, b: string) {
    |a| > |b| || (|a| == |b| && LexLe(a, b))
  }

  lemma PlateLeTotal(a: string, b: string)
    ensures PlateLe(a, b) || PlateLe(b, a)
  {
    LexLeTotal(a, b);
  }

  lemma PlateLeTrans(a: string, b: string, c: string)
    requires PlateLe(a, b) && PlateLe(b, c)
    ensures PlateLe(a, c)
  {
    if |a| == |b| == |c| {
      LexLeTrans(a, b, c);
    }
  }

  lemma PlateLeAntisym(a: string, b: string)
    requires PlateLe(a, b) && PlateLe(b, a)
    ensures a == b
  {
    LexLeAntisym(a, b);
  }

  predicate Sorted(s: seq<string>) {
    forall i, j :: 0 <= i < j < |s| ==> PlateLe(s[i], s[j])
  }

  /** Inserts `x` before the first element it is not above. */
  function Insert(x: string, s: seq<string>): (r: seq<string>)
    requires Sorted(s)
    ensures Sorted(r)
    ensures multiset(r) == multiset(s) + multiset{x}
  {
    if s == [] then [x]
    else if PlateLe(x, s[0]) then
      InsertFront(x, s);
      [x] + s
    else
      var t := Insert(x, s[1..]);
      assert s == [s[0]] + s[1..];
      InsertBehind(x, s, t);
      [s[0]] + t
  }

  lemma InsertFront(x: string, s: seq<string>)
    requires Sorted(s) && s != [] && PlateLe(x, s[0])
    ensures Sorted([x] + s)
  {
    forall j | 1 <= j < |s| {
      PlateLeTrans(x, s[0], s[j]);
    }
  }

  lemma InsertBehind(x: string, s: seq<string>, t: seq<string>)
    requires Sorted(s) && s != [] && !PlateLe(x, s[0])
    requires Sorted(t) && multiset(t) == multiset(s[1..]) + multiset{x}
    ensures Sorted([s[0]] + t)
  {
    PlateLeTotal(x, s[0]);
    forall k | 0 <= k < |t| ensures PlateLe(s[0], t[k]) {
      assert t[k] in multiset(t);
      if t[k] != x {
        assert t[k] in s[1..];
      }
    }
  }

  /** `sorted(words, key=lambda w: (-len(w), w))`. The result is fixed by
      the two postconditions (see SortedUnique), whatever algorithm the
      library uses. */
  function Sort(s: seq<string>): (r: seq<string>)
    ensures Sorted(r)
    ensures multiset(r) == multiset(s)
  {
    if s == [] then []
    else
      assert s == [s[0]] + s[1..];
      Insert(s[0], Sort(s[1..]))
  }

  /** The head of a sorted sequence is at or above every element. */
  lemma HeadFirst(s: seq<string>, x: string)
    requires Sorted(s) && x in s
    ensures PlateLe(s[0], x)
  {
    var i :| 0 <= i < |s| && s[i] == x;
    if i == 0 {
      LexLeRefl(x);
    }
  }

  /** Two sorted permutations of the same words are equal: any correct
      sort yields exactly Sort's output. */
  lemma {:induction false} SortedUnique(a: seq<string>, b: seq<string>)
    requires Sorted(a) && Sorted(b) && multiset(a) == multiset(b)
    ensures a == b
  {
    if a != [] {
      assert a[0] in multiset(b);
      assert b != [];
      assert b[0] in multiset(a);
      HeadFirst(b, a[0]);
      HeadFirst(a, b[0]);
      PlateLeAntisym(a[0], b[0]);
      TailMultiset(a);
      TailMultiset(b);
      SortedUnique(a[1..], b[1..]);
      assert a == [a[0]] + a[1..] && b == [b[0]] + b[1..];
    }
  }

  lemma TailMultiset(a: seq<string>)
    requires a != []
    ensures multiset(a[1..]) == multiset(a) - multiset{a[0]}
  {
    assert a == [a[0]] + a[1..];
  }

  /** Every element occurs at most once. */
  predicate Distinct(s: seq<string>) {
    forall i, j :: 0 <= i < j < |s| ==> s[i] != s[j]
  }

  lemma {:induction false} DistinctCount(s: seq<string>, x: string)
    requires Distinct(s)
    ensures multiset(s)[x] <= 1
  {
    if s != [] {
      assert s == [s[0]] + s[1..];
      DistinctCount(s[1..], x);
      if x == s[0] {
        assert x !in s[1..];
      }
    }
  }

  /** Reordering keeps a duplicate-free sequence duplicate-free. */
  lemma DistinctPermutation(a: seq<string>, b: seq<string>)
    requires Distinct(a) && multiset(a) == multiset(b)
    ensures Distinct(b)
  {
    forall i, j | 0 <= i < j < |b| ensures b[i] != b[j] {
      if b[i] == b[j] {
        assert b == b[..i] + [b[i]] + b[i + 1..j] + [b[j]] + b[j + 1..];
        assert multiset(b)[b[i]] >= 2;
        DistinctCount(a, b[i]);
      }
    }
  }
}
