/** The parts of `save_to_file` (plate_checker/utils.py and
    plate_checker.py) that are not file-system calls: the rewrite of the
    destination to a `.csv` path with `os.path.splitext` (POSIX rules), and the
    rows handed to `csv.writer`, header first, then the results in
    `(-len(plate), plate)` order. */
module Output {
  import opened Sorting

  /** Index of the last `c` in `p`, or -1 (`str.rfind`). */
  function RFind(p: string, c: char): (i: int)
    ensures -1 <= i < |p|
    ensures 0 <= i ==> p[i] == c
    ensures forall k :: i < k < |p| ==> p[k] != c
    decreases |p|
  {
    if |p| == 0 then -1
    else if p[|p| - 1] == c then |p| - 1
    else RFind(p[..|p| - 1], c)
  }

  /** Some character of `p[lo..hi]` is not a dot. */
  predicate HasNonDot(p: string, lo: int, hi: int)
    requires -1 <= lo && hi <= |p|
  {
    exists k :: lo <= k < hi && 0 <= k && p[k] != '.'
  }

  /** `posixpath.splitext`: the extension is the part from the last dot of
      the file name on, unless the file name has only dots before it. */
  function SplitExt(p: string): (parts: (string, string))
    ensures parts.0 + parts.1 == p
    ensures parts.1 == [] || (parts.1[0] == '.' &&
      forall k :: 0 < k < |parts.1| ==> parts.1[k] != '.' && parts.1[k] != '/')
  {
    var sep := RFind(p, '/');
    var dot := RFind(p, '.');
    if dot > sep && HasNonDot(p, sep + 1, dot) then (p[..dot], p[dot..])
    else (p, [])
  }

  /** The save path: the given path without its extension, then ".csv". */
  function CsvPath(p: string): (r: string)
    ensures |r| >= 4 && r[|r| - 4..] == ".csv"
    ensures |r| - 4 <= |p| && r[..|r| - 4] == p[..|r| - 4]
  {
    var root := SplitExt(p).0;
    assert p == root + SplitExt(p).1;
    root + ".csv"
  }

  /** A path whose file name already has the extension `.csv` is kept. */
  lemma CsvPathKeepsCsv(p: string)
    requires SplitExt(p).1 == ".csv"
    ensures CsvPath(p) == p
  {
  }

  /** `RFind` over a concatenation looks at the right part first. */
  lemma {:induction false} RFindAppend(a: string, b: string, c: char)
    ensures RFind(a + b, c) == if RFind(b, c) >= 0 then |a| + RFind(b, c) else RFind(a, c)
    decreases |b|
  {
    if b != [] {
      var n := |b| - 1;
      assert (a + b)[..|a| + n] == a + b[..n];
      RFindAppend(a, b[..n], c);
    } else {
      assert a + b == a;
    }
  }

  lemma {:induction false} RFindAbsent(p: string, c: char)
    requires c !in p
    ensures RFind(p, c) == -1
    decreases |p|
  {
    if p != [] {
      assert p[|p| - 1] in p;
      assert forall x :: x in p[..|p| - 1] ==> x in p;
      RFindAbsent(p[..|p| - 1], c);
    }
  }

  /** Where the dot and the slash are in the suffix `.csv`. */
  lemma CsvExtRFind()
    ensures RFind(".csv", '/') == -1 && RFind(".csv", '.') == 0
  {
    RFindAbsent(".csv", '/');
    RFindAbsent("csv", '.');
    RFindAppend(".", "csv", '.');
    assert ".csv" == "." + "csv";
  }

  /** Rewriting twice gives the same path as rewriting once, provided the
      file name left after dropping the extension is not empty or all dots
      (see CsvPathDotName for what happens then). */
  lemma CsvPathIdempotent(p: string)
    requires HasNonDot(SplitExt(p).0, RFind(SplitExt(p).0, '/') + 1, |SplitExt(p).0|)
    ensures CsvPath(CsvPath(p)) == CsvPath(p)
  {
    var root := SplitExt(p).0;
    var q := root + ".csv";
    RFindAppend(root, ".csv", '/');
    RFindAppend(root, ".csv", '.');
    CsvExtRFind();
    var sep := RFind(q, '/');
    assert sep == RFind(root, '/');
    assert RFind(q, '.') == |root|;
    var k :| sep + 1 <= k < |root| && 0 <= k && root[k] != '.';
    assert q[k] == root[k];
    assert HasNonDot(q, sep + 1, |root|);
    assert SplitExt(q) == (root, ".csv");
  }

  /** Two instances of CsvPathAppends: the empty file name of `out/` has
      no extension, and neither has `.csv`, whose only dot leads the name,
      so `out/` becomes `out/.csv`, and that becomes `out/.csv.csv`. */
  lemma CsvPathDotName()
    ensures CsvPath("out/") == "out/.csv"
    ensures CsvPath("out/.csv") == "out/.csv.csv"
  {
    CsvExtRFind();
    RFindAbsent("out/", '.');
    RFindAppend("out/", ".csv", '/');
    RFindAppend("out/", ".csv", '.');
    assert "out/.csv" == "out/" + ".csv";
    assert RFind("out/", '/') == 3;
    assert SplitExt("out/") == ("out/", []);
    assert SplitExt("out/.csv") == ("out/.csv", []);
  }

  /** The file name of `p` (the part after its last slash) has a dot
      somewhere after a character other than a dot. */
  predicate DotAfterName(p: string)
  {
    exists i, j :: RFind(p, '/') < i < j < |p| && p[i] != '.' && p[j] == '.'
  }

  /** `splitext` finds an extension exactly when the file name has a dot
      after a character other than a dot. */
  lemma SplitExtFinds(p: string)
    ensures SplitExt(p).1 != [] <==> DotAfterName(p)
  {
    var sep := RFind(p, '/');
    var dot := RFind(p, '.');
    if SplitExt(p).1 != [] {
      var k :| sep + 1 <= k < dot && 0 <= k && p[k] != '.';
      assert sep < k < dot < |p| && p[k] != '.' && p[dot] == '.';
    }
    if DotAfterName(p) {
      var i, j :| sep < i < j < |p| && p[i] != '.' && p[j] == '.';
      assert j <= dot;
      assert HasNonDot(p, sep + 1, dot);
    }
  }

  /** Where the dot and the slash are in a dot followed by an extension
      with neither. */
  lemma ExtRFind(x: string)
    requires '.' !in x && '/' !in x
    ensures RFind("." + x, '/') == -1 && RFind("." + x, '.') == 0
  {
    RFindAbsent(x, '/');
    RFindAbsent(x, '.');
    RFindAbsent(".", '/');
    RFindAppend(".", x, '/');
    RFindAppend(".", x, '.');
  }

  lemma JoinExt(stem: string, x: string)
    ensures stem + "." + x == stem + ("." + x)
  {
  }

  /** Replacing the extension: a path made of a file name with a character
      other than a dot, a dot, and an extension with no dot or slash is
      saved under the same name with `.csv` in place of the extension. */
  lemma CsvPathReplacesExt(stem: string, x: string)
    requires '.' !in x && '/' !in x
    requires HasNonDot(stem, RFind(stem, '/') + 1, |stem|)
    ensures CsvPath(stem + "." + x) == stem + ".csv"
  {
    var e := "." + x;
    var p := stem + e;
    JoinExt(stem, x);
    ExtRFind(x);
    RFindAppend(stem, e, '/');
    RFindAppend(stem, e, '.');
    var sep := RFind(p, '/');
    assert sep == RFind(stem, '/') && RFind(p, '.') == |stem|;
    var k :| sep + 1 <= k < |stem| && 0 <= k && stem[k] != '.';
    assert p[k] == stem[k];
    assert HasNonDot(p, sep + 1, |stem|);
    assert SplitExt(p) == (stem, e);
  }

  /** Without a dot after a character other than a dot in the file name
      (no dot at all, or only leading dots), `.csv` is appended to the
      whole path. */
  lemma CsvPathAppends(p: string)
    requires !DotAfterName(p)
    ensures CsvPath(p) == p + ".csv"
  {
    SplitExtFinds(p);
  }

  const Header: seq<string> := ["Plate", "Status"]

  /** `keys` lists every key of `results` exactly once, longest first and
      then alphabetically: the order the sorted items come in. */
  ghost predicate SortedKeysOf(keys: seq<string>, results: map<string, string>) {
    Sorted(keys) && Distinct(keys) && forall x :: x in keys <==> x in results
  }

  /** The header, then one `[plate, status]` row per key, in the order of
      `keys`. */
  ghost function TableOf(keys: seq<string>, results: map<string, string>): seq<seq<string>>
    requires forall x :: x in keys ==> x in results
  {
    [Header] + seq(|keys|, i requires 0 <= i < |keys| => [keys[i], results[keys[i]]])
  }

  /** `results.items()`: every key once, in an order the model leaves open
      (Python keeps insertion order, which the model does not track). */
  method Items(results: map<string, string>) returns (items: seq<string>)
    ensures Distinct(items)
    ensures forall k :: k in items <==> k in results
    ensures |items| == |results|
  {
    var pending := results.Keys;
    items := [];
    while pending != {}
      invariant pending <= results.Keys
      invariant forall i :: 0 <= i < |items| ==> items[i] in results && items[i] !in pending
      invariant forall k :: k in results ==> k in pending || k in items
      invariant Distinct(items)
      invariant |items| + |pending| == |results|
      decreases |pending|
    {
      var k :| k in pending;
      items := items + [k];
      pending := pending - {k};
    }
  }

  /** The rows `save_to_file` emits: the items sorted by plate, then one
      row per item. `keys` is the sorted key list the
      rows follow; the sort makes it independent of the dictionary's
      iteration order (see TableUnique). */
  method CsvRows(results: map<string, string>) returns (rows: seq<seq<string>>, ghost keys: seq<string>)
    ensures SortedKeysOf(keys, results) && |keys| == |results|
    ensures rows == TableOf(keys, results)
    ensures RowsOf(rows, results)
  {
    var items := Items(results);
    var sorted := Sort(items);
    DistinctPermutation(items, sorted);
    assert forall k :: k in sorted <==> k in multiset(items);
    rows := WriteRows(sorted, results);
    keys := sorted;
    TableRows(keys, results);
  }

  /** The `writerow` calls: the header, then one row per item in order. */
  method WriteRows(sorted: seq<string>, results: map<string, string>) returns (rows: seq<seq<string>>)
    requires forall k :: k in sorted ==> k in results
    ensures rows == TableOf(sorted, results)
  {
    rows := [Header];
    for i := 0 to |sorted|
      invariant rows == TableOf(sorted[..i], results)
    {
      assert sorted[..i + 1] == sorted[..i] + [sorted[i]];
      rows := rows + [[sorted[i], results[sorted[i]]]];
    }
    assert sorted[..|sorted|] == sorted;
  }

  /** What the written rows say about `results`: `len(results) + 1` rows,
      the header first, then `[plate, status]` rows covering every entry,
      in `(-len, plate)` order with no plate twice. */
  ghost predicate RowsOf(rows: seq<seq<string>>, results: map<string, string>) {
    && |rows| == |results| + 1 && rows[0] == Header
    && RowEntries(rows, results)
    && RowsCover(rows, results)
    && RowsOrdered(rows)
  }

  ghost predicate RowEntries(rows: seq<seq<string>>, results: map<string, string>) {
    forall i :: 1 <= i < |rows| ==> |rows[i]| == 2 && rows[i][0] in results && rows[i][1] == results[rows[i][0]]
  }

  ghost predicate RowsCover(rows: seq<seq<string>>, results: map<string, string>) {
    forall p :: p in results ==> exists i :: 1 <= i < |rows| && |rows[i]| == 2 && rows[i][0] == p
  }

  ghost predicate RowsOrdered(rows: seq<seq<string>>) {
    forall i, j :: 1 <= i < j < |rows| && |rows[i]| == 2 && |rows[j]| == 2 ==>
      PlateLe(rows[i][0], rows[j][0]) && rows[i][0] != rows[j][0]
  }

  /** The table over the sorted keys is exactly what `RowsOf` describes. */
  lemma TableRows(keys: seq<string>, results: map<string, string>)
    requires SortedKeysOf(keys, results) && |keys| == |results|
    ensures RowsOf(TableOf(keys, results), results)
  {
    TableEntries(keys, results);
    TableCovers(keys, results);
    TableOrdered(keys, results);
  }

  lemma TableEntries(keys: seq<string>, results: map<string, string>)
    requires forall x :: x in keys ==> x in results
    ensures RowEntries(TableOf(keys, results), results)
  {
  }

  lemma TableCovers(keys: seq<string>, results: map<string, string>)
    requires SortedKeysOf(keys, results)
    ensures RowsCover(TableOf(keys, results), results)
  {
    var rows := TableOf(keys, results);
    forall p | p in results
      ensures exists i :: 1 <= i < |rows| && |rows[i]| == 2 && rows[i][0] == p
    {
      var k :| 0 <= k < |keys| && keys[k] == p;
      assert rows[k + 1] == [p, results[p]];
    }
  }

  lemma TableOrdered(keys: seq<string>, results: map<string, string>)
    requires SortedKeysOf(keys, results)
    ensures RowsOrdered(TableOf(keys, results))
  {
    var rows := TableOf(keys, results);
    forall i, j | 1 <= i < j < |rows|
      ensures PlateLe(rows[i][0], rows[j][0]) && rows[i][0] != rows[j][0]
    {
      assert rows[i][0] == keys[i - 1] && rows[j][0] == keys[j - 1];
    }
  }

  /** Strictly sorted sequences with the same elements are equal. */
  lemma {:induction false} StrictlySortedUnique(a: seq<string>, b: seq<string>)
    requires Sorted(a) && Distinct(a) && Sorted(b) && Distinct(b)
    requires forall x :: x in a <==> x in b
    ensures a == b
  {
    if a != [] {
      assert a[0] in b;
      HeadFirst(b, a[0]);
      HeadFirst(a, b[0]);
      PlateLeAntisym(a[0], b[0]);
      forall x ensures x in a[1..] <==> x in b[1..] {
        if x in a[1..] {
          var i :| 1 <= i < |a| && a[i] == x;
          assert x in b;
          var j :| 0 <= j < |b| && b[j] == x;
          assert j != 0;
          assert b[1..][j - 1] == x;
        }
        if x in b[1..] {
          var j :| 1 <= j < |b| && b[j] == x;
          assert x in a;
          var i :| 0 <= i < |a| && a[i] == x;
          assert i != 0;
          assert a[1..][i - 1] == x;
        }
      }
      StrictlySortedUnique(a[1..], b[1..]);
      assert a[0] == b[0];
      assert a == [a[0]] + a[1..] && b == [b[0]] + b[1..];
    }
    if b != [] {
      assert b[0] in a;
    }
  }

  /** The table written for a result map is unique: whatever order the
      map's items come in, the sorted key list is the same. */
  lemma TableUnique(keys1: seq<string>, keys2: seq<string>, results: map<string, string>)
    requires SortedKeysOf(keys1, results) && SortedKeysOf(keys2, results)
    ensures TableOf(keys1, results) == TableOf(keys2, results)
  {
    StrictlySortedUnique(keys1, keys2);
  }
}
