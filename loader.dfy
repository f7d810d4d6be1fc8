/** `load_plates_from_text` (plate_checker/utils.py and plate_checker.py):
    keep the words of length 2..7, lower-case them, sort them longest first
    and then alphabetically. The file is given as its list of lines. */
module Loader {
  import opened Text
  import opened Sorting

  const MinPlateLength: nat := 2
  const MaxPlateLength: nat := 7

  predicate InBounds(w: string) {
    MinPlateLength <= |w| <= MaxPlateLength
  }

  /** The words of length 2..7, lower-cased, in their original order. */
  function FilterWords(words: seq<string>): (r: seq<string>)
    ensures |r| <= |words|
    ensures forall k :: 0 <= k < |r| ==> InBounds(r[k]) && IsLowerCase(r[k])
  {
    if words == [] then []
    else (if InBounds(words[0]) then [Lower(words[0])] else []) + FilterWords(words[1..])
  }

  /** A word is kept exactly when some source word of length 2..7 lowers
      to it. */
  lemma {:induction false} FilterWordsMember(words: seq<string>, p: string)
    ensures p in FilterWords(words) <==>
      exists j :: 0 <= j < |words| && InBounds(words[j]) && p == Lower(words[j])
  {
    if words != [] {
      FilterWordsMember(words[1..], p);
      if exists j :: 0 <= j < |words| && InBounds(words[j]) && p == Lower(words[j]) {
        var j :| 0 <= j < |words| && InBounds(words[j]) && p == Lower(words[j]);
        if j > 0 {
          assert words[1..][j - 1] == words[j];
        }
      }
      if exists j :: 0 <= j < |words| - 1 && InBounds(words[1..][j]) && p == Lower(words[1..][j]) {
        var j :| 0 <= j < |words| - 1 && InBounds(words[1..][j]) && p == Lower(words[1..][j]);
        assert words[j + 1] == words[1..][j];
      }
    }
  }

  /** The filter works word by word: it keeps the order of the words it
      keeps and drops no duplicate. */
  lemma {:induction false} FilterWordsAppend(a: seq<string>, b: seq<string>)
    ensures FilterWords(a + b) == FilterWords(a) + FilterWords(b)
  {
    if a != [] {
      assert (a + b)[1..] == a[1..] + b;
      FilterWordsAppend(a[1..], b);
    } else {
      assert a + b == b;
    }
  }

  /** The loader's result: the filtered words in `(-len, word)` order. */
  function LoadPlates(lines: seq<string>): (r: seq<string>)
    ensures Sorted(r)
    ensures multiset(r) == multiset(FilterWords(lines))
  {
    Sort(FilterWords(lines))
  }

  /** Every loaded plate is a source word of length 2..7, lower-cased, and
      every such source word is loaded. */
  lemma LoadedPlatesFromSource(lines: seq<string>, p: string)
    ensures p in LoadPlates(lines) <==>
      exists j :: 0 <= j < |lines| && InBounds(lines[j]) && p == Lower(lines[j])
  {
    var f := FilterWords(lines);
    var r := LoadPlates(lines);
    assert p in r <==> p in multiset(r);
    assert p in f <==> p in multiset(f);
    FilterWordsMember(lines, p);
  }
}
