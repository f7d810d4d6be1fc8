/** The sequential part of `generate_plates_from_topic`
    (plate_checker/plate_generator.py and plate_checker.py): the API-key
    check, the filter over the reply's lines and the rule that any failure of
    the request yields no plates. The chat-completion service itself is a
    parameter: the reply it gave, or that it failed. */
module Generator {
  import opened Wrappers
  import opened Text
  import opened Loader

  /** A stripped line survives when it has 2..7 characters and is
      alphanumeric. */
  predicate Keep(s: string) {
    InBounds(s) && IsAlnum(s)
  }

  /** Every line of the reply with surrounding whitespace removed. */
  function StripLines(lines: seq<string>): (r: seq<string>)
    ensures |r| == |lines|
    ensures forall j :: 0 <= j < |lines| ==> r[j] == Strip(lines[j])
    decreases |lines|
  {
    if lines == [] then []
    else StripLines(lines[..|lines| - 1]) + [Strip(lines[|lines| - 1])]
  }

  /** The filter's contract over stripped lines: every output is a kept line
      lower-cased, and every kept line appears lower-cased. */
  ghost predicate FiltersTo(ss: seq<string>, r: seq<string>) {
    && (forall k :: 0 <= k < |r| ==> FromKeptLine(ss, r[k]))
    && (forall j :: 0 <= j < |ss| && Keep(ss[j]) ==> Lower(ss[j]) in r)
  }

  /** `x` is some kept stripped line, lower-cased. */
  ghost predicate FromKeptLine(ss: seq<string>, x: string) {
    exists j :: 0 <= j < |ss| && Keep(ss[j]) && x == Lower(ss[j])
  }

  /** The comprehension over the stripped lines, in their order. */
  function FilterStripped(ss: seq<string>): (r: seq<string>)
    ensures |r| <= |ss|
    ensures FiltersTo(ss, r)
  {
    if ss == [] then []
    else
      var n := |ss| - 1;
      var init := FilterStripped(ss[..n]);
      FilterStep(ss[..n], ss[n], init);
      assert ss == ss[..n] + [ss[n]];
      init + if Keep(ss[n]) then [Lower(ss[n])] else []
  }

  lemma FilterStep(prefix: seq<string>, last: string, init: seq<string>)
    requires FiltersTo(prefix, init)
    ensures FiltersTo(prefix + [last], init + if Keep(last) then [Lower(last)] else [])
  {
    var ss := prefix + [last];
    var r := init + if Keep(last) then [Lower(last)] else [];
    var n := |prefix|;
    forall k | 0 <= k < |r| ensures FromKeptLine(ss, r[k]) {
      if k < |init| {
        assert FromKeptLine(prefix, init[k]);
        var j :| 0 <= j < n && Keep(prefix[j]) && init[k] == Lower(prefix[j]);
        assert ss[j] == prefix[j] && r[k] == init[k];
      } else {
        assert ss[n] == last;
      }
    }
    forall j | 0 <= j < |ss| && Keep(ss[j]) ensures Lower(ss[j]) in r {
      if j < n {
        assert ss[j] == prefix[j];
        var k :| 0 <= k < |init| && init[k] == Lower(prefix[j]);
        assert r[k] == init[k];
      } else {
        assert r[|r| - 1] == Lower(last);
      }
    }
  }

  /** The plates kept from the reply: each line stripped, tested and lower-cased, in reply order. */
  function FilterReply(lines: seq<string>): (r: seq<string>)
    ensures |r| <= |lines|
  {
    FilterStripped(StripLines(lines))
  }

  /** Each returned plate is the stripped, lower-cased form of a reply line
      whose stripped form has 2..7 characters and is alphanumeric; the plate
      itself is then 2..7 lower-case letters and digits with nothing left to
      strip. */
  lemma GeneratedPlateOrigin(lines: seq<string>, k: nat)
    requires k < |FilterReply(lines)|
    ensures exists j :: (0 <= j < |lines| && Keep(Strip(lines[j]))
                         && FilterReply(lines)[k] == Lower(Strip(lines[j])))
    ensures var p := FilterReply(lines)[k];
      InBounds(p) && IsAlnum(p) && IsLowerCase(p) && Strip(p) == p
  {
    var ss := StripLines(lines);
    var p := FilterReply(lines)[k];
    assert FromKeptLine(ss, p);
    var j :| 0 <= j < |ss| && Keep(ss[j]) && p == Lower(ss[j]);
    assert ss[j] == Strip(lines[j]);
    AlnumStripped(p);
  }

  /** Every reply line whose stripped form passes the test is returned. */
  lemma AcceptedLineReturned(lines: seq<string>, j: nat)
    requires j < |lines| && Keep(Strip(lines[j]))
    ensures Lower(Strip(lines[j])) in FilterReply(lines)
  {
    assert StripLines(lines)[j] == Strip(lines[j]);
  }

  /** Line by line: surviving lines keep their relative order. */
  lemma {:induction false} FilterStrippedAppend(a: seq<string>, b: seq<string>)
    ensures FilterStripped(a + b) == FilterStripped(a) + FilterStripped(b)
  {
    if b != [] {
      var n := |b| - 1;
      assert (a + b)[..|a| + n] == a + b[..n];
      assert (a + b)[|a| + n] == b[n];
      FilterStrippedAppend(a, b[..n]);
    } else {
      assert a + b == a;
    }
  }

  lemma {:induction false} StripLinesAppend(a: seq<string>, b: seq<string>)
    ensures StripLines(a + b) == StripLines(a) + StripLines(b)
    decreases |b|
  {
    if b != [] {
      var n := |b| - 1;
      assert (a + b)[..|a| + n] == a + b[..n];
      assert (a + b)[|a| + n] == b[n];
      StripLinesAppend(a, b[..n]);
    } else {
      assert a + b == a;
    }
  }

  /** The reply filter works line by line: the plates of a longer reply are
      those of its first lines followed by those of the rest. */
  lemma FilterReplyAppend(a: seq<string>, b: seq<string>)
    ensures FilterReply(a + b) == FilterReply(a) + FilterReply(b)
  {
    StripLinesAppend(a, b);
    FilterStrippedAppend(StripLines(a), StripLines(b));
  }

  /** What the chat-completion request gave: its content split into lines,
      or an exception (network, quota, a reply without content, ...). */
  datatype Reply = Failed | Lines(lines: seq<string>)

  datatype GenError = MissingApiKey

  /** `generate_plates_from_topic` with the environment's key and the
      service's reply as parameters. A missing or empty key raises before any
      request; a failed request is reported and yields the empty list. */
  function GeneratePlates(apiKey: Option<string>, reply: Reply): (r: Result<seq<string>, GenError>)
    ensures r.Failure? <==> apiKey == None || apiKey == Some("")
    ensures r.Success? && reply.Failed? ==> r.value == []
    ensures r.Success? && reply.Lines? ==> r.value == FilterReply(reply.lines)
  {
    if apiKey == None || apiKey == Some("") then Failure(MissingApiKey)
    else match reply
      case Failed => Success([])
      case Lines(lines) => Success(FilterReply(lines))
  }
}
