/** The sequential parts of `main` (plate_checker/__main__.py and
    plate_checker.py): stop on an empty plate list, create the workers,
    seed the shared queue with the plates and one stop sentinel per worker,
    let the workers drain it, close them, merge their result maps and save
    the merged map. The asyncio scheduler is modelled as an arbitrary choice,
    at each step, of an unfinished worker that takes the queue's head. */
module Coordinator {
  import opened Wrappers
  import opened Sorting
  import opened Output
  import opened Tasks
  import opened Workers

  /** `range(workers)` has this many elements. */
  function Sentinels(workers: int): nat {
    if workers > 0 then workers else 0
  }

  /** The queue after seeding: the plates in input order, then one `None`
      per worker. */
  function Seeded(plates: seq<string>, workers: int): (items: seq<Option<string>>)
    ensures |items| == |plates| + Sentinels(workers)
    ensures forall k :: 0 <= k < |plates| ==> items[k] == Some(plates[k])
    ensures forall k :: |plates| <= k < |items| ==> items[k] == None
  {
    seq(|plates|, k requires 0 <= k < |plates| => Some(plates[k]))
      + seq(Sentinels(workers), _ => None)
  }

  /** With at least one worker, a worker that meets the seeded queue first
      takes every plate before it stops. */
  lemma SeededPlatesBefore(plates: seq<string>, workers: int)
    requires workers >= 1
    ensures PlatesBefore(Seeded(plates, workers)) == plates
  {
    var items := Seeded(plates, workers);
    var ps := PlatesBefore(items);
    assert items[|plates|] == None;
  }

  /** The two `put` loops of `main`. */
  method SeedQueue(q: TaskQueue, plates: seq<string>, workers: int)
    requires q.Valid()
    modifies q
    ensures q.items == old(q.items) + Seeded(plates, workers)
    ensures q.unfinished == old(q.unfinished) + |plates| + Sentinels(workers)
    ensures q.Valid()
  {
    ghost var items0 := q.items;
    for i := 0 to |plates|
      invariant q.Valid()
      invariant q.items == items0 + seq(i, k requires 0 <= k < i => Some(plates[k]))
      invariant q.unfinished == old(q.unfinished) + i
    {
      q.Put(Some(plates[i]));
    }
    ghost var items1 := q.items;
    for i := 0 to Sentinels(workers)
      invariant q.Valid()
      invariant q.items == items1 + seq(i, _ => None)
      invariant q.unfinished == old(q.unfinished) + |plates| + i
    {
      q.Put(None);
    }
    assert Seeded(plates, workers) == items1[|items0|..] + seq(Sentinels(workers), _ => None);
  }

  /** Every key of some worker's map. */
  function UnionKeys(ms: seq<map<string, string>>): set<string>
    decreases |ms|
  {
    if ms == [] then {} else UnionKeys(ms[..|ms| - 1]) + ms[|ms| - 1].Keys
  }

  lemma {:induction false} UnionKeysMember(ms: seq<map<string, string>>, k: string)
    ensures k in UnionKeys(ms) <==> exists i :: 0 <= i < |ms| && k in ms[i]
    decreases |ms|
  {
    if ms != [] {
      var n := |ms| - 1;
      UnionKeysMember(ms[..n], k);
      if k in ms[n] {
      } else if exists i :: 0 <= i < |ms| && k in ms[i] {
        var i :| 0 <= i < |ms| && k in ms[i];
        assert k in ms[..n][i];
      }
    }
  }

  /** `final_results` after `update` with each worker's map in turn. */
  function Merged(ms: seq<map<string, string>>): (m: map<string, string>)
    ensures m.Keys == UnionKeys(ms)
    decreases |ms|
  {
    if ms == [] then map[] else Merged(ms[..|ms| - 1]) + ms[|ms| - 1]
  }

  /** On a plate several workers report, the later worker's status wins. */
  lemma {:induction false} MergedLastWins(ms: seq<map<string, string>>, i: nat, k: string)
    requires i < |ms| && k in ms[i]
    requires forall j :: i < j < |ms| ==> k !in ms[j]
    ensures k in Merged(ms) && Merged(ms)[k] == ms[i][k]
    decreases |ms|
  {
    var n := |ms| - 1;
    if i < n {
      MergedLastWins(ms[..n], i, k);
    }
  }

  /** The merge loop: the final dictionary is updated with each worker's
      map, in worker order. */
  method MergeResults(results: seq<map<string, string>>) returns (final: map<string, string>)
    ensures final == Merged(results)
  {
    final := map[];
    for i := 0 to |results|
      invariant final == Merged(results[..i])
    {
      assert results[..i + 1][..i] == results[..i];
      final := final + results[i];
    }
    assert results[..|results|] == results;
  }

  /** The number of workers that have stopped. */
  function CountDone(done: seq<bool>): (n: nat)
    ensures n <= |done|
    decreases |done|
  {
    if done == [] then 0 else CountDone(done[..|done| - 1]) + (if done[|done| - 1] then 1 else 0)
  }

  lemma {:induction false} CountDoneStop(done: seq<bool>, w: nat)
    requires w < |done| && !done[w]
    ensures CountDone(done[w := true]) == CountDone(done) + 1
    decreases |done|
  {
    var n := |done| - 1;
    assert done[w := true][..n] == if w < n then done[..n][w := true] else done[..n];
    if w < n {
      CountDoneStop(done[..n], w);
    }
  }

  /** While some worker runs, fewer than all have stopped. */
  lemma {:induction false} CountDoneRunning(done: seq<bool>, w: nat)
    requires w < |done| && !done[w]
    ensures CountDone(done) < |done|
    decreases |done|
  {
    var n := |done| - 1;
    if w < n {
      CountDoneRunning(done[..n], w);
    }
  }

  /** All plates the workers took, worker after worker. */
  function Concat(shares: seq<seq<string>>): seq<string>
    decreases |shares|
  {
    if shares == [] then [] else Concat(shares[..|shares| - 1]) + shares[|shares| - 1]
  }

  lemma {:induction false} ConcatTake(shares: seq<seq<string>>, w: nat, p: string)
    requires w < |shares|
    ensures multiset(Concat(shares[w := shares[w] + [p]])) == multiset(Concat(shares)) + multiset{p}
    decreases |shares|
  {
    var n := |shares| - 1;
    var shares' := shares[w := shares[w] + [p]];
    if w < n {
      assert shares'[..n] == shares[..n][w := shares[w] + [p]];
      ConcatTake(shares[..n], w, p);
    } else {
      assert shares'[..n] == shares[..n];
    }
  }

  lemma {:induction false} UnionKeysRecord(ms: seq<map<string, string>>, w: nat, k: string, v: string)
    requires w < |ms|
    ensures UnionKeys(ms[w := ms[w][k := v]]) == UnionKeys(ms) + {k}
    decreases |ms|
  {
    var n := |ms| - 1;
    var ms' := ms[w := ms[w][k := v]];
    if w < n {
      assert ms'[..n] == ms[..n][w := ms[w][k := v]];
      UnionKeysRecord(ms[..n], w, k, v);
    } else {
      assert ms'[..n] == ms[..n];
    }
  }

  /** The queue position after `got` plates and `stopped` sentinels were
      taken holds the next plate, or a sentinel once the plates are gone. */
  lemma SeededAt(plates: seq<string>, workers: int, got: nat, stopped: nat)
    requires got <= |plates| && (got < |plates| ==> stopped == 0)
    requires got + stopped < |plates| + Sentinels(workers)
    ensures Seeded(plates, workers)[got + stopped] == if got < |plates| then Some(plates[got]) else None
  {
  }

  /** The distinct values a sequence's first `n` elements take. */
  function FirstPlates(plates: seq<string>, n: nat): set<string>
    requires n <= |plates|
  {
    set k | 0 <= k < n :: plates[k]
  }

  lemma FirstPlatesNext(plates: seq<string>, n: nat)
    requires n < |plates|
    ensures FirstPlates(plates, n + 1) == FirstPlates(plates, n) + {plates[n]}
  {
  }

  /** Worker `i`'s map records the plates `shares[i]` it took, in order,
      as checked on its session `servers[i]`. */
  ghost predicate Records(results: seq<map<string, string>>, shares: seq<seq<string>>, servers: seq<Server>) {
    && |results| == |shares| == |servers|
    && forall i :: 0 <= i < |results| ==> results[i] == MapOfLog(Checks(shares[i], servers[i]))
  }

  /** Between them the workers took the first `got` plates, each once. */
  ghost predicate Taken(plates: seq<string>, results: seq<map<string, string>>, shares: seq<seq<string>>, got: nat)
    requires got <= |plates|
  {
    && multiset(Concat(shares)) == multiset(plates[..got])
    && UnionKeys(results) == FirstPlates(plates, got)
  }

  /** The pool's bookkeeping after the workers took `got` plates and
      `stopped` sentinels between them; a worker has stopped exactly when
      it took a sentinel, and no sentinel is taken before the last plate. */
  ghost predicate Progress(plates: seq<string>, done: seq<bool>, results: seq<map<string, string>>,
                           shares: seq<seq<string>>, servers: seq<Server>, got: nat, stopped: nat)
  {
    && |done| == |results|
    && got <= |plates| && (got < |plates| ==> stopped == 0)
    && stopped == CountDone(done)
    && Records(results, shares, servers)
    && Taken(plates, results, shares, got)
  }

  lemma ProgressStart(plates: seq<string>, servers: seq<Server>)
    ensures var n := |servers|;
      Progress(plates, seq(n, _ => false), seq(n, _ => map[]), seq(n, _ => []), servers, 0, 0)
  {
    var n := |servers|;
    var done: seq<bool> := seq(n, _ => false);
    var results: seq<map<string, string>> := seq(n, _ => map[]);
    var shares: seq<seq<string>> := seq(n, _ => []);
    ZeroDone(done);
    NoShares(shares);
    NoKeys(results);
    forall i | 0 <= i < n
      ensures results[i] == MapOfLog(Checks(shares[i], servers[i]))
    {
      assert Checks(shares[i], servers[i]) == [];
    }
  }

  lemma {:induction false} ZeroDone(done: seq<bool>)
    requires forall i :: 0 <= i < |done| ==> !done[i]
    ensures CountDone(done) == 0
    decreases |done|
  {
    if done != [] {
      ZeroDone(done[..|done| - 1]);
    }
  }

  lemma {:induction false} NoShares(shares: seq<seq<string>>)
    requires forall i :: 0 <= i < |shares| ==> shares[i] == []
    ensures Concat(shares) == []
    decreases |shares|
  {
    if shares != [] {
      NoShares(shares[..|shares| - 1]);
    }
  }

  lemma {:induction false} NoKeys(ms: seq<map<string, string>>)
    requires forall i :: 0 <= i < |ms| ==> ms[i] == map[]
    ensures UnionKeys(ms) == {}
    decreases |ms|
  {
    if ms != [] {
      NoKeys(ms[..|ms| - 1]);
    }
  }

  lemma RecordsNext(results: seq<map<string, string>>, shares: seq<seq<string>>, servers: seq<Server>,
                    w: nat, p: string, r: map<string, string>)
    requires Records(results, shares, servers) && w < |results|
    requires r == MapOfLog(Checks(shares[w] + [p], servers[w]))
    ensures Records(results[w := r], shares[w := shares[w] + [p]], servers)
  {
  }

  lemma TakenNext(plates: seq<string>, results: seq<map<string, string>>, shares: seq<seq<string>>,
                  got: nat, w: nat, status: string)
    requires got < |plates| && Taken(plates, results, shares, got)
    requires w < |results| && w < |shares|
    ensures Taken(plates, results[w := results[w][plates[got] := status]], shares[w := shares[w] + [plates[got]]], got + 1)
  {
    var p := plates[got];
    ConcatTake(shares, w, p);
    UnionKeysRecord(results, w, p, status);
    PrefixSnoc(plates, got);
    FirstPlatesNext(plates, got);
  }

  /** Worker `w` takes the next plate and records its status. */
  lemma ProgressPlate(plates: seq<string>, done: seq<bool>, results: seq<map<string, string>>,
                      shares: seq<seq<string>>, servers: seq<Server>, got: nat, stopped: nat,
                      w: nat, status: string, r: map<string, string>)
    requires Progress(plates, done, results, shares, servers, got, stopped)
    requires w < |results| && got < |plates|
    requires r == results[w][plates[got] := status]
    requires r == MapOfLog(Checks(shares[w] + [plates[got]], servers[w]))
    ensures Progress(plates, done, results[w := r], shares[w := shares[w] + [plates[got]]], servers, got + 1, stopped)
  {
    RecordsNext(results, shares, servers, w, plates[got], r);
    TakenNext(plates, results, shares, got, w, status);
  }

  /** Worker `w` takes a sentinel and stops. */
  lemma ProgressStop(plates: seq<string>, done: seq<bool>, results: seq<map<string, string>>,
                     shares: seq<seq<string>>, servers: seq<Server>, got: nat, stopped: nat, w: nat)
    requires Progress(plates, done, results, shares, servers, got, stopped)
    requires w < |done| && !done[w] && got == |plates|
    ensures Progress(plates, done[w := true], results, shares, servers, got, stopped + 1)
  {
    CountDoneStop(done, w);
  }

  lemma DropOne<T>(s: seq<T>, i: nat)
    requires i < |s|
    ensures s[i..][1..] == s[i + 1..]
  {
  }

  /** Once no worker runs, all have stopped. */
  lemma {:induction false} CountDoneAll(done: seq<bool>)
    requires forall w :: 0 <= w < |done| ==> done[w]
    ensures CountDone(done) == |done|
    decreases |done|
  {
    if done != [] {
      CountDoneAll(done[..|done| - 1]);
    }
  }

  /** The sessions of the workers, in worker order. */
  function Servers(ws: seq<Worker>): (servers: seq<Server>)
    ensures |servers| == |ws|
    ensures forall i :: 0 <= i < |ws| ==> servers[i] == ws[i].server
  {
    seq(|ws|, i requires 0 <= i < |ws| => ws[i].server)
  }

  /** The state of the pool while the workers run: the shared queue holds
      what is left of the seeded items `items0` after `got` plates and
      `stopped` sentinels were taken, each taken item already acknowledged. */
  ghost predicate Pool(q: TaskQueue, ws: seq<Worker>, plates: seq<string>, items0: seq<Option<string>>, u0: int,
                       done: seq<bool>, results: seq<map<string, string>>, shares: seq<seq<string>>,
                       got: nat, stopped: nat)
    reads q
  {
    && items0 == Seeded(plates, |ws|)
    && (forall i :: 0 <= i < |ws| ==> ws[i].queue == q)
    && Progress(plates, done, results, shares, Servers(ws), got, stopped)
    && |done| == |ws|
    && got + stopped <= |items0|
    && q.Valid()
    && q.items == items0[got + stopped..]
    && q.unfinished == u0 - (got + stopped)
  }

  /** One turn of the scheduler: the running worker `w` makes one pass of
      its loop. No session is closed while the workers run. */
  method Turn(q: TaskQueue, ws: seq<Worker>, w: nat, ghost plates: seq<string>, ghost items0: seq<Option<string>>,
              ghost u0: int, done: seq<bool>, results: seq<map<string, string>>, ghost shares: seq<seq<string>>,
              ghost got: nat, ghost stopped: nat)
    returns (done': seq<bool>, results': seq<map<string, string>>, ghost shares': seq<seq<string>>,
             ghost got': nat, ghost stopped': nat)
    requires Pool(q, ws, plates, items0, u0, done, results, shares, got, stopped)
    requires w < |ws| && !done[w]
    requires forall i :: 0 <= i < |ws| ==> ws[i].closes == 0
    modifies q
    ensures Pool(q, ws, plates, items0, u0, done', results', shares', got', stopped')
    ensures old(q.items) != [] && q.items == old(q.items[1..])
    ensures old(q.items[0]) == None ==>
      && done' == done[w := true] && results' == results && shares' == shares
    ensures old(q.items[0]) != None ==>
      var p := old(q.items[0]).value;
      && done' == done
      && results' == results[w := results[w][p := Verdict(ws[w].server, p)]]
      && shares' == shares[w := shares[w] + [p]]
  {
    CountDoneRunning(done, w);
    SeededAt(plates, |ws|, got, stopped);
    var worker := ws[w];
    var item, status, r := worker.Step(results[w], shares[w]);
    DropOne(items0, got + stopped);
    if item == None {
      PoolAfterStop(q, ws, plates, items0, u0, done, results, shares, got, stopped, w);
      done', results', shares', got', stopped' := done[w := true], results, shares, got, stopped + 1;
    } else {
      PoolAfterPlate(q, ws, plates, items0, u0, done, results, shares, got, stopped, w, status, r);
      done', results', shares', got', stopped' := done, results[w := r], shares[w := shares[w] + [plates[got]]], got + 1, stopped;
    }
  }

  /** The queue after worker `w` took a sentinel. */
  lemma PoolAfterStop(q: TaskQueue, ws: seq<Worker>, plates: seq<string>, items0: seq<Option<string>>, u0: int,
                      done: seq<bool>, results: seq<map<string, string>>, shares: seq<seq<string>>,
                      got: nat, stopped: nat, w: nat)
    requires items0 == Seeded(plates, |ws|)
    requires forall i :: 0 <= i < |ws| ==> ws[i].queue == q
    requires Progress(plates, done, results, shares, Servers(ws), got, stopped)
    requires |done| == |ws| && w < |ws| && !done[w] && got == |plates|
    requires got + stopped < |items0|
    requires q.Valid() && q.items == items0[got + stopped + 1..] && q.unfinished == u0 - (got + stopped + 1)
    ensures Pool(q, ws, plates, items0, u0, done[w := true], results, shares, got, stopped + 1)
  {
    ProgressStop(plates, done, results, shares, Servers(ws), got, stopped, w);
  }

  /** The queue after worker `w` took the next plate and recorded `r`. */
  lemma PoolAfterPlate(q: TaskQueue, ws: seq<Worker>, plates: seq<string>, items0: seq<Option<string>>, u0: int,
                       done: seq<bool>, results: seq<map<string, string>>, shares: seq<seq<string>>,
                       got: nat, stopped: nat, w: nat, status: string, r: map<string, string>)
    requires items0 == Seeded(plates, |ws|)
    requires forall i :: 0 <= i < |ws| ==> ws[i].queue == q
    requires Progress(plates, done, results, shares, Servers(ws), got, stopped)
    requires |done| == |ws| && w < |ws| && got < |plates|
    requires got + stopped < |items0|
    requires q.Valid() && q.items == items0[got + stopped + 1..] && q.unfinished == u0 - (got + stopped + 1)
    requires r == results[w][plates[got] := status]
    requires r == MapOfLog(Checks(shares[w] + [plates[got]], ws[w].server))
    ensures Pool(q, ws, plates, items0, u0, done, results[w := r], shares[w := shares[w] + [plates[got]]], got + 1, stopped)
  {
    ProgressPlate(plates, done, results, shares, Servers(ws), got, stopped, w, status, r);
  }

  /** Once every worker has stopped, every seeded item was taken. */
  lemma PoolDrained(q: TaskQueue, ws: seq<Worker>, plates: seq<string>, items0: seq<Option<string>>, u0: int,
                    done: seq<bool>, results: seq<map<string, string>>, shares: seq<seq<string>>,
                    got: nat, stopped: nat)
    requires Pool(q, ws, plates, items0, u0, done, results, shares, got, stopped)
    requires forall w :: 0 <= w < |ws| ==> done[w]
    requires |ws| > 0
    ensures q.items == [] && q.unfinished == u0 - |items0|
    ensures multiset(Concat(shares)) == multiset(plates)
    ensures UnionKeys(results) == FirstPlates(plates, |plates|)
  {
    CountDoneAll(done);
    assert plates[..got] == plates;
  }

  /** The workers' tasks run to completion: at every step the scheduler
      lets one unfinished worker, chosen arbitrarily, run one pass of its
      loop. Each worker stops at the first sentinel it takes; with one
      sentinel per worker queued behind the plates, every plate is taken by
      exactly one worker, the queue ends empty with no unfinished task, and
      each worker's map records the plates it took. */
  method RunPool(q: TaskQueue, ws: seq<Worker>, ghost plates: seq<string>)
    returns (results: seq<map<string, string>>, ghost shares: seq<seq<string>>)
    requires q.Valid() && q.items == Seeded(plates, |ws|)
    requires forall i :: 0 <= i < |ws| ==> ws[i].queue == q
    requires forall i :: 0 <= i < |ws| ==> ws[i].closes == 0
    modifies q
    ensures |results| == |ws| && |shares| == |ws|
    ensures Records(results, shares, Servers(ws))
    ensures |ws| > 0 ==> q.items == [] && q.unfinished == old(q.unfinished) - |old(q.items)|
    ensures |ws| > 0 ==> multiset(Concat(shares)) == multiset(plates)
    ensures |ws| > 0 ==> UnionKeys(results) == FirstPlates(plates, |plates|)
    ensures q.Valid()
  {
    ghost var items0 := q.items;
    ghost var u0 := q.unfinished;
    var done := seq(|ws|, _ => false);
    results := seq(|ws|, _ => map[]);
    shares := seq(|ws|, _ => []);
    ghost var got: nat := 0;
    ghost var stopped: nat := 0;
    ProgressStart(plates, Servers(ws));
    while exists w :: 0 <= w < |ws| && !done[w]
      invariant Pool(q, ws, plates, items0, u0, done, results, shares, got, stopped)
      decreases |q.items|
    {
      var w :| 0 <= w < |ws| && !done[w];
      done, results, shares, got, stopped := Turn(q, ws, w, plates, items0, u0, done, results, shares, got, stopped);
    }
    if |ws| > 0 {
      PoolDrained(q, ws, plates, items0, u0, done, results, shares, got, stopped);
    }
  }

  /** A merged entry comes from some worker's map. */
  lemma {:induction false} MergedFrom(ms: seq<map<string, string>>, k: string)
    requires k in Merged(ms)
    ensures exists i :: 0 <= i < |ms| && k in ms[i] && Merged(ms)[k] == ms[i][k]
    decreases |ms|
  {
    var n := |ms| - 1;
    if k !in ms[n] {
      MergedFrom(ms[..n], k);
      var i :| 0 <= i < n && k in ms[..n][i] && Merged(ms[..n])[k] == ms[..n][i][k];
      assert ms[i] == ms[..n][i];
    }
  }

  /** Every merged status is the status some worker's session reported for
      that plate. */
  lemma MergedVerdict(ms: seq<map<string, string>>, shares: seq<seq<string>>, servers: seq<Server>, p: string)
    requires Records(ms, shares, servers)
    requires p in Merged(ms)
    ensures exists i :: 0 <= i < |servers| && p in shares[i] && Merged(ms)[p] == Verdict(servers[i], p)
  {
    MergedFrom(ms, p);
    var i :| 0 <= i < |ms| && p in ms[i] && Merged(ms)[p] == ms[i][p];
    ProcessedPlates(shares[i], servers[i], p);
  }

  lemma FirstPlatesAll(plates: seq<string>, p: string)
    ensures p in FirstPlates(plates, |plates|) <==> p in plates
  {
    if p in plates {
      var k :| 0 <= k < |plates| && plates[k] == p;
    }
  }

  /** The merged map of a finished pool: with at least one worker it
      holds exactly the plates, with none it is empty, and each status in
      it is one that the session of worker `i` reported for the plate. */
  lemma MergedOutcome(plates: seq<string>, workers: int, sessions: nat -> Server,
                      results: seq<map<string, string>>, shares: seq<seq<string>>, servers: seq<Server>)
    requires |servers| == Sentinels(workers) && forall i :: 0 <= i < |servers| ==> servers[i] == sessions(i)
    requires Records(results, shares, servers)
    requires workers >= 1 ==> UnionKeys(results) == FirstPlates(plates, |plates|)
    ensures workers >= 1 ==> forall p :: p in Merged(results) <==> p in plates
    ensures workers <= 0 ==> Merged(results) == map[]
    ensures forall p :: p in Merged(results) ==>
      exists i :: 0 <= i < workers && Merged(results)[p] == Verdict(sessions(i), p)
  {
    var final := Merged(results);
    forall p | p in final
      ensures exists i :: 0 <= i < workers && final[p] == Verdict(sessions(i), p)
    {
      MergedVerdict(results, shares, servers, p);
    }
    if workers >= 1 {
      forall p ensures p in final <==> p in plates {
        FirstPlatesAll(plates, p);
      }
    }
  }

  /** One worker's plates are among all plates taken. */
  lemma {:induction false} ConcatOne(shares: seq<seq<string>>, i: nat)
    requires i < |shares|
    ensures multiset(shares[i]) <= multiset(Concat(shares))
    decreases |shares|
  {
    var n := |shares| - 1;
    if i < n {
      ConcatOne(shares[..n], i);
      assert shares[..n][i] == shares[i];
    }
  }

  /** Two workers' plates together are among all plates taken. */
  lemma {:induction false} ConcatPair(shares: seq<seq<string>>, i: nat, j: nat)
    requires i < j < |shares|
    ensures multiset(shares[i]) + multiset(shares[j]) <= multiset(Concat(shares))
    decreases |shares|
  {
    var n := |shares| - 1;
    assert shares[..n][i] == shares[i];
    if j < n {
      assert shares[..n][j] == shares[j];
      ConcatPair(shares[..n], i, j);
    } else {
      ConcatOne(shares[..n], i);
    }
  }

  /** When the input holds no plate twice, no two workers record the same
      plate, so the merge never overwrites an entry. */
  lemma DisjointResults(plates: seq<string>, results: seq<map<string, string>>, shares: seq<seq<string>>,
                        servers: seq<Server>, i: nat, j: nat, p: string)
    requires Distinct(plates) && Records(results, shares, servers)
    requires multiset(Concat(shares)) == multiset(plates)
    requires i < j < |results| && p in results[i]
    ensures p !in results[j]
  {
    ProcessedPlates(shares[i], servers[i], p);
    ProcessedPlates(shares[j], servers[j], p);
    ConcatPair(shares, i, j);
    DistinctCount(plates, p);
    assert p in multiset(shares[i]);
  }

  /** `Worker.create(queue)` for each of `range(workers)`; worker `i` gets
      the session `sessions(i)`. */
  method CreateWorkers(q: TaskQueue, workers: int, sessions: nat -> Server) returns (ws: seq<Worker>)
    ensures |ws| == Sentinels(workers)
    ensures forall i :: 0 <= i < |ws| ==>
      fresh(ws[i]) && ws[i].queue == q && ws[i].server == sessions(i) && ws[i].closes == 0
    ensures forall i, j :: 0 <= i < j < |ws| ==> ws[i] != ws[j]
  {
    ws := [];
    for i := 0 to Sentinels(workers)
      invariant |ws| == i
      invariant forall k :: 0 <= k < i ==>
        fresh(ws[k]) && ws[k].queue == q && ws[k].server == sessions(k) && ws[k].closes == 0
      invariant forall j, k :: 0 <= j < k < i ==> ws[j] != ws[k]
    {
      var w := new Worker(q, sessions(i));
      ws := ws + [w];
    }
  }

  /** The close loop: every worker's session is closed once. */
  method CloseAll(ws: seq<Worker>)
    requires forall i :: 0 <= i < |ws| ==> ws[i].closes == 0
    requires forall i, j :: 0 <= i < j < |ws| ==> ws[i] != ws[j]
    modifies set i | 0 <= i < |ws| :: ws[i]
    ensures forall i :: 0 <= i < |ws| ==> ws[i].closes == 1
  {
    for i := 0 to |ws|
      invariant forall k :: 0 <= k < i ==> ws[k].closes == 1
      invariant forall k :: i <= k < |ws| ==> ws[k].closes == 0
    {
      ws[i].Close();
    }
  }

  /** What `main` ends with: nothing when there are no plates, otherwise
      the merged results, the `.csv` path they are saved to and the rows
      written there. */
  datatype Outcome = NoPlates | Saved(final: map<string, string>, path: string, rows: seq<seq<string>>)

  /** The worker part of `main` on a non-empty plate list: create the
      workers on one fresh queue, seed it, run the workers to completion,
      and only then close every session and merge the workers' maps. */
  method CheckAll(plates: seq<string>, workers: int, sessions: nat -> Server)
    returns (final: map<string, string>, ghost ws: seq<Worker>)
    ensures workers >= 1 ==> forall p :: p in final <==> p in plates
    ensures workers <= 0 ==> final == map[]
    ensures forall p :: p in final ==> exists i :: 0 <= i < workers && final[p] == Verdict(sessions(i), p)
    ensures |ws| == Sentinels(workers) && forall i :: 0 <= i < |ws| ==> ws[i].closes == 1
    ensures forall i, j :: 0 <= i < j < |ws| ==> ws[i] != ws[j]
  {
    var q := new TaskQueue();
    var workerList := CreateWorkers(q, workers, sessions);
    ws := workerList;
    ghost var servers := Servers(workerList);
    SeedQueue(q, plates, workers);
    var results, shares := RunPool(q, workerList, plates);
    CloseAll(workerList);
    final := MergeResults(results);
    MergedOutcome(plates, workers, sessions, results, shares, servers);
  }

  /** `main` once the plates are loaded or generated. `sessions(i)` is the
      DMV session worker `i` opens. With at least one worker every plate
      is checked and saved with the status one of the sessions reported for
      it; with none, the queue is never drained and an empty map is saved. */
  method CheckPlates(plates: seq<string>, workers: int, sessions: nat -> Server, outputPath: string)
    returns (outcome: Outcome, ghost ws: seq<Worker>, ghost keys: seq<string>)
    ensures plates == [] <==> outcome == NoPlates
    ensures plates == [] ==> ws == []
    ensures plates != [] ==> outcome.Saved? && outcome.path == CsvPath(outputPath)
    ensures plates != [] && workers >= 1 ==> forall p :: p in outcome.final <==> p in plates
    ensures plates != [] && workers <= 0 ==> outcome.final == map[]
    ensures plates != [] ==> forall p :: p in outcome.final ==>
      exists i :: 0 <= i < workers && outcome.final[p] == Verdict(sessions(i), p)
    ensures plates != [] ==>
      SortedKeysOf(keys, outcome.final) && |keys| == |outcome.final| && outcome.rows == TableOf(keys, outcome.final)
    ensures plates != [] ==> RowsOf(outcome.rows, outcome.final)
    ensures plates != [] ==> |ws| == Sentinels(workers)
    ensures forall i :: 0 <= i < |ws| ==> ws[i].closes == 1
    ensures forall i, j :: 0 <= i < j < |ws| ==> ws[i] != ws[j]
  {
    if plates == [] {
      return NoPlates, [], [];
    }
    var final;
    final, ws := CheckAll(plates, workers, sessions);
    var rows;
    rows, keys := CsvRows(final);
    outcome := Saved(final, CsvPath(outputPath), rows);
  }
}
