/** `Worker` (plate_checker/worker.py and plate_checker.py): builds the
    check request for a plate, reads the status out of the DMV's reply, and
    consumes the shared queue until it takes a stop sentinel. The HTTP
    session is replaced by a `Server`: the reply the DMV gives on this
    worker's session to a check request with a given form body. */
module Workers {
  import opened Wrappers
  import opened Payload
  import opened Tasks

  /** The parsed JSON reply, as a map from field to value. */
  type Response = map<string, string>

  /** The DMV as one session sees it: form body to reply. */
  type Server = Form -> Response

  const Unknown: string := "UNKNOWN"

  /** The status read from the reply: its "code" field, or "UNKNOWN" when
      the reply has none. */
  function Status(response: Response): (s: string)
    ensures "code" in response ==> s == response["code"]
    ensures "code" !in response ==> s == Unknown
  {
    if "code" in response then response["code"] else Unknown
  }

  /** A status reads "UNKNOWN" exactly when the reply has no code or its code
      is itself "UNKNOWN": the two cases cannot be told apart afterwards. */
  lemma StatusUnknown(response: Response)
    ensures Status(response) == Unknown <==> "code" !in response || response["code"] == Unknown
  {
  }

  /** The status a session reports for `plate`: the code in its reply to
      the plate's payload. */
  function Verdict(server: Server, plate: string): string {
    Status(server(PayloadFor(plate)))
  }

  /** The `(plate, status)` pairs one worker records for the plates `ps`,
      checked in order. */
  function Checks(ps: seq<string>, server: Server): (log: seq<(string, string)>)
    ensures |log| == |ps|
    ensures forall k :: 0 <= k < |ps| ==> log[k] == (ps[k], Verdict(server, ps[k]))
  {
    seq(|ps|, k requires 0 <= k < |ps| => (ps[k], Verdict(server, ps[k])))
  }

  lemma ChecksSnoc(ps: seq<string>, p: string, server: Server)
    ensures Checks(ps + [p], server) == Checks(ps, server) + [(p, Verdict(server, p))]
  {
  }

  /** The dictionary a sequence of `results[plate] = status` assignments
      leaves behind, starting from `{}`. */
  function MapOfLog(log: seq<(string, string)>): map<string, string>
    decreases |log|
  {
    if log == [] then map[]
    else
      var n := |log| - 1;
      MapOfLog(log[..n])[log[n].0 := log[n].1]
  }

  /** The keys of the map are the plates of the log's records. */
  lemma {:induction false} MapOfLogKeys(log: seq<(string, string)>)
    ensures MapOfLog(log).Keys == set k | 0 <= k < |log| :: log[k].0
    decreases |log|
  {
    if log != [] {
      var n := |log| - 1;
      MapOfLogKeys(log[..n]);
      assert (set k | 0 <= k < |log| :: log[k].0)
        == (set k | 0 <= k < n :: log[..n][k].0) + {log[n].0};
    }
  }

  lemma MapOfLogSnoc(log: seq<(string, string)>, e: (string, string))
    ensures MapOfLog(log + [e]) == MapOfLog(log)[e.0 := e.1]
  {
    assert (log + [e])[..|log|] == log;
  }

  /** Recording one more check extends the map by that check. */
  lemma RecordOne(taken: seq<string>, p: string, server: Server)
    ensures MapOfLog(Checks(taken + [p], server)) == MapOfLog(Checks(taken, server))[p := Verdict(server, p)]
  {
    ChecksSnoc(taken, p, server);
    MapOfLogSnoc(Checks(taken, server), (p, Verdict(server, p)));
  }

  lemma PrefixSnoc<T>(s: seq<T>, i: nat)
    requires i < |s|
    ensures s[..i] + [s[i]] == s[..i + 1]
  {
  }

  /** Where the `k`-th item of a queue falls, for `k` at most the number of
      plates before its first sentinel. */
  lemma ItemAt(items: seq<Option<string>>, k: nat)
    requires k < |items| && k <= |PlatesBefore(items)|
    ensures items[k] == None <==> k == |PlatesBefore(items)|
    ensures items[k] != None ==> items[k] == Some(PlatesBefore(items)[k])
  {
  }

  /** A plate recorded several times keeps the status of its last record. */
  lemma {:induction false} MapOfLogLastWins(log: seq<(string, string)>, j: nat)
    requires j < |log|
    requires forall i :: j < i < |log| ==> log[i].0 != log[j].0
    ensures log[j].0 in MapOfLog(log) && MapOfLog(log)[log[j].0] == log[j].1
    decreases |log|
  {
    var n := |log| - 1;
    if j < n {
      MapOfLogLastWins(log[..n], j);
    }
  }

  /** The plates before the first sentinel of `items`. */
  function PlatesBefore(items: seq<Option<string>>): (ps: seq<string>)
    ensures |ps| <= |items|
    ensures forall k :: 0 <= k < |ps| ==> items[k] == Some(ps[k])
    ensures |ps| < |items| ==> items[|ps|] == None
    ensures None in items ==> |ps| < |items|
  {
    if items == [] || items[0] == None then []
    else [items[0].value] + PlatesBefore(items[1..])
  }

  class Worker {
    const queue: TaskQueue
    const server: Server
    /** Times `close` was called on this worker's session. */
    var closes: nat

    constructor(queue: TaskQueue, server: Server)
      ensures this.queue == queue && this.server == server
      ensures closes == 0
    {
      this.queue := queue;
      this.server := server;
      closes := 0;
    }

    /** `update_payload`: a copy of the template with slot `i` set to the
        plate's i-th character, one slot at a time. */
    method UpdatePayload(plate: string) returns (payload: Form)
      ensures payload == PayloadFor(plate)
    {
      payload := Template;
      var i := 0;
      while i < |plate|
        invariant 0 <= i <= |plate|
        invariant payload == PayloadFor(plate[..i])
      {
        PayloadForPrefix(plate, i);
        payload := payload[PlateCharKey(i) := [plate[i]]];
        i := i + 1;
      }
      assert plate[..|plate|] == plate;
    }

    /** `get_plate_status`: send the plate's payload on this session, which
        must not be closed yet, and read the status out of the reply. */
    method GetPlateStatus(plate: string) returns (status: string)
      requires closes == 0
      ensures status == Verdict(server, plate)
    {
      var payload := UpdatePayload(plate);
      var response := server(payload);
      status := Status(response);
    }

    /** One pass of the `process_task` loop: take the head of the queue; on
        a sentinel acknowledge it, on a plate check it, record its status
        and acknowledge it. The caller stops once `item` is the sentinel.
        `taken` are the plates this loop has recorded so far. The session
        is still open. */
    method Step(results: map<string, string>, ghost taken: seq<string>)
      returns (item: Option<string>, status: string, results': map<string, string>)
      requires queue.Valid() && queue.items != []
      requires results == MapOfLog(Checks(taken, server))
      requires closes == 0
      modifies queue
      ensures item == old(queue.items[0])
      ensures queue.items == old(queue.items[1..])
      ensures queue.unfinished == old(queue.unfinished) - 1
      ensures queue.Valid()
      ensures item == None ==> results' == results
      ensures item != None ==>
        && status == Verdict(server, item.value)
        && results' == results[item.value := status]
        && results' == MapOfLog(Checks(taken + [item.value], server))
    {
      item := queue.Get();
      if item == None {
        queue.TaskDone();
        return item, "", results;
      }
      RecordOne(taken, item.value, server);
      status := GetPlateStatus(item.value);
      results' := results[item.value := status];
      queue.TaskDone();
    }

    /** `process_task`: take items until the first sentinel. Exactly the
        items up to and including that sentinel leave the queue, each one
        acknowledged once, and the result records every plate before it
        with the status of its check. */
    method ProcessTask() returns (results: map<string, string>)
      requires queue.Valid() && None in queue.items
      requires closes == 0
      modifies queue
      ensures var ps := PlatesBefore(old(queue.items));
        && queue.items == old(queue.items)[|ps| + 1..]
        && queue.unfinished == old(queue.unfinished) - (|ps| + 1)
        && results == MapOfLog(Checks(ps, server))
      ensures queue.Valid()
    {
      ghost var items0 := queue.items;
      ghost var u0 := queue.unfinished;
      ghost var ps := PlatesBefore(items0);
      ghost var count: nat := 0;
      results := map[];
      assert Checks(ps[..0], server) == [];
      while true
        invariant queue.Valid()
        invariant count <= |ps|
        invariant queue.items == items0[count..]
        invariant queue.unfinished == u0 - count
        invariant results == MapOfLog(Checks(ps[..count], server))
        decreases |queue.items|
      {
        ItemAt(items0, count);
        assert queue.items[0] == items0[count];
        var item, status;
        item, status, results := Step(results, ps[..count]);
        if item == None {
          assert ps[..count] == ps;
          break;
        }
        assert item == Some(ps[count]);
        PrefixSnoc(ps, count);
        count := count + 1;
      }
    }

    /** `close`: the session is closed once more. */
    method Close()
      modifies this`closes
      ensures closes == old(closes) + 1
    {
      closes := closes + 1;
    }
  }

  /** What `process_task` returns for the plates `ps` taken before the
      sentinel: exactly those plates, each with the status its session
      reports for it. */
  lemma ProcessedPlates(ps: seq<string>, server: Server, p: string)
    ensures p in MapOfLog(Checks(ps, server)) <==> p in ps
    ensures p in ps ==> MapOfLog(Checks(ps, server))[p] == Verdict(server, p)
  {
    var log := Checks(ps, server);
    MapOfLogKeys(log);
    if p in ps {
      var j :| 0 <= j < |ps| && ps[j] == p;
      assert log[j].0 == p;
      var last := LastIndex(ps, p, j);
      MapOfLogLastWins(log, last);
    }
  }

  /** The last index at which `p` occurs in `ps`, at or after `j`. */
  function LastIndex(ps: seq<string>, p: string, j: nat): (i: nat)
    requires j < |ps| && ps[j] == p
    ensures j <= i < |ps| && ps[i] == p
    ensures forall k :: i < k < |ps| ==> ps[k] != p
    decreases |ps| - j
  {
    if exists k :: j < k < |ps| && ps[k] == p then
      var k :| j < k < |ps| && ps[k] == p;
      LastIndex(ps, p, k)
    else j
  }
}
