/** The part of `asyncio.Queue` the workers rely on: a FIFO of plates and
    stop sentinels (`None`), and the count of unfinished tasks that `put`
    raises and `task_done` lowers. */
module Tasks {
  import opened Wrappers

  class TaskQueue {
    var items: seq<Option<string>>
    var unfinished: nat

    /** Every queued item is still an unfinished task. */
    ghost predicate Valid()
      reads this
    {
      |items| <= unfinished
    }

    constructor()
      ensures items == [] && unfinished == 0
      ensures Valid()
    {
      items := [];
      unfinished := 0;
    }

    /** `queue.put(x)`: append at the tail; one more unfinished task. */
    method Put(x: Option<string>)
      modifies this
      ensures items == old(items) + [x]
      ensures unfinished == old(unfinished) + 1
      ensures old(Valid()) ==> Valid()
    {
      items := items + [x];
      unfinished := unfinished + 1;
    }

    /** `queue.get()` on a non-empty queue: remove and return the head. The
        task stays unfinished until `TaskDone`. */
    method Get() returns (x: Option<string>)
      requires items != []
      modifies this`items
      ensures x == old(items[0]) && items == old(items[1..])
      ensures old(Valid()) ==> |items| < unfinished
    {
      x := items[0];
      items := items[1..];
    }

    /** `queue.task_done()`: one unfinished task fewer. */
    method TaskDone()
      requires unfinished > 0
      modifies this`unfinished
      ensures unfinished == old(unfinished) - 1
    {
      unfinished := unfinished - 1;
    }
  }
}
