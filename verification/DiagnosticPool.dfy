/** The shared state of the diagnostic executor: a bounded queue, the keys in flight and the
    counters. Every operation below is one critical section (one lock hold or one queue call);
    threads interleave between them. */
module DiagnosticPools {
  import opened Wrappers

  type Key = string

  datatype Item = Job(key: Key) | Stop

  datatype Pool = Pool(
    cap: nat,
    queue: seq<Item>,
    flying: set<Key>,
    closed: bool,
    dropped: nat,
    cancelled: nat,
    completed: nat)

  function NewPool(size: int): Pool {
    Pool(if size < 1 then 1 else size, [], {}, false, 0, 0, 0)
  }

  predicate Admits(p: Pool, k: Key) {
    !p.closed && k !in p.flying
  }

  predicate HasRoom(p: Pool) {
    |p.queue| < p.cap
  }

  function Accept(p: Pool, k: Key): Pool {
    if Admits(p, k) then p.(flying := p.flying + {k}) else p
  }

  function Put(p: Pool, item: Item): Pool {
    if HasRoom(p) then p.(queue := p.queue + [item]) else p
  }

  /** The queue was full: the accepted job is given up. */
  function Refuse(p: Pool, k: Key): Pool {
    p.(flying := p.flying - {k}, dropped := p.dropped + 1)
  }

  function Take(p: Pool): Pool {
    if p.queue == [] then p else p.(queue := p.queue[1..])
  }

  function Settle(p: Pool, k: Key, ran: bool): Pool {
    var q := p.(flying := p.flying - {k});
    if ran then q.(completed := q.completed + 1) else q.(cancelled := q.cancelled + 1)
  }

  /** Cancelling everything that waits in the queue, stop signals included. */
  function Drained(p: Pool): Pool
    decreases |p.queue|
  {
    if p.queue == [] then p
    else
      var q := Take(p);
      if p.queue[0].Stop? then Drained(q) else Drained(Settle(q, p.queue[0].key, false))
  }

  function JobKeys(items: seq<Item>): seq<Key> {
    if items == [] then []
    else if items[0].Job? then [items[0].key] + JobKeys(items[1..])
    else JobKeys(items[1..])
  }

  /** Draining empties the queue, counts each waiting job as cancelled and frees its key, and
      touches nothing else. */
  lemma {:induction false} DrainedMeans(p: Pool)
    ensures var q := Drained(p);
            && q.queue == []
            && q.cancelled == p.cancelled + |JobKeys(p.queue)|
            && q.flying == p.flying - (set k | k in JobKeys(p.queue))
            && q.closed == p.closed && q.dropped == p.dropped && q.completed == p.completed && q.cap == p.cap
    decreases |p.queue|
  {
    if p.queue != [] {
      var q := Take(p);
      DrainedMeans(if p.queue[0].Stop? then q else Settle(q, p.queue[0].key, false));
    }
  }

  class DiagnosticExecutor {
    const cap: nat
    var queue: seq<Item>
    var flying: set<Key>
    var closed: bool
    var dropped: nat
    var cancelled: nat
    var completed: nat

    ghost function View(): Pool
      reads this
    {
      Pool(cap, queue, flying, closed, dropped, cancelled, completed)
    }

    constructor (size: int)
      ensures View() == NewPool(size)
    {
      cap := if size < 1 then 1 else size;
      queue, flying, closed := [], {}, false;
      dropped, cancelled, completed := 0, 0, 0;
    }

    method Enter(key: Key) returns (ok: bool)
      modifies this`flying
      ensures ok == Admits(old(View()), key) && View() == Accept(old(View()), key)
    {
      if closed || key in flying {
        return false;
      }
      flying := flying + {key};
      return true;
    }

    method PutNow(item: Item) returns (ok: bool)
      modifies this`queue
      ensures ok == HasRoom(old(View())) && View() == Put(old(View()), item)
    {
      if |queue| >= cap {
        return false;
      }
      queue := queue + [item];
      return true;
    }

    method GiveUp(key: Key)
      modifies this`flying, this`dropped
      ensures View() == Refuse(old(View()), key)
    {
      flying := flying - {key};
      dropped := dropped + 1;
    }

    /** `submit`, when no other thread comes in between its steps. */
    method Submit(key: Key) returns (ok: bool)
      modifies this
      ensures var a := Accept(old(View()), key);
              && ok == (Admits(old(View()), key) && HasRoom(a))
              && View() == if !Admits(old(View()), key) then old(View())
                           else if HasRoom(a) then Put(a, Job(key)) else Refuse(a, key)
    {
      ok := Enter(key);
      if !ok {
        return;
      }
      ok := PutNow(Job(key));
      if !ok {
        GiveUp(key);
      }
    }

    method Get() returns (item: Option<Item>)
      modifies this`queue
      ensures item == (if old(queue) == [] then None else Some(old(queue)[0]))
      ensures View() == Take(old(View()))
    {
      if queue == [] {
        return None;
      }
      item := Some(queue[0]);
      queue := queue[1..];
    }

    /** What a worker does with a job it has taken, whether or not the job raises. */
    method Work(key: Key) returns (ran: bool)
      modifies this
      ensures ran == !old(closed) && View() == Settle(old(View()), key, ran)
    {
      ran := !closed;
      Leave(key, ran);
    }

    method Leave(key: Key, ran: bool)
      modifies this`flying, this`completed, this`cancelled
      ensures View() == Settle(old(View()), key, ran)
    {
      flying := flying - {key};
      if ran {
        completed := completed + 1;
      } else {
        cancelled := cancelled + 1;
      }
    }

    /** `_kuyrugu_bosalt` */
    method Drain() returns (count: nat)
      modifies this`queue, this`flying, this`cancelled
      ensures View() == Drained(old(View()))
      ensures count == |JobKeys(old(queue))|
    {
      count := 0;
      while queue != []
        invariant Drained(View()) == Drained(old(View()))
        invariant View() == old(View()).(queue := queue, flying := flying, cancelled := cancelled)
        invariant count + |JobKeys(queue)| == |JobKeys(old(queue))|
        decreases |queue|
      {
        var item := queue[0];
        queue := queue[1..];
        if item.Job? {
          flying := flying - {item.key};
          cancelled := cancelled + 1;
          count := count + 1;
        }
      }
    }

    method Close() returns (already: bool)
      modifies this`closed
      ensures already == old(closed) && View() == old(View()).(closed := true)
    {
      already := closed;
      closed := true;
    }
  }
}
