/** The diagnostic executor with its threads: submitters, workers and one `shutdown` call, in
    any interleaving of their critical sections. */
module DiagnosticRuns {
  import opened Wrappers
  import opened DiagnosticPools

  datatype Worker = Idle | Holding(key: Key) | Running(key: Key) | Skipping(key: Key) | Exited

  /** Where `shutdown` is: emptying the queue (the first time `left` is unknown), placing the
      remaining `left` stop signals, waiting for the workers, or back with its result. */
  datatype Closer =
    | Before
    | Emptying(hand: Option<Key>, left: Option<nat>)
    | Placing(remaining: nat)
    | Joining(unplaced: nat)
    | Done(result: bool)

  /** `putting`: accepted by a submitter but not yet in the queue; `refusing`: the queue was
      full and the submitter has not yet given the key back. */
  datatype Sys = Sys(
    pool: Pool,
    workers: seq<Worker>,
    putting: set<Key>,
    refusing: set<Key>,
    closer: Closer,
    accepted: nat)

  datatype Move =
    | Entered(key: Key)
    | Queued(key: Key)
    | Refused(key: Key)
    | Got(w: nat)
    | Checked(w: nat)
    | Ended(w: nat)
    | Shut
    | Drew
    | Cancelled
    | Placed
    | TimedOut
    | Joined

  function Start(size: int, workers: int): Sys {
    Sys(NewPool(size), seq(if workers < 1 then 1 else workers, _ => Idle), {}, {}, Before, 0)
  }

  function Alive(workers: seq<Worker>): nat {
    if workers == [] then 0
    else Alive(workers[..|workers| - 1]) + if workers[|workers| - 1].Exited? then 0 else 1
  }

  function GetItem(s: Sys, w: nat): Sys
    requires w < |s.workers| && s.pool.queue != []
  {
    var item := s.pool.queue[0];
    s.(pool := Take(s.pool), workers := s.workers[w := if item.Stop? then Exited else Holding(item.key)])
  }

  function CheckItem(s: Sys, w: nat): Sys
    requires w < |s.workers| && s.workers[w].Holding?
  {
    var k := s.workers[w].key;
    s.(workers := s.workers[w := if s.pool.closed then Skipping(k) else Running(k)])
  }

  function EndItem(s: Sys, w: nat): Sys
    requires w < |s.workers| && (s.workers[w].Running? || s.workers[w].Skipping?)
  {
    s.(pool := Settle(s.pool, s.workers[w].key, s.workers[w].Running?), workers := s.workers[w := Idle])
  }

  function Draw(s: Sys): Sys
    requires s.closer.Emptying? && s.closer.hand.None?
  {
    if s.pool.queue == [] then
      s.(closer := Placing(if s.closer.left.Some? then s.closer.left.value else Alive(s.workers)))
    else
      var item := s.pool.queue[0];
      s.(pool := Take(s.pool),
         closer := s.closer.(hand := if item.Stop? then None else Some(item.key)))
  }

  function PlaceStop(s: Sys): Sys
    requires s.closer.Placing?
  {
    if s.closer.remaining == 0 then s.(closer := Joining(0))
    else if HasRoom(s.pool) then s.(pool := Put(s.pool, Stop), closer := Placing(s.closer.remaining - 1))
    else s.(closer := Emptying(None, Some(s.closer.remaining)))
  }

  function QueueJob(s: Sys, k: Key): Sys
    requires k in s.putting
  {
    if HasRoom(s.pool) then s.(pool := Put(s.pool, Job(k)), putting := s.putting - {k})
    else s.(refusing := s.refusing + {k}, putting := s.putting - {k})
  }

  function Next(s: Sys, move: Move): Sys {
    match move
    case Entered(k) =>
      if Admits(s.pool, k) then s.(pool := Accept(s.pool, k), putting := s.putting + {k}, accepted := s.accepted + 1)
      else s
    case Queued(k) => if k in s.putting then QueueJob(s, k) else s
    case Refused(k) =>
      if k in s.refusing then s.(pool := Refuse(s.pool, k), refusing := s.refusing - {k}) else s
    case Got(w) => if w < |s.workers| && s.workers[w].Idle? && s.pool.queue != [] then GetItem(s, w) else s
    case Checked(w) => if w < |s.workers| && s.workers[w].Holding? then CheckItem(s, w) else s
    case Ended(w) =>
      if w < |s.workers| && (s.workers[w].Running? || s.workers[w].Skipping?) then EndItem(s, w) else s
    case Shut => if s.closer.Before? then s.(pool := s.pool.(closed := true), closer := Emptying(None, None)) else s
    case Drew => if s.closer.Emptying? && s.closer.hand.None? then Draw(s) else s
    case Cancelled =>
      if s.closer.Emptying? && s.closer.hand.Some? then
        s.(pool := Settle(s.pool, s.closer.hand.value, false), closer := s.closer.(hand := None))
      else s
    case Placed => if s.closer.Placing? then PlaceStop(s) else s
    case TimedOut => if s.closer.Placing? then s.(closer := Joining(s.closer.remaining)) else s
    case Joined => if s.closer.Joining? then s.(closer := Done(Alive(s.workers) == 0)) else s
  }

  function Run(s: Sys, trace: seq<Move>): Sys {
    if trace == [] then s else Next(Run(s, trace[..|trace| - 1]), trace[|trace| - 1])
  }

  // ---------------------------------------------------------------- one job per key

  /** Everywhere a job can be. */
  datatype Place = AtSubmitter | AtRefusal | InQueue(i: nat) | AtWorker(w: nat) | AtCloser

  predicate Busy(worker: Worker, k: Key) {
    (worker.Holding? || worker.Running? || worker.Skipping?) && worker.key == k
  }

  predicate At(s: Sys, p: Place, k: Key) {
    match p
    case AtSubmitter => k in s.putting
    case AtRefusal => k in s.refusing
    case InQueue(i) => i < |s.pool.queue| && s.pool.queue[i] == Job(k)
    case AtWorker(w) => w < |s.workers| && Busy(s.workers[w], k)
    case AtCloser => s.closer.Emptying? && s.closer.hand == Some(k)
  }

  ghost predicate Unique(s: Sys) {
    forall p, q, k :: At(s, p, k) && At(s, q, k) ==> p == q
  }

  ghost predicate Tracked(s: Sys) {
    && (forall p, k :: At(s, p, k) ==> k in s.pool.flying)
    && (forall k :: k in s.pool.flying ==> exists p :: At(s, p, k))
  }

  ghost predicate Counted(s: Sys) {
    s.accepted == s.pool.completed + s.pool.cancelled + s.pool.dropped + |s.pool.flying|
  }

  ghost predicate Inv(s: Sys) {
    Unique(s) && Tracked(s) && Counted(s) && (s.closer.Before? <==> !s.pool.closed)
  }

  /** A step that ends the job at `gone`. */
  lemma Ends(s: Sys, t: Sys, gone: Place, key: Key)
    requires Inv(s) && At(s, gone, key)
    requires forall p, k :: At(t, p, k) <==> At(s, p, k) && !(p == gone && k == key)
    requires t.pool.flying == s.pool.flying - {key} && t.accepted == s.accepted
    requires t.pool.completed + t.pool.cancelled + t.pool.dropped ==
             s.pool.completed + s.pool.cancelled + s.pool.dropped + 1
    requires t.closer.Before? <==> !t.pool.closed
    ensures Inv(t)
  {
  }

  lemma EnteredInv(s: Sys, k: Key)
    requires Inv(s) && Admits(s.pool, k)
    ensures Inv(Next(s, Entered(k)))
  {
    var t := Next(s, Entered(k));
    forall p, x
      ensures At(t, p, x) <==> At(s, p, x) || (p == AtSubmitter && x == k)
    {
    }
    forall x | x in t.pool.flying
      ensures exists p :: At(t, p, x)
    {
      if x == k {
        assert At(t, AtSubmitter, k);
      } else {
        var p :| At(s, p, x);
        assert At(t, p, x);
      }
    }
    forall p | At(s, p, k)
      ensures false
    {
    }
  }

  /** One job goes from one place to another and everything else stays. */
  lemma Relocated(s: Sys, t: Sys, key: Key, from: Place, to: Place)
    requires Inv(s) && At(s, from, key)
    requires forall p, k :: At(t, p, k) <==> (p == to && k == key) || (At(s, p, k) && !(p == from && k == key))
    requires t.pool.flying == s.pool.flying && t.accepted == s.accepted
    requires t.pool.completed == s.pool.completed && t.pool.cancelled == s.pool.cancelled
    requires t.pool.dropped == s.pool.dropped
    requires t.closer.Before? <==> !t.pool.closed
    ensures Inv(t)
  {
    forall k | k in t.pool.flying
      ensures exists p :: At(t, p, k)
    {
      if k == key {
        assert At(t, to, k);
      } else {
        var p :| At(s, p, k);
        assert At(t, p, k);
      }
    }
  }

  function Unshift(p: Place): Place {
    if p.InQueue? then InQueue(p.i + 1) else p
  }

  function Shift(p: Place): Place {
    if p.InQueue? && p.i > 0 then InQueue(p.i - 1) else p
  }

  /** Taking the head of the queue: a stop signal disappears, a job goes to `to`. */
  lemma TakenInv(s: Sys, t: Sys, to: Place)
    requires Inv(s) && s.pool.queue != [] && !to.InQueue?
    requires t.pool == Take(s.pool) && t.accepted == s.accepted
    requires forall k :: !At(s, to, k)
    requires forall p: Place, k :: !p.InQueue? && p != to ==> (At(t, p, k) <==> At(s, p, k))
    requires forall k :: At(t, to, k) <==> s.pool.queue[0] == Job(k)
    requires t.closer.Before? <==> !t.pool.closed
    ensures Inv(t)
  {
    var back := (p: Place) => if p == to then InQueue(0) else Unshift(p);
    var forth := (p: Place) => if p == InQueue(0) then to else Shift(p);
    forall p, k | At(t, p, k)
      ensures At(s, back(p), k) && forth(back(p)) == p
    {
    }
    forall p, k | At(s, p, k)
      ensures At(t, forth(p), k)
    {
      assert p.InQueue? && p.i > 0 ==> t.pool.queue[p.i - 1] == s.pool.queue[p.i];
    }
  }

  lemma InvCloser(s: Sys)
    requires Inv(s)
    ensures s.closer.Before? <==> !s.pool.closed
  {
  }

  lemma SameInv(s: Sys, t: Sys)
    requires Inv(s) && t == s.(workers := t.workers, closer := t.closer, pool := t.pool)
    requires t.pool == s.pool.(queue := t.pool.queue, closed := t.pool.closed)
    requires forall p, k :: At(t, p, k) <==> At(s, p, k)
    requires t.closer.Before? <==> !t.pool.closed
    ensures Inv(t)
  {
  }

  lemma CloserInv(s: Sys, move: Move)
    requires Inv(s) && (move.Shut? || move.Drew? || move.Cancelled? || move.Placed? || move.TimedOut? || move.Joined?)
    ensures Inv(Next(s, move))
  {
    hide Inv;
    var t := Next(s, move);
    InvCloser(s);
    if move.Cancelled? && s.closer.Emptying? && s.closer.hand.Some? {
      Ends(s, t, AtCloser, s.closer.hand.value);
    } else if move.Drew? && s.closer.Emptying? && s.closer.hand.None? && s.pool.queue != [] {
      TakenInv(s, t, AtCloser);
    } else {
      SameInv(s, t);
    }
  }

  lemma NextInv(s: Sys, move: Move)
    requires Inv(s)
    ensures Inv(Next(s, move))
  {
    hide Inv;
    var t := Next(s, move);
    InvCloser(s);
    match move
    case Entered(k) =>
      if Admits(s.pool, k) {
        EnteredInv(s, k);
      }
    case Queued(k) =>
      if k in s.putting {
        Relocated(s, t, k, AtSubmitter, if HasRoom(s.pool) then InQueue(|s.pool.queue|) else AtRefusal);
      }
    case Refused(k) =>
      if k in s.refusing {
        Ends(s, t, AtRefusal, k);
      }
    case Got(w) =>
      if w < |s.workers| && s.workers[w].Idle? && s.pool.queue != [] {
        TakenInv(s, t, AtWorker(w));
      }
    case Checked(w) => SameInv(s, t);
    case Ended(w) =>
      if w < |s.workers| && (s.workers[w].Running? || s.workers[w].Skipping?) {
        Ends(s, t, AtWorker(w), s.workers[w].key);
      }
    case _ => CloserInv(s, move);
  }

  lemma {:induction false} RunInv(s: Sys, trace: seq<Move>)
    requires Inv(s)
    ensures Inv(Run(s, trace))
  {
    hide Inv, Next;
    if trace != [] {
      RunInv(s, trace[..|trace| - 1]);
      NextInv(Run(s, trace[..|trace| - 1]), trace[|trace| - 1]);
    }
  }

  /** In every interleaving a key has at most one job anywhere in the executor, and every job
      accepted is completed, cancelled, dropped or still in flight. */
  lemma OneJobPerKeyAndNoneLost(size: int, workers: int, trace: seq<Move>)
    ensures var s := Run(Start(size, workers), trace);
            && (forall p, q, k :: At(s, p, k) && At(s, q, k) ==> p == q)
            && (forall k :: k in s.pool.flying <==> exists p :: At(s, p, k))
            && s.accepted == s.pool.completed + s.pool.cancelled + s.pool.dropped + |s.pool.flying|
  {
    RunInv(Start(size, workers), trace);
  }

  /** Jobs that ran to their end, jobs ended without running, and jobs given back unqueued. */
  datatype Fates = Fates(ran: nat, cancelled: nat, refused: nat)

  function FateOf(s: Sys, move: Move): Fates {
    match move
    case Ended(w) =>
      if w < |s.workers| && s.workers[w].Running? then Fates(1, 0, 0)
      else if w < |s.workers| && s.workers[w].Skipping? then Fates(0, 1, 0)
      else Fates(0, 0, 0)
    case Cancelled => if s.closer.Emptying? && s.closer.hand.Some? then Fates(0, 1, 0) else Fates(0, 0, 0)
    case Refused(k) => if k in s.refusing then Fates(0, 0, 1) else Fates(0, 0, 0)
    case _ => Fates(0, 0, 0)
  }

  function FatesOf(s: Sys, trace: seq<Move>): Fates {
    if trace == [] then Fates(0, 0, 0)
    else
      var n := |trace| - 1;
      var before, last := FatesOf(s, trace[..n]), FateOf(Run(s, trace[..n]), trace[n]);
      Fates(before.ran + last.ran, before.cancelled + last.cancelled, before.refused + last.refused)
  }

  lemma MoveCounts(s: Sys, move: Move)
    ensures var a, b, f := s.pool, Next(s, move).pool, FateOf(s, move);
            b.completed == a.completed + f.ran && b.cancelled == a.cancelled + f.cancelled
            && b.dropped == a.dropped + f.refused
  {
    hide Alive;
  }

  /** The three counters count what their names say. */
  lemma {:induction false} CountersTell(size: int, workers: int, trace: seq<Move>)
    ensures var pool := Run(Start(size, workers), trace).pool;
            Fates(pool.completed, pool.cancelled, pool.dropped) == FatesOf(Start(size, workers), trace)
  {
    if trace != [] {
      hide Next, FateOf;
      var n := |trace| - 1;
      CountersTell(size, workers, trace[..n]);
      MoveCounts(Run(Start(size, workers), trace[..n]), trace[n]);
    }
  }

  // ---------------------------------------------------------------- closing

  /** After `shutdown` has set the flag no job is chosen to run: a job running later was
      running already, at the same worker. */
  lemma {:induction false} NothingStartsAfterClosing(s: Sys, trace: seq<Move>)
    requires s.pool.closed
    ensures var t := Run(s, trace);
            && t.pool.closed && |t.workers| == |s.workers|
            && forall w :: 0 <= w < |t.workers| && t.workers[w].Running? ==> t.workers[w] == s.workers[w]
  {
    if trace != [] {
      NothingStartsAfterClosing(s, trace[..|trace| - 1]);
    }
  }

  lemma {:induction false} NoneAlive(workers: seq<Worker>)
    ensures Alive(workers) <= |workers|
    ensures Alive(workers) == 0 <==> forall w :: 0 <= w < |workers| ==> workers[w].Exited?
  {
    if workers != [] {
      NoneAlive(workers[..|workers| - 1]);
    }
  }

  lemma {:induction false} ExitedForGood(s: Sys, trace: seq<Move>)
    requires forall w :: 0 <= w < |s.workers| ==> s.workers[w].Exited?
    ensures Run(s, trace).workers == s.workers
  {
    if trace != [] {
      ExitedForGood(s, trace[..|trace| - 1]);
    }
  }

  /** `shutdown` returns True exactly if all workers have exited by then. */
  lemma ReturnsWhetherQuiet(s: Sys)
    requires s.closer.Joining?
    ensures Next(s, Joined).closer.Done?
    ensures Next(s, Joined).closer.result <==> forall w :: 0 <= w < |s.workers| ==> s.workers[w].Exited?
  {
    NoneAlive(s.workers);
  }

  /** Once `shutdown` has returned True no worker holds or runs a job, then or ever after. */
  lemma TrueMeansQuiet(s: Sys, trace: seq<Move>)
    requires s.closer.Joining? && Next(s, Joined).closer == Done(true)
    ensures var t := Run(Next(s, Joined), trace);
            forall w :: 0 <= w < |t.workers| ==> t.workers[w].Exited?
  {
    NoneAlive(s.workers);
    ExitedForGood(Next(s, Joined), trace);
  }

  // ---------------------------------------------------------------- stop signals

  function Stops(queue: seq<Item>): nat {
    if queue == [] then 0
    else Stops(queue[..|queue| - 1]) + if queue[|queue| - 1].Stop? then 1 else 0
  }

  lemma {:induction false} StopsBounded(queue: seq<Item>)
    ensures Stops(queue) <= |queue|
    ensures (forall i :: 0 <= i < |queue| ==> queue[i].Stop?) ==> Stops(queue) == |queue|
  {
    if queue != [] {
      StopsBounded(queue[..|queue| - 1]);
    }
  }

  /** Once `shutdown` has placed all signals it meant to, each live worker will find one. */
  ghost predicate Signalled(s: Sys) {
    s.closer == Joining(0) ==> Stops(s.pool.queue) >= Alive(s.workers)
  }

  /** No submitter is between accepting and queueing when `shutdown` sets its flag. */
  ghost predicate Prompt(size: int, workers: int, trace: seq<Move>) {
    forall i :: 0 <= i < |trace| && trace[i].Shut? && Run(Start(size, workers), trace[..i]).closer.Before? ==>
      Run(Start(size, workers), trace[..i]).putting == {}
  }

  ghost predicate OnlyStops(queue: seq<Item>) {
    forall i :: 0 <= i < |queue| ==> queue[i].Stop?
  }

  ghost predicate NoStops(queue: seq<Item>) {
    forall i :: 0 <= i < |queue| ==> queue[i].Job?
  }

  /** Signals placed and not yet taken, plus those still to place, are the live workers. */
  ghost predicate StopInv(s: Sys) {
    && Alive(s.workers) <= |s.workers| <= s.pool.cap
    && (s.pool.closed <==> !s.closer.Before?)
    && (s.pool.closed ==> s.putting == {})
    && match s.closer
       case Before => NoStops(s.pool.queue)
       case Emptying(_, left) => left.None? && NoStops(s.pool.queue)
       case Placing(left) => OnlyStops(s.pool.queue) && |s.pool.queue| + left == Alive(s.workers)
       case Joining(left) => OnlyStops(s.pool.queue) && |s.pool.queue| + left == Alive(s.workers)
       case Done(_) => true
  }

  lemma {:induction false} AliveUpdate(workers: seq<Worker>, w: nat, worker: Worker)
    requires w < |workers|
    ensures Alive(workers[w := worker]) + (if workers[w].Exited? then 0 else 1) ==
            Alive(workers) + (if worker.Exited? then 0 else 1)
  {
    var n := |workers| - 1;
    if w < n {
      AliveUpdate(workers[..n], w, worker);
      assert workers[w := worker][..n] == workers[..n][w := worker];
    } else {
      assert workers[w := worker][..n] == workers[..n];
    }
  }

  lemma NextStop(s: Sys, move: Move)
    requires StopInv(s)
    requires move.Shut? && s.closer.Before? ==> s.putting == {}
    ensures StopInv(Next(s, move))
  {
    hide Alive;
    var t := Next(s, move);
    match move
    case Got(w) =>
      if t != s {
        AliveUpdate(s.workers, w, t.workers[w]);
      }
    case Checked(w) =>
      if t != s {
        AliveUpdate(s.workers, w, t.workers[w]);
      }
    case Ended(w) =>
      if t != s {
        AliveUpdate(s.workers, w, t.workers[w]);
      }
    case _ =>
  }

  lemma {:induction false} AllAlive(n: nat)
    ensures Alive(seq(n, _ => Idle)) == n
  {
    if n > 0 {
      AllAlive(n - 1);
      assert seq(n, _ => Idle)[..n - 1] == seq<Worker>(n - 1, _ => Idle);
    }
  }

  lemma {:induction false} RunStop(size: int, workers: int, trace: seq<Move>)
    requires |Start(size, workers).workers| <= Start(size, workers).pool.cap
    requires Prompt(size, workers, trace)
    ensures StopInv(Run(Start(size, workers), trace))
  {
    if trace == [] {
      AllAlive(|Start(size, workers).workers|);
      assert Start(size, workers).workers == seq(|Start(size, workers).workers|, _ => Idle);
    } else {
      hide StopInv, Next, Start;
      var n := |trace| - 1;
      forall i | 0 <= i < n && trace[..n][i].Shut? && Run(Start(size, workers), trace[..n][..i]).closer.Before?
        ensures Run(Start(size, workers), trace[..n][..i]).putting == {}
      {
        assert trace[..n][..i] == trace[..i];
      }
      RunStop(size, workers, trace[..n]);
      NextStop(Run(Start(size, workers), trace[..n]), trace[n]);
    }
  }

  /** With room for one signal per worker and no submitter caught between accepting and
      queueing, every live worker gets its stop signal. */
  lemma EveryWorkerIsSignalled(size: nat, workers: nat, trace: seq<Move>)
    requires 1 <= workers <= size && Prompt(size, workers, trace)
    ensures Signalled(Run(Start(size, workers), trace))
  {
    RunStop(size, workers, trace);
    StopsBounded(Run(Start(size, workers), trace).pool.queue);
  }
}
