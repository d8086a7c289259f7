/** When the stop signals of `shutdown` are enough. A full queue makes `shutdown` empty it
    again, and that also throws away signals it has already counted as placed. */
module StopSignals {
  import opened Wrappers
  import opened DiagnosticPools
  import opened DiagnosticRuns

  /** On every run each live worker finds its signal; `late` also allows runs in which a
      submitter is between accepting and queueing when `shutdown` sets its flag. */
  ghost predicate AlwaysEnough(size: nat, workers: nat, late: bool) {
    forall trace :: late || Prompt(size, workers, trace) ==> Signalled(Run(Start(size, workers), trace))
  }

  // ---------------------------------------------------------------- one worker

  lemma {:induction false} StopsHead(queue: seq<Item>)
    requires queue != []
    ensures Stops(queue) == Stops(queue[1..]) + if queue[0].Stop? then 1 else 0
  {
    var n := |queue| - 1;
    if n > 0 {
      StopsHead(queue[..n]);
      assert queue[..n][1..] == queue[1..][..n - 1];
    }
  }

  lemma StopsAppend(queue: seq<Item>, item: Item)
    ensures Stops(queue + [item]) == Stops(queue) + if item.Stop? then 1 else 0
  {
  }

  /** With a single worker a signal is never in the queue while one is still to be placed. */
  ghost predicate SingleInv(s: Sys) {
    && |s.workers| == 1
    && (s.pool.closed <==> !s.closer.Before?)
    && match s.closer
       case Before => Stops(s.pool.queue) == 0 && Alive(s.workers) == 1
       case Emptying(_, left) =>
         Stops(s.pool.queue) == 0 && Alive(s.workers) == 1 && (left.Some? ==> left.value == 1)
       case Placing(left) =>
         && left <= 1
         && (left == 1 ==> Stops(s.pool.queue) == 0 && Alive(s.workers) == 1)
         && (left == 0 ==> Stops(s.pool.queue) >= Alive(s.workers))
       case Joining(left) =>
         && (left == 0 ==> Stops(s.pool.queue) >= Alive(s.workers))
       case Done(_) => true
  }

  lemma SingleAlive(workers: seq<Worker>)
    requires |workers| == 1
    ensures Alive(workers) == if workers[0].Exited? then 0 else 1
  {
  }

  lemma NextSingle(s: Sys, move: Move)
    requires SingleInv(s)
    ensures SingleInv(Next(s, move))
  {
    hide Alive, Stops;
    SingleAlive(s.workers);
    SingleAlive(Next(s, move).workers);
    if s.pool.queue != [] {
      StopsHead(s.pool.queue);
    }
    StopsAppend(s.pool.queue, Stop);
    if move.Queued? {
      StopsAppend(s.pool.queue, Job(move.key));
    }
  }

  lemma {:induction false} RunSingle(size: nat, trace: seq<Move>)
    ensures SingleInv(Run(Start(size, 1), trace))
  {
    hide Next, SingleInv;
    if trace == [] {
      StartSingle(size);
    } else {
      RunSingle(size, trace[..|trace| - 1]);
      NextSingle(Run(Start(size, 1), trace[..|trace| - 1]), trace[|trace| - 1]);
    }
  }

  lemma StartSingle(size: nat)
    ensures SingleInv(Start(size, 1))
  {
  }

  // ---------------------------------------------------------------- runs that lose signals

  lemma {:induction false} RunConcat(s: Sys, a: seq<Move>, b: seq<Move>)
    ensures Run(s, a + b) == Run(Run(s, a), b)
  {
    hide Next;
    if b == [] {
      assert a + b == a;
    } else {
      var n := |b| - 1;
      assert (a + b)[..|a| + n] == a + b[..n];
      RunConcat(s, a, b[..n]);
    }
  }

  lemma RunOne(s: Sys, move: Move)
    ensures Run(s, [move]) == Next(s, move)
  {
  }

  ghost predicate NoShut(trace: seq<Move>) {
    forall i :: 0 <= i < |trace| ==> !trace[i].Shut?
  }

  function Name(i: nat): Key {
    seq(i, _ => 'x')
  }

  /** The first n workers each run a job, the others wait, and nothing else is going on. */
  ghost predicate Running(s: Sys, n: nat) {
    && n <= |s.workers|
    && (forall w :: 0 <= w < n ==> s.workers[w].Running?)
    && (forall w :: n <= w < |s.workers| ==> s.workers[w].Idle?)
    && s.pool.queue == [] && s.putting == {} && s.refusing == {}
    && s.closer.Before? && !s.pool.closed && s.pool.cap >= 1
    && (forall k :: k in s.pool.flying ==> |k| < n)
  }

  lemma OneMoreRuns(s: Sys, n: nat)
    requires Running(s, n) && n < |s.workers|
    ensures var k := Name(n);
            Running(Next(Next(Next(Next(s, Entered(k)), Queued(k)), Got(n)), Checked(n)), n + 1)
  {
  }

  lemma RunFour(s: Sys, a: Move, b: Move, c: Move, d: Move)
    ensures Run(s, [a, b, c, d]) == Next(Next(Next(Next(s, a), b), c), d)
  {
    assert [a, b, c, d] == (([a] + [b]) + [c]) + [d];
    RunConcat(s, ([a] + [b]) + [c], [d]);
    RunConcat(s, [a] + [b], [c]);
    RunConcat(s, [a], [b]);
    RunOne(s, a);
    RunOne(Next(s, a), b);
    RunOne(Next(Next(s, a), b), c);
    RunOne(Next(Next(Next(s, a), b), c), d);
  }

  /** The moves by which the n-th worker gets its job. */
  function Assigned(n: nat): seq<Move> {
    [Entered(Name(n)), Queued(Name(n)), Got(n), Checked(n)]
  }

  lemma OneMoreBusy(s: Sys, before: seq<Move>, n: nat)
    requires Running(Run(s, before), n) && n < |Run(s, before).workers|
    ensures Running(Run(s, before + Assigned(n)), n + 1)
    ensures |Run(s, before + Assigned(n)).workers| == |Run(s, before).workers|
    ensures Run(s, before + Assigned(n)).pool.cap == Run(s, before).pool.cap
  {
    hide Running, Next, Run, Name;
    var t := Run(s, before);
    var more := Assigned(n);
    OneMoreRuns(t, n);
    RunConcat(s, before, more);
    RunFour(t, more[0], more[1], more[2], more[3]);
    RunKeeps(t, more);
  }

  lemma {:induction false} AllBusy(s: Sys, n: nat) returns (trace: seq<Move>)
    requires Running(s, 0) && n <= |s.workers|
    ensures NoShut(trace) && Running(Run(s, trace), n)
    ensures |Run(s, trace).workers| == |s.workers| && Run(s, trace).pool.cap == s.pool.cap
  {
    hide Running, Next;
    if n == 0 {
      trace := [];
    } else {
      var before := AllBusy(s, n - 1);
      trace := before + Assigned(n - 1);
      OneMoreBusy(s, before, n - 1);
    }
  }

  lemma {:induction false} RunKeeps(s: Sys, trace: seq<Move>)
    ensures |Run(s, trace).workers| == |s.workers| && Run(s, trace).pool.cap == s.pool.cap
  {
    if trace != [] {
      RunKeeps(s, trace[..|trace| - 1]);
    }
  }

  /** Emptying a queue in which every job's key is in nobody else's hands. */
  lemma {:induction false} Empties(s: Sys) returns (more: seq<Move>)
    requires s.closer.Emptying? && s.closer.hand.None? && s.closer.left.Some?
    ensures NoShut(more)
    ensures var t := Run(s, more);
            && t == s.(pool := t.pool, closer := Placing(s.closer.left.value))
            && t.pool.queue == [] && t.pool.cap == s.pool.cap
    decreases |s.pool.queue|
  {
    var t := Next(s, Drew);
    RunOne(s, Drew);
    if s.pool.queue == [] {
      more := [Drew];
    } else if t.closer.hand.None? {
      var rest := Empties(t);
      more := [Drew] + rest;
      RunConcat(s, [Drew], rest);
    } else {
      var u := Next(t, Cancelled);
      var rest := Empties(u);
      more := [Drew] + ([Cancelled] + rest);
      RunConcat(s, [Drew], [Cancelled] + rest);
      RunConcat(t, [Cancelled], rest);
      RunOne(t, Cancelled);
    }
  }

  /** If no worker takes anything meanwhile, `shutdown` gets through placing its signals, but
      no more of them are left than fit, nor more than it still counted as missing. */
  lemma {:induction false} Places(s: Sys) returns (more: seq<Move>)
    requires s.closer.Placing? && s.pool.cap >= 1 && |s.pool.queue| <= s.pool.cap
    ensures NoShut(more)
    ensures var t := Run(s, more);
            && t == s.(pool := t.pool, closer := Joining(0))
            && |t.pool.queue| <= s.pool.cap
            && |t.pool.queue| <= |s.pool.queue| + s.closer.remaining
    decreases s.closer.remaining, |s.pool.queue|
  {
    var t := Next(s, Placed);
    RunOne(s, Placed);
    if s.closer.remaining == 0 {
      more := [Placed];
    } else if HasRoom(s.pool) {
      var rest := Places(t);
      more := [Placed] + rest;
      RunConcat(s, [Placed], rest);
    } else {
      var middle := Empties(t);
      var rest := Places(Run(t, middle));
      more := [Placed] + (middle + rest);
      RunConcat(s, [Placed], middle + rest);
      RunConcat(t, middle, rest);
    }
  }

  lemma {:induction false} NoneExited(workers: seq<Worker>)
    requires forall w :: 0 <= w < |workers| ==> !workers[w].Exited?
    ensures Alive(workers) == |workers|
  {
    if workers != [] {
      NoneExited(workers[..|workers| - 1]);
    }
  }

  /** Once `shutdown` is placing signals among workers that all stay busy, some run loses one
      unless all that are still missing fit beside those in the queue. */
  lemma LosesOne(s: Sys, before: seq<Move>) returns (more: seq<Move>)
    requires var t := Run(s, before);
             && t.closer.Placing? && t.pool.cap >= 1 && |t.pool.queue| <= t.pool.cap
             && (forall w :: 0 <= w < |t.workers| ==> !t.workers[w].Exited?)
             && (t.pool.cap < |t.workers| || |t.pool.queue| + t.closer.remaining < |t.workers|)
    ensures NoShut(more) && !Signalled(Run(s, before + more))
  {
    hide Next, Alive, Stops;
    var t := Run(s, before);
    more := Places(t);
    RunConcat(s, before, more);
    NoneExited(t.workers);
    StopsBounded(Run(t, more).pool.queue);
  }

  /** From all workers busy to the first signal about to be placed. */
  lemma Shuts(s: Sys, before: seq<Move>, n: nat)
    requires Running(Run(s, before), n) && n == |Run(s, before).workers|
    ensures var u := Run(s, (before + [Shut]) + [Drew]);
            && u.closer == Placing(n) && u.pool.queue == [] && u.workers == Run(s, before).workers
            && u.pool.cap == Run(s, before).pool.cap
  {
    var t := Run(s, before);
    RunConcat(s, before + [Shut], [Drew]);
    RunConcat(s, before, [Shut]);
    RunOne(t, Shut);
    RunOne(Next(t, Shut), Drew);
    NoneExited(t.workers);
  }

  lemma StartRuns(size: nat, workers: nat)
    requires size >= 1 && workers >= 1
    ensures var s := Start(size, workers); Running(s, 0) && |s.workers| == workers && s.pool.cap == size
  {
  }

  /** With fewer places in the queue than busy workers, signals are lost. */
  lemma TooFewPlaces(size: nat, workers: nat)
    requires 1 <= size < workers
    ensures !AlwaysEnough(size, workers, false)
  {
    hide Running, Next, Signalled, Start, Run;
    var s := Start(size, workers);
    StartRuns(size, workers);
    var busy := AllBusy(s, workers);
    Shuts(s, busy, workers);
    RunningWorkers(Run(s, busy), workers);
    var rest := LosesOne(s, (busy + [Shut]) + [Drew]);
    var trace := ((busy + [Shut]) + [Drew]) + rest;
    ShutOnce(s, busy, [Drew] + rest);
    assert trace == (busy + [Shut]) + ([Drew] + rest);
    assert Prompt(size, workers, trace);
  }

  lemma RunningWorkers(s: Sys, n: nat)
    requires Running(s, n)
    ensures s.putting == {} && forall w :: 0 <= w < n ==> !s.workers[w].Exited?
  {
  }

  /** The only Shut of a run comes when no submitter is under way. */
  lemma ShutOnce(s: Sys, before: seq<Move>, after: seq<Move>)
    requires NoShut(before) && NoShut(after) && Run(s, before).putting == {}
    ensures var trace := (before + [Shut]) + after;
            forall i :: 0 <= i < |trace| && trace[i].Shut? ==> Run(s, trace[..i]).putting == {}
  {
    var trace := (before + [Shut]) + after;
    assert trace[..|before|] == before;
    assert forall i :: 0 <= i < |before| ==> trace[i] == before[i];
    assert forall i :: |before| < i < |trace| ==> trace[i] == after[i - |before| - 1];
  }

  // ---------------------------------------------------------------- submitters caught half-way

  /** As Running, with m more submitters between accepting and queueing. */
  ghost predicate Caught(s: Sys, n: nat, m: nat) {
    && |s.workers| == n && (forall w :: 0 <= w < n ==> s.workers[w].Running?)
    && s.pool.queue == [] && s.closer.Before? && !s.pool.closed
    && (forall i :: n <= i < n + m ==> Name(i) in s.putting)
    && (forall k :: k in s.pool.flying ==> |k| < n + m)
  }

  lemma {:induction false} Enters(s: Sys, n: nat, m: nat) returns (more: seq<Move>)
    requires Running(s, n) && n == |s.workers|
    ensures NoShut(more) && Caught(Run(s, more), n, m) && Run(s, more).pool.cap == s.pool.cap
  {
    if m == 0 {
      more := [];
    } else {
      var rest := Enters(s, n, m - 1);
      var k := Name(n + m - 1);
      more := rest + [Entered(k)];
      assert more[..|rest|] == rest;
      assert |k| == n + m - 1;
    }
  }

  lemma QueueOne(s: Sys, k: Key)
    requires s.closer.Placing? && HasRoom(s.pool) && k in s.putting
    ensures var t := Next(s, Queued(k));
            t == s.(pool := Put(s.pool, Job(k)), putting := s.putting - {k})
  {
  }

  /** The caught submitters queue their jobs although `shutdown` has begun. */
  lemma {:induction false} QueueLate(s: Sys, n: nat, m: nat) returns (more: seq<Move>)
    requires s.closer.Placing? && |s.pool.queue| + m <= s.pool.cap
    requires forall i :: n <= i < n + m ==> Name(i) in s.putting
    ensures NoShut(more)
    ensures var t := Run(s, more);
            && t == s.(pool := s.pool.(queue := t.pool.queue), putting := t.putting)
            && |t.pool.queue| == |s.pool.queue| + m
            && (forall k :: k in s.putting && |k| >= n + m ==> k in t.putting)
  {
    hide Next;
    if m == 0 {
      more := [];
    } else {
      var rest := QueueLate(s, n, m - 1);
      var k := Name(n + m - 1);
      more := rest + [Queued(k)];
      assert more[..|rest|] == rest;
      assert |k| == n + m - 1;
      QueueOne(Run(s, rest), k);
    }
  }

  /** The queue is full of one signal and late jobs: it is emptied, signal included. */
  lemma SignalThrownAway(s: Sys) returns (more: seq<Move>)
    requires s.closer.Placing? && s.closer.remaining >= 1 && |s.pool.queue| == s.pool.cap >= 1
    ensures var t := Run(s, more);
            t == s.(pool := t.pool) && t.pool.queue == [] && t.pool.cap == s.pool.cap
  {
    var t := Next(s, Placed);
    var rest := Empties(t);
    more := [Placed] + rest;
    RunConcat(s, [Placed], rest);
    RunOne(s, Placed);
  }

  /** `shutdown` up to its first stop signal. */
  lemma ShutAmongLate(s: Sys, n: nat, m: nat)
    requires Caught(s, n, m) && n >= 1 && s.pool.cap >= 1
    ensures var t := Next(Next(Next(s, Shut), Drew), Placed);
            && t == s.(pool := t.pool, closer := Placing(n - 1))
            && |t.pool.queue| == 1 && t.pool.cap == s.pool.cap
  {
    NoneExited(s.workers);
  }

  /** From a state in which jobs are caught half-way, a signal can be lost however large the
      queue is. */
  lemma LateJobs(s: Sys, n: nat) returns (more: seq<Move>)
    requires 2 <= n <= s.pool.cap && Caught(s, n, s.pool.cap - 1)
    ensures !Signalled(Run(s, more))
  {
    hide Next, Signalled, Run, Caught;
    var m := s.pool.cap - 1;
    assert (forall w :: 0 <= w < n ==> !s.workers[w].Exited?) && |s.workers| == n
           && forall i :: n <= i < n + m ==> Name(i) in s.putting by { CaughtMeans(s, n, m); }
    var a := [Shut] + ([Drew] + [Placed]);
    RunConcat(s, [Shut], [Drew] + [Placed]);
    RunOne(s, Shut);
    var s1 := Next(s, Shut);
    RunConcat(s1, [Drew], [Placed]);
    RunOne(s1, Drew);
    RunOne(Next(s1, Drew), Placed);
    ShutAmongLate(s, n, m);
    var t := Run(s, a);
    var b := QueueLate(t, n, m);
    var u := Run(t, b);
    var c := SignalThrownAway(u);
    RunConcat(s, a, b);
    RunConcat(s, a + b, c);
    var d := LosesOne(s, (a + b) + c);
    more := ((a + b) + c) + d;
  }

  lemma CaughtMeans(s: Sys, n: nat, m: nat)
    requires Caught(s, n, m)
    ensures (forall w :: 0 <= w < n ==> !s.workers[w].Exited?) && |s.workers| == n
    ensures forall i :: n <= i < n + m ==> Name(i) in s.putting
  {
  }

  lemma CaughtHalfWay(size: nat, workers: nat)
    requires 2 <= workers <= size
    ensures !AlwaysEnough(size, workers, true)
  {
    hide Running, Caught, Next, Signalled, Start, Run;
    var s := Start(size, workers);
    StartRuns(size, workers);
    var busy := AllBusy(s, workers);
    var t := Run(s, busy);
    var more := Enters(t, workers, size - 1);
    RunConcat(s, busy, more);
    var rest := LateJobs(Run(t, more), workers);
    RunConcat(s, busy + more, rest);
    assert !Signalled(Run(s, (busy + more) + rest));
  }

  /** Every live worker is always signalled exactly when there is one worker, or the queue has
      room for all signals and no submitter is caught between accepting and queueing. */
  lemma EnoughIff(size: nat, workers: nat, late: bool)
    requires size >= 1 && workers >= 1
    ensures AlwaysEnough(size, workers, late) <==> workers == 1 || (workers <= size && !late)
  {
    hide Signalled, Run, Start, Prompt;
    if workers == 1 {
      forall trace
        ensures Signalled(Run(Start(size, workers), trace))
      {
        RunSingle(size, trace);
        SingleSignalled(Run(Start(size, workers), trace));
      }
    } else if workers > size {
      TooFewPlaces(size, workers);
      assert !AlwaysEnough(size, workers, late);
    } else if late {
      CaughtHalfWay(size, workers);
    } else {
      forall trace | Prompt(size, workers, trace)
        ensures Signalled(Run(Start(size, workers), trace))
      {
        EveryWorkerIsSignalled(size, workers, trace);
      }
    }
  }

  lemma SingleSignalled(s: Sys)
    requires SingleInv(s)
    ensures Signalled(s)
  {
  }

  // ---------------------------------------------------------------- shutdown returns

  predicate OfCloser(move: Move) {
    move.Drew? || move.Cancelled? || move.TimedOut? || move.Joined?
  }

  /** Two steps for each waiting job, and a few to come back. */
  function StepsLeft(s: Sys): nat
    requires !s.closer.Before?
  {
    match s.closer
    case Emptying(hand, _) => 2 * |s.pool.queue| + if hand.Some? then 4 else 3
    case Placing(_) => 2
    case Joining(_) => 1
    case Done(_) => 0
  }

  /** Once begun, `shutdown` returns by its own steps alone, whatever the workers do not do. */
  lemma {:induction false} ReturnsAlone(s: Sys) returns (more: seq<Move>)
    requires !s.closer.Before?
    ensures Run(s, more).closer.Done?
    ensures |more| <= StepsLeft(s) <= 2 * |s.pool.queue| + 4
    ensures forall i :: 0 <= i < |more| ==> OfCloser(more[i])
    decreases StepsLeft(s)
  {
    if s.closer.Done? {
      more := [];
    } else {
      var own := match s.closer
                 case Emptying(hand, _) => if hand.Some? then Cancelled else Drew
                 case Placing(_) => TimedOut
                 case _ => Joined;
      var rest := ReturnsAlone(Next(s, own));
      more := [own] + rest;
      RunConcat(s, [own], rest);
      RunOne(s, own);
    }
  }
}
