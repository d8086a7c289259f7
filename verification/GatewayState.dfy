/** The part of the gateway state that command polls and config fetches update: the window of
    known command ids, the queue, and the nonces that trigger a refresh. */
module GatewayStates {
  import opened Wrappers

  const MAX_SEEN := 10000

  datatype Command = Command(id: int, payload: string)

  /** `nonce` is the last value seen, `pending` the one-shot trigger. */
  datatype Trigger = Trigger(nonce: int, pending: bool)

  function LastOf(ids: seq<int>, n: nat): seq<int> {
    if |ids| <= n then ids else ids[|ids| - n..]
  }

  /** The window after an id has been queued. */
  function Remember(order: seq<int>, id: int): seq<int> {
    LastOf(order + [id], MAX_SEEN)
  }

  function Raise(t: Trigger, nonce: int): Trigger {
    if nonce > t.nonce then Trigger(nonce, true) else Trigger(nonce, t.pending)
  }

  /** A config fetch that is not behind settles the trigger of the command poll. */
  function Settle(t: Trigger, nonce: int): Trigger {
    if nonce >= t.nonce then Trigger(nonce, false) else t
  }

  /** The state as a value; the set of known ids is that of `order`. */
  datatype State = State(order: seq<int>, queue: seq<Command>, refresh: Trigger, config: Trigger)

  /** `apply_pending_poll` */
  function Polled(s: State, cmds: seq<Command>, configNonce: int, refreshNonce: int): State {
    var q := QueueAll(s.order, s.queue, cmds);
    State(q.0, q.1, Raise(s.refresh, refreshNonce), Raise(s.config, configNonce))
  }

  /** The nonce and queue part of `update`. */
  function Configured(s: State, cmds: seq<Command>, configNonce: int, refreshNonce: int): State {
    var q := QueueAll(s.order, s.queue, cmds);
    State(q.0, q.1, Raise(s.refresh, refreshNonce), Settle(s.config, configNonce))
  }

  /** `take_refresh_request` */
  function Taken(s: State): State {
    s.(refresh := s.refresh.(pending := false))
  }

  /** `take_config_refresh_request` */
  function ConfigTaken(s: State): State {
    s.(config := s.config.(pending := false))
  }

  class GatewayState {
    var seen: set<int>
    var order: seq<int>
    var queue: seq<Command>
    var refresh: Trigger
    var config: Trigger

    ghost predicate Valid()
      reads this
    {
      && seen == (set id | id in order)
      && |order| <= MAX_SEEN
      && (forall i, j :: 0 <= i < j < |order| ==> order[i] != order[j])
    }

    ghost function View(): State
      reads this
    {
      State(order, queue, refresh, config)
    }

    constructor ()
      ensures Valid() && View() == State([], [], Trigger(0, false), Trigger(0, false))
    {
      seen, order, queue := {}, [], [];
      refresh, config := Trigger(0, false), Trigger(0, false);
    }

    /** `_queue_command_unsafe` */
    method QueueCommand(cmd: Command) returns (queued: bool)
      requires Valid()
      modifies this`seen, this`order, this`queue
      ensures Valid()
      ensures queued <==> cmd.id !in old(order)
      ensures queued ==> order == Remember(old(order), cmd.id) && queue == old(queue) + [cmd]
      ensures !queued ==> order == old(order) && queue == old(queue)
    {
      if cmd.id in seen {
        return false;
      }
      seen := seen + {cmd.id};
      order := order + [cmd.id];
      while |order| > MAX_SEEN
        invariant queue == old(queue) && seen == (set id | id in order)
        invariant forall i, j :: 0 <= i < j < |order| ==> order[i] != order[j]
        invariant order == old(order) + [cmd.id] || order == Remember(old(order), cmd.id)
      {
        var oldest := order[0];
        seen := seen - {oldest};
        order := order[1..];
      }
      queue := queue + [cmd];
      queued := true;
      forall id | id in seen
        ensures id in order
      {
        assert id in old(order) + [cmd.id];
      }
    }

    method TakeCommands() returns (cmds: seq<Command>)
      requires Valid()
      modifies this`queue
      ensures Valid() && cmds == old(queue) && queue == []
    {
      cmds, queue := queue, [];
    }

    /** `apply_pending_poll` */
    method ApplyPoll(cmds: seq<Command>, configNonce: int, refreshNonce: int)
      requires Valid()
      modifies this
      ensures Valid()
      ensures View() == Polled(old(View()), cmds, configNonce, refreshNonce)
    {
      QueueCommands(cmds);
      if configNonce > config.nonce {
        config := Trigger(configNonce, true);
      } else if configNonce < config.nonce {
        config := config.(nonce := configNonce);
      }
      if refreshNonce > refresh.nonce {
        refresh := Trigger(refreshNonce, true);
      } else if refreshNonce < refresh.nonce {
        refresh := refresh.(nonce := refreshNonce);
      }
    }

    /** The nonce and queue part of `update`. */
    method ApplyConfig(cmds: seq<Command>, configNonce: int, refreshNonce: int)
      requires Valid()
      modifies this
      ensures Valid()
      ensures View() == Configured(old(View()), cmds, configNonce, refreshNonce)
    {
      if refreshNonce > refresh.nonce {
        refresh := Trigger(refreshNonce, true);
      } else if refreshNonce < refresh.nonce {
        refresh := refresh.(nonce := refreshNonce);
      }
      if configNonce >= config.nonce {
        config := Trigger(configNonce, false);
      }
      QueueCommands(cmds);
    }

    method QueueCommands(cmds: seq<Command>)
      requires Valid()
      modifies this`seen, this`order, this`queue
      ensures Valid()
      ensures (order, queue) == QueueAll(old(order), old(queue), cmds)
    {
      for i := 0 to |cmds|
        invariant Valid()
        invariant (order, queue) == QueueAll(old(order), old(queue), cmds[..i])
      {
        assert cmds[..i + 1][..i] == cmds[..i];
        var _ := QueueCommand(cmds[i]);
      }
      assert cmds[..|cmds|] == cmds;
    }

    /** `take_refresh_request`: the trigger is consumed. */
    method TakeRefresh() returns (due: bool)
      modifies this`refresh
      ensures due == old(refresh).pending && View() == Taken(old(View()))
    {
      due := refresh.pending;
      if due {
        refresh := refresh.(pending := false);
      }
    }

    /** `take_config_refresh_request` */
    method TakeConfig() returns (due: bool)
      modifies this`config
      ensures due == old(config).pending && View() == ConfigTaken(old(View()))
    {
      due := config.pending;
      if due {
        config := config.(pending := false);
      }
    }
  }

  /** Offering commands one after the other. */
  function QueueAll(order: seq<int>, queue: seq<Command>, cmds: seq<Command>): (seq<int>, seq<Command>) {
    if cmds == [] then (order, queue)
    else
      var before := QueueAll(order, queue, cmds[..|cmds| - 1]);
      var cmd := cmds[|cmds| - 1];
      if cmd.id in before.0 then before else (Remember(before.0, cmd.id), before.1 + [cmd])
  }

  // ---------------------------------------------------------------- the window over a run

  function Ids(cmds: seq<Command>): seq<int> {
    seq(|cmds|, i requires 0 <= i < |cmds| => cmds[i].id)
  }

  /** The window always holds the last ids that were queued. */
  lemma {:induction false} WindowIsLast(cmds: seq<Command>)
    ensures var q := QueueAll([], [], cmds); q.0 == LastOf(Ids(q.1), 10000)
  {
    if cmds != [] {
      var n := |cmds| - 1;
      WindowIsLast(cmds[..n]);
      var before := QueueAll([], [], cmds[..n]);
      if cmds[n].id !in before.0 {
        assert Ids(before.1 + [cmds[n]]) == Ids(before.1) + [cmds[n].id];
        LastAppend(Ids(before.1), cmds[n].id);
      }
    }
  }

  lemma LastAppend(ids: seq<int>, id: int)
    ensures LastOf(LastOf(ids, MAX_SEEN) + [id], MAX_SEEN) == LastOf(ids + [id], MAX_SEEN)
  {
  }

  /** Over any sequence of offers, with nothing taken out of account, an id is queued a second
      time only after at least 10000 others. */
  lemma {:induction false} RequeuedOnlyBeyondWindow(cmds: seq<Command>, i: nat, j: nat)
    requires var q := QueueAll([], [], cmds).1; i < j < |q| && q[i].id == q[j].id
    ensures j - i > 10000
  {
    var n := |cmds| - 1;
    var before := QueueAll([], [], cmds[..n]);
    var q := QueueAll([], [], cmds).1;
    if j < |before.1| {
      RequeuedOnlyBeyondWindow(cmds[..n], i, j);
    } else {
      WindowIsLast(cmds[..n]);
      var ids := Ids(before.1);
      assert ids[i] == q[i].id;
      LastHas(ids, i);
    }
  }

  lemma LastHas(ids: seq<int>, i: nat)
    requires i < |ids|
    ensures |ids| - i <= MAX_SEEN ==> ids[i] in LastOf(ids, MAX_SEEN)
  {
  }

  // ---------------------------------------------------------------- refresh triggers over a run

  /** One poll or config answer, and whether the poller takes the trigger before the next one.
      Taking it twice in a row finds nothing the second time. */
  datatype Round = Round(config: bool, cmds: seq<Command>, configNonce: int, refreshNonce: int, taken: bool)

  function Observe(s: State, r: Round): State {
    if r.config then Configured(s, r.cmds, r.configNonce, r.refreshNonce)
    else Polled(s, r.cmds, r.configNonce, r.refreshNonce)
  }

  function Step(s: State, r: Round): State {
    if r.taken then Taken(Observe(s, r)) else Observe(s, r)
  }

  function Run(s: State, rounds: seq<Round>): State {
    if rounds == [] then s else Step(Run(s, rounds[..|rounds| - 1]), rounds[|rounds| - 1])
  }

  /** The n-th nonce the gateway has seen, the one it started with being number 0. */
  function Nonce(s: State, rounds: seq<Round>, n: nat): int
    requires n <= |rounds|
  {
    if n == 0 then s.refresh.nonce else rounds[n - 1].refreshNonce
  }

  lemma {:induction false} NonceIsLast(s: State, rounds: seq<Round>)
    ensures Run(s, rounds).refresh.nonce == Nonce(s, rounds, |rounds|)
  {
    if rounds != [] {
      NonceIsLast(s, rounds[..|rounds| - 1]);
    }
  }

  /** The backend's count reaches v for the gateway at observation n: it was below and is not
      any more. What is counted at the start has been reached there. */
  predicate Reaches(s: State, rounds: seq<Round>, n: nat, v: int)
    requires n <= |rounds|
  {
    v <= Nonce(s, rounds, n) && (n == 0 || Nonce(s, rounds, n - 1) < v)
  }

  /** In round p the poller takes a trigger that count v has raised since the last take. */
  ghost predicate Serves(s: State, rounds: seq<Round>, p: nat, v: int)
    requires p < |rounds|
  {
    rounds[p].taken
    && exists n :: 1 <= n <= p + 1 && Reaches(s, rounds, n, v) && Untaken(rounds, n - 1, p)
  }

  /** Nothing is taken in the rounds from `from` up to but not including `to`. */
  ghost predicate Untaken(rounds: seq<Round>, from: nat, to: nat)
    requires to <= |rounds|
  {
    forall k :: from <= k < to ==> !rounds[k].taken
  }

  /** The trigger is up before the take of round p exactly if some count raised it since the
      last take. */
  lemma {:induction false} PendingMeansRaised(s: State, rounds: seq<Round>, p: nat)
    requires p < |rounds| && !s.refresh.pending
    ensures Observe(Run(s, rounds[..p]), rounds[p]).refresh.pending <==>
              exists n, v :: 1 <= n <= p + 1 && Reaches(s, rounds, n, v) && Untaken(rounds, n - 1, p)
  {
    NonceIsLast(s, rounds[..p]);
    assert p > 0 ==> Nonce(s, rounds[..p], p) == Nonce(s, rounds, p);
    var raised := exists n, v :: 1 <= n <= p + 1 && Reaches(s, rounds, n, v) && Untaken(rounds, n - 1, p);
    if rounds[p].refreshNonce > Nonce(s, rounds, p) {
      assert Reaches(s, rounds, p + 1, rounds[p].refreshNonce) && Untaken(rounds, p, p);
    } else if p > 0 {
      assert rounds[..p][..p - 1] == rounds[..p - 1];
      PendingMeansRaised(s, rounds, p - 1);
      if raised {
        var n, v :| 1 <= n <= p + 1 && Reaches(s, rounds, n, v) && Untaken(rounds, n - 1, p);
        assert n <= p;
        assert Untaken(rounds, n - 1, p - 1) && !rounds[p - 1].taken;
      }
      if !rounds[p - 1].taken {
        forall n, v | 1 <= n <= p && Reaches(s, rounds, n, v) && Untaken(rounds, n - 1, p - 1)
          ensures Untaken(rounds, n - 1, p)
        {
        }
      }
    }
  }

  /** An observation goes back while a higher count was seen before, and a later one is higher
      again: a config answer prepared before the poll that it is overtaken by. */
  ghost predicate LateAnswer(s: State, rounds: seq<Round>) {
    exists i, j, k :: 0 <= i < j < k <= |rounds| && Nonce(s, rounds, j) < Nonce(s, rounds, i)
                      && Nonce(s, rounds, j) < Nonce(s, rounds, k)
  }

  ghost predicate ReachedOnce(s: State, rounds: seq<Round>) {
    forall m, n, v :: 0 <= m < n <= |rounds| && Reaches(s, rounds, m, v) ==> !Reaches(s, rounds, n, v)
  }

  /** A count that is below v at j, or not observed before (j = -1), and not below it at k. */
  lemma {:induction false} ReachedBetween(s: State, rounds: seq<Round>, j: int, k: nat, v: int) returns (b: nat)
    requires -1 <= j < k <= |rounds| && (j >= 0 ==> Nonce(s, rounds, j) < v) && v <= Nonce(s, rounds, k)
    ensures j < b <= k && Reaches(s, rounds, b, v)
    decreases k
  {
    b := k;
    if k > 0 && v <= Nonce(s, rounds, k - 1) {
      b := ReachedBetween(s, rounds, j, k - 1, v);
    }
  }

  lemma LateReachesTwice(s: State, rounds: seq<Round>)
    requires LateAnswer(s, rounds)
    ensures !ReachedOnce(s, rounds)
  {
    var i, j, k :| 0 <= i < j < k <= |rounds| && Nonce(s, rounds, j) < Nonce(s, rounds, i)
                   && Nonce(s, rounds, j) < Nonce(s, rounds, k);
    hide Nonce, Reaches;
    var a := ReachedBetween(s, rounds, -1, i, Nonce(s, rounds, j) + 1);
    var b := ReachedBetween(s, rounds, j, k, Nonce(s, rounds, j) + 1);
  }

  lemma TwiceReachedIsLate(s: State, rounds: seq<Round>, m: nat, n: nat, v: int)
    requires m < n <= |rounds| && Reaches(s, rounds, m, v) && Reaches(s, rounds, n, v)
    ensures LateAnswer(s, rounds)
  {
    assert Nonce(s, rounds, n - 1) < v <= Nonce(s, rounds, m) && v <= Nonce(s, rounds, n);
    assert m < n - 1;
  }

  /** Every count is reached at most once, those of the start included, exactly if no answer
      comes late. */
  lemma ReachedOnceIff(s: State, rounds: seq<Round>)
    ensures ReachedOnce(s, rounds) <==> !LateAnswer(s, rounds)
  {
    hide LateAnswer, Reaches;
    if LateAnswer(s, rounds) {
      LateReachesTwice(s, rounds);
    } else {
      forall m, n, v | 0 <= m < n <= |rounds| && Reaches(s, rounds, m, v)
        ensures !Reaches(s, rounds, n, v)
      {
        if Reaches(s, rounds, n, v) {
          TwiceReachedIsLate(s, rounds, m, n, v);
        }
      }
    }
  }

  /** Each count is refreshed for at most once, and not at all if it was there at the start. */
  ghost predicate RefreshedOnce(s: State, rounds: seq<Round>) {
    && (forall p, q, v :: 0 <= p < q < |rounds| && Serves(s, rounds, p, v) ==> !Serves(s, rounds, q, v))
    && (forall p, v :: 0 <= p < |rounds| && v <= s.refresh.nonce ==> !Serves(s, rounds, p, v))
  }

  /** The same polls and config answers, with the trigger taken at other times. */
  ghost predicate SameAnswers(a: seq<Round>, b: seq<Round>) {
    |a| == |b| && forall i :: 0 <= i < |a| ==> a[i].(taken := false) == b[i].(taken := false)
  }

  lemma ReachedThenRefreshed(s: State, rounds: seq<Round>)
    requires ReachedOnce(s, rounds)
    ensures RefreshedOnce(s, rounds)
  {
    forall p, q, v | 0 <= p < q < |rounds| && Serves(s, rounds, p, v)
      ensures !Serves(s, rounds, q, v)
    {
      var n :| 1 <= n <= p + 1 && Reaches(s, rounds, n, v) && Untaken(rounds, n - 1, p);
      forall m | 1 <= m <= q + 1 && Reaches(s, rounds, m, v) && Untaken(rounds, m - 1, q)
        ensures false
      {
      }
    }
    forall p, v | 0 <= p < |rounds| && v <= s.refresh.nonce
      ensures !Serves(s, rounds, p, v)
    {
      assert Reaches(s, rounds, 0, v);
    }
  }

  function TakenAlways(rounds: seq<Round>): seq<Round> {
    seq(|rounds|, i requires 0 <= i < |rounds| => rounds[i].(taken := true))
  }

  lemma ReachedTwiceRefreshedTwice(s: State, rounds: seq<Round>)
    requires !ReachedOnce(s, rounds)
    ensures SameAnswers(rounds, TakenAlways(rounds)) && !RefreshedOnce(s, TakenAlways(rounds))
  {
    var often := TakenAlways(rounds);
    var m, n, v :| 0 <= m < n <= |rounds| && Reaches(s, rounds, m, v) && Reaches(s, rounds, n, v);
    assert Reaches(s, often, n, v) && Untaken(often, n - 1, n - 1);
    assert Serves(s, often, n - 1, v);
    if m > 0 {
      assert Reaches(s, often, m, v) && Untaken(often, m - 1, m - 1);
      assert Serves(s, often, m - 1, v);
    }
  }

  /** Each increment of the backend's count refreshes at most once, whenever the poller takes
      the trigger, exactly if no config answer comes late. */
  lemma RefreshedOnceIff(s: State, rounds: seq<Round>)
    ensures (forall other :: SameAnswers(rounds, other) ==> RefreshedOnce(s, other)) <==> !LateAnswer(s, rounds)
  {
    hide RefreshedOnce, LateAnswer;
    ReachedOnceIff(s, rounds);
    if ReachedOnce(s, rounds) {
      forall other | SameAnswers(rounds, other)
        ensures RefreshedOnce(s, other)
      {
        SameReached(s, rounds, other);
        ReachedThenRefreshed(s, other);
      }
    } else {
      ReachedTwiceRefreshedTwice(s, rounds);
    }
  }

  lemma SameReached(s: State, a: seq<Round>, b: seq<Round>)
    requires SameAnswers(a, b) && ReachedOnce(s, a)
    ensures ReachedOnce(s, b)
  {
    forall n | 0 <= n <= |a|
      ensures Nonce(s, a, n) == Nonce(s, b, n)
    {
      assert n > 0 ==> a[n - 1].(taken := false) == b[n - 1].(taken := false);
    }
    forall n: nat, v | n <= |a|
      ensures Reaches(s, a, n, v) <==> Reaches(s, b, n, v)
    {
    }
  }

  /** It happens: a command poll shows count + 1 and the devices are refreshed; a config answer
      prepared before that still says count; the next poll refreshes everything again. */
  lemma LateConfigRefreshesTwice(s: State, cmds: seq<Command>, configNonce: int)
    requires !s.refresh.pending
    ensures var next := s.refresh.nonce + 1;
            var a := Polled(s, cmds, configNonce, next);
            var b := Configured(Taken(a), cmds, configNonce, s.refresh.nonce);
            var c := Polled(Taken(b), cmds, configNonce, next);
            a.refresh.pending && !b.refresh.pending && c.refresh.pending
    ensures var next := s.refresh.nonce + 1;
            LateAnswer(s, [Round(false, cmds, configNonce, next, true), Round(true, cmds, configNonce, next - 1, true),
                           Round(false, cmds, configNonce, next, true)])
  {
    var next := s.refresh.nonce + 1;
    var rounds := [Round(false, cmds, configNonce, next, true), Round(true, cmds, configNonce, next - 1, true),
                   Round(false, cmds, configNonce, next, true)];
    assert Nonce(s, rounds, 1) == next && Nonce(s, rounds, 2) == next - 1 && Nonce(s, rounds, 3) == next;
  }

  // ---------------------------------------------------------------- the config trigger over a run

  /** What happens to the config count: a poll shows it, a fetched config carries it, or the
      config thread takes the trigger. */
  datatype Notice = Shown(count: int) | Fetched(count: int) | TakenUp

  function Notify(t: Trigger, n: Notice): Trigger {
    match n
    case Shown(count) => Raise(t, count)
    case Fetched(count) => Settle(t, count)
    case TakenUp => t.(pending := false)
  }

  /** The three are what polls, config answers and the take do to the state. */
  lemma NoticesAreSteps(s: State, cmds: seq<Command>, configNonce: int, refreshNonce: int)
    ensures Polled(s, cmds, configNonce, refreshNonce).config == Notify(s.config, Shown(configNonce))
    ensures Configured(s, cmds, configNonce, refreshNonce).config == Notify(s.config, Fetched(configNonce))
    ensures ConfigTaken(s).config == Notify(s.config, TakenUp)
  {
  }

  function NotifyAll(t: Trigger, notices: seq<Notice>): Trigger {
    if notices == [] then t
    else Notify(NotifyAll(t, notices[..|notices| - 1]), notices[|notices| - 1])
  }

  function Max(a: int, b: int): int {
    if a < b then b else a
  }

  /** The highest count shown by a poll since the trigger was last taken. */
  function Asked(start: int, notices: seq<Notice>): int {
    if notices == [] then start
    else
      var before := Asked(start, notices[..|notices| - 1]);
      match notices[|notices| - 1]
      case Shown(count) => Max(before, count)
      case Fetched(_) => before
      case TakenUp => start
  }

  /** The highest count known to be dealt with: fetched, or shown before the last take. */
  function Covered(start: int, notices: seq<Notice>): int {
    if notices == [] then start
    else
      var before := Covered(start, notices[..|notices| - 1]);
      match notices[|notices| - 1]
      case Shown(_) => before
      case Fetched(count) => Max(before, count)
      case TakenUp => Max(before, Asked(start, notices[..|notices| - 1]))
  }

  /** Polls answer in order: none shows less than an earlier poll or an applied config. */
  ghost predicate InOrder(start: int, notices: seq<Notice>) {
    forall i :: 0 <= i < |notices| && notices[i].Shown? ==>
      notices[i].count >= Max(Asked(start, notices[..i]), Covered(start, notices[..i]))
  }

  lemma {:induction false} CountIsHighest(start: int, notices: seq<Notice>)
    requires InOrder(start, notices)
    ensures Asked(start, notices) >= start && Covered(start, notices) >= start
    ensures NotifyAll(Trigger(start, false), notices) ==
            Trigger(Max(Asked(start, notices), Covered(start, notices)),
                    Asked(start, notices) > Covered(start, notices))
  {
    if notices != [] {
      var n := |notices| - 1;
      assert forall i :: 0 <= i <= n ==> notices[..n][..i] == notices[..i];
      CountIsHighest(start, notices[..n]);
    }
  }

  /** With polls in order no config change is missed and none is fetched for twice: the trigger
      is up exactly while a poll has shown a count, since the trigger was last taken, that is
      higher than every config fetched and everything taken up before. Config answers may be
      late. */
  lemma ConfigPendingIff(start: int, notices: seq<Notice>)
    requires InOrder(start, notices)
    ensures NotifyAll(Trigger(start, false), notices).pending <==> Asked(start, notices) > Covered(start, notices)
  {
    CountIsHighest(start, notices);
  }

  // ---------------------------------------------------------------- how often it can happen

  /** How often a sequence of observed nonces raises the trigger. */
  function Raises(start: int, nonces: seq<int>): nat {
    if nonces == [] then 0
    else
      var n := |nonces| - 1;
      var last := if n == 0 then start else nonces[n - 1];
      Raises(start, nonces[..n]) + if nonces[n] > last then 1 else 0
  }

  /** By how much the observed nonces went back in total. */
  function Drops(start: int, nonces: seq<int>): nat {
    if nonces == [] then 0
    else
      var n := |nonces| - 1;
      var last := if n == 0 then start else nonces[n - 1];
      Drops(start, nonces[..n]) + if nonces[n] < last then last - nonces[n] else 0
  }

  /** Each increment by the backend raises the trigger at most once, plus once for every step
      by which a late config answer set the nonce back. */
  lemma {:induction false} RaisesBounded(start: int, nonces: seq<int>)
    requires nonces != []
    ensures Raises(start, nonces) <= nonces[|nonces| - 1] - start + Drops(start, nonces)
  {
    var n := |nonces| - 1;
    if n > 0 {
      RaisesBounded(start, nonces[..n]);
    } else {
      assert nonces[..0] == [];
    }
  }
}
