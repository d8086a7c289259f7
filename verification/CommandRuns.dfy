/** Physical commands over both channels, the durable journal, and crashes at any point. The
    clock is the wall clock, taken to be non-decreasing also across restarts. Every offer of a
    command carries its own time stamp. */
module CommandRuns {
  import opened Wrappers
  import opened CommandRules
  import opened CommandLedgers
  import Text

  /** `delay` bounds the time an HTTP request takes from its freshness check to its
      reservation; the pull channel checks after reserving. */
  datatype Config = Config(policy: Policy, retain: Time, delay: Time)

  /** What is to be operated, under which time stamp and deadline, and the catalogue of the
      device at the time of the check. */
  datatype Ask = Ask(index: int, command: Option<string>, created: Stamp, deadline: Stamp, catalog: seq<Signal>)

  /** One HTTP request: checked at a time, then reserved, then operated. */
  datatype Handler = Checked(id: int, at: Time, ask: Ask) | Holding(id: int, at: Time, ask: Ask) | Finished(id: int)

  /** A physical operate call: its channel, when it was checked and what was asked. */
  datatype Operated = Operated(id: int, checkedAt: Time, http: bool, ask: Ask)

  /** `queued` and `seen` are the in-memory queue and its window of known ids; `batch` holds the
      ids the pull thread has reserved and not yet executed, `executed` those without a result. */
  datatype Sys = Sys(
    clock: Time,
    ledger: Ledger,
    queued: set<int>,
    seen: set<int>,
    batch: set<int>,
    executed: set<int>,
    handlers: map<nat, Handler>,
    operates: seq<Operated>)

  datatype Move =
    | Ticked(d: Time)
    | Offered(id: int)
    | Evicted(id: int)
    | PullReserved(id: int)
    | PullExecuted(id: int, ask: Ask)
    | PullRecorded(result: Result)
    | HttpChecked(h: nat, id: int, ask: Ask)
    | HttpReserved(h: nat)
    | HttpOperated(h: nat)
    | HttpRecorded(h: nat, result: Result)
    | ResultDelivered(id: int, delivery: Delivery)
    | Pruned
    | Restarted

  const START := Sys(1.0, map[], {}, {}, {}, {}, map[], [])

  predicate PullFresh(c: Config, a: Ask, now: Time) {
    Accepts(Validate(a.created, a.deadline, c.policy, now))
  }

  /** The HTTP endpoint always demands a time stamp and knows no deadline. */
  predicate HttpFresh(c: Config, a: Ask, now: Time) {
    Accepts(Validate(a.created, Absent, c.policy.(requireStamp := true), now))
  }

  predicate Allowed(a: Ask) {
    Authorize(a.catalog, a.index, a.command).Authorized?
  }

  function PullReserve(s: Sys, id: int): Sys {
    var t := s.(queued := s.queued - {id});
    if id in s.ledger then t else t.(ledger := Start(s.ledger, id), batch := s.batch + {id})
  }

  function PullExecute(s: Sys, c: Config, id: int, ask: Ask): Sys {
    s.(batch := s.batch - {id}, executed := s.executed + {id},
       operates := if PullFresh(c, ask, s.clock) && Allowed(ask) then s.operates + [Operated(id, s.clock, false, ask)]
                   else s.operates)
  }

  function HttpReserve(s: Sys, h: nat): Sys
    requires h in s.handlers && s.handlers[h].Checked?
  {
    var k := s.handlers[h];
    if k.id in s.ledger then s.(handlers := s.handlers - {h})
    else s.(ledger := Start(s.ledger, k.id), handlers := s.handlers[h := Holding(k.id, k.at, k.ask)])
  }

  function Next(s: Sys, c: Config, move: Move): Sys {
    match move
    case Ticked(d) => if d > 0.0 then s.(clock := s.clock + d) else s
    case Offered(id) => if id in s.seen then s else s.(seen := s.seen + {id}, queued := s.queued + {id})
    case Evicted(id) => s.(seen := s.seen - {id})
    case PullReserved(id) => if id in s.queued then PullReserve(s, id) else s
    case PullExecuted(id, ask) => if id in s.batch then PullExecute(s, c, id, ask) else s
    case PullRecorded(r) =>
      if r.id in s.executed then s.(ledger := Complete(s.ledger, r, s.clock), executed := s.executed - {r.id}) else s
    case HttpChecked(h, id, ask) =>
      if h !in s.handlers && Allowed(ask) && HttpFresh(c, ask, s.clock) then
        s.(handlers := s.handlers[h := Checked(id, s.clock, ask)])
      else s
    case HttpReserved(h) =>
      if h in s.handlers && s.handlers[h].Checked? && s.clock - s.handlers[h].at <= c.delay then HttpReserve(s, h)
      else s
    case HttpOperated(h) =>
      if h in s.handlers && s.handlers[h].Holding? then
        var k := s.handlers[h];
        s.(handlers := s.handlers[h := Finished(k.id)], operates := s.operates + [Operated(k.id, k.at, true, k.ask)])
      else s
    case HttpRecorded(h, r) =>
      if h in s.handlers && s.handlers[h] == Finished(r.id) then
        s.(ledger := Complete(s.ledger, r, s.clock), handlers := s.handlers - {h})
      else s
    case ResultDelivered(id, d) =>
      if id in s.ledger && Completed(s.ledger[id]) then s.(ledger := Deliver(s.ledger, id, d)) else s
    case Pruned => s.(ledger := Prune(s.ledger, c.retain, s.clock))
    case Restarted =>
      s.(ledger := Recover(s.ledger, s.clock), queued := {}, seen := {}, batch := {}, executed := {}, handlers := map[])
  }

  function Run(c: Config, trace: seq<Move>): Sys {
    if trace == [] then START else Next(Run(c, trace[..|trace| - 1]), c, trace[|trace| - 1])
  }

  // ---------------------------------------------------------------- the invariant

  /** A reservation someone still holds: exactly one holder, and its row is dispatching. */
  ghost predicate Reservations(s: Sys) {
    && s.batch !! s.executed
    && (forall id :: id in s.batch || id in s.executed ==> id in s.ledger && s.ledger[id] == DISPATCHING)
    && (forall h :: h in s.handlers && !s.handlers[h].Checked? ==>
          var id := s.handlers[h].id;
          id in s.ledger && s.ledger[id] == DISPATCHING && id !in s.batch && id !in s.executed)
    && (forall g, h | g in s.handlers && h in s.handlers && !s.handlers[g].Checked? && !s.handlers[h].Checked? ::
          s.handlers[g].id == s.handlers[h].id ==> g == h)
  }

  ghost predicate InWindow(c: Config, a: Ask, at: Time) {
    a.created.Instant? && a.created.t - c.policy.skew <= at <= a.created.t + c.policy.maxAge
  }

  /** A row that lasts at least as long as any copy of the command can still be fresh. */
  ghost predicate Remembered(s: Sys, c: Config, o: Operated) {
    || s.clock > o.checkedAt + c.retain
    || (o.id in s.ledger && (s.ledger[o.id].completedAt.Some? ==> s.ledger[o.id].completedAt.value >= o.checkedAt))
  }

  ghost predicate Stale(s: Sys, c: Config, id: int) {
    forall i :: 0 <= i < |s.operates| && s.operates[i].id == id ==> s.clock > s.operates[i].checkedAt + c.retain
  }

  ghost predicate Never(s: Sys, id: int) {
    forall i :: 0 <= i < |s.operates| ==> s.operates[i].id != id
  }

  ghost predicate Once(s: Sys) {
    forall i, j :: 0 <= i < j < |s.operates| ==> s.operates[i].id != s.operates[j].id
  }

  ghost predicate History(s: Sys, c: Config) {
    && (forall i :: 0 <= i < |s.operates| ==>
          && InWindow(c, s.operates[i].ask, s.operates[i].checkedAt)
          && s.operates[i].checkedAt <= s.clock
          && Remembered(s, c, s.operates[i]))
    && (forall id :: id in s.batch ==> Stale(s, c, id))
    && (forall h :: h in s.handlers && s.handlers[h].Checked? ==>
          InWindow(c, s.handlers[h].ask, s.handlers[h].at) && s.handlers[h].at <= s.clock)
    && (forall h :: h in s.handlers && s.handlers[h].Holding? ==>
          InWindow(c, s.handlers[h].ask, s.handlers[h].at) && s.handlers[h].at <= s.clock && Never(s, s.handlers[h].id))
  }

  ghost predicate Inv(s: Sys, c: Config) {
    Reservations(s) && History(s, c) && Once(s)
  }

  /** Time stamps are demanded, and rows outlive every moment at which a copy could be fresh, if
      the stamps of one id lie within `spread` seconds. */
  predicate Safe(c: Config, spread: Time) {
    && c.policy.requireStamp && spread >= 0.0
    && c.retain >= c.policy.maxAge + c.policy.skew + c.delay + spread
  }

  /** Two time stamps at most `spread` seconds apart; a missing one is never fresh anyway. */
  predicate Near(a: Ask, b: Ask, spread: Time) {
    a.created.Instant? && b.created.Instant? ==> -spread <= a.created.t - b.created.t <= spread
  }

  /** The offer lies near all offers of the same id that have been operated. */
  ghost predicate NearPast(s: Sys, id: int, a: Ask, spread: Time) {
    forall i :: 0 <= i < |s.operates| && s.operates[i].id == id ==> Near(s.operates[i].ask, a, spread)
  }

  predicate Sensible(c: Config) {
    c.policy.maxAge >= 0.0 && c.policy.skew >= 0.0 && c.delay >= 0.0 && c.retain >= 0.0
  }

  lemma NextReservations(s: Sys, c: Config, move: Move)
    requires Reservations(s)
    ensures Reservations(Next(s, c, move))
  {
    hide PullFresh, HttpFresh;
  }

  /** Rows and time only make operates of the past staler or better remembered. */
  ghost predicate Grows(s: Sys, t: Sys) {
    && s.clock <= t.clock && s.operates == t.operates
    && (forall id :: id in s.ledger && id in t.ledger && t.ledger[id].completedAt.Some? ==>
          s.ledger[id].completedAt == t.ledger[id].completedAt || t.ledger[id].completedAt.value >= s.clock)
  }

  lemma GrowsHistory(s: Sys, t: Sys, c: Config)
    requires History(s, c) && Grows(s, t)
    requires s.ledger.Keys <= t.ledger.Keys
    requires t.batch <= s.batch
    requires forall h :: h in t.handlers && !t.handlers[h].Finished? ==>
               h in s.handlers && s.handlers[h] == t.handlers[h]
    ensures History(t, c)
  {
  }

  lemma PrunedHistory(s: Sys, c: Config)
    requires History(s, c) && Sensible(c)
    ensures History(Next(s, c, Pruned), c)
  {
  }

  lemma PullReservedHistory(s: Sys, c: Config, id: int)
    requires History(s, c)
    ensures History(PullReserve(s, id), c) && PullReserve(s, id).operates == s.operates
  {
  }

  lemma HttpReservedHistory(s: Sys, c: Config, spread: Time, h: nat)
    requires Inv(s, c) && Safe(c, spread)
    requires h in s.handlers && s.handlers[h].Checked? && s.clock - s.handlers[h].at <= c.delay
    requires NearPast(s, s.handlers[h].id, s.handlers[h].ask, spread)
    ensures History(HttpReserve(s, h), c) && HttpReserve(s, h).operates == s.operates
  {
    var t := HttpReserve(s, h);
    var k := s.handlers[h];
    var u := t.(handlers := s.handlers - {h});
    GrowsHistory(s, u, c);
    if k.id !in s.ledger {
      assert forall i :: 0 <= i < |t.operates| ==> Remembered(u, c, t.operates[i]) ==> Remembered(t, c, t.operates[i]);
      assert forall x :: Never(u, x) ==> Never(t, x);
      assert Never(t, k.id);
      assert forall x :: Stale(u, c, x) ==> Stale(t, c, x);
    }
  }

  /** One more physical call for an id that had none. */
  lemma OperateHistory(s: Sys, t: Sys, c: Config, o: Operated)
    requires Inv(s, c) && Never(s, o.id) && InWindow(c, o.ask, o.checkedAt) && o.checkedAt <= s.clock
    requires t.operates == s.operates + [o] && t.ledger == s.ledger && t.clock == s.clock
    requires o.id in s.ledger && s.ledger[o.id] == DISPATCHING
    requires t.batch <= s.batch - {o.id}
    requires forall h :: h in t.handlers && !t.handlers[h].Finished? ==>
               h in s.handlers && s.handlers[h] == t.handlers[h]
    requires forall h :: h in t.handlers && t.handlers[h].Holding? ==> t.handlers[h].id != o.id
    ensures History(t, c) && Once(t)
  {
    forall i | 0 <= i < |t.operates|
      ensures Remembered(t, c, t.operates[i])
    {
      if i < |s.operates| {
        assert Remembered(s, c, s.operates[i]);
      }
    }
    forall x | x in t.batch
      ensures Stale(t, c, x)
    {
      assert Stale(s, c, x);
    }
    forall h | h in t.handlers && t.handlers[h].Holding?
      ensures Never(t, t.handlers[h].id)
    {
      assert Never(s, s.handlers[h].id);
    }
  }

  lemma PullExecutedHistory(s: Sys, c: Config, spread: Time, id: int, ask: Ask)
    requires Inv(s, c) && Safe(c, spread) && Sensible(c) && id in s.batch && NearPast(s, id, ask, spread)
    ensures History(PullExecute(s, c, id, ask), c) && Once(PullExecute(s, c, id, ask))
  {
    var t := PullExecute(s, c, id, ask);
    if PullFresh(c, ask, s.clock) && Allowed(ask) {
      OperateHistory(s, t, c, Operated(id, s.clock, false, ask));
    } else {
      GrowsHistory(s, t, c);
    }
  }

  lemma HttpOperatedHistory(s: Sys, c: Config, h: nat)
    requires Inv(s, c) && h in s.handlers && s.handlers[h].Holding?
    ensures History(Next(s, c, HttpOperated(h)), c) && Once(Next(s, c, HttpOperated(h)))
  {
    var k := s.handlers[h];
    OperateHistory(s, Next(s, c, HttpOperated(h)), c, Operated(k.id, k.at, true, k.ask));
  }

  lemma HttpCheckedHistory(s: Sys, c: Config, h: nat, id: int, ask: Ask)
    requires History(s, c) && Sensible(c) && h !in s.handlers && HttpFresh(c, ask, s.clock)
    ensures History(s.(handlers := s.handlers[h := Checked(id, s.clock, ask)]), c)
  {
  }

  lemma NextInv(s: Sys, c: Config, spread: Time, move: Move)
    requires Inv(s, c) && Safe(c, spread) && Sensible(c)
    requires move.PullExecuted? ==> NearPast(s, move.id, move.ask, spread)
    requires move.HttpReserved? && move.h in s.handlers && !s.handlers[move.h].Finished? ==>
               NearPast(s, s.handlers[move.h].id, s.handlers[move.h].ask, spread)
    ensures Inv(Next(s, c, move), c)
  {
    hide History, Reservations, PullFresh, HttpFresh, PullExecute, PullReserve, HttpReserve;
    NextReservations(s, c, move);
    var t := Next(s, c, move);
    match move
    case PullReserved(id) => PullReservedHistory(s, c, id);
    case PullExecuted(id, ask) =>
      if id in s.batch {
        PullExecutedHistory(s, c, spread, id, ask);
      }
    case HttpChecked(h, id, ask) =>
      if h !in s.handlers && HttpFresh(c, ask, s.clock) {
        HttpCheckedHistory(s, c, h, id, ask);
      }
    case HttpReserved(h) =>
      if h in s.handlers && s.handlers[h].Checked? && s.clock - s.handlers[h].at <= c.delay {
        HttpReservedHistory(s, c, spread, h);
      }
    case HttpOperated(h) =>
      if h in s.handlers && s.handlers[h].Holding? {
        HttpOperatedHistory(s, c, h);
      }
    case Pruned => PrunedHistory(s, c);
    case _ => GrowsHistory(s, t, c);
  }

  /** The move checks whether this offer of the command is fresh and authorised. */
  predicate Checks(move: Move, id: int, ask: Ask) {
    (move.PullExecuted? || move.HttpChecked?) && move.id == id && move.ask == ask
  }

  ghost predicate Asked(trace: seq<Move>, id: int, ask: Ask) {
    exists k :: 0 <= k < |trace| && Checks(trace[k], id, ask)
  }

  /** All offers of one id in the run carry time stamps at most `spread` seconds apart. */
  ghost predicate StampsNear(trace: seq<Move>, spread: Time) {
    forall id, a, b :: Asked(trace, id, a) && Asked(trace, id, b) ==> Near(a, b, spread)
  }

  /** What was operated or is on its way was offered in the run. */
  ghost predicate Traced(s: Sys, trace: seq<Move>) {
    && (forall i :: 0 <= i < |s.operates| ==> Asked(trace, s.operates[i].id, s.operates[i].ask))
    && (forall h :: h in s.handlers && !s.handlers[h].Finished? ==> Asked(trace, s.handlers[h].id, s.handlers[h].ask))
  }

  lemma AskedGrows(trace: seq<Move>)
    requires trace != []
    ensures forall id, a :: Asked(trace[..|trace| - 1], id, a) ==> Asked(trace, id, a)
    ensures var m := trace[|trace| - 1]; m.PullExecuted? || m.HttpChecked? ==> Asked(trace, m.id, m.ask)
  {
    var n := |trace| - 1;
    forall id, a | Asked(trace[..n], id, a)
      ensures Asked(trace, id, a)
    {
      var k :| 0 <= k < n && Checks(trace[..n][k], id, a);
      assert Checks(trace[k], id, a);
    }
    assert trace[n].PullExecuted? || trace[n].HttpChecked? ==> Checks(trace[n], trace[n].id, trace[n].ask);
  }

  lemma {:induction false} RunTraced(c: Config, trace: seq<Move>)
    ensures Traced(Run(c, trace), trace)
  {
    if trace != [] {
      hide Next, Traced, Asked;
      var n := |trace| - 1;
      RunTraced(c, trace[..n]);
      AskedGrows(trace);
    } else {
      assert Traced(START, []);
    }
  }

  lemma {:induction false} RunInv(c: Config, spread: Time, trace: seq<Move>)
    requires Safe(c, spread) && Sensible(c) && StampsNear(trace, spread)
    ensures Inv(Run(c, trace), c)
  {
    if trace != [] {
      hide Inv, Next, Asked, Near;
      var n := |trace| - 1;
      AskedGrows(trace);
      forall id, a, b | Asked(trace[..n], id, a) && Asked(trace[..n], id, b)
        ensures Near(a, b, spread)
      {
        assert Asked(trace, id, a) && Asked(trace, id, b);
      }
      RunInv(c, spread, trace[..n]);
      RunTraced(c, trace[..n]);
      NextInv(Run(c, trace[..n]), c, spread, trace[n]);
    }
  }

  lemma {:induction false} RunReservations(c: Config, trace: seq<Move>)
    ensures Reservations(Run(c, trace))
  {
    if trace != [] {
      hide Reservations, Next;
      RunReservations(c, trace[..|trace| - 1]);
      NextReservations(Run(c, trace[..|trace| - 1]), c, trace[|trace| - 1]);
    }
  }

  // ---------------------------------------------------------------- what the journal says

  /** The answer this move gives for the command: the recorded result of a call on either channel, or
      "unknown" for one that a restart interrupted. */
  function AnswerOf(s: Sys, move: Move, id: int): Option<Result> {
    match move
    case PullRecorded(r) => if r.id == id && id in s.executed then Some(r) else None
    case HttpRecorded(h, r) => if r.id == id && h in s.handlers && s.handlers[h] == Finished(id) then Some(r) else None
    case Restarted =>
      if id in s.ledger && s.ledger[id].result.None? then Some(Result(id, false, "unknown")) else None
    case _ => None
  }

  /** The last answer given for the command while its row was there. */
  function LastAnswer(c: Config, trace: seq<Move>, id: int): Option<Result> {
    if trace == [] || id !in Run(c, trace).ledger then None
    else
      var n := |trace| - 1;
      var answer := AnswerOf(Run(c, trace[..n]), trace[n], id);
      if answer.Some? then answer else LastAnswer(c, trace[..n], id)
  }

  lemma NextTells(s: Sys, c: Config, move: Move, id: int)
    requires Reservations(s) && id in Next(s, c, move).ledger
    ensures var answer := AnswerOf(s, move, id);
            Next(s, c, move).ledger[id].result ==
            if answer.Some? then answer else if id in s.ledger then s.ledger[id].result else None
  {
    hide PullFresh, HttpFresh, Allowed;
  }

  /** Every row says what was answered last, and nothing before that. */
  lemma {:induction false} RowsTell(c: Config, trace: seq<Move>, id: int)
    requires id in Run(c, trace).ledger
    ensures Run(c, trace).ledger[id].result == LastAnswer(c, trace, id)
  {
    if trace != [] {
      hide Next, Reservations, AnswerOf;
      var n := |trace| - 1;
      RunReservations(c, trace[..n]);
      NextTells(Run(c, trace[..n]), c, trace[n], id);
      if id in Run(c, trace[..n]).ledger {
        RowsTell(c, trace[..n], id);
      }
    }
  }

  /** A restart keeps every row and leaves none open: what was interrupted is answered, never with
      success. */
  lemma RestartAnswersAll(c: Config, trace: seq<Move>)
    ensures var s := Run(c, trace);
            var t := Next(s, c, Restarted);
            && t.ledger.Keys == s.ledger.Keys
            && (forall id :: id in t.ledger ==> t.ledger[id].result.Some?)
            && (forall id :: id in s.ledger && s.ledger[id].result.Some? ==> t.ledger[id] == s.ledger[id])
            && (forall id :: id in s.ledger && s.ledger[id].result.None? ==>
                  t.ledger[id] == Row(Some(Result(id, false, "unknown")), Some(s.clock), Pending))
  {
  }

  /** The gates of a call's channel let it through at the time of its check. */
  ghost predicate Passed(c: Config, o: Operated) {
    (if o.http then HttpFresh(c, o.ask, o.checkedAt) else PullFresh(c, o.ask, o.checkedAt)) && Allowed(o.ask)
  }

  /** Every call made, and every HTTP request on its way to one, has passed its gates. */
  ghost predicate Gated(s: Sys, c: Config) {
    && (forall i :: 0 <= i < |s.operates| ==> Passed(c, s.operates[i]) && s.operates[i].checkedAt <= s.clock)
    && (forall h :: h in s.handlers && !s.handlers[h].Finished? ==>
          var k := s.handlers[h];
          Passed(c, Operated(k.id, k.at, true, k.ask)) && k.at <= s.clock)
  }

  lemma NextGated(s: Sys, c: Config, move: Move)
    requires Gated(s, c)
    ensures Gated(Next(s, c, move), c)
  {
    hide PullFresh, HttpFresh, Allowed;
  }

  lemma {:induction false} RunGated(c: Config, trace: seq<Move>)
    ensures Gated(Run(c, trace), c)
  {
    if trace != [] {
      hide Gated, Next;
      RunGated(c, trace[..|trace| - 1]);
      NextGated(Run(c, trace[..|trace| - 1]), c, trace[|trace| - 1]);
    }
  }

  /** Every physical call, on either channel and under any settings, is made under a durable
      row that has no result yet, for a command that was fresh and authorised when its channel
      checked it: at the moment of the call on the pull channel, before reserving on the HTTP
      channel. */
  lemma OperatesOnlyReserved(c: Config, trace: seq<Move>, move: Move)
    requires Next(Run(c, trace), c, move).operates != Run(c, trace).operates
    ensures var s := Run(c, trace);
            var t := Next(s, c, move);
            && |t.operates| == |s.operates| + 1 && t.operates[..|s.operates|] == s.operates
            && var o := t.operates[|s.operates|];
               && o.id in s.ledger && s.ledger[o.id] == DISPATCHING
               && NamesOutput(o.ask.catalog, o.ask.index, o.ask.command) && o.checkedAt <= s.clock
               && (if o.http then
                     move.HttpOperated? && InTime(o.ask.created, Absent, c.policy.(requireStamp := true), o.checkedAt)
                   else
                     && move.PullExecuted? && o.checkedAt == s.clock
                     && InTime(o.ask.created, o.ask.deadline, c.policy, o.checkedAt))
  {
    hide PullFresh, HttpFresh, Allowed, InTime, NamesOutput;
    RunReservations(c, trace);
    RunGated(c, trace);
    var s := Run(c, trace);
    var o := Next(s, c, move).operates[|s.operates|];
    GatesPassed(c, o);
  }

  lemma GatesPassed(c: Config, o: Operated)
    requires Passed(c, o)
    ensures NamesOutput(o.ask.catalog, o.ask.index, o.ask.command)
    ensures if o.http then InTime(o.ask.created, Absent, c.policy.(requireStamp := true), o.checkedAt)
            else InTime(o.ask.created, o.ask.deadline, c.policy, o.checkedAt)
  {
    AuthorizedIff(o.ask.catalog, o.ask.index, o.ask.command);
    AcceptsIff(o.ask.created, Absent, c.policy.(requireStamp := true), o.checkedAt);
    AcceptsIff(o.ask.created, o.ask.deadline, c.policy, o.checkedAt);
  }

  /** Over a whole run: every call was authorised and, unless it is an unstamped command that
      the settings let through, checked inside the window of its time stamp. */
  lemma CallsAreLegitimate(c: Config, trace: seq<Move>, i: nat)
    requires Sensible(c) && i < |Run(c, trace).operates|
    ensures var o := Run(c, trace).operates[i];
            && NamesOutput(o.ask.catalog, o.ask.index, o.ask.command)
            && (o.http || c.policy.requireStamp || o.ask.created != Absent ==> InWindow(c, o.ask, o.checkedAt))
  {
    hide NamesOutput;
    RunGated(c, trace);
    var o := Run(c, trace).operates[i];
    assert Passed(c, o);
    GatesPassed(c, o);
  }

  /** With such settings no command is ever operated twice: both channels together, whatever is
      offered again, crashed, restarted or pruned in between, as long as the time stamps under
      which one id is offered lie within `spread` seconds. */
  lemma AtMostOnce(c: Config, spread: Time, trace: seq<Move>)
    requires Safe(c, spread) && Sensible(c) && StampsNear(trace, spread)
    ensures Once(Run(c, trace))
  {
    RunInv(c, spread, trace);
  }

  // ---------------------------------------------------------------- when it can happen twice

  /** No run operates a command twice; the time stamps of one id lie within `spread` seconds, or
      anywhere if no spread is given. */
  ghost predicate AlwaysOnce(c: Config, spread: Option<Time>) {
    forall trace | spread.Some? ==> StampsNear(trace, spread.value) :: Once(Run(c, trace))
  }

  const ID := 7
  const OK := Result(ID, true, "success")

  function Reset(created: Stamp): Ask {
    Ask(0, Some("x"), created, Absent, [Signal("master.x", BINARY_OUTPUT, 0)])
  }

  lemma ResetAllowed(created: Stamp)
    ensures Allowed(Reset(created))
  {
    var name := "x";
    var catalog := Reset(created).catalog;
    assert !Text.Space(name[0]);
    assert OutputAt(catalog[0], 0) && catalog[0].key == COMMAND_KEY_PREFIX + name;
    AuthorizedIff(catalog, 0, Some(name));
  }

  lemma RunTwo(c: Config, trace: seq<Move>, a: Move, b: Move)
    ensures Run(c, trace + [a, b]) == Next(Next(Run(c, trace), c, a), c, b)
  {
    assert trace + [a, b] == (trace + [a]) + [b];
  }

  /** From the start: offered, reserved, executed, recorded and delivered at one instant. */
  function First(created: Stamp): seq<Move> {
    [Offered(ID), PullReserved(ID), PullExecuted(ID, Reset(created)), PullRecorded(OK), ResultDelivered(ID, Delivered)]
  }

  function Call(created: Stamp): Operated {
    Operated(ID, 1.0, false, Reset(created))
  }

  const DONE := Row(Some(OK), Some(1.0), Delivered)

  lemma FirstFive(c: Config, created: Stamp)
    requires PullFresh(c, Reset(created), 1.0)
    ensures Run(c, First(created)) == Sys(1.0, map[ID := DONE], {}, {ID}, {}, {}, map[], [Call(created)])
  {
    hide PullFresh, Allowed, Reset;
    var f := First(created);
    ResetAllowed(created);
    assert f == (([] + [f[0], f[1]]) + [f[2], f[3]]) + [f[4]];
    RunTwo(c, [], f[0], f[1]);
    RunTwo(c, [] + [f[0], f[1]], f[2], f[3]);
    assert [] + [Call(created)] == [Call(created)];
  }

  /** Time passes, an HTTP copy is checked, and once more time has passed its reservation finds
      the row of the first call pruned. */
  function Second(first: Stamp, again: Stamp, wait: Time, delay: Time): seq<Move> {
    (First(first) + [Ticked(wait), HttpChecked(0, ID, Reset(again))]) + [Ticked(delay), Pruned]
      + [HttpReserved(0), HttpOperated(0)]
  }

  lemma SecondCall(c: Config, first: Stamp, again: Stamp, wait: Time)
    requires Sensible(c) && wait >= 0.0 && wait + c.delay > c.retain
    requires PullFresh(c, Reset(first), 1.0) && HttpFresh(c, Reset(again), 1.0 + wait)
    ensures !Once(Run(c, Second(first, again, wait, c.delay)))
  {
    hide Next, PullFresh, HttpFresh, Reset;
    FirstFive(c, first);
    var a := First(first) + [Ticked(wait), HttpChecked(0, ID, Reset(again))];
    var b := a + [Ticked(c.delay), Pruned];
    RunTwo(c, First(first), Ticked(wait), HttpChecked(0, ID, Reset(again)));
    RunTwo(c, a, Ticked(c.delay), Pruned);
    RunTwo(c, b, HttpReserved(0), HttpOperated(0));
    assert Second(first, again, wait, c.delay) == b + [HttpReserved(0), HttpOperated(0)];
    CheckedLater(Run(c, First(first)), c, first, again, wait);
    CalledAgain(Run(c, a), c, first, again, wait);
  }

  lemma CheckedLater(s: Sys, c: Config, first: Stamp, again: Stamp, wait: Time)
    requires s == Sys(1.0, map[ID := DONE], {}, {ID}, {}, {}, map[], [Call(first)])
    requires wait >= 0.0 && HttpFresh(c, Reset(again), 1.0 + wait)
    ensures Next(Next(s, c, Ticked(wait)), c, HttpChecked(0, ID, Reset(again))) ==
            Sys(1.0 + wait, map[ID := DONE], {}, {ID}, {}, {}, map[0 := Checked(ID, 1.0 + wait, Reset(again))],
                [Call(first)])
  {
    hide HttpFresh, Allowed, Reset;
    ResetAllowed(again);
  }

  lemma CalledAgain(s: Sys, c: Config, first: Stamp, again: Stamp, wait: Time)
    requires s == Sys(1.0 + wait, map[ID := DONE], {}, {ID}, {}, {}, map[0 := Checked(ID, 1.0 + wait, Reset(again))],
                      [Call(first)])
    requires Sensible(c) && wait + c.delay > c.retain
    ensures var t := Next(Next(s, c, Ticked(c.delay)), c, Pruned);
            !Once(Next(Next(t, c, HttpReserved(0)), c, HttpOperated(0)))
  {
    var t := Next(Next(s, c, Ticked(c.delay)), c, Pruned);
    assert ID !in t.ledger;
    var u := Next(Next(t, c, HttpReserved(0)), c, HttpOperated(0));
    assert u.operates[0].id == u.operates[1].id;
  }

  /** Stamped as late as tolerated, executed at once and pruned before its copies are stale: an
      HTTP copy with the latest stamp allowed, checked at its oldest and slow to reserve, is
      executed again. */
  lemma PrunedTooSoon(c: Config, spread: Time)
    requires Sensible(c) && spread >= 0.0
    requires c.policy.requireStamp && c.retain < c.policy.maxAge + c.policy.skew + c.delay + spread
    ensures !AlwaysOnce(c, Some(spread))
  {
    hide Run, Once;
    var first := Instant(1.0 + c.policy.skew);
    var again := Instant(1.0 + c.policy.skew + spread);
    var wait := c.policy.skew + spread + c.policy.maxAge;
    SecondCall(c, first, again, wait);
  }

  /** If an id may be offered under any time stamps, no settings prevent a second call: a request
      with the same id and a new stamp, as the endpoint invites, comes after the pruning. */
  lemma RestampedTwice(c: Config)
    requires Sensible(c)
    ensures !AlwaysOnce(c, None)
  {
    hide Run, Once;
    var wait := c.retain + 1.0;
    SecondCall(c, Instant(1.0), Instant(1.0 + wait), wait);
  }

  /** Without a time stamp a copy never gets stale. */
  function Unstamped(wait: Time): seq<Move> {
    (First(Absent) + [Ticked(wait), Pruned]) + [Restarted, Offered(ID)]
      + [PullReserved(ID), PullExecuted(ID, Reset(Absent))]
  }

  lemma UnstampedTwice(c: Config, spread: Option<Time>)
    requires c.retain >= 0.0 && !c.policy.requireStamp && (spread.Some? ==> spread.value >= 0.0)
    ensures !AlwaysOnce(c, spread)
  {
    hide Next, Once, Reset;
    var wait := c.retain + 1.0;
    var trace := Unstamped(wait);
    assert PullFresh(c, Reset(Absent), 1.0) && PullFresh(c, Reset(Absent), 1.0 + wait) by { UnstampedFresh(c); }
    FirstFive(c, Absent);
    var a := First(Absent) + [Ticked(wait), Pruned];
    var b := a + [Restarted, Offered(ID)];
    RunTwo(c, First(Absent), Ticked(wait), Pruned);
    RunTwo(c, a, Restarted, Offered(ID));
    RunTwo(c, b, PullReserved(ID), PullExecuted(ID, Reset(Absent)));
    assert trace == b + [PullReserved(ID), PullExecuted(ID, Reset(Absent))];
    AgainFromScratch(Run(c, First(Absent)), c, wait);
    if spread.Some? {
      UnstampedNear(wait, spread.value);
    }
  }

  lemma UnstampedFresh(c: Config)
    requires !c.policy.requireStamp
    ensures forall now :: PullFresh(c, Reset(Absent), now)
  {
  }

  lemma UnstampedNear(wait: Time, spread: Time)
    ensures StampsNear(Unstamped(wait), spread)
  {
    var trace := Unstamped(wait);
    forall id, a | Asked(trace, id, a)
      ensures a == Reset(Absent)
    {
      var k :| 0 <= k < |trace| && Checks(trace[k], id, a);
      assert k == 2 || k == 10;
    }
  }

  lemma AgainFromScratch(s: Sys, c: Config, wait: Time)
    requires s == Sys(1.0, map[ID := DONE], {}, {ID}, {}, {}, map[], [Call(Absent)])
    requires wait > c.retain >= 0.0 && PullFresh(c, Reset(Absent), 1.0 + wait)
    ensures var t := Next(Next(s, c, Ticked(wait)), c, Pruned);
            var u := Next(Next(t, c, Restarted), c, Offered(ID));
            !Once(Next(Next(u, c, PullReserved(ID)), c, PullExecuted(ID, Reset(Absent))))
  {
    hide PullFresh, Allowed, Reset;
    ResetAllowed(Absent);
    var t := Next(Next(s, c, Ticked(wait)), c, Pruned);
    assert t.ledger == map[];
    var u := Next(Next(t, c, Restarted), c, Offered(ID));
    assert u.ledger == map[];
    var v := Next(Next(u, c, PullReserved(ID)), c, PullExecuted(ID, Reset(Absent)));
    assert v.operates[0].id == v.operates[1].id;
  }

  /** At most once on every run exactly when time stamps are demanded, the stamps of one id keep
      within a spread, and delivered rows are kept at least as long as the whole window in which
      a copy can still be executed. One fixed stamp per id is the spread 0. */
  lemma AlwaysOnceIff(c: Config, spread: Option<Time>)
    requires Sensible(c) && (spread.Some? ==> spread.value >= 0.0)
    ensures AlwaysOnce(c, spread) <==>
              && spread.Some? && c.policy.requireStamp
              && c.retain >= c.policy.maxAge + c.policy.skew + c.delay + spread.value
  {
    hide Run, Once;
    if !c.policy.requireStamp {
      UnstampedTwice(c, spread);
    } else if spread.None? {
      RestampedTwice(c);
    } else if c.retain < c.policy.maxAge + c.policy.skew + c.delay + spread.value {
      PrunedTooSoon(c, spread.value);
    } else {
      forall trace | StampsNear(trace, spread.value)
        ensures Once(Run(c, trace))
      {
        AtMostOnce(c, spread.value, trace);
      }
    }
  }
}
