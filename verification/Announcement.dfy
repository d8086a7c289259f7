/** Telling the outside world that a device is gone. A poll reads comm_lost together with the
    generation of the announcement, publishes it, and only then marks it announced; a confirmed
    recovery starts a new generation. Polls run in numbered slots, so `limit` slots mean at
    most `limit` polls of the device in flight. */
module Announcement {
  import opened Wrappers
  import opened CacheModel
  import opened PollModel
  import opened LinkRuns
  import StoreLaws

  /** A poll between reading and finishing; `durable` once some of its readings are stored. */
  datatype Flight = Flight(out: Emission, durable: bool)

  datatype Said = Loss(generation: nat) | Good

  datatype Sys = Sys(m: Master, flights: map<nat, Flight>, log: seq<Said>)

  datatype Act =
    | Io(event: Event)
    | Read(p: nat, env: Env)
    | Published(p: nat)
    | Finished(p: nat, tokens: seq<Taken>)
    | Abandoned(p: nat)

  datatype Move = Move(now: Time, act: Act)

  function Start(smart: bool, auto: Auto): Sys {
    Sys(Master(NewCache(smart), auto), map[], [])
  }

  predicate Publishes(out: Emission) {
    out.CommLost? || (out.Values? && out.tokens != [])
  }

  /** `commit_published` of the reader, for what a poll made durable. */
  function Settle(c: Cache, f: Flight, tokens: seq<Taken>): Cache {
    if !f.durable then c
    else if f.out.CommLost? then c.(announce := ConfirmStale(c.announce, f.out.generation))
    else c.(store := CommitPublished(c.store, tokens))
  }

  function PollSlot(s: Sys, p: nat, env: Env, now: Time): Sys {
    var r := PollOnce(s.m, env, now);
    Sys(r.after, if Publishes(r.out) then s.flights[p := Flight(r.out, false)] else s.flights, s.log)
  }

  function Next(s: Sys, move: Move): Sys {
    match move.act
    case Io(e) =>
      if e.Polled? || e.Committed? || e.Confirmed? then s
      else s.(m := s.m.(cache := StepCache(s.m.cache, e, move.now)))
    case Read(p, env) => if p in s.flights || env.keys == [] then s else PollSlot(s, p, env, move.now)
    case Published(p) =>
      if p !in s.flights then s
      else
        var f := s.flights[p];
        s.(log := s.log + [if f.out.CommLost? then Loss(f.out.generation) else Good],
           flights := s.flights[p := f.(durable := true)])
    case Finished(p, tokens) =>
      if p !in s.flights then s
      else s.(m := s.m.(cache := Settle(s.m.cache, s.flights[p], tokens)), flights := s.flights - {p})
    case Abandoned(p) => s.(flights := s.flights - {p})
  }

  function Run(s: Sys, trace: seq<Move>): Sys {
    if trace == [] then s else Next(Run(s, trace[..|trace| - 1]), trace[|trace| - 1])
  }

  /** The clock is positive and never runs backwards, and polls use the first `limit` slots. */
  ghost predicate Sane(trace: seq<Move>, limit: nat) {
    && (forall i :: 0 <= i < |trace| ==> trace[i].now > 0.0)
    && (forall i, j :: 0 <= i < j < |trace| ==> trace[i].now <= trace[j].now)
    && (forall i :: 0 <= i < |trace| && trace[i].act.Read? ==> trace[i].act.p < limit)
  }

  /** The last thing made durable about the device is a comm_lost. */
  predicate LossStands(log: seq<Said>) {
    log != [] && log[|log| - 1].Loss?
  }

  /** Whenever a poll keeps quiet because the loss was already announced, it still stands. */
  ghost predicate AlwaysAnnounced(smart: bool, limit: nat) {
    forall auto, trace: seq<Move>, env, now |
      Sane(trace, limit) && (trace != [] ==> trace[|trace| - 1].now <= now)
      && PollOnce(Run(Start(smart, auto), trace).m, env, now).out.Repeated? ::
      LossStands(Run(Start(smart, auto), trace).log)
  }

  // ---------------------------------------------------------------- any number of polls

  ghost predicate Announced(s: Sys) {
    && (s.m.cache.announce.announced ==> Loss(s.m.cache.announce.generation) in s.log)
    && (forall p :: p in s.flights && s.flights[p].out.CommLost? && s.flights[p].durable ==>
          Loss(s.flights[p].out.generation) in s.log)
  }

  /** What a poll does to the announcement, under any policy. */
  lemma PollAnnounce(m: Master, env: Env, now: Time)
    ensures var p := PollOnce(m, env, now);
            && (p.out.CommLost? ==> !m.cache.announce.announced && p.out.generation == m.cache.announce.generation)
            && (p.out.Repeated? ==> m.cache.announce.announced)
            && (p.after.cache.announce != m.cache.announce ==>
                  p.out.Values? && p.after.cache.announce == ResetStale(m.cache.announce))
  {
    hide Classify, CheckSmartIdle, Judge, TakeDirty, StringsDue, CountStringRequest, MarkAllDirty, Stale;
  }

  lemma IoKeepsAnnounce(c: Cache, e: Event, now: Time)
    requires !e.Polled?
    ensures !e.Confirmed? ==> StepCache(c, e, now).announce == c.announce
  {
  }

  /** However many polls overlap, "announced" means that a comm_lost read in the current
      generation, that is after the last confirmed recovery, has been made durable; a late
      confirmation of an older generation changes nothing. */
  lemma {:induction false} AnnouncedIsDurable(smart: bool, auto: Auto, trace: seq<Move>)
    ensures Announced(Run(Start(smart, auto), trace))
  {
    if trace != [] {
      AnnouncedIsDurable(smart, auto, trace[..|trace| - 1]);
    }
  }

  // ---------------------------------------------------------------- one poll, continuous policy

  ghost predicate Continuous(m: Master) {
    !m.cache.link.smart && m.cache.link.idleSince == 0.0
  }

  /** An online device still owes the publication of its recovery. */
  ghost predicate Owes(l: Link) {
    l.mode == Online ==> l.pendingRecovery
  }

  ghost predicate FlightInv(s: Sys, f: Flight) {
    && (f.out.Values? || f.out.CommLost?)
    && !s.m.cache.announce.announced
    && (f.out.CommLost? ==>
          && f.out.generation == s.m.cache.announce.generation
          && Owes(s.m.cache.link)
          && (f.durable ==> LossStands(s.log)))
  }

  ghost predicate OneInv(s: Sys) {
    && Continuous(s.m)
    && s.flights.Keys <= {0}
    && (s.m.cache.announce.announced ==> Owes(s.m.cache.link) && LossStands(s.log))
    && (0 in s.flights ==> FlightInv(s, s.flights[0]))
  }

  lemma IoOwes(c: Cache, e: Event, now: Time)
    requires !e.Polled? && !c.link.smart && c.link.idleSince == 0.0
    ensures var l := StepCache(c, e, now).link;
            !l.smart && l.idleSince == 0.0 && (Owes(c.link) ==> Owes(l))
  {
  }

  lemma JudgeOwes(l: Link, stale: bool, now: Time)
    ensures var k := Judge(l, stale, now).link;
            k.smart == l.smart && k.idleSince == l.idleSince && (Owes(l) ==> Owes(k))
  {
  }

  /** A poll of a continuous device either publishes good readings, and then the announcement
      is open again, or leaves it alone and owes nothing it did not owe before. */
  lemma PollContinuous(m: Master, env: Env, now: Time)
    requires Continuous(m)
    requires m.cache.announce.announced ==> Owes(m.cache.link)
    ensures var p := PollOnce(m, env, now);
            && Continuous(p.after)
            && !p.out.Deferred?
            && (p.out.Dropped? ==> p.after.cache == m.cache)
            && (p.out.Values? ==> !p.after.cache.announce.announced)
            && (p.out.CommLost? || p.out.Repeated? ==>
                  p.after.cache.announce == m.cache.announce && Owes(p.after.cache.link))
  {
    hide Classify, CheckSmartIdle, Judge, TakeDirty, StringsDue, CountStringRequest, MarkAllDirty, Stale;
    ClassifyContinuous(m.auto, m.cache.link, env, now);
    JudgeOwes(m.cache.link, Stale(m.cache.link, env, now), now);
  }

  lemma NextOne(s: Sys, move: Move)
    requires OneInv(s)
    requires move.act.Read? ==> move.act.p == 0
    ensures OneInv(Next(s, move))
  {
    hide PollOnce, StepCache, CommitPublished;
    match move.act
    case Io(e) =>
      if !e.Polled? {
        IoKeepsAnnounce(s.m.cache, e, move.now);
        IoOwes(s.m.cache, e, move.now);
      }
    case Read(p, env) =>
      PollAnnounce(s.m, env, move.now);
      PollContinuous(s.m, env, move.now);
    case _ =>
  }

  lemma {:induction false} RunOne(s: Sys, trace: seq<Move>)
    requires OneInv(s) && Sane(trace, 1)
    ensures OneInv(Run(s, trace))
  {
    if trace != [] {
      hide Next, OneInv;
      RunOne(s, trace[..|trace| - 1]);
      NextOne(Run(s, trace[..|trace| - 1]), trace[|trace| - 1]);
    }
  }

  /** One poll in flight, from any state in which the policy is continuous, chosen by hand or for
      an auto device, and no announcement is left from before: while the loss counts as announced
      nothing good has been published since, so the first poll that finds the device not online
      after any good publication emits comm_lost. */
  lemma LossIsReannounced(s0: Sys, trace: seq<Move>, env: Env, now: Time)
    requires Continuous(s0.m) && s0.flights == map[] && !s0.m.cache.announce.announced && Sane(trace, 1)
    ensures var s := Run(s0, trace);
            var p := PollOnce(s.m, env, now);
            && (s.m.cache.announce.announced ==> LossStands(s.log))
            && (p.after.cache.link.mode != Online && !p.out.Dropped? ==> p.out.CommLost? || LossStands(s.log))
            && (p.out.Repeated? ==> LossStands(s.log))
  {
    RunOne(s0, trace);
    var s := Run(s0, trace);
    PollAnnounce(s.m, env, now);
    PollSpeaks(s.m, env, now);
  }

  /** A master that became continuous with an announcement from its smart days gets there with
      the first poll that publishes a confirmed recovery. */
  lemma RecoverySettles(m: Master, env: Env, now: Time)
    requires Continuous(m) && m.cache.link.mode == Online && m.cache.link.pendingRecovery
    ensures var p := PollOnce(m, env, now);
            p.out.Values? ==> Continuous(p.after) && !p.after.cache.announce.announced
  {
    PollContinuous(m, env, now);
  }

  lemma PollSpeaks(m: Master, env: Env, now: Time)
    requires Continuous(m)
    ensures var p := PollOnce(m, env, now);
            p.after.cache.link.mode != Online ==> p.out.CommLost? || p.out.Repeated? || p.out.Dropped?
  {
    hide Classify, CheckSmartIdle, Judge, TakeDirty, StringsDue, CountStringRequest, MarkAllDirty, Stale;
    ClassifyContinuous(m.auto, m.cache.link, env, now);
    JudgeOwes(m.cache.link, Stale(m.cache.link, env, now), now);
  }

  // ---------------------------------------------------------------- where it fails

  const MANUAL := Auto(false, Unknown, 0.0, false, false)
  const KEY := Key(30, 0)
  const READ := Entry(Sample(1.0, None, None), None, None)
  const ENV := Env(100.0, 300.0, false, 1.0, Unknown, true, [KEY])

  lemma RunTwo(s: Sys, trace: seq<Move>, a: Move, b: Move)
    ensures Run(s, trace + [a, b]) == Next(Next(Run(s, trace), a), b)
  {
    assert trace + [a, b] == (trace + [a]) + [b];
  }

  /** A sleeping smart device with something to publish and an announced loss. */
  ghost predicate SleepsAnnounced(m: Master, contact: Time) {
    && !m.auto.configured && m.cache.announce.announced
    && m.cache.link.smart && !m.cache.link.connected && m.cache.link.idleSince != 0.0
    && m.cache.link.lastContact == contact && contact > 0.0
    && PeekIfDirty(m.cache.store, KEY).Some?
  }

  /** Polled within the silence limit, such a device publishes as if healthy; polled after it,
      the loss is not announced again. */
  lemma SleepRetracts(m: Master, contact: Time)
    requires SleepsAnnounced(m, contact)
    ensures var p := PollOnce(m, ENV, contact + 1.0);
            && Publishes(p.out) && p.out.Values?
            && PollOnce(p.after, ENV, contact + 1000.0).out == Repeated
  {
  }

  const ASLEEP: seq<Move> := [
    Move(1000.0, Read(0, ENV)), Move(1000.0, Published(0)), Move(1000.0, Finished(0, [])),
    Move(1001.0, Io(Opened)), Move(1002.0, Io(Measured(KEY, READ))), Move(1003.0, Io(Closed))]

  lemma AnnouncedAtStart()
    ensures Run(Start(true, MANUAL), ASLEEP[..3]) ==
            Sys(Master(NewCache(true).(announce := Announce(true, 0)), MANUAL), map[], [Loss(0)])
  {
    hide TakeDirty, StringsDue, CountStringRequest, MarkAllDirty;
    assert ASLEEP[..3] == [ASLEEP[0]] + [ASLEEP[1], ASLEEP[2]];
    RunTwo(Start(true, MANUAL), [ASLEEP[0]], ASLEEP[1], ASLEEP[2]);
    assert [ASLEEP[0]][..0] == [];
    var s := Next(Start(true, MANUAL), ASLEEP[0]);
    assert s.flights == map[0 := Flight(CommLost(0), false)];
    assert [] + [Loss(0)] == [Loss(0)];
  }

  /** The first value after an opening puts a new cache online with one dirty key. */
  lemma FirstValue(c: Cache, from: Time, to: Time)
    requires c.store == EMPTY_STORE && !c.link.connected && c.link.mode == Lost && c.link.idleSince == 0.0
    requires from <= to
    ensures var d := StepCache(StepCache(c, Opened, from), Measured(KEY, READ), to);
            && ValidStore(d.store) && KEY in d.store.values && KEY in d.store.dirty
            && d.announce == c.announce
            && d.link.mode == Online && d.link.pendingRecovery && d.link.connected
            && d.link.smart == c.link.smart && d.link.idleSince == 0.0 && d.link.sessionEvidence
            && d.link.lastEvidenceAt == to && d.link.lastContact == to
  {
    hide MarkAllDirty, StoreSet, ValidStore;
    var w := StoreSet(EMPTY_STORE, KEY, READ);
    assert ValidStore(w) && w.values == map[KEY := READ] by { FirstStore(); }
    StoreLaws.MarkAllDirtyMeaning(w);
    assert StepCache(StepCache(c, Opened, from), Measured(KEY, READ), to).store == MarkAllDirty(w);
  }

  lemma FirstStore()
    ensures var w := StoreSet(EMPTY_STORE, KEY, READ); ValidStore(w) && w.values == map[KEY := READ]
  {
  }

  /** Announced while disconnected, the device connects, sends one value and closes again. */
  lemma WakesBriefly(s: Sys)
    requires s.m == Master(NewCache(true).(announce := Announce(true, 0)), MANUAL) && s.flights == map[]
    ensures var t := Next(Next(Next(s, ASLEEP[3]), ASLEEP[4]), ASLEEP[5]);
            SleepsAnnounced(t.m, 1002.0) && t.flights == map[]
  {
    hide MarkAllDirty, StoreSet;
    FirstValue(s.m.cache, 1001.0, 1002.0);
    var c := Next(Next(s, ASLEEP[3]), ASLEEP[4]).m.cache;
    assert c == StepCache(StepCache(s.m.cache, Opened, 1001.0), Measured(KEY, READ), 1002.0) by { hide StepCache; }
  }

  /** Under the smart policy one slot is enough to lose the announcement. */
  lemma SmartLosesAnnouncement()
    ensures !AlwaysAnnounced(true, 1)
  {
    hide Next, PollOnce, SleepsAnnounced;
    var s := Run(Start(true, MANUAL), ASLEEP[..3]);
    AnnouncedAtStart();
    WakesBriefly(s);
    assert ASLEEP == (ASLEEP[..3] + [ASLEEP[3]]) + [ASLEEP[4], ASLEEP[5]];
    RunTwo(Start(true, MANUAL), ASLEEP[..3] + [ASLEEP[3]], ASLEEP[4], ASLEEP[5]);
    var t := Run(Start(true, MANUAL), ASLEEP);
    SleepRetracts(t.m, 1002.0);
    var a, b := Move(1003.0, Read(0, ENV)), Move(1003.0, Published(0));
    ReadThenPublish(t, a, b);
    RunTwo(Start(true, MANUAL), ASLEEP, a, b);
    var trace := ASLEEP + [a, b];
    assert Sane(trace, 1);
    assert PollOnce(Run(Start(true, MANUAL), trace).m, ENV, 2002.0).out == Repeated;
    assert trace[|trace| - 1].now <= 2002.0;
  }

  lemma ReadThenPublish(s: Sys, a: Move, b: Move)
    requires a.act.Read? && a.act.p !in s.flights && a.act.env.keys != []
    requires b.act == Published(a.act.p)
    requires var out := PollOnce(s.m, a.act.env, a.now).out; Publishes(out) && out.Values?
    ensures var t := Next(Next(s, a), b);
            t.m == PollOnce(s.m, a.act.env, a.now).after && t.log == s.log + [Good]
  {
  }

  // A continuous device whose good poll (slot 0) is overtaken by a poll that finds it gone.

  const OVERTAKEN: seq<Move> := [
    Move(1.0, Io(Opened)), Move(2.0, Io(Measured(KEY, READ))), Move(3.0, Read(0, ENV)), Move(4.0, Io(Closed)),
    Move(5.0, Read(1, ENV)), Move(5.0, Published(1)), Move(5.0, Finished(1, [])), Move(6.0, Published(0))]

  ghost predicate Manual(m: Master) {
    Continuous(m) && !m.auto.configured
  }

  /** Lost, unannounced, with a good poll still under way in slot 0. */
  ghost predicate GoodUnderWay(s: Sys) {
    && Manual(s.m) && !s.m.cache.link.connected && s.m.cache.link.mode == Lost
    && !s.m.cache.announce.announced
    && s.flights.Keys == {0} && s.flights[0].out.Values?
  }

  lemma OpensAndReads(s: Sys)
    requires s == Start(false, MANUAL)
    ensures GoodUnderWay(Next(Next(Next(Next(s, OVERTAKEN[0]), OVERTAKEN[1]), OVERTAKEN[2]), OVERTAKEN[3]))
  {
    hide MarkAllDirty, StoreSet, PollOnce;
    FirstValue(s.m.cache, 1.0, 2.0);
    var t := Next(Next(s, OVERTAKEN[0]), OVERTAKEN[1]);
    assert t.m.cache == StepCache(StepCache(s.m.cache, Opened, 1.0), Measured(KEY, READ), 2.0) by { hide StepCache; }
    RecoveredPoll(t.m);
  }

  lemma RecoveredPoll(m: Master)
    requires Manual(m) && m.cache.link.connected && m.cache.link.mode == Online && m.cache.link.pendingRecovery
    requires m.cache.link.lastEvidenceAt == 2.0
    requires ValidStore(m.cache.store) && KEY in m.cache.store.values
    ensures var p := PollOnce(m, ENV, 3.0);
            && Manual(p.after) && p.out.Values? && Publishes(p.out)
            && !p.after.cache.announce.announced
  {
    hide MarkAllDirty, StringsDue, CountStringRequest;
    StoreLaws.MarkAllDirtyMeaning(m.cache.store);
  }

  lemma LostPollSays(m: Master, now: Time)
    requires Manual(m) && !m.cache.link.connected && m.cache.link.mode == Lost
    ensures var p := PollOnce(m, ENV, now);
            && p.after == m
            && p.out == if m.cache.announce.announced then Repeated else CommLost(m.cache.announce.generation)
  {
  }

  /** The loss is announced and confirmed first, then the slow poll publishes. */
  lemma LateGood(s: Sys)
    requires GoodUnderWay(s)
    ensures var t := Next(Next(Next(Next(s, OVERTAKEN[4]), OVERTAKEN[5]), OVERTAKEN[6]), OVERTAKEN[7]);
            && PollOnce(t.m, ENV, 7.0).out == Repeated
            && !LossStands(t.log)
  {
    hide PollOnce;
    LostPollSays(s.m, 5.0);
    var t := Next(Next(Next(s, OVERTAKEN[4]), OVERTAKEN[5]), OVERTAKEN[6]);
    assert t.m == s.m.(cache := s.m.cache.(announce := s.m.cache.announce.(announced := true)));
    LostPollSays(t.m, 7.0);
  }

  lemma TwoPollsLoseAnnouncement()
    ensures !AlwaysAnnounced(false, 2)
  {
    hide Next, PollOnce, GoodUnderWay;
    var s0 := Start(false, MANUAL);
    var two, four, six := OVERTAKEN[..2], OVERTAKEN[..4], OVERTAKEN[..6];
    assert [] + [OVERTAKEN[0], OVERTAKEN[1]] == two;
    assert two + [OVERTAKEN[2], OVERTAKEN[3]] == four;
    assert four + [OVERTAKEN[4], OVERTAKEN[5]] == six;
    assert six + [OVERTAKEN[6], OVERTAKEN[7]] == OVERTAKEN;
    RunTwo(s0, [], OVERTAKEN[0], OVERTAKEN[1]);
    RunTwo(s0, two, OVERTAKEN[2], OVERTAKEN[3]);
    RunTwo(s0, four, OVERTAKEN[4], OVERTAKEN[5]);
    RunTwo(s0, six, OVERTAKEN[6], OVERTAKEN[7]);
    OpensAndReads(s0);
    LateGood(Run(s0, four));
    assert Sane(OVERTAKEN, 2);
  }

  /** With at least one poll slot, losses are always announced exactly for a continuous policy
      and a single poll in flight. */
  lemma AnnouncedIffContinuousAndAlone(smart: bool, limit: nat)
    requires limit >= 1
    ensures AlwaysAnnounced(smart, limit) <==> !smart && limit == 1
  {
    hide PollOnce, Next;
    if !smart && limit == 1 {
      forall auto, trace: seq<Move>, env, now |
        Sane(trace, 1) && PollOnce(Run(Start(false, auto), trace).m, env, now).out.Repeated?
        ensures LossStands(Run(Start(false, auto), trace).log)
      {
        LossIsReannounced(Start(false, auto), trace, env, now);
      }
    } else if smart {
      if AlwaysAnnounced(true, limit) {
        SmartLosesAnnouncement();
      }
    } else {
      if AlwaysAnnounced(false, limit) {
        TwoPollsLoseAnnouncement();
      }
    }
  }

}
