/** The silence watch over smart devices, and the postponement of comm_lost while one wakes. */
module SmartSleep {
  import opened Wrappers
  import opened CacheModel
  import opened PollModel
  import opened LinkRuns

  // ---------------------------------------------------------------- one master, one policy

  /** No poll of the run drops the master; a dropped one is replaced with a new cache. */
  ghost predicate Kept(m: Master, trace: seq<Stamped>) {
    forall i :: 0 <= i < |trace| && trace[i].event.Polled? ==>
      !PollOnce(Run(m, trace[..i]), trace[i].event.env, trace[i].now).out.Dropped?
  }

  /** Evidence arrives over an open link, as the callbacks of a channel do. */
  ghost predicate Orderly(m: Master, trace: seq<Stamped>) {
    forall i :: 0 <= i < |trace| && Evidence(trace[i].event) ==> Run(m, trace[..i]).cache.link.connected
  }

  /** Classification that leaves the device smart leaves its link state alone. */
  lemma ClassifyKeeps(a: Auto, l: Link, env: Env, now: Time)
    requires !Classify(a, l, env, now).dropped && Classify(a, l, env, now).link.smart
    ensures Classify(a, l, env, now).link == l
  {
  }

  /** A device that is smart after a step was smart before it. */
  lemma SmartBefore(m: Master, e: Stamped)
    requires Step(m, e).cache.link.smart
    ensures m.cache.link.smart
  {
    hide TakeDirty, StringsDue, CountStringRequest, MarkAllDirty, CommitPublished, StoreSet;
  }

  lemma {:induction false} SmartFromTheStart(m: Master, trace: seq<Stamped>)
    requires Run(m, trace).cache.link.smart
    ensures m.cache.link.smart
  {
    if trace != [] {
      SmartBefore(Run(m, trace[..|trace| - 1]), trace[|trace| - 1]);
      SmartFromTheStart(m, trace[..|trace| - 1]);
    }
  }

  /** For a smart device "asleep" and its time stamp agree, and evidence of a closed session has
      put it to sleep or been used up. */
  ghost predicate SleepInv(l: Link) {
    && LinkInv(l)
    && (l.smart ==> (l.mode == SmartIdle <==> l.idleSince != 0.0))
  }

  ghost predicate Heard(l: Link) {
    l.smart && !l.connected && l.sessionEvidence ==> l.idleSince != 0.0
  }

  lemma JudgeSleep(l: Link, stale: bool, now: Time)
    requires SleepInv(l)
    ensures SleepInv(Judge(l, stale, now).link) && (Heard(l) ==> Heard(Judge(l, stale, now).link))
  {
  }

  lemma IdleSleep(l: Link, env: Env, now: Time)
    requires SleepInv(l) && l.smart && now > 0.0
    ensures var k := CheckSmartIdle(l, env, l.connected, now).0;
            SleepInv(k) && (Heard(l) ==> Heard(k))
  {
  }

  lemma SpeakSleep(c: Cache, env: Env, now: Time)
    requires SleepInv(c.link)
    ensures var l := Speak(c, env, now).cache.link;
            SleepInv(l) && (Heard(c.link) ==> Heard(l))
  {
    hide TakeDirty, MarkAllDirty;
  }

  /** A poll after which the policy is still smart. */
  lemma PollSleep(m: Master, env: Env, now: Time)
    requires SleepInv(m.cache.link) && now > 0.0
    requires PollOnce(m, env, now).after.cache.link.smart && !PollOnce(m, env, now).out.Dropped?
    ensures var l := PollOnce(m, env, now).after.cache.link;
            SleepInv(l) && (Heard(m.cache.link) ==> Heard(l))
  {
    hide Classify, Judge, Speak, CheckSmartIdle, TakeDirty, StringsDue, CountStringRequest, MarkAllDirty;
    hide SleepInv, Heard;
    PollStaysSmart(m, env, now);
    var l := m.cache.link;
    IdleSleep(l, env, now);
    JudgeSleep(CheckSmartIdle(l, env, l.connected, now).0, Stale(l, env, now), now);
    forall c: Cache | SleepInv(c.link)
      ensures SleepInv(Speak(c, env, now).cache.link) && (Heard(c.link) ==> Heard(Speak(c, env, now).cache.link))
    {
      SpeakSleep(c, env, now);
    }
  }

  lemma PollStaysSmart(m: Master, env: Env, now: Time)
    requires PollOnce(m, env, now).after.cache.link.smart && !PollOnce(m, env, now).out.Dropped?
    ensures var k := Classify(m.auto, m.cache.link, env, now);
            !k.dropped && k.link == m.cache.link && k.link.smart
  {
    hide Classify, TakeDirty, StringsDue, CountStringRequest, MarkAllDirty, Stale;
    var k := Classify(m.auto, m.cache.link, env, now);
    assert !k.dropped && k.link.smart;
    ClassifyKeeps(m.auto, m.cache.link, env, now);
  }

  lemma StepSleep(m: Master, e: Stamped)
    requires SleepInv(m.cache.link) && e.now > 0.0 && Step(m, e).cache.link.smart
    requires e.event.Polled? ==> !PollOnce(m, e.event.env, e.now).out.Dropped?
    ensures SleepInv(Step(m, e).cache.link)
    ensures Heard(m.cache.link) && (Evidence(e.event) ==> m.cache.link.connected) ==> Heard(Step(m, e).cache.link)
  {
    hide PollOnce, MarkAllDirty, CommitPublished, StoreSet;
    if e.event.Polled? {
      PollSleep(m, e.event.env, e.now);
    }
  }

  lemma {:induction false} RunSleep(m: Master, trace: seq<Stamped>, start: Time)
    requires SleepInv(m.cache.link) && Timed(trace, start) && Kept(m, trace)
    requires Run(m, trace).cache.link.smart
    ensures SleepInv(Run(m, trace).cache.link)
    ensures Heard(m.cache.link) && Orderly(m, trace) ==> Heard(Run(m, trace).cache.link)
  {
    hide Step, SleepInv, Heard, PollOnce;
    if trace != [] {
      var n := |trace| - 1;
      assert forall i :: 0 <= i <= n ==> trace[..n][..i] == trace[..i];
      SmartBefore(Run(m, trace[..n]), trace[n]);
      RunSleep(m, trace[..n], start);
      StepSleep(Run(m, trace[..n]), trace[n]);
    }
  }

  ghost predicate SaysLost(out: Emission) {
    out.CommLost? || out.Repeated?
  }

  // ---------------------------------------------------------------- the silence limit decides

  /** A disconnected listening device under the smart policy, fixed or classified: the poll
      treats it as healthy sleep up to the silence limit and as lost beyond it, and sends
      nothing either way. */
  lemma SilenceDecides(smart: bool, trace: seq<Stamped>, start: Time, auto: Auto, env: Env, now: Time)
    requires Timed(trace, start) && now > 0.0 && !env.initiating
    requires var m0 := Master(NewCache(smart), auto);
             && Kept(m0, trace) && !Run(m0, trace).cache.link.connected
             && var p := PollOnce(Run(m0, trace), env, now); p.after.cache.link.smart && !p.out.Dropped?
    ensures var m := Run(Master(NewCache(smart), auto), trace);
            var p := PollOnce(m, env, now);
            var l := p.after.cache.link;
            && p.stringRounds + p.integrityPolls == 0 && !p.probes && !p.asksForData && !p.resets
            && (!SilenceExceeded(m.cache.link, env, now) ==> p.out.Values? && l.mode == SmartIdle)
            && (SilenceExceeded(m.cache.link, env, now) ==> SaysLost(p.out) && l.mode == Lost && l.idleSince == 0.0)
  {
    var m0 := Master(NewCache(smart), auto);
    var m := Run(m0, trace);
    assert m.cache.link.smart by { PollStaysSmart(m, env, now); }
    RunSleep(m0, trace, start);
    DisconnectedPoll(m, env, now);
  }

  lemma DisconnectedPoll(m: Master, env: Env, now: Time)
    requires SleepInv(m.cache.link) && now > 0.0 && !m.cache.link.connected && !env.initiating
    requires PollOnce(m, env, now).after.cache.link.smart && !PollOnce(m, env, now).out.Dropped?
    ensures var p := PollOnce(m, env, now);
            var l := p.after.cache.link;
            && p.stringRounds + p.integrityPolls == 0 && !p.probes && !p.asksForData && !p.resets
            && (!SilenceExceeded(m.cache.link, env, now) ==> p.out.Values? && l.mode == SmartIdle)
            && (SilenceExceeded(m.cache.link, env, now) ==> SaysLost(p.out) && l.mode == Lost && l.idleSince == 0.0)
  {
    hide TakeDirty, StringsDue, CountStringRequest, Classify;
    PollStaysSmart(m, env, now);
    ClosedLinkAsksNothing(m.auto, m.cache.link, env, now);
  }

  lemma ClosedLinkAsksNothing(a: Auto, l: Link, env: Env, now: Time)
    requires !l.connected
    ensures Classify(a, l, env, now).integrityPolls == 0
  {
  }

  // ---------------------------------------------------------------- since when it is silent

  /** When evidence last arrived, on any connection; if it never did, when a poll first took the
      device to be asleep and knew when its master was created. */
  function ContactAt(m: Master, trace: seq<Stamped>): Time {
    if trace == [] then 0.0
    else
      var n := |trace| - 1;
      var e, before := trace[n], ContactAt(m, trace[..n]);
      if Evidence(e.event) then e.now
      else if before == 0.0 && e.event.Polled? && e.event.env.createdAt != 0.0
              && Run(m, trace[..n]).cache.link.mode != SmartIdle && Run(m, trace).cache.link.mode == SmartIdle
      then e.now
      else before
  }

  ghost predicate SensibleLimits(trace: seq<Stamped>) {
    forall i :: 0 <= i < |trace| && trace[i].event.Polled? ==> trace[i].event.env.silenceLimit >= 0.0
  }

  lemma JudgeContact(l: Link, stale: bool, now: Time)
    ensures var k := Judge(l, stale, now).link;
            k.lastContact == l.lastContact && (k.mode == SmartIdle <==> l.mode == SmartIdle)
  {
  }

  lemma SpeakContact(c: Cache, env: Env, now: Time)
    ensures var l := Speak(c, env, now).cache.link; l.lastContact == c.link.lastContact && l.mode == c.link.mode
  {
    hide TakeDirty, MarkAllDirty;
  }

  lemma IdleContact(l: Link, env: Env, now: Time)
    requires SleepInv(l) && l.smart && now > 0.0 && env.silenceLimit >= 0.0
    ensures var k := CheckSmartIdle(l, env, l.connected, now).0;
            var sleeps := l.mode != SmartIdle && k.mode == SmartIdle;
            k.lastContact == if l.lastContact == 0.0 && env.createdAt != 0.0 && sleeps then now else l.lastContact
  {
  }

  lemma PollContact(m: Master, env: Env, now: Time)
    requires SleepInv(m.cache.link) && now > 0.0 && env.silenceLimit >= 0.0
    requires PollOnce(m, env, now).after.cache.link.smart && !PollOnce(m, env, now).out.Dropped?
    ensures var l, k := m.cache.link, PollOnce(m, env, now).after.cache.link;
            var sleeps := l.mode != SmartIdle && k.mode == SmartIdle;
            k.lastContact == if l.lastContact == 0.0 && env.createdAt != 0.0 && sleeps then now else l.lastContact
  {
    hide Classify, Judge, Speak, CheckSmartIdle, TakeDirty, StringsDue, CountStringRequest, Stale, SleepInv;
    PollStaysSmart(m, env, now);
    var l := m.cache.link;
    IdleContact(l, env, now);
    JudgeContact(CheckSmartIdle(l, env, l.connected, now).0, Stale(l, env, now), now);
    forall c: Cache
      ensures var k := Speak(c, env, now).cache.link; k.lastContact == c.link.lastContact && k.mode == c.link.mode
    {
      SpeakContact(c, env, now);
    }
  }

  lemma {:induction false} ContactIs(m: Master, trace: seq<Stamped>, start: Time)
    requires SleepInv(m.cache.link) && m.cache.link.lastContact == 0.0
    requires Timed(trace, start) && Kept(m, trace) && SensibleLimits(trace) && Run(m, trace).cache.link.smart
    ensures Run(m, trace).cache.link.lastContact == ContactAt(m, trace)
  {
    if trace != [] {
      hide SleepInv, PollOnce, MarkAllDirty, StoreSet, CommitPublished;
      var n := |trace| - 1;
      assert forall i :: 0 <= i <= n ==> trace[..n][..i] == trace[..i];
      SmartBefore(Run(m, trace[..n]), trace[n]);
      ContactIs(m, trace[..n], start);
      RunSleep(m, trace[..n], start);
      if trace[n].event.Polled? {
        PollContact(Run(m, trace[..n]), trace[n].event.env, trace[n].now);
      }
    }
  }

  /** The same decision told from the run: a disconnected listening smart device is asleep for as long
      as the limit, counted from its last evidence, from its first sleep if it never gave any, or
      from the creation of its master before that; and lost after it. */
  lemma SleepsWithinLimit(smart: bool, trace: seq<Stamped>, start: Time, auto: Auto, env: Env, now: Time)
    requires Timed(trace, start) && now > 0.0 && !env.initiating && SensibleLimits(trace) && env.silenceLimit >= 0.0
    requires var m0 := Master(NewCache(smart), auto);
             && Kept(m0, trace) && !Run(m0, trace).cache.link.connected
             && var p := PollOnce(Run(m0, trace), env, now); p.after.cache.link.smart && !p.out.Dropped?
    ensures var m0 := Master(NewCache(smart), auto);
            var mode := PollOnce(Run(m0, trace), env, now).after.cache.link.mode;
            var contact := ContactAt(m0, trace);
            var silentFor := now - if contact != 0.0 then contact else env.createdAt;
            && (mode == SmartIdle <==> env.silenceLimit == 0.0 || silentFor <= env.silenceLimit)
            && (mode == Lost <==> env.silenceLimit != 0.0 && silentFor > env.silenceLimit)
  {
    hide PollOnce, Run, ContactAt;
    var m0 := Master(NewCache(smart), auto);
    assert Run(m0, trace).cache.link.smart by { PollStaysSmart(Run(m0, trace), env, now); }
    SilenceDecides(smart, trace, start, auto, env, now);
    ContactIs(m0, trace, start);
  }

  // ---------------------------------------------------------------- lost stays lost

  /** No evidence arrives and the watch is the same. The link may open and close, and closings
      of a link that is already closed may be reported. */
  ghost predicate Silent(m: Master, trace: seq<Stamped>, limit: Time, createdAt: Time) {
    && Evidences(trace) == 0 && Kept(m, trace) && Run(m, trace).cache.link.smart
    && (forall i :: 0 <= i < |trace| && trace[i].event.Polled? ==>
          var env := trace[i].event.env; env.silenceLimit == limit && env.createdAt == createdAt)
  }

  /** A smart device, not asleep, whose last contact is older than the limit. */
  ghost predicate TooLong(m: Master, limit: Time, createdAt: Time, now: Time) {
    var l := m.cache.link;
    && LinkInv(l) && l.smart && l.idleSince == 0.0 && l.mode != SmartIdle
    && (l.connected ==> l.mode != Online)
    && limit != 0.0
    && (if l.lastContact != 0.0 then now - l.lastContact > limit
        else now > createdAt && now - createdAt > limit)
  }

  /** What remains true of such a device if its last session counts as silent. */
  ghost predicate FoundLost(m: Master, limit: Time, createdAt: Time, now: Time) {
    TooLong(m, limit, createdAt, now) && !m.cache.link.sessionEvidence
  }

  lemma JudgeSilentSession(l: Link, stale: bool, now: Time)
    requires LinkInv(l) && l.smart && l.idleSince == 0.0 && l.mode != SmartIdle
    requires l.connected ==> l.mode != Online
    ensures var k := Judge(l, stale, now).link;
            && LinkInv(k) && k.smart && k.idleSince == 0.0 && k.mode != SmartIdle
            && (k.connected ==> k.mode != Online)
            && k.lastContact == l.lastContact && k.connected == l.connected && k.sessionEvidence == l.sessionEvidence
  {
  }

  lemma LostPoll(m: Master, env: Env, from: Time, now: Time)
    requires FoundLost(m, env.silenceLimit, env.createdAt, from) && now >= from > 0.0
    requires PollOnce(m, env, now).after.cache.link.smart && !PollOnce(m, env, now).out.Dropped?
    ensures var p := PollOnce(m, env, now);
            && FoundLost(p.after, env.silenceLimit, env.createdAt, now)
            && (!m.cache.link.connected ==> SaysLost(p.out))
  {
    hide TakeDirty, StringsDue, CountStringRequest, Judge, Classify;
    PollStaysSmart(m, env, now);
    var a := m.cache.link.(wakeupPending := -1.0);
    JudgeSilentSession(a, Stale(m.cache.link, env, now), now);
    assert m.cache.link.connected || m.cache.link.mode == Lost;
  }

  /** Once older than the limit the device is lost until it gives new evidence: it never goes
      back to sleep and every poll while disconnected reports (or repeats) comm_lost. */
  lemma {:induction false} LostUntilEvidence(m: Master, trace: seq<Stamped>, limit: Time, createdAt: Time, start: Time)
    requires FoundLost(m, limit, createdAt, start) && Timed(trace, start)
    requires Silent(m, trace, limit, createdAt)
    ensures FoundLost(Run(m, trace), limit, createdAt, LastTime(trace, start))
    ensures forall i :: 0 <= i < |trace| && trace[i].event.Polled? && !Run(m, trace[..i]).cache.link.connected ==>
              SaysLost(PollOnce(Run(m, trace[..i]), trace[i].event.env, trace[i].now).out)
  {
    if trace != [] {
      hide PollOnce, FoundLost, SaysLost, Step, Silent, Evidence;
      var n := |trace| - 1;
      var prefix := trace[..n];
      assert forall i :: 0 <= i <= n ==> prefix[..i] == trace[..i];
      SilentPrefix(m, trace, limit, createdAt);
      LostUntilEvidence(m, prefix, limit, createdAt, start);
      LostNext(Run(m, prefix), trace[n], limit, createdAt, LastTime(prefix, start));
    }
  }

  lemma SilentPrefix(m: Master, trace: seq<Stamped>, limit: Time, createdAt: Time)
    requires Silent(m, trace, limit, createdAt) && trace != []
    ensures var n := |trace| - 1;
            var last := trace[n].event;
            && Silent(m, trace[..n], limit, createdAt)
            && !Evidence(last) && Step(Run(m, trace[..n]), trace[n]).cache.link.smart
            && (last.Polled? ==>
                  && last.env.silenceLimit == limit && last.env.createdAt == createdAt
                  && !PollOnce(Run(m, trace[..n]), last.env, trace[n].now).out.Dropped?)
  {
    hide PollOnce, Step;
    var n := |trace| - 1;
    assert forall i :: 0 <= i <= n ==> trace[..n][..i] == trace[..i];
    SmartBefore(Run(m, trace[..n]), trace[n]);
  }

  lemma LostNext(m: Master, e: Stamped, limit: Time, createdAt: Time, from: Time)
    requires FoundLost(m, limit, createdAt, from) && e.now >= from > 0.0
    requires !Evidence(e.event) && Step(m, e).cache.link.smart
    requires e.event.Polled? ==>
               && e.event.env.silenceLimit == limit && e.event.env.createdAt == createdAt
               && !PollOnce(m, e.event.env, e.now).out.Dropped?
    ensures FoundLost(Step(m, e), limit, createdAt, e.now)
    ensures e.event.Polled? && !m.cache.link.connected ==> SaysLost(PollOnce(m, e.event.env, e.now).out)
  {
    hide PollOnce, MarkAllDirty, CommitPublished;
    if e.event.Polled? {
      LostPoll(m, e.event.env, from, e.now);
    }
  }

  /** The closed device found silent for too long stays awake, however often closings are
      reported, exactly if its last session does not count as one with evidence. */
  lemma StaysLostIff(m: Master, limit: Time, createdAt: Time, start: Time)
    requires TooLong(m, limit, createdAt, start) && !m.cache.link.connected && start > 0.0
    ensures (forall trace :: Timed(trace, start) && Silent(m, trace, limit, createdAt) ==>
               Run(m, trace).cache.link.mode != SmartIdle)
            <==> !m.cache.link.sessionEvidence
  {
    if m.cache.link.sessionEvidence {
      var again := [At(start, Closed)];
      ClosedAgain(m, start);
      assert Timed(again, start) && Silent(m, again, limit, createdAt);
      assert Run(m, again).cache.link.mode == SmartIdle;
    } else {
      hide PollOnce, Step;
      forall trace | Timed(trace, start) && Silent(m, trace, limit, createdAt)
        ensures Run(m, trace).cache.link.mode != SmartIdle
      {
        LostUntilEvidence(m, trace, limit, createdAt, start);
      }
    }
  }

  lemma ClosedAgain(m: Master, now: Time)
    requires m.cache.link.smart && m.cache.link.sessionEvidence && now > 0.0
    ensures var again := [At(now, Closed)];
            && Run(m, again).cache.link.mode == SmartIdle && Run(m, again).cache.link.smart
            && Evidences(again) == 0
  {
    var again := [At(now, Closed)];
    assert again[..0] == [];
    assert Evidences([]) == 0 && Run(m, []) == m;
  }

  /** The poll that finds the silence too long; whether the session still counts as one with
      evidence was decided before. */
  lemma LostPollStarts(m: Master, env: Env, now: Time)
    requires SleepInv(m.cache.link) && now > 0.0 && !m.cache.link.connected && !env.initiating
    requires PollOnce(m, env, now).after.cache.link.smart && !PollOnce(m, env, now).out.Dropped?
    requires SilenceExceeded(m.cache.link, env, now) && env.silenceLimit > 0.0
    ensures var after := PollOnce(m, env, now).after;
            && TooLong(after, env.silenceLimit, env.createdAt, now) && !after.cache.link.connected
            && (after.cache.link.sessionEvidence <==> m.cache.link.idleSince == 0.0 && m.cache.link.sessionEvidence)
  {
    hide TakeDirty, StringsDue, CountStringRequest, Classify;
    PollStaysSmart(m, env, now);
  }

  /** A run from a new cache with evidence over open links only, a disconnected poll beyond the
      limit, and a continuation without evidence in which closings are reported at any time. */
  ghost predicate SilentTooLong(m0: Master, before: seq<Stamped>, env: Env, now: Time, after: seq<Stamped>,
                                start: Time)
  {
    var m := Run(m0, before);
    && Timed(before, start) && now > 0.0 && Kept(m0, before) && Orderly(m0, before)
    && !m.cache.link.connected && !env.initiating && env.silenceLimit > 0.0
    && SilenceExceeded(m.cache.link, env, now)
    && var p := PollOnce(m, env, now);
       !p.out.Dropped? && Timed(after, now) && Silent(p.after, after, env.silenceLimit, env.createdAt)
  }

  /** Then the device never sleeps again before new evidence, and every disconnected poll reports
      the loss. */
  lemma SilenceIsFinal(smart: bool, auto: Auto, before: seq<Stamped>, env: Env, now: Time, after: seq<Stamped>,
                       start: Time)
    requires SilentTooLong(Master(NewCache(smart), auto), before, env, now, after, start)
    ensures var lost := PollOnce(Run(Master(NewCache(smart), auto), before), env, now).after;
            && Run(lost, after).cache.link.mode != SmartIdle
            && forall i :: 0 <= i < |after| && after[i].event.Polled? && !Run(lost, after[..i]).cache.link.connected ==>
                 SaysLost(PollOnce(Run(lost, after[..i]), after[i].event.env, after[i].now).out)
  {
    hide PollOnce, SilenceExceeded, Step;
    var m0 := Master(NewCache(smart), auto);
    var m := Run(m0, before);
    var lost := PollOnce(m, env, now).after;
    SmartFromTheStart(lost, after);
    PollStaysSmart(m, env, now);
    RunSleep(m0, before, start);
    LostPollStarts(m, env, now);
    LostUntilEvidence(lost, after, env.silenceLimit, env.createdAt, now);
  }

  /** It happens already to a device that never calls in at all. */
  lemma NeverCallsIn(auto: Auto, key: Key)
    requires !auto.configured
    ensures SilentTooLong(Master(NewCache(true), auto), [], Env(120.0, 300.0, false, 1.0, Unknown, true, [key]), 1000.0,
                          [], 1.0)
  {
    hide TakeDirty, StringsDue, CountStringRequest, MarkAllDirty;
  }

  // ---------------------------------------------------------------- what a closing means

  predicate WithinSession(trace: seq<Stamped>) {
    forall i :: 0 <= i < |trace| ==> !trace[i].event.Opened? && !trace[i].event.Closed?
  }

  /** A session's evidence flag is exactly "some evidence arrived since the link opened". */
  lemma {:induction false} SessionEvidence(m: Master, trace: seq<Stamped>)
    requires m.cache.link.connected && WithinSession(trace) && LinkInv(m.cache.link)
    ensures var t := Run(m, trace);
            && t.cache.link.connected && LinkInv(t.cache.link)
            && (t.cache.link.sessionEvidence <==> m.cache.link.sessionEvidence || Evidences(trace) > 0)
  {
    if trace != [] {
      hide Step, LinkInv;
      var n := |trace| - 1;
      SessionEvidence(m, trace[..n]);
      SessionStep(Run(m, trace[..n]), trace[n]);
    }
  }

  lemma SessionStep(m: Master, e: Stamped)
    requires m.cache.link.connected && LinkInv(m.cache.link)
    requires !e.event.Opened? && !e.event.Closed?
    ensures var t := Step(m, e);
            && t.cache.link.connected && LinkInv(t.cache.link)
            && (t.cache.link.sessionEvidence <==> m.cache.link.sessionEvidence || Evidence(e.event))
  {
    hide PollOnce, LinkInv;
    StepInv(m, e);
    if e.event.Polled? {
      SessionPoll(m, e.event.env, e.now);
    }
  }

  lemma SessionPoll(m: Master, env: Env, now: Time)
    requires m.cache.link.connected && LinkInv(m.cache.link)
    ensures var l := PollOnce(m, env, now).after.cache.link;
            l.connected && l.sessionEvidence == m.cache.link.sessionEvidence
  {
    hide Classify, CheckSmartIdle, TakeDirty, StringsDue, CountStringRequest, MarkAllDirty, Judge, LinkInv, Stale;
    var k := Classify(m.auto, m.cache.link, env, now);
    ClassifyInv(m.auto, m.cache.link, env, now);
    KeepsSession(m.auto, m.cache.link, env, now);
    IdleInv(k.link, env, now);
    JudgeSession(k.link, Stale(k.link, env, now), now);
    JudgeSession(k.link.(wakeupPending := -1.0), Stale(k.link, env, now), now);
  }

  lemma KeepsSession(a: Auto, l: Link, env: Env, now: Time)
    ensures var k := Classify(a, l, env, now).link; k.connected == l.connected && k.sessionEvidence == l.sessionEvidence
  {
  }

  lemma JudgeSession(l: Link, stale: bool, now: Time)
    ensures var k := Judge(l, stale, now).link;
            k.connected == l.connected && k.smart == l.smart && k.idleSince == l.idleSince
            && k.sessionEvidence == l.sessionEvidence
  {
  }

  /** When a session ends, the device is taken to be asleep exactly if it is under the smart
      policy and said something during that session; otherwise the closing is a loss. */
  lemma ClosingIsSleepIffSpoken(m: Master, openedAt: Time, trace: seq<Stamped>, closedAt: Time)
    requires LinkInv(m.cache.link) && !m.cache.link.connected
    requires WithinSession(trace) && closedAt > 0.0
    ensures var s := Run(Step(m, At(openedAt, Opened)), trace);
            var l := Step(s, At(closedAt, Closed)).cache.link;
            && (l.mode == SmartIdle <==> s.cache.link.smart && Evidences(trace) > 0)
            && (l.mode == Lost <==> !(s.cache.link.smart && Evidences(trace) > 0))
  {
    hide PollOnce;
    var s := Step(m, At(openedAt, Opened));
    StepInv(m, At(openedAt, Opened));
    SessionEvidence(s, trace);
  }

  /** Waking up leaves the length of the sleep behind for the next poll, which takes it. */
  lemma WakeupLength(m: Master, now: Time, env: Env, later: Time)
    requires LinkInv(m.cache.link) && m.cache.link.smart && m.cache.link.idleSince != 0.0
    ensures var awake := Step(m, At(now, Opened));
            var slept := now - m.cache.link.idleSince;
            && awake.cache.link.wakeupPending == (if slept > 0.0 then slept else 0.0)
            && awake.cache.link.idleSince == 0.0
            && var p := PollOnce(awake, env, later);
               p.after.cache.link.smart && !p.out.Dropped? ==> p.after.cache.link.wakeupPending == -1.0
  {
    hide PollOnce;
    var awake := Step(m, At(now, Opened));
    if PollOnce(awake, env, later).after.cache.link.smart && !PollOnce(awake, env, later).out.Dropped? {
      StepInv(m, At(now, Opened));
      TakesWakeup(awake, env, later);
    }
  }

  lemma TakesWakeup(m: Master, env: Env, now: Time)
    requires LinkInv(m.cache.link) && m.cache.link.connected
    requires PollOnce(m, env, now).after.cache.link.smart && !PollOnce(m, env, now).out.Dropped?
    ensures PollOnce(m, env, now).after.cache.link.wakeupPending == -1.0
  {
    hide Classify, Judge, Speak, CheckSmartIdle, TakeDirty, StringsDue, CountStringRequest, Stale, LinkInv;
    PollStaysSmart(m, env, now);
    IdleInv(m.cache.link, env, now);
    JudgeWakeup(m.cache.link.(wakeupPending := -1.0), Stale(m.cache.link, env, now), now);
    forall c: Cache
      ensures Speak(c, env, now).cache.link.wakeupPending == c.link.wakeupPending
    {
      SpeakWakeup(c, env, now);
    }
  }

  lemma JudgeWakeup(l: Link, stale: bool, now: Time)
    ensures Judge(l, stale, now).link.wakeupPending == l.wakeupPending
  {
  }

  lemma SpeakWakeup(c: Cache, env: Env, now: Time)
    ensures Speak(c, env, now).cache.link.wakeupPending == c.link.wakeupPending
  {
  }

  // ---------------------------------------------------------------- postponing comm_lost

  /** The postponements after one more event, which confirms a recovery, postpones, or neither. */
  function NextTimes(before: Master, e: Stamped, times: seq<Time>): seq<Time> {
    match e.event
    case Measured(k, entry) => if ConfirmsRecovery(before.cache.link, e.now) then [] else times
    case Polled(env) => if PollOnce(before, env, e.now).out.Deferred? then times + [e.now] else times
    case _ => times
  }

  /** Times of the polls that postponed comm_lost since the last confirmed recovery. */
  function DeferTimes(m: Master, trace: seq<Stamped>): seq<Time> {
    if trace == [] then []
    else
      var n := |trace| - 1;
      NextTimes(Run(m, trace[..n]), trace[n], DeferTimes(m, trace[..n]))
  }

  ghost predicate DeferTracked(l: Link, times: seq<Time>) {
    && (l.deferralStartedAt == 0.0 <==> times == [])
    && (times != [] ==> times[0] == l.deferralStartedAt)
    && (forall i :: 0 <= i < |times| ==> times[0] <= times[i] <= times[0] + RECOVERY_GRACE_SEC)
  }

  /** A poll that postpones lies in the grace window of the first one; the others keep it. */
  lemma PollDefers(m: Master, env: Env, now: Time)
    ensures var p := PollOnce(m, env, now);
            var since := p.after.cache.link.deferralStartedAt;
            && (!p.out.Deferred? ==> since == m.cache.link.deferralStartedAt)
            && (p.out.Deferred? && m.cache.link.deferralStartedAt == 0.0 ==> since == now)
            && (p.out.Deferred? && m.cache.link.deferralStartedAt != 0.0 ==>
                  since == m.cache.link.deferralStartedAt && now - since <= RECOVERY_GRACE_SEC)
  {
    hide Classify, CheckSmartIdle, Judge, Speak, TakeDirty, StringsDue, CountStringRequest, Stale;
    var k := Classify(m.auto, m.cache.link, env, now);
    KeepsDeferral(m.auto, m.cache.link, env, now);
    var idle := if k.link.smart then CheckSmartIdle(k.link, env, m.cache.link.connected, now) else (k.link, false);
    IdleKeepsDeferral(k.link, env, m.cache.link.connected, now);
    JudgeKeepsDeferral(idle.0, Stale(k.link, env, now), now);
    forall c: Cache
      ensures SpeakDefers(c, Speak(c, env, now), now)
    {
      SpeakPostpones(c, env, now);
    }
  }

  ghost predicate SpeakDefers(c: Cache, said: Spoken, now: Time) {
    var since := said.cache.link.deferralStartedAt;
    && (!said.out.Deferred? ==> since == c.link.deferralStartedAt)
    && (said.out.Deferred? && c.link.deferralStartedAt == 0.0 ==> since == now)
    && (said.out.Deferred? && c.link.deferralStartedAt != 0.0 ==>
          since == c.link.deferralStartedAt && now - since <= RECOVERY_GRACE_SEC)
  }

  lemma SpeakPostpones(c: Cache, env: Env, now: Time)
    ensures SpeakDefers(c, Speak(c, env, now), now)
  {
  }

  lemma DeferPoll(m: Master, env: Env, now: Time, times: seq<Time>)
    requires now > 0.0 && DeferTracked(m.cache.link, times)
    requires forall i :: 0 <= i < |times| ==> times[i] <= now
    ensures var p := PollOnce(m, env, now);
            DeferTracked(p.after.cache.link, if p.out.Deferred? then times + [now] else times)
  {
    hide PollOnce;
    PollDefers(m, env, now);
  }

  lemma KeepsDeferral(a: Auto, l: Link, env: Env, now: Time)
    ensures Classify(a, l, env, now).link.deferralStartedAt == l.deferralStartedAt
  {
  }

  lemma IdleKeepsDeferral(l: Link, env: Env, connected: bool, now: Time)
    ensures CheckSmartIdle(l, env, connected, now).0.deferralStartedAt == l.deferralStartedAt
  {
  }

  lemma JudgeKeepsDeferral(l: Link, stale: bool, now: Time)
    ensures Judge(l, stale, now).link.deferralStartedAt == l.deferralStartedAt
  {
  }

  lemma DeferStep(m: Master, e: Stamped, times: seq<Time>)
    requires !e.event.Polled? && DeferTracked(m.cache.link, times)
    ensures var confirmed := e.event.Measured? && ConfirmsRecovery(m.cache.link, e.now);
            DeferTracked(Step(m, e).cache.link, if confirmed then [] else times)
  {
  }

  ghost predicate NoneAfter(times: seq<Time>, now: Time) {
    forall i :: 0 <= i < |times| ==> times[i] <= now
  }

  lemma DeferNext(m: Master, e: Stamped, times: seq<Time>, last: Time)
    requires DeferTracked(m.cache.link, times) && NoneAfter(times, last) && e.now >= last && e.now > 0.0
    ensures var more := NextTimes(m, e, times);
            DeferTracked(Step(m, e).cache.link, more) && NoneAfter(more, e.now)
  {
    hide PollOnce, StepCache, ConfirmsRecovery, DeferTracked;
    if e.event.Polled? {
      DeferPoll(m, e.event.env, e.now, times);
    } else {
      DeferStep(m, e, times);
    }
  }

  lemma {:induction false} DeferralIsTracked(m: Master, trace: seq<Stamped>, start: Time)
    requires Timed(trace, start) && m.cache.link.deferralStartedAt == 0.0
    ensures DeferTracked(Run(m, trace).cache.link, DeferTimes(m, trace))
    ensures NoneAfter(DeferTimes(m, trace), LastTime(trace, start))
  {
    if trace != [] {
      hide Step, NextTimes, DeferTracked, NoneAfter;
      var n := |trace| - 1;
      DeferralIsTracked(m, trace[..n], start);
      DeferNext(Run(m, trace[..n]), trace[n], DeferTimes(m, trace[..n]), LastTime(trace[..n], start));
    }
  }

  /** Between two confirmed recoveries all polls that postpone comm_lost lie within one grace
      window of the first of them, however often the link opens and closes. */
  lemma DeferralIsBounded(m: Master, trace: seq<Stamped>, start: Time)
    requires Timed(trace, start) && m.cache.link.deferralStartedAt == 0.0
    ensures var times := DeferTimes(m, trace);
            && DeferTracked(Run(m, trace).cache.link, times)
            && (forall i :: 0 <= i < |times| ==> times[i] <= times[0] + RECOVERY_GRACE_SEC)
            && (trace != [] ==> forall i :: 0 <= i < |times| ==> times[i] <= trace[|trace| - 1].now)
  {
    hide Run, DeferTimes;
    DeferralIsTracked(m, trace, start);
  }
}
