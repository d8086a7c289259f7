/** Where polls take a device whose link is open, told from what happened to it: when it was last
    heard, when it began to recover, and whether it was heard since a recovery failed. */
module LinkRecovery {
  import opened Wrappers
  import opened CacheModel
  import opened PollModel
  import opened LinkRuns

  // ---------------------------------------------------------------- history

  /** When evidence last arrived since the link was last closed; 0.0 if it did not. */
  function LastHeard(trace: seq<Stamped>): Time {
    if trace == [] then 0.0
    else
      var e := trace[|trace| - 1];
      if Evidence(e.event) then e.now
      else if e.event.Closed? then 0.0
      else LastHeard(trace[..|trace| - 1])
  }

  /** When a measurement last arrived. */
  function LastMeasured(trace: seq<Stamped>): Time {
    if trace == [] then 0.0
    else if trace[|trace| - 1].event.Measured? then trace[|trace| - 1].now
    else LastMeasured(trace[..|trace| - 1])
  }

  function ModeOf(m: Master): Mode {
    m.cache.link.mode
  }

  /** When the device last began to recover. */
  function RecoveringSince(m: Master, trace: seq<Stamped>): Time {
    if trace == [] then 0.0
    else
      var n := |trace| - 1;
      if ModeOf(Run(m, trace)) == Recovering && ModeOf(Run(m, trace[..n])) != Recovering then trace[n].now
      else RecoveringSince(m, trace[..n])
  }

  /** A poll that finds the device recovering and leaves it lost. */
  predicate GivesUp(m: Master, e: Stamped) {
    e.event.Polled? && ModeOf(m) == Recovering && ModeOf(Step(m, e)) == Lost
  }

  /** Some evidence arrived after the last poll that gave up. */
  predicate HeardSinceFailure(m: Master, trace: seq<Stamped>) {
    trace != [] &&
    var n := |trace| - 1;
    Evidence(trace[n].event)
    || (!GivesUp(Run(m, trace[..n]), trace[n]) && HeardSinceFailure(m, trace[..n]))
  }

  // ---------------------------------------------------------------- the fields mean the history

  ghost predicate Tracked(l: Link, heard: Time, since: Time, again: bool, now: Time) {
    && LinkInv(l)
    && l.lastEvidenceAt == heard
    && (l.mode == Recovering ==> l.recoveryStartedAt == l.recoveryAnchorAt == since && 0.0 < since <= now)
    && (l.recoveryFailedSeq.Some? ==> (l.evidenceSeq > l.recoveryFailedSeq.value <==> again))
  }

  /** What a poll leaves alone, and what the decision about the link starts from. */
  lemma PollKeeps(m: Master, env: Env, now: Time)
    requires LinkInv(m.cache.link)
    ensures var l := PollOnce(m, env, now).after.cache.link;
            && l.lastEvidenceAt == m.cache.link.lastEvidenceAt && l.evidenceSeq == m.cache.link.evidenceSeq
            && l.lastUpdateAt == m.cache.link.lastUpdateAt && l.connected == m.cache.link.connected
  {
    hide Classify, CheckSmartIdle, Judge, Speak, Stale, TakeDirty, StringsDue, CountStringRequest, LinkInv;
    var k := Classify(m.auto, m.cache.link, env, now);
    ClassifyInv(m.auto, m.cache.link, env, now);
    ClassifyHeard(m.auto, m.cache.link, env, now);
    IdleHeard(k.link, env, m.cache.link.connected, now);
    var idle := if k.link.smart then CheckSmartIdle(k.link, env, m.cache.link.connected, now) else (k.link, false);
    JudgeHeard(idle.0, Stale(k.link, env, now), now);
    forall c: Cache
      ensures SameHeard(c.link, Speak(c, env, now).cache.link)
    {
      SpeakHeard(c, env, now);
    }
  }

  ghost predicate SameHeard(a: Link, b: Link) {
    && a.lastEvidenceAt == b.lastEvidenceAt && a.evidenceSeq == b.evidenceSeq && a.connected == b.connected
    && a.lastUpdateAt == b.lastUpdateAt && a.smart == b.smart && a.mode == b.mode
    && a.recoveryFailedSeq == b.recoveryFailedSeq
    && a.recoveryStartedAt == b.recoveryStartedAt && a.recoveryAnchorAt == b.recoveryAnchorAt
  }

  lemma ClassifyHeard(a: Auto, l: Link, env: Env, now: Time)
    ensures SameHeard(Classify(a, l, env, now).link.(smart := l.smart), l)
  {
  }

  lemma IdleHeard(l: Link, env: Env, connected: bool, now: Time)
    ensures var k := CheckSmartIdle(l, env, connected, now).0;
            k.lastEvidenceAt == l.lastEvidenceAt && k.evidenceSeq == l.evidenceSeq && k.connected == l.connected
            && k.lastUpdateAt == l.lastUpdateAt && k.smart == l.smart
  {
  }

  lemma JudgeHeard(l: Link, stale: bool, now: Time)
    ensures var k := Judge(l, stale, now).link;
            k.lastEvidenceAt == l.lastEvidenceAt && k.evidenceSeq == l.evidenceSeq && k.connected == l.connected
            && k.lastUpdateAt == l.lastUpdateAt && k.smart == l.smart
    ensures Judge(l, stale, now).relinked ==> !stale
  {
  }

  lemma SpeakHeard(c: Cache, env: Env, now: Time)
    ensures SameHeard(c.link, Speak(c, env, now).cache.link)
  {
  }

  /** A poll over an open link that does not drop the master: the decision about the link. */
  lemma OpenPoll(m: Master, env: Env, now: Time)
    requires LinkInv(m.cache.link) && m.cache.link.connected && !PollOnce(m, env, now).out.Dropped?
    ensures var p := PollOnce(m, env, now);
            var l := p.after.cache.link;
            var j := Judge(m.cache.link.(smart := l.smart), Stale(m.cache.link, env, now), now);
            && SameHeard(j.link, l) && p.entered == j.entered
            && p.integrityPolls == j.integrityPolls
                                   + (if p.after.auto.classified && !m.auto.classified then 1 else 0)
            && (p.probes <==> l.mode == Lost && !l.smart)
            && (p.asksForData <==> !Stale(m.cache.link, env, now) && DataStale(m.cache.link, env, now) && !l.smart)
            && (p.resets <==> !Stale(m.cache.link, env, now) || l.mode == Online)
  {
    hide Judge, Speak, TakeDirty, StringsDue, CountStringRequest, LinkInv, Classify, CheckSmartIdle;
    var l := m.cache.link;
    var k := Classify(m.auto, l, env, now);
    ClassifyInv(m.auto, l, env, now);
    ClassifyOpen(m.auto, l, env, now);
    IdleInv(k.link, env, now);
    var start := if k.link.smart then k.link.(wakeupPending := -1.0) else k.link;
    var stale := Stale(l, env, now);
    JudgeHeard(start, stale, now);
    JudgeIgnores(start, l.(smart := k.link.smart), stale, now);
    forall c: Cache
      ensures SameHeard(c.link, Speak(c, env, now).cache.link)
    {
      SpeakHeard(c, env, now);
    }
  }

  lemma ClassifyOpen(a: Auto, l: Link, env: Env, now: Time)
    requires LinkInv(l) && l.connected
    ensures var k := Classify(a, l, env, now);
            && SameHeard(k.link.(smart := l.smart), l) && k.link.connected
            && (!k.dropped ==> k.integrityPolls == if k.auto.classified && !a.classified then 1 else 0)
  {
  }

  /** The decision does not depend on the other fields. */
  lemma JudgeIgnores(a: Link, b: Link, stale: bool, now: Time)
    requires SameHeard(a, b)
    ensures var j, k := Judge(a, stale, now), Judge(b, stale, now);
            SameHeard(j.link, k.link) && j.entered == k.entered && j.integrityPolls == k.integrityPolls
  {
  }

  lemma ClosedDecision(l: Link, k: Link, env: Env, stale: bool, now: Time)
    requires LinkInv(l) && !l.connected
    ensures Judge(l, stale, now).link == l && l.mode != Recovering
    ensures CheckSmartIdle(k, env, false, now).0.recoveryFailedSeq == k.recoveryFailedSeq
  {
  }

  /** Over a closed link nothing recovers and no recovery fails. */
  lemma ClosedPoll(m: Master, env: Env, now: Time)
    requires LinkInv(m.cache.link) && !m.cache.link.connected
    ensures var l := PollOnce(m, env, now).after.cache.link;
            l.mode != Recovering && l.recoveryFailedSeq == m.cache.link.recoveryFailedSeq
  {
    hide Classify, CheckSmartIdle, Judge, Speak, Stale, TakeDirty, StringsDue, CountStringRequest, LinkInv;
    var k := Classify(m.auto, m.cache.link, env, now);
    ClassifyInv(m.auto, m.cache.link, env, now);
    ClassifyHeard(m.auto, m.cache.link, env, now);
    IdleInv(k.link, env, now);
    var idle := if k.link.smart then CheckSmartIdle(k.link, env, false, now) else (k.link, false);
    IdleHeard(k.link, env, false, now);
    ClosedDecision(k.link, k.link, env, Stale(k.link, env, now), now);
    ClosedDecision(idle.0, k.link, env, Stale(k.link, env, now), now);
    forall c: Cache
      ensures SameHeard(c.link, Speak(c, env, now).cache.link)
    {
      SpeakHeard(c, env, now);
    }
  }

  lemma DroppedPoll(m: Master, env: Env, now: Time)
    requires PollOnce(m, env, now).out.Dropped?
    ensures var l := PollOnce(m, env, now).after.cache.link; SameHeard(l.(smart := m.cache.link.smart), m.cache.link)
  {
    hide TakeDirty, StringsDue, CountStringRequest, Classify, Judge, CheckSmartIdle, Stale;
    ClassifyHeard(m.auto, m.cache.link, env, now);
  }

  /** The history after one more event. */
  function NextHeard(e: Stamped, heard: Time): Time {
    if Evidence(e.event) then e.now else if e.event.Closed? then 0.0 else heard
  }

  function NextSince(m: Master, e: Stamped, since: Time): Time {
    if ModeOf(Step(m, e)) == Recovering && ModeOf(m) != Recovering then e.now else since
  }

  predicate NextAgain(m: Master, e: Stamped, again: bool) {
    Evidence(e.event) || (!GivesUp(m, e) && again)
  }

  lemma JudgeTracked(l: Link, stale: bool, heard: Time, since: Time, again: bool, from: Time, now: Time)
    requires Tracked(l, heard, since, again, from) && 0.0 < from <= now
    ensures var k := Judge(l, stale, now).link;
            Tracked(k, heard, if k.mode == Recovering && l.mode != Recovering then now else since,
                    !(l.mode == Recovering && k.mode == Lost) && again, now)
  {
  }

  lemma PollTracked(m: Master, env: Env, heard: Time, since: Time, again: bool, from: Time, now: Time)
    requires Tracked(m.cache.link, heard, since, again, from) && 0.0 < from <= now
    ensures var e := At(now, Polled(env));
            Tracked(Step(m, e).cache.link, NextHeard(e, heard), NextSince(m, e, since), NextAgain(m, e, again), now)
  {
    hide PollOnce, Judge, Stale, LinkInv;
    var l := m.cache.link;
    var p := PollOnce(m, env, now);
    PollInv(m, env, now);
    PollKeeps(m, env, now);
    if p.out.Dropped? {
      DroppedPoll(m, env, now);
    } else if l.connected {
      OpenPoll(m, env, now);
      var start := l.(smart := p.after.cache.link.smart);
      assert LinkInv(start) by { SmartAside(l, start); }
      JudgeTracked(start, Stale(l, env, now), heard, since, again, from, now);
    } else {
      ClosedPoll(m, env, now);
      assert l.mode != Recovering by { SmartAside(l, l); }
    }
  }

  lemma SmartAside(l: Link, k: Link)
    requires LinkInv(l) && k == l.(smart := k.smart)
    ensures LinkInv(k) && (l.mode == Recovering ==> l.connected)
  {
  }

  lemma EventTracked(m: Master, e: Stamped, heard: Time, since: Time, again: bool, from: Time)
    requires !e.event.Polled? && Tracked(m.cache.link, heard, since, again, from) && 0.0 < from <= e.now
    ensures Tracked(Step(m, e).cache.link, NextHeard(e, heard), NextSince(m, e, since), NextAgain(m, e, again), e.now)
  {
    hide MarkAllDirty, StoreSet, CommitPublished, Changes;
  }

  lemma {:induction false} RunTracked(smart: bool, auto: Auto, trace: seq<Stamped>, start: Time)
    requires Timed(trace, start)
    ensures var m0 := Master(NewCache(smart), auto);
            && LastTime(trace, start) >= start
            && Tracked(Run(m0, trace).cache.link, LastHeard(trace), RecoveringSince(m0, trace),
                       HeardSinceFailure(m0, trace), LastTime(trace, start))
  {
    var m0 := Master(NewCache(smart), auto);
    if trace != [] {
      hide Step, Tracked, Evidence, GivesUp;
      var n := |trace| - 1;
      var m := Run(m0, trace[..n]);
      RunTracked(smart, auto, trace[..n], start);
      var heard, since := LastHeard(trace[..n]), RecoveringSince(m0, trace[..n]);
      var again, from := HeardSinceFailure(m0, trace[..n]), LastTime(trace[..n], start);
      if trace[n].event.Polled? {
        PollTracked(m, trace[n].event.env, heard, since, again, from, trace[n].now);
      } else {
        EventTracked(m, trace[n], heard, since, again, from);
      }
    }
  }

  // ---------------------------------------------------------------- what a poll decides

  /** Heard since the link was last closed, and not longer ago than the threshold. */
  predicate HeardLately(trace: seq<Stamped>, env: Env, now: Time) {
    LastHeard(trace) != 0.0 && now - LastHeard(trace) <= env.threshold
  }

  /** A poll of a run that finds the link open and keeps the master. */
  ghost predicate PollsOpenLink(m0: Master, trace: seq<Stamped>, start: Time, env: Env, now: Time) {
    && Timed(trace, start) && now >= LastTime(trace, start)
    && Run(m0, trace).cache.link.connected && !PollOnce(Run(m0, trace), env, now).out.Dropped?
  }

  /** The way out of `lost`: the poll leaves the device recovering exactly if something was heard
      since the recovery that failed and the device was heard lately. */
  lemma LostUntilHeardAgain(smart: bool, auto: Auto, trace: seq<Stamped>, start: Time, env: Env, now: Time)
    requires var m0 := Master(NewCache(smart), auto);
             PollsOpenLink(m0, trace, start, env, now) && ModeOf(Run(m0, trace)) == Lost
    ensures var m0 := Master(NewCache(smart), auto);
            var mode := ModeOf(PollOnce(Run(m0, trace), env, now).after);
            && (mode == Recovering <==> HeardSinceFailure(m0, trace) && HeardLately(trace, env, now))
            && (mode == Recovering || mode == Lost)
  {
    hide PollOnce, Run, LastHeard, HeardSinceFailure, RecoveringSince;
    RunTracked(smart, auto, trace, start);
    OpenPoll(Run(Master(NewCache(smart), auto), trace), env, now);
  }

  /** A recovery lasts fifteen seconds: a later poll gives it up, an earlier one never does. */
  lemma RecoveringForGrace(smart: bool, auto: Auto, trace: seq<Stamped>, start: Time, env: Env, now: Time)
    requires var m0 := Master(NewCache(smart), auto);
             PollsOpenLink(m0, trace, start, env, now) && ModeOf(Run(m0, trace)) == Recovering
    ensures var m0 := Master(NewCache(smart), auto);
            var mode := ModeOf(PollOnce(Run(m0, trace), env, now).after);
            && (mode == Recovering <==> now - RecoveringSince(m0, trace) <= 15.0)
            && (mode == Recovering || mode == Lost)
  {
    hide PollOnce, Run, LastHeard, HeardSinceFailure, RecoveringSince;
    RunTracked(smart, auto, trace, start);
    OpenPoll(Run(Master(NewCache(smart), auto), trace), env, now);
  }

  /** An online device stays online while it is heard; only a smart one may be silent. */
  lemma OnlineWhileHeard(smart: bool, auto: Auto, trace: seq<Stamped>, start: Time, env: Env, now: Time)
    requires var m0 := Master(NewCache(smart), auto);
             PollsOpenLink(m0, trace, start, env, now) && ModeOf(Run(m0, trace)) == Online
    ensures var m0 := Master(NewCache(smart), auto);
            var l := PollOnce(Run(m0, trace), env, now).after.cache.link;
            && (l.mode == Online <==> l.smart || HeardLately(trace, env, now))
            && (l.mode == Online || l.mode == Recovering)
  {
    hide PollOnce, Run, LastHeard, HeardSinceFailure, RecoveringSince;
    RunTracked(smart, auto, trace, start);
    OpenPoll(Run(Master(NewCache(smart), auto), trace), env, now);
  }

  lemma {:induction false} RunMeasured(smart: bool, auto: Auto, trace: seq<Stamped>)
    ensures var l := Run(Master(NewCache(smart), auto), trace).cache.link;
            LinkInv(l) && l.lastUpdateAt == LastMeasured(trace)
  {
    if trace != [] {
      hide LinkInv, PollOnce, MarkAllDirty, StoreSet, CommitPublished;
      var n := |trace| - 1;
      var m := Run(Master(NewCache(smart), auto), trace[..n]);
      RunMeasured(smart, auto, trace[..n]);
      StepInv(m, trace[n]);
      if trace[n].event.Polled? {
        PollKeeps(m, trace[n].event.env, trace[n].now);
      }
    }
  }

  /** What such a poll asks for: one integrity poll when it begins a recovery of a continuous
      device, and the one classification poll of a session. A continuous device that was heard
      lately but sent no value is handed to the data-silence poll, a lost one to the probes, whose
      record is forgotten once the device is heard. */
  lemma RecoveryAsksOnce(smart: bool, auto: Auto, trace: seq<Stamped>, start: Time, env: Env, now: Time)
    requires var m0 := Master(NewCache(smart), auto);
             PollsOpenLink(m0, trace, start, env, now)
    ensures var m := Run(Master(NewCache(smart), auto), trace);
            var p := PollOnce(m, env, now);
            var continuous := !p.after.cache.link.smart;
            var begins := ModeOf(m) != Recovering && ModeOf(p.after) == Recovering;
            var measured := LastMeasured(trace);
            && p.entered == (if begins then 1 else 0)
            && p.integrityPolls == (if begins && continuous then 1 else 0)
                                   + (if p.after.auto.classified && !m.auto.classified then 1 else 0)
            && (p.probes <==> ModeOf(p.after) == Lost && continuous)
            && (p.asksForData <==> continuous && HeardLately(trace, env, now)
                                   && (measured == 0.0 || now - measured > env.threshold))
            && (p.resets <==> HeardLately(trace, env, now) || ModeOf(p.after) == Online)
  {
    hide PollOnce, Run, LastHeard, HeardSinceFailure, RecoveringSince, LastMeasured;
    RunTracked(smart, auto, trace, start);
    RunMeasured(smart, auto, trace);
    OpenPoll(Run(Master(NewCache(smart), auto), trace), env, now);
  }

  /** A measurement puts a recovering device online exactly if it is not stamped before the recovery
      began; no other event does. */
  lemma MeasurementEndsRecovery(smart: bool, auto: Auto, trace: seq<Stamped>, start: Time, e: Stamped)
    requires Timed(trace, start) && ModeOf(Run(Master(NewCache(smart), auto), trace)) != Online
    ensures var m0 := Master(NewCache(smart), auto);
            var m := Run(m0, trace);
            ModeOf(Step(m, e)) == Online <==>
              e.event.Measured? && ModeOf(m) == Recovering && e.now >= RecoveringSince(m0, trace)
  {
    hide Run, LastHeard, HeardSinceFailure, RecoveringSince, PollOnce, MarkAllDirty, StoreSet, CommitPublished;
    var m0 := Master(NewCache(smart), auto);
    RunTracked(smart, auto, trace, start);
    if e.event.Polled? {
      PollNeverEnds(Run(m0, trace), e.event.env, e.now);
    }
  }

  lemma PollNeverEnds(m: Master, env: Env, now: Time)
    requires LinkInv(m.cache.link) && ModeOf(m) != Online
    ensures ModeOf(PollOnce(m, env, now).after) != Online
  {
    hide PollOnce, LinkInv;
    PollInv(m, env, now);
    PollKeeps(m, env, now);
    if PollOnce(m, env, now).out.Dropped? {
      DroppedPoll(m, env, now);
    } else if m.cache.link.connected {
      OpenPoll(m, env, now);
    } else {
      ClosedNotOnline(PollOnce(m, env, now).after.cache.link);
    }
  }

  lemma ClosedNotOnline(l: Link)
    requires LinkInv(l) && !l.connected
    ensures l.mode != Online
  {
  }

  // ---------------------------------------------------------------- the age of the session

  /** When the open link was opened; 0.0 while it is closed. */
  function OpenedAt(m: Master, trace: seq<Stamped>): Time {
    if trace == [] then 0.0
    else
      var n := |trace| - 1;
      match trace[n].event
      case Opened => if Run(m, trace[..n]).cache.link.connected then OpenedAt(m, trace[..n]) else trace[n].now
      case Closed => 0.0
      case _ => OpenedAt(m, trace[..n])
  }

  lemma PollKeepsOpening(m: Master, env: Env, now: Time)
    ensures PollOnce(m, env, now).after.cache.link.linkOpenedAt == m.cache.link.linkOpenedAt
  {
    hide Classify, CheckSmartIdle, Judge, Speak, Stale, TakeDirty, StringsDue, CountStringRequest;
    var l := m.cache.link;
    var k := Classify(m.auto, l, env, now).link;
    var idle := if k.smart then CheckSmartIdle(k, env, l.connected, now).0 else k;
    assert k.linkOpenedAt == l.linkOpenedAt by { ClassifyKeepsOpening(m.auto, l, env, now); }
    assert idle.linkOpenedAt == k.linkOpenedAt by { IdleKeepsOpening(k, env, l.connected, now); }
    JudgeKeepsOpening(idle, Stale(k, env, now), now);
    forall c: Cache
      ensures Speak(c, env, now).cache.link.linkOpenedAt == c.link.linkOpenedAt
    {
      SpeakKeepsOpening(c, env, now);
    }
  }

  lemma ClassifyKeepsOpening(a: Auto, l: Link, env: Env, now: Time)
    ensures Classify(a, l, env, now).link.linkOpenedAt == l.linkOpenedAt
  {
  }

  lemma IdleKeepsOpening(l: Link, env: Env, connected: bool, now: Time)
    ensures CheckSmartIdle(l, env, connected, now).0.linkOpenedAt == l.linkOpenedAt
  {
  }

  lemma JudgeKeepsOpening(l: Link, stale: bool, now: Time)
    ensures Judge(l, stale, now).link.linkOpenedAt == l.linkOpenedAt
  {
  }

  lemma SpeakKeepsOpening(c: Cache, env: Env, now: Time)
    ensures Speak(c, env, now).cache.link.linkOpenedAt == c.link.linkOpenedAt
  {
  }

  lemma EventOpening(m: Master, e: Stamped)
    requires !e.event.Polled?
    ensures Step(m, e).cache.link.linkOpenedAt ==
            match e.event
            case Opened => if m.cache.link.connected then m.cache.link.linkOpenedAt else e.now
            case Closed => 0.0
            case _ => m.cache.link.linkOpenedAt
  {
    hide MarkAllDirty, StoreSet, CommitPublished;
  }

  /** What the relink decision takes for the age of a session is the time since the link was opened,
      however often callbacks repeat that it is open. */
  lemma {:induction false} SessionAge(smart: bool, auto: Auto, trace: seq<Stamped>)
    ensures var m0 := Master(NewCache(smart), auto); Run(m0, trace).cache.link.linkOpenedAt == OpenedAt(m0, trace)
  {
    if trace != [] {
      hide PollOnce, StepCache;
      var n := |trace| - 1;
      var m := Run(Master(NewCache(smart), auto), trace[..n]);
      SessionAge(smart, auto, trace[..n]);
      if trace[n].event.Polled? {
        PollKeepsOpening(m, trace[n].event.env, trace[n].now);
      } else {
        EventOpening(m, trace[n]);
      }
    }
  }
}
