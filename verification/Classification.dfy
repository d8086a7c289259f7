/** Which policy an `auto` device is under, told from the modes its polls have seen and from how
    long its link has been open without one. */
module Classification {
  import opened Wrappers
  import opened CacheModel
  import opened PollModel
  import opened LinkRuns
  import opened LinkRecovery

  // ---------------------------------------------------------------- history

  /** The operation mode seen last by any poll. */
  function LastSeen(trace: seq<Stamped>): OpMode {
    if trace == [] then Unknown
    else
      var e := trace[|trace| - 1].event;
      if e.Polled? && e.env.seen != Unknown then e.env.seen else LastSeen(trace[..|trace| - 1])
  }

  /** When polls that know no mode began to find the link open; 0.0 if the last of them did not. */
  function WaitingSince(m: Master, trace: seq<Stamped>): Time {
    if trace == [] then 0.0
    else
      var n := |trace| - 1;
      var since := WaitingSince(m, trace[..n]);
      if !trace[n].event.Polled? || trace[n].event.env.seen != Unknown then since
      else if !Run(m, trace[..n]).cache.link.connected then 0.0
      else if since == 0.0 then trace[n].now
      else since
  }

  predicate WaitedEnough(since: Time, now: Time) {
    since != 0.0 && now - since >= 120.0
  }

  /** Some poll has given up waiting, and no other mode was seen after that. */
  predicate FellBack(m: Master, trace: seq<Stamped>) {
    trace != [] &&
    var n := |trace| - 1;
    var e := trace[n];
    var fell := FellBack(m, trace[..n]);
    if !e.event.Polled? then fell
    else if e.event.env.seen != Unknown then fell && e.event.env.seen == LastSeen(trace[..n])
    else fell || (Run(m, trace[..n]).cache.link.connected && WaitedEnough(WaitingSince(m, trace[..n]), e.now))
  }

  /** The classification poll was sent and the link was not found closed since. */
  predicate AskedMode(m: Master, trace: seq<Stamped>) {
    trace != [] &&
    var n := |trace| - 1;
    var e := trace[n];
    var asked := AskedMode(m, trace[..n]);
    if !e.event.Polled? || e.event.env.seen != Unknown then asked
    else
      Run(m, trace[..n]).cache.link.connected
      && (asked || (WaitingSince(m, trace[..n]) == 0.0 && !e.event.env.initiating))
  }

  // ---------------------------------------------------------------- the fields mean the history

  ghost predicate Knows(a: Auto, seen: OpMode, since: Time, fell: bool, asked: bool) {
    a == Auto(true, seen, since, asked, fell)
  }

  lemma PollAuto(m: Master, env: Env, now: Time)
    ensures PollOnce(m, env, now).after.auto == Classify(m.auto, m.cache.link, env, now).auto
    ensures PollOnce(m, env, now).out.Dropped? <==> Classify(m.auto, m.cache.link, env, now).dropped
  {
    hide Classify, CheckSmartIdle, Judge, TakeDirty, StringsDue, CountStringRequest, Stale, MarkAllDirty;
  }

  lemma ClassifyKnows(a: Auto, l: Link, env: Env, now: Time, seen: OpMode, since: Time, fell: bool, asked: bool)
    requires Knows(a, seen, since, fell, asked) && now > 0.0
    ensures var unseen := env.seen == Unknown;
            Knows(Classify(a, l, env, now).auto,
                  if unseen then seen else env.seen,
                  if !unseen then since else if !l.connected then 0.0 else if since == 0.0 then now else since,
                  if !unseen then fell && env.seen == seen else fell || (l.connected && WaitedEnough(since, now)),
                  if !unseen then asked else l.connected && (asked || (since == 0.0 && !env.initiating)))
  {
  }

  const FRESH := Auto(true, Unknown, 0.0, false, false)

  lemma {:induction false} RunKnows(smart: bool, trace: seq<Stamped>, start: Time)
    requires Timed(trace, start)
    ensures var m0 := Master(NewCache(smart), FRESH);
            Knows(Run(m0, trace).auto, LastSeen(trace), WaitingSince(m0, trace), FellBack(m0, trace),
                  AskedMode(m0, trace))
  {
    if trace != [] {
      hide PollOnce, StepCache, Classify;
      var n := |trace| - 1;
      var m0 := Master(NewCache(smart), FRESH);
      var m := Run(m0, trace[..n]);
      RunKnows(smart, trace[..n], start);
      if trace[n].event.Polled? {
        var env, now := trace[n].event.env, trace[n].now;
        PollAuto(m, env, now);
        ClassifyKnows(m.auto, m.cache.link, env, now, LastSeen(trace[..n]), WaitingSince(m0, trace[..n]),
                      FellBack(m0, trace[..n]), AskedMode(m0, trace[..n]));
      }
    }
  }

  // ---------------------------------------------------------------- what decides the policy

  /** The poll learns of another mode than smart, or gives up waiting: periodic scans shall start. */
  predicate WantsScans(m: Master, trace: seq<Stamped>, env: Env, now: Time) {
    || (env.seen == BoostMode && LastSeen(trace) != BoostMode)
    || (env.seen == Unknown && Run(m, trace).cache.link.connected && WaitedEnough(WaitingSince(m, trace), now)
        && !FellBack(m, trace))
  }

  lemma ClassifyDecides(a: Auto, l: Link, env: Env, now: Time, seen: OpMode, since: Time, fell: bool, asked: bool)
    requires Knows(a, seen, since, fell, asked)
    ensures var k := Classify(a, l, env, now);
            var scans := (env.seen == BoostMode && seen != BoostMode)
                         || (env.seen == Unknown && l.connected && WaitedEnough(since, now) && !fell);
            && (k.dropped <==> (scans && !(l.smart && env.scansStart))
                               || (env.seen == SmartMode && seen != SmartMode && !l.smart))
            && (!k.dropped ==> (k.link.smart <==> l.smart && !scans))
            && (k.integrityPolls == if env.seen == Unknown && l.connected && since == 0.0 && !env.initiating && !asked
                                    then 1 else 0)
  {
  }

  lemma PollPolicy(m: Master, env: Env, now: Time)
    requires !PollOnce(m, env, now).out.Dropped?
    ensures PollOnce(m, env, now).after.cache.link.smart == Classify(m.auto, m.cache.link, env, now).link.smart
  {
    hide Classify, CheckSmartIdle, Judge, Speak, TakeDirty, StringsDue, CountStringRequest, Stale;
    var k := Classify(m.auto, m.cache.link, env, now);
    IdleHeard(k.link, env, m.cache.link.connected, now);
    var idle := if k.link.smart then CheckSmartIdle(k.link, env, m.cache.link.connected, now) else (k.link, false);
    JudgeHeard(idle.0, Stale(k.link, env, now), now);
    forall c: Cache
      ensures SameHeard(c.link, Speak(c, env, now).cache.link)
    {
      SpeakHeard(c, env, now);
    }
  }

  /** Over every run of an `auto` device: a poll drops its master exactly if scans shall start and
      cannot, or if the device turns out to be smart under a continuous master; otherwise the
      device stays smart unless scans start. */
  lemma PolicyIff(smart: bool, trace: seq<Stamped>, start: Time, env: Env, now: Time)
    requires Timed(trace, start)
    ensures var m0 := Master(NewCache(smart), FRESH);
            var m := Run(m0, trace);
            var p := PollOnce(m, env, now);
            var scans := WantsScans(m0, trace, env, now);
            && (p.out.Dropped? <==> (scans && !(m.cache.link.smart && env.scansStart))
                                    || (env.seen == SmartMode && LastSeen(trace) != SmartMode && !m.cache.link.smart))
            && (!p.out.Dropped? ==> (p.after.cache.link.smart <==> m.cache.link.smart && !scans))
  {
    hide PollOnce, Run, Classify, LastSeen, WaitingSince, FellBack, AskedMode;
    var m0 := Master(NewCache(smart), FRESH);
    var m := Run(m0, trace);
    RunKnows(smart, trace, start);
    PollAuto(m, env, now);
    ClassifyDecides(m.auto, m.cache.link, env, now, LastSeen(trace), WaitingSince(m0, trace), FellBack(m0, trace),
                    AskedMode(m0, trace));
    if !PollOnce(m, env, now).out.Dropped? {
      PollPolicy(m, env, now);
    }
  }

  /** The classification poll is sent exactly by the first poll over an open link that knows no mode,
      unless the gateway waits for the device to call in. */
  lemma AsksModeOnce(smart: bool, trace: seq<Stamped>, start: Time, env: Env, now: Time)
    requires Timed(trace, start) && now > 0.0
    ensures var m0 := Master(NewCache(smart), FRESH);
            var m := Run(m0, trace);
            var asks := env.seen == Unknown && m.cache.link.connected && WaitingSince(m0, trace) == 0.0
                        && !env.initiating && !AskedMode(m0, trace);
            asks <==> PollOnce(m, env, now).after.auto.classified && !m.auto.classified
  {
    hide PollOnce, Run, Classify, LastSeen, WaitingSince, FellBack, AskedMode;
    var m0 := Master(NewCache(smart), FRESH);
    var m := Run(m0, trace);
    RunKnows(smart, trace, start);
    PollAuto(m, env, now);
    ClassifyKnows(m.auto, m.cache.link, env, now, LastSeen(trace), WaitingSince(m0, trace), FellBack(m0, trace),
                  AskedMode(m0, trace));
  }

  /** Under a policy chosen by hand no poll drops the master or changes the policy. */
  lemma ManualStays(m: Master, env: Env, now: Time)
    requires !m.auto.configured
    ensures var p := PollOnce(m, env, now);
            !p.out.Dropped? && p.after.auto == m.auto && p.after.cache.link.smart == m.cache.link.smart
  {
    hide PollOnce;
    PollAuto(m, env, now);
    PollPolicy(m, env, now);
  }
}
