/** How many request rounds polls may send. A smart modem only sleeps if the gateway stays
    silent, so its budget is one round per explicit request for strings. */
module QuietBudget {
  import opened Wrappers
  import opened CacheModel
  import opened PollModel
  import opened LinkRuns

  /** Every request round one poll sends or hands to a probe. */
  function RoundsOf(m: Master, e: Stamped): nat {
    if e.event.Polled? then
      var p := PollOnce(m, e.event.env, e.now);
      p.stringRounds + p.integrityPolls + (if p.asksForData then 1 else 0) + (if p.probes then 1 else 0)
    else 0
  }

  function Rounds(m: Master, trace: seq<Stamped>): nat {
    if trace == [] then 0
    else Rounds(m, trace[..|trace| - 1]) + RoundsOf(Run(m, trace[..|trace| - 1]), trace[|trace| - 1])
  }

  predicate AsksForStrings(e: Event) {
    e.Opened? || e.StringsAsked?
  }

  /** Calls of `g110_iste`; a link opening makes one. */
  function Asks(trace: seq<Stamped>): nat {
    if trace == [] then 0
    else Asks(trace[..|trace| - 1]) + if AsksForStrings(trace[|trace| - 1].event) then 1 else 0
  }

  function StringCredit(g: G110): nat {
    if g.waiting && !g.arrived && g.attempts == 0 then 1 else 0
  }

  /** An `auto` device may still send its single classification poll of this session. */
  function AutoCredit(a: Auto, l: Link): nat {
    if a.configured && l.connected && a.connectedSince == 0.0 then 1 else 0
  }

  lemma SmartPollPays(m: Master, env: Env, now: Time)
    requires now > 0.0
    requires PollOnce(m, env, now).after.cache.link.smart
    ensures m.cache.link.smart && PollOnce(m, env, now).after.auto.configured == m.auto.configured
    ensures var p := PollOnce(m, env, now);
            RoundsOf(m, At(now, Polled(env))) + StringCredit(p.after.cache.g110)
              + AutoCredit(p.after.auto, p.after.cache.link)
            <= StringCredit(m.cache.g110) + AutoCredit(m.auto, m.cache.link)
  {
    hide CheckSmartIdle, Judge, Speak, TakeDirty, Stale;
    var k := Classify(m.auto, m.cache.link, env, now);
    ClassifyPays(m.auto, m.cache.link, env, now);
    var idle := if k.link.smart then CheckSmartIdle(k.link, env, m.cache.link.connected, now) else (k.link, false);
    IdleKeeps(k.link, env, m.cache.link.connected, now);
    JudgeSilent(idle.0, Stale(k.link, env, now), now);
    forall c: Cache
      ensures SpeakKeeps(c, Speak(c, env, now).cache)
    {
      SpeakSilent(c, env, now);
    }
  }

  ghost predicate SpeakKeeps(c: Cache, d: Cache) {
    d.link.smart == c.link.smart && d.link.connected == c.link.connected && d.g110 == c.g110
  }

  lemma ClassifyPays(a: Auto, l: Link, env: Env, now: Time)
    requires now > 0.0
    ensures var k := Classify(a, l, env, now);
            && (k.link.smart ==> l.smart)
            && k.link.connected == l.connected
            && k.auto.configured == a.configured
            && k.integrityPolls + AutoCredit(k.auto, k.link) <= AutoCredit(a, l)
  {
  }

  lemma IdleKeeps(l: Link, env: Env, connected: bool, now: Time)
    ensures var i := CheckSmartIdle(l, env, connected, now).0; i.smart == l.smart && i.connected == l.connected
  {
  }

  lemma JudgeSilent(l: Link, stale: bool, now: Time)
    ensures var j := Judge(l, stale, now);
            && j.link.smart == l.smart && j.link.connected == l.connected
            && (l.smart ==> j.integrityPolls == 0)
  {
  }

  lemma SpeakSilent(c: Cache, env: Env, now: Time)
    ensures SpeakKeeps(c, Speak(c, env, now).cache)
  {
  }

  lemma {:induction false} SmartRun(m: Master, trace: seq<Stamped>, start: Time)
    requires Timed(trace, start)
    requires Run(m, trace).cache.link.smart
    ensures Run(m, trace).auto.configured == m.auto.configured
    ensures var t := Run(m, trace);
            Rounds(m, trace) + StringCredit(t.cache.g110) + AutoCredit(t.auto, t.cache.link)
            <= StringCredit(m.cache.g110) + AutoCredit(m.auto, m.cache.link)
               + Asks(trace) + (if m.auto.configured then Opens(trace) else 0)
  {
    if trace != [] {
      var n := |trace| - 1;
      var before := Run(m, trace[..n]);
      SmartStepPays(before, trace[n]);
      SmartRun(m, trace[..n], start);
    }
  }

  lemma SmartStepPays(m: Master, e: Stamped)
    requires e.now > 0.0
    requires Step(m, e).cache.link.smart
    ensures m.cache.link.smart && Step(m, e).auto.configured == m.auto.configured
    ensures var t := Step(m, e);
            RoundsOf(m, e) + StringCredit(t.cache.g110) + AutoCredit(t.auto, t.cache.link)
            <= StringCredit(m.cache.g110) + AutoCredit(m.auto, m.cache.link)
               + (if AsksForStrings(e.event) then 1 else 0)
               + (if m.auto.configured && e.event.Opened? then 1 else 0)
  {
    hide PollOnce;
    if e.event.Polled? {
      SmartPollPays(m, e.event.env, e.now);
    }
  }

  /** While the effective policy of a new device stays smart, its polls send at most one round
      per `g110_iste`, plus one classification poll per opening if it is an `auto` device. */
  lemma SmartDeviceStaysQuiet(auto: Auto, trace: seq<Stamped>, start: Time)
    requires Timed(trace, start)
    requires Run(Master(NewCache(true), auto), trace).cache.link.smart
    ensures Rounds(Master(NewCache(true), auto), trace) <= Asks(trace) + (if auto.configured then Opens(trace) else 0)
  {
    SmartRun(Master(NewCache(true), auto), trace, start);
  }

  // ---------------------------------------------------------------- string requests, any policy

  /** Times of the string rounds since the last request for strings. */
  function StringTimes(m: Master, trace: seq<Stamped>): seq<Time> {
    if trace == [] then []
    else
      var n := |trace| - 1;
      var e := trace[n];
      var times := StringTimes(m, trace[..n]);
      match e.event
      case Opened => []
      case StringsAsked => []
      case Polled(env) => if PollOnce(Run(m, trace[..n]), env, e.now).stringRounds > 0 then times + [e.now] else times
      case _ => times
  }

  ghost predicate Spaced(times: seq<Time>) {
    forall i :: 0 <= i < |times| - 1 ==> times[i + 1] - times[i] >= StringDelay(i + 1)
  }

  ghost predicate StringsTracked(g: G110, times: seq<Time>) {
    && |times| <= G110_MAX_ATTEMPTS
    && Spaced(times)
    && (g.waiting ==> g.attempts == |times|)
    && (g.waiting && times != [] ==> g.nextAt == times[|times| - 1] + StringDelay(|times|))
  }

  lemma PollStrings(m: Master, env: Env, now: Time, times: seq<Time>)
    requires StringsTracked(m.cache.g110, times)
    ensures var p := PollOnce(m, env, now);
            StringsTracked(p.after.cache.g110, if p.stringRounds > 0 then times + [now] else times)
  {
    hide Classify, CheckSmartIdle, Judge, TakeDirty, Stale, StringDelay;
  }

  lemma OtherStrings(m: Master, e: Stamped, times: seq<Time>)
    requires !e.event.Polled? && StringsTracked(m.cache.g110, times)
    ensures var restarts := e.event.Opened? || e.event.StringsAsked?;
            StringsTracked(Step(m, e).cache.g110, if restarts then [] else times)
  {
    hide StringDelay, MarkAllDirty, StoreSet, CommitPublished;
  }

  lemma {:induction false} StringsAreTracked(m: Master, trace: seq<Stamped>)
    requires !m.cache.g110.waiting
    ensures StringsTracked(Run(m, trace).cache.g110, StringTimes(m, trace))
  {
    hide PollOnce, StepCache, StringsTracked;
    if trace == [] {
      NoRounds(m.cache.g110);
    } else {
      var n := |trace| - 1;
      StringsAreTracked(m, trace[..n]);
      if trace[n].event.Polled? {
        PollStrings(Run(m, trace[..n]), trace[n].event.env, trace[n].now, StringTimes(m, trace[..n]));
      } else {
        OtherStrings(Run(m, trace[..n]), trace[n], StringTimes(m, trace[..n]));
      }
    }
  }

  lemma NoRounds(g: G110)
    requires !g.waiting
    ensures StringsTracked(g, [])
  {
  }

  /** Under any policy one request leads to at most six rounds, and the gap after the k-th is
      at least min(240, 15 * 2^(k-1)) seconds. */
  lemma StringRoundsBounded(m: Master, trace: seq<Stamped>)
    requires !m.cache.g110.waiting
    ensures |StringTimes(m, trace)| <= G110_MAX_ATTEMPTS
    ensures Spaced(StringTimes(m, trace))
  {
    StringsAreTracked(m, trace);
  }

  /** Strings were asked for on this connection and none has arrived since. */
  predicate StringsWanted(trace: seq<Stamped>) {
    trace != [] &&
    match trace[|trace| - 1].event
    case Opened => true
    case StringsAsked => true
    case Closed => false
    case Measured(k, _) => k.group != 110 && StringsWanted(trace[..|trace| - 1])
    case _ => StringsWanted(trace[..|trace| - 1])
  }

  ghost predicate WantedTracked(g: G110, wanted: bool, times: seq<Time>) {
    && (g.waiting && !g.arrived <==> wanted)
    && (wanted && times == [] ==> g.nextAt == 0.0)
  }

  lemma PollWanted(m: Master, env: Env, now: Time, wanted: bool, times: seq<Time>)
    requires WantedTracked(m.cache.g110, wanted, times)
    ensures var p := PollOnce(m, env, now);
            WantedTracked(p.after.cache.g110, wanted, if p.stringRounds > 0 then times + [now] else times)
  {
    hide Classify, CheckSmartIdle, Judge, TakeDirty, Stale, StringDelay;
  }

  lemma {:induction false} WantedIsTracked(m: Master, trace: seq<Stamped>)
    requires !m.cache.g110.waiting
    ensures WantedTracked(Run(m, trace).cache.g110, StringsWanted(trace), StringTimes(m, trace))
  {
    if trace != [] {
      hide PollOnce, MarkAllDirty, StoreSet, CommitPublished;
      var n := |trace| - 1;
      WantedIsTracked(m, trace[..n]);
      if trace[n].event.Polled? {
        PollWanted(Run(m, trace[..n]), trace[n].event.env, trace[n].now, StringsWanted(trace[..n]),
                   StringTimes(m, trace[..n]));
      }
    }
  }

  lemma PollAsksStrings(m: Master, env: Env, now: Time)
    requires !PollOnce(m, env, now).out.Dropped?
    ensures var p := PollOnce(m, env, now);
            && p.stringRounds <= 1
            && (p.stringRounds == 1 <==>
                  m.cache.link.connected
                  && StringsDue(m.cache.g110, if p.after.cache.link.smart then 1 else G110_MAX_ATTEMPTS, now))
  {
    hide CheckSmartIdle, Judge, Speak, TakeDirty, Stale, Classify, StringsDue;
    var k := Classify(m.auto, m.cache.link, env, now);
    var idle := if k.link.smart then CheckSmartIdle(k.link, env, m.cache.link.connected, now) else (k.link, false);
    IdleKeeps(k.link, env, m.cache.link.connected, now);
    JudgeSilent(idle.0, Stale(k.link, env, now), now);
    forall c: Cache
      ensures SpeakKeeps(c, Speak(c, env, now).cache)
    {
      SpeakSilent(c, env, now);
    }
  }

  /** A poll sends a round of string requests exactly if the link is open, strings are wanted, the
      rounds since the request are fewer than the policy allows, and the delay after the last of
      them is over. */
  lemma StringRoundIff(smart: bool, auto: Auto, trace: seq<Stamped>, env: Env, now: Time)
    requires now >= 0.0 && !PollOnce(Run(Master(NewCache(smart), auto), trace), env, now).out.Dropped?
    ensures var m0 := Master(NewCache(smart), auto);
            var p := PollOnce(Run(m0, trace), env, now);
            var times := StringTimes(m0, trace);
            && p.stringRounds <= 1
            && (p.stringRounds == 1 <==>
                  && Run(m0, trace).cache.link.connected && StringsWanted(trace)
                  && |times| < (if p.after.cache.link.smart then 1 else 6)
                  && (times == [] || now - times[|times| - 1] >= StringDelay(|times|)))
  {
    hide PollOnce, StringTimes, StringsWanted, StringDelay, Run;
    var m0 := Master(NewCache(smart), auto);
    StringsAreTracked(m0, trace);
    WantedIsTracked(m0, trace);
    PollAsksStrings(Run(m0, trace), env, now);
  }

  /** The six delays of the back-off. */
  lemma StringDelays()
    ensures StringDelay(1) == 15.0 && StringDelay(2) == 30.0 && StringDelay(3) == 60.0
    ensures StringDelay(4) == 120.0 && StringDelay(5) == 240.0 && StringDelay(6) == 240.0
  {
  }
}
