/** Runs of one device: any sequence of I/O callbacks, operator actions and polls over one
    cache lifetime, stamped with the monotonic clock. */
module LinkRuns {
  import opened Wrappers
  import opened CacheModel
  import opened PollModel

  datatype Event =
    | Opened
    | Closed
    | Measured(key: Key, entry: Entry)
    | Answered
    | StringsAsked
    | Redirtied
    | Committed(tokens: seq<Taken>)
    | Confirmed(generation: nat)
    | Polled(env: Env)

  datatype Stamped = At(now: Time, event: Event)

  /** `OnOpen` */
  function OpenCache(c: Cache, now: Time): Cache {
    var o := SetConnected(c, true, now);
    o.(link := BeginRecovery(o.link, now), g110 := RequestStrings(o.g110))
  }

  function StepCache(c: Cache, e: Event, now: Time): Cache
    requires !e.Polled?
  {
    match e
    case Opened => OpenCache(c, now)
    case Closed => SetConnected(c, false, now)
    case Measured(k, entry) => Measure(c, k, entry, now)
    case Answered => NoteEvidence(c, now)
    case StringsAsked => c.(g110 := RequestStrings(c.g110))
    case Redirtied => c.(store := MarkAllDirty(c.store))
    case Committed(tokens) => c.(store := CommitPublished(c.store, tokens))
    case Confirmed(generation) => c.(announce := ConfirmStale(c.announce, generation))
  }

  function Step(m: Master, e: Stamped): Master {
    if e.event.Polled? then PollOnce(m, e.event.env, e.now).after
    else m.(cache := StepCache(m.cache, e.event, e.now))
  }

  function Run(m: Master, trace: seq<Stamped>): Master {
    if trace == [] then m else Step(Run(m, trace[..|trace| - 1]), trace[|trace| - 1])
  }

  /** The clock is positive and never runs backwards. */
  ghost predicate Timed(trace: seq<Stamped>, start: Time) {
    && start > 0.0
    && (forall i :: 0 <= i < |trace| ==> trace[i].now >= start)
    && (forall i, j :: 0 <= i < j < |trace| ==> trace[i].now <= trace[j].now)
  }

  function LastTime(trace: seq<Stamped>, start: Time): Time {
    if trace == [] then start else trace[|trace| - 1].now
  }

  predicate Evidence(e: Event) {
    e.Measured? || e.Answered?
  }

  function Opens(trace: seq<Stamped>): nat {
    if trace == [] then 0
    else Opens(trace[..|trace| - 1]) + if trace[|trace| - 1].event.Opened? then 1 else 0
  }

  function Evidences(trace: seq<Stamped>): nat {
    if trace == [] then 0
    else Evidences(trace[..|trace| - 1]) + if Evidence(trace[|trace| - 1].event) then 1 else 0
  }

  // ---------------------------------------------------------------- what every step keeps

  ghost predicate LinkInv(l: Link) {
    && (l.mode == Recovering || l.mode == Online ==> l.connected && l.recoveryFailedSeq.None?)
    && (l.recoveryFailedSeq.Some? ==> l.recoveryFailedSeq.value <= l.evidenceSeq)
    && (l.connected ==> l.idleSince == 0.0 && l.mode != SmartIdle)
    && (l.connected && l.mode == Lost ==> l.recoveryFailedSeq.Some?)
  }

  lemma JudgeInv(l: Link, stale: bool, now: Time)
    requires LinkInv(l)
    ensures LinkInv(Judge(l, stale, now).link)
  {
  }

  lemma IdleInv(l: Link, env: Env, now: Time)
    requires LinkInv(l)
    ensures LinkInv(CheckSmartIdle(l, env, l.connected, now).0)
    ensures l.connected ==> CheckSmartIdle(l, env, l.connected, now) == (l.(wakeupPending := -1.0), false)
  {
  }

  lemma ClassifyInv(a: Auto, l: Link, env: Env, now: Time)
    requires LinkInv(l)
    ensures LinkInv(Classify(a, l, env, now).link)
  {
  }

  /** Classification of a device under the continuous policy drops it or changes nothing. */
  lemma ClassifyContinuous(a: Auto, l: Link, env: Env, now: Time)
    requires !l.smart && l.idleSince == 0.0
    ensures Classify(a, l, env, now).link == l
  {
  }

  lemma SpeakInv(c: Cache, env: Env, now: Time)
    requires LinkInv(c.link)
    ensures LinkInv(Speak(c, env, now).cache.link)
  {
  }

  lemma PollInv(m: Master, env: Env, now: Time)
    requires LinkInv(m.cache.link)
    ensures LinkInv(PollOnce(m, env, now).after.cache.link)
  {
    hide Classify, CheckSmartIdle, Judge, Speak, LinkInv, Stale, TakeDirty, StringsDue, CountStringRequest;
    var k := Classify(m.auto, m.cache.link, env, now);
    ClassifyInv(m.auto, m.cache.link, env, now);
    KeepsConnected(m.auto, m.cache.link, env, now);
    IdleInv(k.link, env, now);
    var idle := if k.link.smart then CheckSmartIdle(k.link, env, k.link.connected, now) else (k.link, false);
    JudgeInv(idle.0, Stale(k.link, env, now), now);
    forall c: Cache | LinkInv(c.link)
      ensures LinkInv(Speak(c, env, now).cache.link)
    {
      SpeakInv(c, env, now);
    }
  }

  lemma KeepsConnected(a: Auto, l: Link, env: Env, now: Time)
    ensures Classify(a, l, env, now).link.connected == l.connected
  {
  }

  lemma StepInv(m: Master, e: Stamped)
    requires LinkInv(m.cache.link)
    ensures LinkInv(Step(m, e).cache.link)
  {
    if e.event.Polled? {
      PollInv(m, e.event.env, e.now);
    }
  }

  lemma {:induction false} RunInv(m: Master, trace: seq<Stamped>)
    requires LinkInv(m.cache.link)
    ensures LinkInv(Run(m, trace).cache.link)
  {
    if trace != [] {
      RunInv(m, trace[..|trace| - 1]);
      StepInv(Run(m, trace[..|trace| - 1]), trace[|trace| - 1]);
    }
  }
}
