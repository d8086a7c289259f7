/** A device cannot bounce between `lost` and `recovering` on old evidence. */
module Oscillation {
  import opened Wrappers
  import opened CacheModel
  import opened PollModel
  import opened LinkRuns

  /** How often one step puts the device into `recovering`. */
  function Entered(m: Master, e: Stamped): nat {
    match e.event
    case Opened => if m.cache.link.mode == Recovering then 0 else 1
    case Polled(env) => PollOnce(m, env, e.now).entered
    case _ => 0
  }

  function Entries(m: Master, trace: seq<Stamped>): nat {
    if trace == [] then 0
    else Entries(m, trace[..|trace| - 1]) + Entered(Run(m, trace[..|trace| - 1]), trace[|trace| - 1])
  }

  /** One entry is still owed by an online device (its stale edge) or by evidence newer than
      the last failed recovery (its relink). */
  function Credit(l: Link): nat {
    if l.mode == Online then 1
    else if l.recoveryFailedSeq.Some? && l.evidenceSeq > l.recoveryFailedSeq.value then 1
    else 0
  }

  lemma PollPays(m: Master, env: Env, now: Time)
    requires LinkInv(m.cache.link)
    ensures PollOnce(m, env, now).entered + Credit(PollOnce(m, env, now).after.cache.link) <= Credit(m.cache.link)
  {
    hide Classify, CheckSmartIdle, Judge, Speak, Stale, LinkInv, TakeDirty, StringsDue, CountStringRequest;
    var l := m.cache.link;
    var k := Classify(m.auto, l, env, now);
    ClassifyInv(m.auto, l, env, now);
    KeepsConnected(m.auto, l, env, now);
    ClassifyCredit(m.auto, l, env, now);
    IdleInv(k.link, env, now);
    IdleCredit(k.link, env, now);
    var idle := if k.link.smart then CheckSmartIdle(k.link, env, k.link.connected, now) else (k.link, false);
    JudgeCredit(idle.0, Stale(k.link, env, now), now);
    forall c: Cache
      ensures Credit(Speak(c, env, now).cache.link) == Credit(c.link)
    {
      SpeakCredit(c, env, now);
    }
  }

  lemma ClassifyCredit(a: Auto, l: Link, env: Env, now: Time)
    ensures Credit(Classify(a, l, env, now).link) == Credit(l)
  {
  }

  lemma IdleCredit(l: Link, env: Env, now: Time)
    requires LinkInv(l)
    ensures Credit(CheckSmartIdle(l, env, l.connected, now).0) <= Credit(l)
  {
  }

  lemma JudgeCredit(l: Link, stale: bool, now: Time)
    requires LinkInv(l)
    ensures Judge(l, stale, now).entered + Credit(Judge(l, stale, now).link) <= Credit(l)
  {
  }

  lemma SpeakCredit(c: Cache, env: Env, now: Time)
    ensures Credit(Speak(c, env, now).cache.link) == Credit(c.link)
  {
  }

  lemma StepPays(m: Master, e: Stamped)
    requires LinkInv(m.cache.link)
    ensures Entered(m, e) + Credit(Step(m, e).cache.link) <=
            Credit(m.cache.link) + (if e.event.Opened? then 1 else 0) + (if Evidence(e.event) then 2 else 0)
  {
    hide PollOnce;
    if e.event.Polled? {
      PollPays(m, e.event.env, e.now);
    }
  }

  /** Entries into `recovering` over any run, from any reachable link state. */
  lemma {:induction false} EntriesBounded(m: Master, trace: seq<Stamped>)
    requires LinkInv(m.cache.link)
    ensures Entries(m, trace) + Credit(Run(m, trace).cache.link) <=
            Credit(m.cache.link) + Opens(trace) + 2 * Evidences(trace)
  {
    if trace != [] {
      var n := |trace| - 1;
      EntriesBounded(m, trace[..n]);
      RunInv(m, trace[..n]);
      StepPays(Run(m, trace[..n]), trace[n]);
    }
  }

  /** Without a link opening and without new evidence a device enters `recovering` at most
      once more, whatever the polls do. */
  lemma AtMostOneEntryWithoutEvidence(m: Master, trace: seq<Stamped>)
    requires LinkInv(m.cache.link)
    requires Opens(trace) == 0 && Evidences(trace) == 0
    ensures Entries(m, trace) <= 1
  {
    EntriesBounded(m, trace);
  }

  /** From a new cache, entries are at most opens plus twice the evidence. */
  lemma EntriesFromStart(smart: bool, auto: Auto, trace: seq<Stamped>)
    ensures Entries(Master(NewCache(smart), auto), trace) <= Opens(trace) + 2 * Evidences(trace)
  {
    EntriesBounded(Master(NewCache(smart), auto), trace);
  }
}
