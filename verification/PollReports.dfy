/** What a poll over an open link reports, told from what happened before it. */
module PollReports {
  import opened Wrappers
  import opened CacheModel
  import opened PollModel
  import opened LinkRuns
  import opened LinkRecovery
  import opened SmartSleep
  import opened StoreLaws

  // ---------------------------------------------------------------- the dirty signals of the list

  /** The readings taken are exactly those of the dirty keys on the list, each with the current
      value and version of its key. */
  lemma {:induction false} TakenIffDirty(s: Store, keys: seq<Key>, t: Taken)
    ensures t in TakeDirty(s, keys) <==>
              t.key in keys && t.key in s.dirty && t.key in s.values
              && t.entry == s.values[t.key] && t.version == VersionOf(s, t.key)
  {
    if keys != [] {
      var n := |keys| - 1;
      TakenIffDirty(s, keys[..n], t);
      assert keys == keys[..n] + [keys[n]];
    }
  }

  ghost predicate Before(keys: seq<Key>, x: Key, y: Key) {
    exists i, j :: 0 <= i < j < |keys| && keys[i] == x && keys[j] == y
  }

  /** ... in the order of the list; so without repetition if the list has none. */
  lemma {:induction false} TakenInOrder(s: Store, keys: seq<Key>, a: nat, b: nat)
    requires a < b < |TakeDirty(s, keys)|
    ensures Before(keys, TakeDirty(s, keys)[a].key, TakeDirty(s, keys)[b].key)
  {
    var n := |keys| - 1;
    var rest := TakeDirty(s, keys[..n]);
    if b < |rest| {
      TakenInOrder(s, keys[..n], a, b);
      var i, j :| 0 <= i < j < n && keys[..n][i] == rest[a].key && keys[..n][j] == rest[b].key;
      assert keys[i] == rest[a].key && keys[j] == rest[b].key;
    } else {
      TakenIffDirty(s, keys[..n], rest[a]);
      var i :| 0 <= i < n && keys[..n][i] == rest[a].key;
      assert keys[i] == rest[a].key && keys[n] == TakeDirty(s, keys)[b].key;
    }
  }

  // ---------------------------------------------------------------- one poll

  /** What the last part of a poll does, for a link in this mode. */
  ghost predicate Reports(c: Cache, mode: Mode, smart: bool, env: Env, now: Time, after: Cache, out: Emission) {
    var recovered := mode == Online && c.link.pendingRecovery;
    && after.store == (if recovered then MarkAllDirty(c.store) else c.store)
    && after.announce == (if recovered then Announce(false, c.announce.generation + 1) else c.announce)
    && (mode == Online ==> !after.link.pendingRecovery)
    && if mode == Online then out == Values(TakeDirty(after.store, env.keys))
       else if smart && mode == Recovering
               && (c.link.deferralStartedAt == 0.0 || now - c.link.deferralStartedAt <= RECOVERY_GRACE_SEC) then
         out == Deferred
       else if c.announce.announced then out == Repeated
       else out == CommLost(c.announce.generation)
  }

  lemma SpeakReports(c: Cache, env: Env, now: Time)
    ensures var said := Speak(c, env, now);
            Reports(c, c.link.mode, c.link.smart, env, now, said.cache, said.out)
  {
    hide TakeDirty, MarkAllDirty;
  }

  /** The decision about the link loses a pending publication only by leaving `online`. */
  lemma JudgePending(l: Link, stale: bool, now: Time)
    ensures var k := Judge(l, stale, now).link;
            && k.deferralStartedAt == l.deferralStartedAt && k.smart == l.smart
            && (k.mode == Online ==> k.pendingRecovery == l.pendingRecovery && l.mode == Online)
  {
  }

  lemma SameReports(c: Cache, d: Cache, mode: Mode, smart: bool, env: Env, now: Time, after: Cache, out: Emission)
    requires Reports(c, mode, smart, env, now, after, out)
    requires d.store == c.store && d.announce == c.announce && d.link.deferralStartedAt == c.link.deferralStartedAt
    requires mode == Online ==> d.link.pendingRecovery == c.link.pendingRecovery
    ensures Reports(d, mode, smart, env, now, after, out)
  {
  }

  lemma AwakeReports(c: Cache, stale: bool, env: Env, now: Time)
    ensures var w := WakePoll(c, stale, env, now);
            && Reports(c, w.cache.link.mode, w.cache.link.smart, env, now, w.cache, w.out)
            && w.cache.link.smart == c.link.smart
            && (w.cache.link.mode == Online ==> c.link.mode == Online)
  {
    hide Judge, Speak, Reports;
    var k := Judge(c.link, stale, now).link;
    JudgePending(c.link, stale, now);
    SpeakReports(c.(link := k), env, now);
    SpeakHeard(c.(link := k), env, now);
    var said := Speak(c.(link := k), env, now);
    SameReports(c.(link := k), c, k.mode, k.smart, env, now, said.cache, said.out);
  }

  lemma OpenPollReports(m: Master, env: Env, now: Time)
    requires LinkInv(m.cache.link) && m.cache.link.connected && !PollOnce(m, env, now).out.Dropped?
    ensures var p := PollOnce(m, env, now);
            Reports(m.cache, ModeOf(p.after), p.after.cache.link.smart, env, now, p.after.cache, p.out)
    ensures ModeOf(PollOnce(m, env, now).after) == Online ==> ModeOf(m) == Online
  {
    hide WakePoll, StringsDue, CountStringRequest, LinkInv, Classify, CheckSmartIdle, Reports, Stale;
    var l := m.cache.link;
    var k := Classify(m.auto, l, env, now);
    ClassifyInv(m.auto, l, env, now);
    ClassifyPending(m.auto, l, env, now);
    IdleInv(k.link, env, now);
    var start := if k.link.smart then k.link.(wakeupPending := -1.0) else k.link;
    var due := StringsDue(m.cache.g110, if k.link.smart then 1 else G110_MAX_ATTEMPTS, now);
    var c := m.cache.(link := start, g110 := if due then CountStringRequest(m.cache.g110, now) else m.cache.g110);
    AwakeReports(c, Stale(k.link, env, now), env, now);
    var w := WakePoll(c, Stale(k.link, env, now), env, now);
    SameReports(c, m.cache, w.cache.link.mode, w.cache.link.smart, env, now, w.cache, w.out);
  }

  lemma ClassifyPending(a: Auto, l: Link, env: Env, now: Time)
    ensures var k := Classify(a, l, env, now).link;
            k.pendingRecovery == l.pendingRecovery && k.deferralStartedAt == l.deferralStartedAt
            && k.lastEvidenceAt == l.lastEvidenceAt && k.connected == l.connected && k.mode == l.mode
  {
  }

  // ---------------------------------------------------------------- over whole runs

  /** The device was put online by a measurement that no poll has published since. */
  predicate RecoveryUnpublished(m: Master, trace: seq<Stamped>) {
    trace != [] &&
    var n := |trace| - 1;
    && ModeOf(Run(m, trace)) == Online
    && (ModeOf(Run(m, trace[..n])) != Online
        || (!Publishes(Run(m, trace[..n]), trace[n]) && RecoveryUnpublished(m, trace[..n])))
  }

  predicate Publishes(m: Master, e: Stamped) {
    e.event.Polled? && !PollOnce(m, e.event.env, e.now).out.Dropped?
  }

  ghost predicate PendingMeans(l: Link, unpublished: bool) {
    l.mode == Online ==> (l.pendingRecovery <==> unpublished)
  }

  lemma EventPending(m: Master, e: Stamped, unpublished: bool)
    requires !e.event.Polled? && LinkInv(m.cache.link) && PendingMeans(m.cache.link, unpublished)
    ensures PendingMeans(Step(m, e).cache.link, ModeOf(m) != Online || unpublished)
  {
    hide MarkAllDirty, StoreSet, CommitPublished, Changes;
  }

  lemma PollPending(m: Master, env: Env, now: Time, unpublished: bool)
    requires LinkInv(m.cache.link) && PendingMeans(m.cache.link, unpublished)
    ensures var p := PollOnce(m, env, now);
            PendingMeans(p.after.cache.link, ModeOf(m) != Online || (p.out.Dropped? && unpublished))
    ensures ModeOf(PollOnce(m, env, now).after) == Online ==> ModeOf(m) == Online
  {
    hide PollOnce, Reports;
    PollInv(m, env, now);
    PollKeeps(m, env, now);
    if PollOnce(m, env, now).out.Dropped? {
      DroppedPending(m, env, now);
    } else if m.cache.link.connected {
      OpenPollReports(m, env, now);
      OnlinePublished(m, env, now);
    }
  }

  lemma DroppedPending(m: Master, env: Env, now: Time)
    requires PollOnce(m, env, now).out.Dropped?
    ensures var l := PollOnce(m, env, now).after.cache.link;
            l.mode == m.cache.link.mode && l.pendingRecovery == m.cache.link.pendingRecovery
  {
    hide TakeDirty, StringsDue, CountStringRequest, Classify, Judge, CheckSmartIdle, Stale;
    ClassifyPending(m.auto, m.cache.link, env, now);
  }

  lemma OnlinePublished(m: Master, env: Env, now: Time)
    requires var p := PollOnce(m, env, now);
             Reports(m.cache, ModeOf(p.after), p.after.cache.link.smart, env, now, p.after.cache, p.out)
    ensures ModeOf(PollOnce(m, env, now).after) == Online ==> !PollOnce(m, env, now).after.cache.link.pendingRecovery
  {
    hide PollOnce;
  }

  lemma {:induction false} RunPending(smart: bool, auto: Auto, trace: seq<Stamped>)
    ensures var m0 := Master(NewCache(smart), auto);
            && LinkInv(Run(m0, trace).cache.link)
            && PendingMeans(Run(m0, trace).cache.link, RecoveryUnpublished(m0, trace))
  {
    var m0 := Master(NewCache(smart), auto);
    if trace != [] {
      hide PollOnce, StepCache, LinkInv;
      var n := |trace| - 1;
      var m := Run(m0, trace[..n]);
      RunPending(smart, auto, trace[..n]);
      StepInv(m, trace[n]);
      if trace[n].event.Polled? {
        PollPending(m, trace[n].event.env, trace[n].now, RecoveryUnpublished(m0, trace[..n]));
      } else {
        EventPending(m, trace[n], RecoveryUnpublished(m0, trace[..n]));
      }
    }
  }

  lemma EventStore(m: Master, e: Stamped)
    requires !e.event.Polled? && ValidStore(m.cache.store)
    ensures ValidStore(Step(m, e).cache.store)
  {
    hide MarkAllDirty, StoreSet, ValidStore;
    match e.event
    case Measured(k, entry) =>
      StoreSetValid(m.cache.store, k, entry);
      MarkAllDirtyMeaning(StoreSet(m.cache.store, k, entry));
    case Redirtied => MarkAllDirtyMeaning(m.cache.store);
    case Committed(tokens) => CommitValid(m.cache.store, tokens);
    case _ =>
  }

  lemma CommitValid(s: Store, tokens: seq<Taken>)
    requires ValidStore(s)
    ensures ValidStore(CommitPublished(s, tokens))
  {
  }

  lemma SpeakStore(c: Cache, env: Env, now: Time)
    ensures Speak(c, env, now).cache.store == c.store || Speak(c, env, now).cache.store == MarkAllDirty(c.store)
  {
    hide TakeDirty, MarkAllDirty;
  }

  lemma PollStore(m: Master, env: Env, now: Time)
    ensures var s := PollOnce(m, env, now).after.cache.store; s == m.cache.store || s == MarkAllDirty(m.cache.store)
  {
    hide Classify, CheckSmartIdle, Judge, Speak, TakeDirty, StringsDue, CountStringRequest, MarkAllDirty, Stale;
    forall c: Cache
      ensures Speak(c, env, now).cache.store == c.store || Speak(c, env, now).cache.store == MarkAllDirty(c.store)
    {
      SpeakStore(c, env, now);
    }
  }

  lemma {:induction false} RunStore(smart: bool, auto: Auto, trace: seq<Stamped>)
    ensures ValidStore(Run(Master(NewCache(smart), auto), trace).cache.store)
  {
    if trace != [] {
      hide PollOnce, StepCache, ValidStore;
      var n := |trace| - 1;
      var m := Run(Master(NewCache(smart), auto), trace[..n]);
      RunStore(smart, auto, trace[..n]);
      if trace[n].event.Polled? {
        PollStore(m, trace[n].event.env, trace[n].now);
        MarkAllDirtyMeaning(m.cache.store);
      } else {
        EventStore(m, trace[n]);
      }
    } else {
      NoValues();
    }
  }

  lemma NoValues()
    ensures ValidStore(EMPTY_STORE)
  {
  }

  /** What the other events do to what polls will report: which keys they leave dirty, and when a
      confirmation marks the loss announced. */
  lemma EventsMean(smart: bool, auto: Auto, trace: seq<Stamped>, e: Stamped)
    requires !e.event.Polled?
    ensures var m := Run(Master(NewCache(smart), auto), trace);
            var s, a := m.cache.store, m.cache.announce;
            var t := Step(m, e);
            var d := t.cache.store.dirty;
            match e.event
            case Measured(k, entry) =>
              && t.cache.store.values == s.values[k := entry] && t.cache.announce == a
              && d == (if ModeOf(m) == Recovering && e.now >= m.cache.link.recoveryAnchorAt then s.values.Keys + {k}
                       else if k in s.values && s.values[k].sample == entry.sample then s.dirty
                       else s.dirty + {k})
            case Redirtied => t.cache.store.values == s.values && d == s.values.Keys && t.cache.announce == a
            case Committed(tokens) =>
              && t.cache.store.values == s.values && t.cache.announce == a
              && forall k :: k in d <==> k in s.dirty && forall i :: 0 <= i < |tokens| ==>
                   tokens[i].key != k || tokens[i].version != VersionOf(s, k)
            case Confirmed(generation) =>
              && t.cache.store == s && t.cache.announce.generation == a.generation
              && (t.cache.announce.announced <==> a.announced || generation == a.generation)
            case _ => t.cache.store == s && t.cache.announce == a
  {
    hide Run, ValidStore, MarkAllDirty, StoreSet, Changes;
    var m := Run(Master(NewCache(smart), auto), trace);
    RunStore(smart, auto, trace);
    MarkAllDirtyMeaning(m.cache.store);
    if e.event.Measured? {
      WriteMeans(m.cache.store, e.event.key, e.event.entry);
      MarkAllDirtyMeaning(StoreSet(m.cache.store, e.event.key, e.event.entry));
    }
  }

  lemma WriteMeans(s: Store, k: Key, e: Entry)
    requires ValidStore(s)
    ensures var t := StoreSet(s, k, e);
            && ValidStore(t) && t.values == s.values[k := e]
            && t.dirty == if k in s.values && s.values[k].sample == e.sample then s.dirty else s.dirty + {k}
  {
    hide ValidStore;
    StoreSetValid(s, k, e);
  }

  /** Some reading is of this key and carries its current value. */
  ghost predicate Told(tokens: seq<Taken>, s: Store, k: Key) {
    exists t :: t in tokens && t.key == k && k in s.values && t.entry == s.values[k]
  }

  /** What a poll leaves online says: after an unpublished recovery every known signal of the list,
      otherwise exactly the dirty ones; and only the former opens a new announcement. */
  lemma OnlineTells(smart: bool, auto: Auto, trace: seq<Stamped>, start: Time, env: Env, now: Time)
    requires var m0 := Master(NewCache(smart), auto);
             PollsOpenLink(m0, trace, start, env, now) && ModeOf(PollOnce(Run(m0, trace), env, now).after) == Online
    ensures var m0 := Master(NewCache(smart), auto);
            var m := Run(m0, trace);
            var p := PollOnce(m, env, now);
            var all := RecoveryUnpublished(m0, trace);
            && p.out.Values?
            && (forall k :: Told(p.out.tokens, m.cache.store, k) <==>
                  k in env.keys && k in m.cache.store.values && (all || k in m.cache.store.dirty))
            && (forall t :: t in p.out.tokens ==> Told(p.out.tokens, m.cache.store, t.key))
            && (all ==> !p.after.cache.announce.announced
                        && p.after.cache.announce.generation == m.cache.announce.generation + 1)
            && (!all ==> p.after.cache.announce == m.cache.announce && p.after.cache.store == m.cache.store)
  {
    hide PollOnce, Run, RecoveryUnpublished, TakeDirty, LinkInv, MarkAllDirty;
    var m := Run(Master(NewCache(smart), auto), trace);
    RunPending(smart, auto, trace);
    RunStore(smart, auto, trace);
    OpenPollReports(m, env, now);
    MarkAllDirtyMeaning(m.cache.store);
    var p := PollOnce(m, env, now);
    ReadingsTell(p.after.cache.store, env.keys);
  }

  lemma ReadingsTell(s: Store, keys: seq<Key>)
    ensures forall k :: Told(TakeDirty(s, keys), s, k) <==> k in keys && k in s.values && k in s.dirty
    ensures forall t :: t in TakeDirty(s, keys) ==> Told(TakeDirty(s, keys), s, t.key)
  {
    forall t
      ensures t in TakeDirty(s, keys) <==> t.key in keys && t.key in s.dirty && t.key in s.values
                                           && t.entry == s.values[t.key] && t.version == VersionOf(s, t.key)
    {
      TakenIffDirty(s, keys, t);
    }
    forall k | k in keys && k in s.values && k in s.dirty
      ensures Told(TakeDirty(s, keys), s, k)
    {
      assert Taken(k, VersionOf(s, k), s.values[k]) in TakeDirty(s, keys);
    }
  }

  /** What a poll says that leaves the device recovering or lost: a smart device that recovers is
      given fifteen seconds from the first postponement since a recovery was last confirmed;
      otherwise the loss is told, or known already. Nothing else changes. */
  lemma OfflineTells(smart: bool, auto: Auto, trace: seq<Stamped>, start: Time, env: Env, now: Time)
    requires var m0 := Master(NewCache(smart), auto);
             PollsOpenLink(m0, trace, start, env, now) && ModeOf(PollOnce(Run(m0, trace), env, now).after) != Online
    ensures var m0 := Master(NewCache(smart), auto);
            var m := Run(m0, trace);
            var p := PollOnce(m, env, now);
            var times := DeferTimes(m0, trace);
            && (p.out.Deferred? <==> p.after.cache.link.smart && ModeOf(p.after) == Recovering
                                     && (times == [] || now - times[0] <= 15.0))
            && (p.out.Repeated? <==> !p.out.Deferred? && m.cache.announce.announced)
            && (p.out.CommLost? <==> !p.out.Deferred? && !m.cache.announce.announced)
            && (p.out.CommLost? ==> p.out.generation == m.cache.announce.generation)
            && p.after.cache.store == m.cache.store && p.after.cache.announce == m.cache.announce
  {
    hide PollOnce, Run, DeferTimes, LinkInv, TakeDirty, MarkAllDirty;
    var m0 := Master(NewCache(smart), auto);
    RunPending(smart, auto, trace);
    DeferralIsTracked(m0, trace, start);
    OpenPollReports(Run(m0, trace), env, now);
  }
}
