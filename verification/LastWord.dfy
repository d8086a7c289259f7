/** The last message of any kind about a signal: a value or a comm_lost. With one poll of a
    device in flight, messages stored one by one, under any policy. */
module LastWord {
  import opened Wrappers
  import opened CacheModel
  import opened StoreLaws
  import opened PollModel
  import opened LinkRuns
  import Announcement
  import PollReports

  /** A durable message about one key. */
  datatype Message = Value(key: Key, version: nat, sample: Sample) | Lost(key: Key)

  /** A poll under way: what it read, the keys it speaks for, and the tokens stored so far. */
  datatype Flight = Flight(out: Emission, keys: seq<Key>, stored: seq<Taken>, told: bool)

  datatype Sys = Sys(m: Master, flight: Option<Flight>, log: seq<Message>)

  datatype Move =
    | Io(event: Event)
    | Read(env: Env)
    | Stored(i: nat)
    | Finished
    | Abandoned

  datatype Beat = Beat(now: Time, move: Move)

  function Start(smart: bool, auto: Auto): Sys {
    Sys(Master(NewCache(smart), auto), None, [])
  }

  function MessageOf(t: Taken): Message {
    Value(t.key, t.version, t.entry.sample)
  }

  /** The i-th message of the poll becomes durable; any of them may, in any order. */
  function StoreOne(s: Sys, f: Flight, i: nat): Sys {
    if f.out.Values? && i < |f.out.tokens| then
      var t := f.out.tokens[i];
      s.(flight := Some(f.(stored := f.stored + [t])), log := s.log + [MessageOf(t)])
    else if f.out.CommLost? && i < |f.keys| then
      s.(flight := Some(f.(told := true)), log := s.log + [Message.Lost(f.keys[i])])
    else s
  }

  function Settled(c: Cache, f: Flight): Cache {
    if f.out.CommLost? then
      if f.told then c.(announce := ConfirmStale(c.announce, f.out.generation)) else c
    else c.(store := CommitPublished(c.store, f.stored))
  }

  function Next(s: Sys, t: Beat): Sys {
    match t.move
    case Io(e) =>
      if e.Polled? || e.Committed? || e.Confirmed? then s
      else s.(m := s.m.(cache := StepCache(s.m.cache, e, t.now)))
    case Read(env) =>
      if s.flight.Some? then s
      else
        var p := PollOnce(s.m, env, t.now);
        s.(m := p.after,
           flight := if p.out.Values? || p.out.CommLost? then Some(Flight(p.out, env.keys, [], false)) else None)
    case Stored(i) => if s.flight.Some? then StoreOne(s, s.flight.value, i) else s
    case Finished =>
      if s.flight.Some? then s.(m := s.m.(cache := Settled(s.m.cache, s.flight.value)), flight := None) else s
    case Abandoned => s.(flight := None)
  }

  function Run(s: Sys, trace: seq<Beat>): Sys {
    if trace == [] then s else Next(Run(s, trace[..|trace| - 1]), trace[|trace| - 1])
  }

  function LastAbout(log: seq<Message>, k: Key): Option<Message> {
    if log == [] then None
    else if log[|log| - 1].key == k then Some(log[|log| - 1])
    else LastAbout(log[..|log| - 1], k)
  }

  // ---------------------------------------------------------------- the invariant

  /** What is said of a key under a version is true of that version. */
  ghost predicate True(s: Store, k: Key, version: nat, sample: Sample) {
    && k in s.values && version <= VersionOf(s, k)
    && (version == VersionOf(s, k) ==> sample == s.values[k].sample)
  }

  /** The last message about the key is its current value. */
  ghost predicate Current(s: Store, log: seq<Message>, k: Key) {
    var last := LastAbout(log, k);
    last.Some? && last.value.Value? && last.value.version == VersionOf(s, k)
  }

  ghost predicate Tokens(s: Store, tokens: seq<Taken>) {
    && (forall i :: 0 <= i < |tokens| ==>
          var t := tokens[i]; t.key in s.dirty && True(s, t.key, t.version, t.entry.sample))
    && (forall i, j | 0 <= i < j < |tokens| ::
          tokens[i].key == tokens[j].key ==> tokens[i].version == tokens[j].version)
  }

  ghost predicate FlightOk(s: Sys, f: Flight) {
    var store := s.m.cache.store;
    match f.out
    case Values(tokens) =>
      && Tokens(store, tokens)
      && (forall i :: 0 <= i < |f.stored| ==>
            f.stored[i] in tokens
            && var last := LastAbout(s.log, f.stored[i].key);
               last.Some? && last.value.Value? && last.value.version == f.stored[i].version)
    case CommLost(_) => s.m.cache.link.mode == Online ==> store.dirty == store.values.Keys
    case _ => false
  }

  ghost predicate Inv(s: Sys) {
    var store := s.m.cache.store;
    && ValidStore(store)
    && (forall i :: 0 <= i < |s.log| && s.log[i].Value? ==>
          True(store, s.log[i].key, s.log[i].version, s.log[i].sample))
    && (s.m.cache.link.mode == Online ==>
          forall k :: k in store.values && k !in store.dirty ==> Current(store, s.log, k))
    && (s.flight.Some? ==> FlightOk(s, s.flight.value))
  }

  // ---------------------------------------------------------------- what moves the store

  /** Versions rise, a version that rises leaves its key dirty, and nothing gets clean. */
  ghost predicate Moves(a: Store, b: Store) {
    && ValidStore(b) && a.dirty <= b.dirty && a.values.Keys <= b.values.Keys
    && (forall k :: k in a.values ==> VersionOf(a, k) <= VersionOf(b, k))
    && (forall k :: k in a.values && VersionOf(a, k) == VersionOf(b, k) ==> a.values[k].sample == b.values[k].sample)
    && (forall k :: k in b.values && k !in b.dirty ==> k in a.values && VersionOf(a, k) == VersionOf(b, k))
  }

  lemma WriteMoves(s: Store, k: Key, e: Entry)
    requires ValidStore(s)
    ensures Moves(s, StoreSet(s, k, e))
  {
    StoreSetValid(s, k, e);
    hide Distinct, KeySet;
  }

  lemma RedirtyMoves(s: Store)
    requires ValidStore(s)
    ensures Moves(s, MarkAllDirty(s)) && MarkAllDirty(s).dirty == MarkAllDirty(s).values.Keys
  {
    hide MarkAllDirty;
    MarkAllDirtyMeaning(s);
  }

  /** A step that only moves the store forward, and reaches Online only with everything dirty. */
  lemma ForwardInv(s: Sys, t: Sys)
    requires Inv(s) && t == s.(m := t.m) && Moves(s.m.cache.store, t.m.cache.store)
    requires t.m.cache.link.mode == Online ==>
               || s.m.cache.link.mode == Online
               || t.m.cache.store.dirty == t.m.cache.store.values.Keys
    ensures Inv(t)
  {
    hide LastAbout, ValidStore;
    var a, b := s.m.cache.store, t.m.cache.store;
    forall k | t.m.cache.link.mode == Online && k in b.values && k !in b.dirty
      ensures Current(b, t.log, k)
    {
      assert Current(a, s.log, k);
    }
    DirtyKnown(a);
    DirtyKnown(b);
    if a.dirty == a.values.Keys {
      assert b.dirty == b.values.Keys;
    }
  }

  lemma DirtyKnown(s: Store)
    requires ValidStore(s)
    ensures s.dirty <= s.values.Keys
  {
  }

  /** An I/O event moves the store forward and reaches Online only by confirming a recovery. */
  lemma EventForward(c: Cache, e: Event, now: Time)
    requires ValidStore(c.store) && !e.Polled? && !e.Committed? && !e.Confirmed?
    ensures var d := StepCache(c, e, now);
            && Moves(c.store, d.store)
            && (d.link.mode == Online ==> c.link.mode == Online || d.store.dirty == d.store.values.Keys)
  {
    hide StoreSet, MarkAllDirty, ValidStore;
    match e
    case Measured(k, entry) => MeasuredForward(c, k, entry, now);
    case Redirtied => RedirtyMoves(c.store);
    case _ => SameMoves(c.store);
  }

  lemma SameMoves(s: Store)
    requires ValidStore(s)
    ensures Moves(s, s)
  {
  }

  lemma MeasuredForward(c: Cache, k: Key, entry: Entry, now: Time)
    requires ValidStore(c.store)
    ensures var d := Measure(c, k, entry, now);
            && Moves(c.store, d.store)
            && (d.link.mode == Online ==> c.link.mode == Online || d.store.dirty == d.store.values.Keys)
  {
    hide StoreSet, MarkAllDirty, ValidStore;
    var w := StoreSet(c.store, k, entry);
    WriteMoves(c.store, k, entry);
    assert ValidStore(w);
    if ConfirmsRecovery(c.link, now) {
      RedirtyMoves(w);
    }
  }

  // ---------------------------------------------------------------- polls

  lemma {:induction false} TakenTokens(s: Store, keys: seq<Key>)
    requires ValidStore(s)
    ensures Tokens(s, TakeDirty(s, keys))
    ensures forall i :: 0 <= i < |TakeDirty(s, keys)| ==>
              var t := TakeDirty(s, keys)[i]; t.key in s.values && t.version == VersionOf(s, t.key)
  {
    if keys != [] {
      TakenTokens(s, keys[..|keys| - 1]);
    }
  }

  /** A poll leaves the store alone or re-dirties it, speaks of values only with fresh tokens,
      of a loss only when it leaves the device not online, and never makes it online. */
  lemma PollSpeaks(m: Master, env: Env, now: Time)
    requires ValidStore(m.cache.store)
    ensures var p := PollOnce(m, env, now);
            var a, b := m.cache, p.after.cache;
            && (b.store == a.store || b.store == MarkAllDirty(a.store))
            && (b.link.mode == Online ==> a.link.mode == Online)
            && (p.out.CommLost? ==> b.link.mode != Online)
            && (p.out.Values? ==> p.out.tokens == TakeDirty(b.store, env.keys))
  {
    hide Classify, CheckSmartIdle, Judge, Speak, TakeDirty, StringsDue, CountStringRequest, MarkAllDirty, Stale;
    hide ValidStore;
    var k := Classify(m.auto, m.cache.link, env, now);
    ClassifyMode(m.auto, m.cache.link, env, now);
    IdleMode(k.link, env, m.cache.link.connected, now);
    JudgeMode(k.link, Stale(k.link, env, now), now);
    JudgeMode(CheckSmartIdle(k.link, env, m.cache.link.connected, now).0, Stale(k.link, env, now), now);
    forall c: Cache
      ensures SpeaksOf(c, Speak(c, env, now), env)
    {
      SpeakSays(c, env, now);
    }
  }

  ghost predicate SpeaksOf(a: Cache, said: Spoken, env: Env) {
    var b := said.cache;
    && (b.store == a.store || b.store == MarkAllDirty(a.store))
    && b.link.mode == a.link.mode
    && (said.out.CommLost? ==> b.link.mode != Online)
    && (said.out.Values? ==> said.out.tokens == TakeDirty(b.store, env.keys))
  }

  lemma SpeakSays(c: Cache, env: Env, now: Time)
    ensures SpeaksOf(c, Speak(c, env, now), env)
  {
    hide MarkAllDirty, TakeDirty;
  }

  lemma ClassifyMode(a: Auto, l: Link, env: Env, now: Time)
    ensures Classify(a, l, env, now).link.mode == l.mode
  {
  }

  lemma IdleMode(l: Link, env: Env, connected: bool, now: Time)
    ensures CheckSmartIdle(l, env, connected, now).0.mode == Online ==> l.mode == Online
  {
  }

  lemma JudgeMode(l: Link, stale: bool, now: Time)
    ensures Judge(l, stale, now).link.mode == Online ==> l.mode == Online
  {
  }

  lemma ReadInv(s: Sys, env: Env, now: Time)
    requires Inv(s) && s.flight.None?
    ensures Inv(Next(s, Beat.Beat(now, Read(env))))
  {
    hide PollOnce, MarkAllDirty, TakeDirty, ValidStore, LastAbout;
    var p := PollOnce(s.m, env, now);
    var store := p.after.cache.store;
    PollSpeaks(s.m, env, now);
    RedirtyMoves(s.m.cache.store);
    SameMoves(s.m.cache.store);
    ForwardInv(s, s.(m := p.after));
    TakenTokens(store, env.keys);
  }

  // ---------------------------------------------------------------- messages and commits

  lemma LastAfter(log: seq<Message>, m: Message, k: Key)
    ensures LastAbout(log + [m], k) == if m.key == k then Some(m) else LastAbout(log, k)
  {
    assert (log + [m])[..|log|] == log;
  }

  lemma StoredInv(s: Sys, i: nat)
    requires Inv(s) && s.flight.Some?
    ensures Inv(StoreOne(s, s.flight.value, i))
  {
    hide LastAbout, ValidStore;
    var f := s.flight.value;
    var t := StoreOne(s, f, i);
    if t != s {
      var said := t.log[|s.log|];
      assert t.log == s.log + [said];
      forall k
        ensures LastAbout(t.log, k) == if said.key == k then Some(said) else LastAbout(s.log, k)
      {
        LastAfter(s.log, said, k);
      }
      forall k | s.m.cache.link.mode == Online && k in s.m.cache.store.values && k !in s.m.cache.store.dirty
        ensures Current(s.m.cache.store, t.log, k)
      {
        assert Current(s.m.cache.store, s.log, k);
      }
    }
  }

  lemma FinishedInv(s: Sys)
    requires Inv(s) && s.flight.Some?
    ensures Inv(s.(m := s.m.(cache := Settled(s.m.cache, s.flight.value)), flight := None))
  {
    hide LastAbout;
    var f := s.flight.value;
    var store := s.m.cache.store;
    var after := Settled(s.m.cache, f).store;
    forall k | s.m.cache.link.mode == Online && k in after.values && k !in after.dirty
      ensures Current(after, s.log, k)
    {
      if k in store.dirty {
        var i :| 0 <= i < |f.stored| && f.stored[i].key == k && f.stored[i].version == VersionOf(store, k);
      } else {
        assert Current(store, s.log, k);
      }
    }
  }

  lemma NextInv(s: Sys, t: Beat)
    requires Inv(s)
    ensures Inv(Next(s, t))
  {
    hide Inv, StepCache, StoreOne, Settled;
    match t.move
    case Io(e) =>
      if !e.Polled? && !e.Committed? && !e.Confirmed? {
        InvValid(s);
        EventForward(s.m.cache, e, t.now);
        ForwardInv(s, Next(s, t));
      }
    case Read(env) =>
      if s.flight.None? {
        ReadInv(s, env, t.now);
      }
    case Stored(i) =>
      if s.flight.Some? {
        StoredInv(s, i);
      }
    case Finished =>
      if s.flight.Some? {
        FinishedInv(s);
      }
    case Abandoned => Grounded(s);
  }

  lemma InvValid(s: Sys)
    requires Inv(s)
    ensures ValidStore(s.m.cache.store)
  {
  }

  lemma Grounded(s: Sys)
    requires Inv(s)
    ensures Inv(s.(flight := None))
  {
  }

  lemma StartInv(smart: bool, auto: Auto)
    ensures Inv(Start(smart, auto))
  {
  }

  lemma {:induction false} RunInv(smart: bool, auto: Auto, trace: seq<Beat>)
    ensures Inv(Run(Start(smart, auto), trace))
  {
    hide Inv, Next;
    if trace == [] {
      StartInv(smart, auto);
    } else {
      RunInv(smart, auto, trace[..|trace| - 1]);
      NextInv(Run(Start(smart, auto), trace[..|trace| - 1]), trace[|trace| - 1]);
    }
  }

  /** Under any policy: while a device is online, the last durable message of any kind about a
      clean key is its current value, never an older one and never comm_lost. */
  lemma OnlineLastWordIsCurrent(smart: bool, auto: Auto, trace: seq<Beat>, k: Key)
    requires var c := Run(Start(smart, auto), trace).m.cache;
             c.link.mode == Online && k in c.store.values && k !in c.store.dirty
    ensures var s := Run(Start(smart, auto), trace);
            var last := LastAbout(s.log, k);
            last.Some? && last.value.Value? && last.value.sample == s.m.cache.store.values[k].sample
  {
    hide Run;
    RunInv(smart, auto, trace);
    var s := Run(Start(smart, auto), trace);
    assert Current(s.m.cache.store, s.log, k);
    LastInLog(s.log, k);
    var i :| 0 <= i < |s.log| && LastAbout(s.log, k) == Some(s.log[i]) && s.log[i].key == k;
    assert True(s.m.cache.store, s.log[i].key, s.log[i].version, s.log[i].sample);
  }

  lemma {:induction false} LastInLog(log: seq<Message>, k: Key)
    ensures LastAbout(log, k).Some? ==>
              exists i :: 0 <= i < |log| && LastAbout(log, k) == Some(log[i]) && log[i].key == k
  {
    if log != [] && log[|log| - 1].key != k {
      LastInLog(log[..|log| - 1], k);
    }
  }

  // ---------------------------------------------------------------- a whole poll

  /** The first n messages of a poll become durable. */
  function Stores(now: Time, n: nat): seq<Beat> {
    seq(n, i requires 0 <= i < n => Beat.Beat(now, Stored(i)))
  }

  lemma {:induction false} TokensStored(s: Sys, now: Time, n: nat)
    requires s.flight.Some? && s.flight.value.out.Values? && s.flight.value.stored == []
    requires n <= |s.flight.value.out.tokens|
    ensures var t := Run(s, Stores(now, n));
            t.m == s.m && t.flight == Some(s.flight.value.(stored := s.flight.value.out.tokens[..n]))
  {
    if n > 0 {
      assert Stores(now, n)[..n - 1] == Stores(now, n - 1);
      TokensStored(s, now, n - 1);
      var tokens := s.flight.value.out.tokens;
      assert tokens[..n] == tokens[..n - 1] + [tokens[n - 1]];
    }
  }

  lemma {:induction false} LossStored(s: Sys, now: Time, n: nat)
    requires s.flight.Some? && s.flight.value.out.CommLost? && n <= |s.flight.value.keys|
    ensures var t := Run(s, Stores(now, n));
            t.m == s.m && t.flight == Some(s.flight.value.(told := s.flight.value.told || n > 0))
  {
    if n > 0 {
      assert Stores(now, n)[..n - 1] == Stores(now, n - 1);
      LossStored(s, now, n - 1);
    }
  }

  lemma AllClean(s: Store, keys: seq<Key>, k: Key)
    requires ValidStore(s) && k in keys
    ensures k !in CommitPublished(s, TakeDirty(s, keys)).dirty
  {
    if k in s.dirty {
      var t := Taken(k, VersionOf(s, k), s.values[k]);
      PollReports.TakenIffDirty(s, keys, t);
      var i :| 0 <= i < |TakeDirty(s, keys)| && TakeDirty(s, keys)[i] == t;
      assert TakeDirty(s, keys)[i].version == VersionOf(s, k);
    }
  }

  /** A poll that nothing overtakes and whose messages are all stored has nothing left to say: every
      signal of its list is clean, or the loss counts as announced. */
  lemma WholePollSettles(smart: bool, auto: Auto, trace: seq<Beat>, env: Env, now: Time)
    requires Run(Start(smart, auto), trace).flight.None?
    ensures var s := Run(Start(smart, auto), trace);
            var out := PollOnce(s.m, env, now).out;
            var messages := if out.Values? then |out.tokens| else if out.CommLost? then |env.keys| else 0;
            var told := Run(Next(s, Beat.Beat(now, Read(env))), Stores(now, messages));
            var c := Next(told, Beat.Beat(now, Finished)).m.cache;
            && (out.Values? ==> forall k :: k in env.keys ==> k !in c.store.dirty)
            && (out.CommLost? && env.keys != [] ==> c.announce.announced)
  {
    hide Run, PollOnce, TakeDirty, CommitPublished, Stores;
    var s := Run(Start(smart, auto), trace);
    var p := PollOnce(s.m, env, now);
    var read := Next(s, Beat.Beat(now, Read(env)));
    RunInv(smart, auto, trace);
    ReadInv(s, env, now);
    InvValid(read);
    PollSpeaks(s.m, env, now);
    Announcement.PollAnnounce(s.m, env, now);
    if p.out.Values? {
      TokensStored(read, now, |p.out.tokens|);
      assert p.out.tokens[..|p.out.tokens|] == p.out.tokens;
      forall k | k in env.keys
        ensures k !in CommitPublished(p.after.cache.store, p.out.tokens).dirty
      {
        AllClean(p.after.cache.store, env.keys, k);
      }
    } else if p.out.CommLost? {
      LossStored(read, now, |env.keys|);
    }
  }
}
