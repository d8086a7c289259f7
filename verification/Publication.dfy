/** The change-publication protocol over one cache lifetime. I/O callbacks write, polls peek,
    publish and commit, and an operator may re-dirty everything; every method holds the
    cache lock, so a run is any sequence of such steps, with any number of polls in flight.
    History (what was issued, what became durable, when it was peeked) is kept beside the
    store so that runs can be talked about. */
module Publication {
  import opened Wrappers
  import opened CacheModel
  import opened StoreLaws

  /** The v-th version the cache issued is `issued[v - 1]`. */
  datatype Issue = Issue(key: Key, sample: Sample, at: nat)

  datatype Peek = Peek(taken: Taken, at: nat)

  /** A durable publication, in the order in which the messages became durable. */
  datatype Pub = Pub(key: Key, version: nat, sample: Sample, peekedAt: nat)

  /** A poll between reading and committing: its readings are published in order. */
  datatype Flight = Flight(peeked: seq<Peek>, cursor: nat, durable: seq<Taken>)

  datatype Sys = Sys(store: Store, clock: nat, issued: seq<Issue>, flights: map<nat, Flight>, log: seq<Pub>)

  datatype Step =
    | Measured(key: Key, entry: Entry, confirms: bool)
    | Redirtied
    | Started(p: nat)
    | Read(p: nat, key: Key)
    | Published(p: nat)
    | NotPublished(p: nat)
    | Committed(p: nat)
    | Abandoned(p: nat)

  const INIT := Sys(EMPTY_STORE, 0, [], map[], [])

  function SampleOf(s: Store, k: Key): Sample {
    if k in s.values then s.values[k].sample else Sample(0.0, None, None)
  }

  function IssuesFor(s: Store, keys: seq<Key>, at: nat): seq<Issue> {
    seq(|keys|, i requires 0 <= i < |keys| => Issue(keys[i], SampleOf(s, keys[i]), at))
  }

  function Redirty(s: Sys): Sys {
    s.(store := MarkAllDirty(s.store), issued := s.issued + IssuesFor(s.store, s.store.order, s.clock))
  }

  function Write(s: Sys, k: Key, e: Entry): Sys {
    s.(store := StoreSet(s.store, k, e),
       issued := if Changes(s.store, k, e) then s.issued + [Issue(k, e.sample, s.clock)] else s.issued)
  }

  function Act(s: Sys, step: Step): Sys {
    match step
    case Measured(k, e, confirms) => if confirms then Redirty(Write(s, k, e)) else Write(s, k, e)
    case Redirtied => Redirty(s)
    case Started(p) => if p in s.flights then s else s.(flights := s.flights[p := Flight([], 0, [])])
    case Read(p, k) =>
      if p in s.flights && PeekIfDirty(s.store, k).Some? then
        var f := s.flights[p];
        s.(flights := s.flights[p := f.(peeked := f.peeked + [Peek(PeekIfDirty(s.store, k).value, s.clock)])])
      else s
    case Published(p) =>
      if p in s.flights && s.flights[p].cursor < |s.flights[p].peeked| then
        var f := s.flights[p];
        var t := f.peeked[f.cursor].taken;
        s.(flights := s.flights[p := f.(cursor := f.cursor + 1, durable := f.durable + [t])],
           log := s.log + [Pub(t.key, t.version, t.entry.sample, f.peeked[f.cursor].at)])
      else s
    case NotPublished(p) =>
      if p in s.flights && s.flights[p].cursor < |s.flights[p].peeked| then
        s.(flights := s.flights[p := s.flights[p].(cursor := s.flights[p].cursor + 1)])
      else s
    case Committed(p) =>
      if p in s.flights then
        s.(store := CommitPublished(s.store, s.flights[p].durable), flights := s.flights - {p})
      else s
    case Abandoned(p) => s.(flights := s.flights - {p})
  }

  function Next(s: Sys, step: Step): Sys {
    var t := Act(s, step);
    t.(clock := t.clock + 1)
  }

  function Run(s: Sys, steps: seq<Step>): Sys {
    if steps == [] then s else Next(Run(s, steps[..|steps| - 1]), steps[|steps| - 1])
  }

  // ---------------------------------------------------------------- the invariant

  ghost predicate Stamped(s: Sys, k: Key, version: nat, sample: Sample, at: nat) {
    && 1 <= version <= |s.issued|
    && s.issued[version - 1].key == k
    && s.issued[version - 1].sample == sample
    && s.issued[version - 1].at <= at
  }

  ghost predicate Recorded(s: Sys, k: Key, version: nat) {
    exists i :: 0 <= i < |s.log| && s.log[i].key == k && s.log[i].version == version
  }

  ghost predicate Counted(s: Sys) {
    ValidStore(s.store) && |s.issued| == s.store.versionSeq
  }

  ghost predicate FlightOk(s: Sys, f: Flight) {
    && f.cursor <= |f.peeked|
    && (forall i :: 0 <= i < |f.peeked| ==>
          var t := f.peeked[i].taken; Stamped(s, t.key, t.version, t.entry.sample, f.peeked[i].at))
    && (forall i :: 0 <= i < |f.durable| ==> Recorded(s, f.durable[i].key, f.durable[i].version))
  }

  /** A version determines the sample, tokens and log entries are true to it, and a clean
      key has a durable publication of its current version. */
  ghost predicate Inv(s: Sys) {
    && Counted(s)
    && (forall k :: k in s.store.values ==>
          Stamped(s, k, s.store.versions[k], s.store.values[k].sample, s.clock))
    && (forall p :: p in s.flights ==> FlightOk(s, s.flights[p]))
    && (forall i :: 0 <= i < |s.log| ==>
          Stamped(s, s.log[i].key, s.log[i].version, s.log[i].sample, s.log[i].peekedAt))
    && (forall k :: k in s.store.values && k !in s.store.dirty ==> Recorded(s, k, s.store.versions[k]))
  }

  /** What was stamped, recorded or in flight stays so when history only grows. */
  lemma HistoryGrows(s: Sys, t: Sys)
    requires s.issued <= t.issued && s.log <= t.log
    ensures forall k, v, sample, at, later ::
              Stamped(s, k, v, sample, at) && at <= later ==> Stamped(t, k, v, sample, later)
    ensures forall k, v :: Recorded(s, k, v) ==> Recorded(t, k, v)
    ensures forall f :: FlightOk(s, f) ==> FlightOk(t, f)
  {
  }

  lemma WriteInv(s: Sys, k: Key, e: Entry)
    requires Inv(s)
    ensures Inv(Write(s, k, e))
  {
    var t := Write(s, k, e);
    HistoryGrows(s, t);
    StoreSetValid(s.store, k, e);
    forall x | x in t.store.values
      ensures Stamped(t, x, t.store.versions[x], t.store.values[x].sample, t.clock)
    {
      if x != k || !Changes(s.store, k, e) {
        assert Stamped(s, x, s.store.versions[x], s.store.values[x].sample, s.clock);
      }
    }
    forall x | x in t.store.values && x !in t.store.dirty
      ensures Recorded(t, x, t.store.versions[x])
    {
      assert Recorded(s, x, s.store.versions[x]);
    }
  }

  lemma RedirtyStamps(s: Sys, x: Key)
    requires Inv(s) && x in s.store.values
    ensures var t := Redirty(s);
            && x in t.store.versions
            && t.store.values == s.store.values
            && Stamped(t, x, t.store.versions[x], s.store.values[x].sample, t.clock)
  {
    var t := Redirty(s);
    TouchAllKeys(s.store, s.store.order);
    assert x in KeySet(s.store.order);
    var i :| 0 <= i < |s.store.order| && s.store.order[i] == x;
    TouchAllVersions(s.store, s.store.order, i);
    assert t.issued[|s.issued| + i] == Issue(x, SampleOf(s.store, x), s.clock);
  }

  lemma RedirtyInv(s: Sys)
    requires Inv(s)
    ensures Inv(Redirty(s))
  {
    var t := Redirty(s);
    HistoryGrows(s, t);
    TouchAllKeys(s.store, s.store.order);
    MarkAllDirtyMeaning(s.store);
    forall x | x in t.store.values
      ensures Stamped(t, x, t.store.versions[x], t.store.values[x].sample, t.clock)
    {
      RedirtyStamps(s, x);
    }
  }

  lemma ActInv(s: Sys, step: Step)
    requires Inv(s)
    ensures Inv(Act(s, step))
  {
    hide Inv;
    match step
    case Measured(k, e, confirms) =>
      WriteInv(s, k, e);
      if confirms {
        RedirtyInv(Write(s, k, e));
      }
    case Redirtied =>
      RedirtyInv(s);
    case Read(p, k) =>
      if p in s.flights && PeekIfDirty(s.store, k).Some? {
        ReadInv(s, p, k);
      }
    case Published(p) =>
      if p in s.flights && s.flights[p].cursor < |s.flights[p].peeked| {
        PublishedInv(s, p);
      }
    case Committed(p) =>
      if p in s.flights {
        CommittedInv(s, p);
      }
    case _ =>
      FlightsInv(s, step);
  }

  lemma ReadInv(s: Sys, p: nat, k: Key)
    requires Inv(s) && p in s.flights && PeekIfDirty(s.store, k).Some?
    ensures Inv(Act(s, Read(p, k)))
  {
    assert Stamped(s, k, s.store.versions[k], s.store.values[k].sample, s.clock);
    HistoryGrows(s, Act(s, Read(p, k)));
  }

  lemma FlightsInv(s: Sys, step: Step)
    requires Inv(s) && (step.Started? || step.NotPublished? || step.Abandoned?)
    ensures Inv(Act(s, step))
  {
    HistoryGrows(s, Act(s, step));
  }

  lemma PublishedInv(s: Sys, p: nat)
    requires Inv(s) && p in s.flights && s.flights[p].cursor < |s.flights[p].peeked|
    ensures Inv(Act(s, Published(p)))
  {
    var t := Act(s, Published(p));
    var f := s.flights[p];
    HistoryGrows(s, t);
    assert t.log[|s.log|].key == f.peeked[f.cursor].taken.key;
    assert Recorded(t, f.peeked[f.cursor].taken.key, f.peeked[f.cursor].taken.version);
    assert FlightOk(t, f);
  }

  lemma CommittedInv(s: Sys, p: nat)
    requires Inv(s) && p in s.flights
    ensures Inv(Act(s, Committed(p)))
  {
    var t := Act(s, Committed(p));
    var f := s.flights[p];
    HistoryGrows(s, t);
    forall k | k in t.store.values && k !in t.store.dirty
      ensures Recorded(t, k, t.store.versions[k])
    {
      if k in s.store.dirty {
        var i :| 0 <= i < |f.durable| && f.durable[i].key == k && f.durable[i].version == VersionOf(s.store, k);
        assert Recorded(s, f.durable[i].key, f.durable[i].version);
      } else {
        assert Recorded(s, k, s.store.versions[k]);
      }
    }
  }

  lemma NextInv(s: Sys, step: Step)
    requires Inv(s)
    ensures Inv(Next(s, step))
  {
    hide Inv, Act;
    ActInv(s, step);
    Tick(Act(s, step));
  }

  lemma {:induction false} RunInv(s: Sys, steps: seq<Step>)
    requires Inv(s)
    ensures Inv(Run(s, steps))
  {
    hide Inv, Next;
    if steps != [] {
      var n := |steps| - 1;
      RunInv(s, steps[..n]);
      NextInv(Run(s, steps[..n]), steps[n]);
    }
  }

  // ---------------------------------------------------------------- no lost update

  /** Some reading of k with its current sample, peeked at or after `from`, became durable. */
  ghost predicate DeliveredSince(s: Sys, k: Key, from: nat)
    requires k in s.store.values
  {
    exists i :: 0 <= i < |s.log| && s.log[i].key == k && s.log[i].sample == s.store.values[k].sample
                && s.log[i].peekedAt >= from
  }

  /** When the cache issued k's current version. */
  ghost function IssuedAt(s: Sys, k: Key): nat {
    var v := VersionOf(s.store, k);
    if 1 <= v <= |s.issued| then s.issued[v - 1].at else 0
  }

  /** A clean key whose version was issued at or after `from` has been delivered since. */
  lemma CleanIsDelivered(s: Sys, k: Key, from: nat)
    requires Inv(s) && k in s.store.values && k !in s.store.dirty
    requires IssuedAt(s, k) >= from
    ensures DeliveredSince(s, k, from)
  {
  }

  /** In every interleaving, with any number of polls in flight: a clean key's current
      (raw, text, flags) has been made durable, read after its current version was issued. */
  lemma NoLostUpdate(steps: seq<Step>)
    ensures var s := Run(INIT, steps);
            forall k :: k in s.store.values && k !in s.store.dirty ==> DeliveredSince(s, k, IssuedAt(s, k))
  {
    RunInv(INIT, steps);
    var s := Run(INIT, steps);
    forall k | k in s.store.values && k !in s.store.dirty
      ensures DeliveredSince(s, k, IssuedAt(s, k))
    {
      CleanIsDelivered(s, k, IssuedAt(s, k));
    }
  }

  // ---------------------------------------------------------------- republish obligation

  /** From `s` on, history is extended by entries no older than `s`, and versions only rise. */
  ghost predicate Later(s: Sys, t: Sys) {
    && s.clock <= t.clock
    && s.issued <= t.issued
    && (forall i :: |s.issued| <= i < |t.issued| ==> t.issued[i].at >= s.clock)
    && s.store.values.Keys <= t.store.values.Keys
    && (forall k :: k in s.store.values ==> VersionOf(s.store, k) <= VersionOf(t.store, k))
  }

  lemma RedirtyLater(s: Sys)
    requires Counted(s)
    ensures Later(s, Redirty(s))
    ensures forall k :: k in s.store.values ==> VersionOf(Redirty(s).store, k) > |s.issued|
  {
    MarkAllDirtyMeaning(s.store);
    var t := Redirty(s);
    forall k | k in s.store.values
      ensures |s.issued| < VersionOf(t.store, k)
    {
      assert k in t.store.versions;
    }
  }

  lemma WriteLater(s: Sys, k: Key, e: Entry)
    requires Counted(s)
    ensures Later(s, Write(s, k, e))
  {
  }

  /** Steps that write no measurement leave versions and history alone. */
  lemma QuietLater(s: Sys, step: Step)
    requires !step.Measured? && !step.Redirtied?
    ensures Later(s, Act(s, step))
  {
  }

  lemma ActLater(s: Sys, step: Step)
    requires Inv(s)
    ensures Later(s, Act(s, step))
  {
    if step.Measured? {
      WriteLater(s, step.key, step.entry);
      if step.confirms {
        WriteInv(s, step.key, step.entry);
        RedirtyLater(Write(s, step.key, step.entry));
      }
    } else if step.Redirtied? {
      RedirtyLater(s);
    } else {
      QuietLater(s, step);
    }
  }

  lemma {:induction false} RunLater(s: Sys, steps: seq<Step>)
    requires Inv(s)
    ensures Later(s, Run(s, steps))
  {
    hide Inv, Act;
    if steps != [] {
      var n := |steps| - 1;
      RunLater(s, steps[..n]);
      RunInv(s, steps[..n]);
      ActLater(Run(s, steps[..n]), steps[n]);
    }
  }

  predicate Redirties(step: Step) {
    step.Redirtied? || (step.Measured? && step.confirms)
  }

  lemma RedirtyStep(s: Sys, redirty: Step) returns (n: nat)
    requires Inv(s) && Redirties(redirty)
    ensures Inv(Next(s, redirty))
    ensures Next(s, redirty).store.dirty == Next(s, redirty).store.values.Keys
    ensures n >= |s.issued| && OnlyNewVersions(Next(s, redirty), n, s.clock)
  {
    hide Inv, Counted, MarkAllDirty, StoreSet;
    var r := if redirty.Measured? then Write(s, redirty.key, redirty.entry) else s;
    if redirty.Measured? {
      WriteInv(s, redirty.key, redirty.entry);
    }
    NextInv(s, redirty);
    n := |r.issued|;
    InvCounts(r);
    MarkAllDirtyMeaning(r.store);
    RedirtyLater(r);
  }

  lemma InvCounts(s: Sys)
    requires Inv(s)
    ensures Counted(s)
  {
  }

  lemma Tick(s: Sys)
    requires Inv(s)
    ensures Inv(s.(clock := s.clock + 1))
  {
    HistoryGrows(s, s.(clock := s.clock + 1));
  }

  /** Every known key carries a version above n, and versions above n are no older than `from`. */
  ghost predicate OnlyNewVersions(s: Sys, n: nat, from: nat) {
    && n <= |s.issued|
    && from <= s.clock
    && (forall i :: n <= i < |s.issued| ==> s.issued[i].at >= from)
    && (forall k :: k in s.store.values ==> VersionOf(s.store, k) > n)
  }

  /** After a re-dirtying at time t every known key stays dirty until a reading peeked at or
      after t has been made durable; in particular it is dirty right away. */
  lemma RepublishObligation(before: seq<Step>, redirty: Step, after: seq<Step>)
    requires Redirties(redirty)
    ensures var s := Run(INIT, before);
            var m := Next(s, redirty);
            var t := Run(m, after);
            && m.store.dirty == m.store.values.Keys
            && m.store.values.Keys <= t.store.values.Keys
            && forall k :: k in m.store.values ==> k in t.store.dirty || DeliveredSince(t, k, s.clock)
  {
    hide Inv;
    var s := Run(INIT, before);
    InitInv();
    RunInv(INIT, before);
    var n := RedirtyStep(s, redirty);
    var m := Next(s, redirty);
    RunInv(m, after);
    RunLater(m, after);
    var t := Run(m, after);
    forall k | k in m.store.values && k !in t.store.dirty
      ensures DeliveredSince(t, k, s.clock)
    {
      InvCounts(t);
      assert VersionOf(m.store, k) <= VersionOf(t.store, k);
      CleanIsDelivered(t, k, s.clock);
    }
  }

  lemma InitInv()
    ensures Inv(INIT)
  {
  }

  /** No token peeked before a re-dirtying can clear any key that was known then, not even much
      later, when newer readings of it have been published and new measurements have come in. */
  lemma OldTokensClearNothing(before: seq<Step>, redirty: Step, after: seq<Step>, items: seq<Taken>)
    requires Redirties(redirty)
    requires forall i :: 0 <= i < |items| ==> items[i].version <= Run(INIT, before).store.versionSeq
    ensures var m := Next(Run(INIT, before), redirty);
            var t := Run(m, after);
            forall k :: k in m.store.values && k in t.store.dirty ==> k in CommitPublished(t.store, items).dirty
  {
    hide Inv;
    var s := Run(INIT, before);
    InitInv();
    RunInv(INIT, before);
    InvCounts(s);
    var n := RedirtyStep(s, redirty);
    var m := Next(s, redirty);
    RunLater(m, after);
    var t := Run(m, after);
    forall k | k in m.store.values && k in t.store.dirty
      ensures !Acknowledged(t.store, items, k)
    {
      assert VersionOf(t.store, k) >= VersionOf(m.store, k) > n;
    }
  }

  /** ... and that covers every token in flight at that moment. */
  lemma TokensInFlightAreOld(before: seq<Step>, p: nat)
    requires p in Run(INIT, before).flights
    ensures var s := Run(INIT, before);
            forall i :: 0 <= i < |s.flights[p].peeked| ==> s.flights[p].peeked[i].taken.version <= s.store.versionSeq
  {
    RunInv(INIT, before);
    var s := Run(INIT, before);
    assert FlightOk(s, s.flights[p]);
  }
}
