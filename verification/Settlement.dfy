/** What a commit settles, told from what was stored and when: a key is clean afterwards exactly
    if a reading of it that the poll stored was taken after its current version was issued. */
module Settlement {
  import opened Wrappers
  import opened CacheModel
  import opened StoreLaws
  import opened Publication

  /** The poll has stored a reading of k taken after k's current version was issued. */
  ghost predicate StoredSinceIssue(s: Sys, f: Flight, k: Key) {
    exists j :: 0 <= j < |f.peeked| && f.peeked[j].taken.key == k && f.peeked[j].taken in f.durable
                && IssuedAt(s, k) <= f.peeked[j].at
  }

  // ---------------------------------------------------------------- versions in the order of time

  ghost predicate NoneLater(s: Sys, k: Key, version: nat, at: nat) {
    forall i :: version <= i < |s.issued| && s.issued[i].key == k ==> s.issued[i].at > at
  }

  ghost predicate LastVersions(s: Sys) {
    forall k, i :: k in s.store.versions && s.store.versions[k] <= i < |s.issued| ==> s.issued[i].key != k
  }

  ghost predicate FlightOrdered(s: Sys, f: Flight) {
    && (forall j :: 0 <= j < |f.peeked| ==>
          f.peeked[j].at < s.clock
          && NoneLater(s, f.peeked[j].taken.key, f.peeked[j].taken.version, f.peeked[j].at))
    && f.cursor <= |f.peeked|
    && (forall d :: d in f.durable ==> exists j :: 0 <= j < f.cursor && f.peeked[j].taken == d)
  }

  /** A key's version is the last one issued for it, and what is issued after a reading carries a
      later time. */
  ghost predicate Ordered(s: Sys) {
    && (forall i :: 0 <= i < |s.issued| ==> s.issued[i].at <= s.clock)
    && LastVersions(s)
    && (forall p :: p in s.flights ==> FlightOrdered(s, s.flights[p]))
  }

  lemma Tock(s: Sys)
    requires Ordered(s)
    ensures Ordered(s.(clock := s.clock + 1))
  {
    var t := s.(clock := s.clock + 1);
    forall p | p in t.flights
      ensures FlightOrdered(t, t.flights[p])
    {
      SameHistory(s, t, s.flights[p]);
    }
  }

  lemma SameHistory(s: Sys, t: Sys, f: Flight)
    requires FlightOrdered(s, f) && t.issued == s.issued && s.clock <= t.clock
    ensures FlightOrdered(t, f)
  {
    forall k, v, at
      ensures NoneLater(s, k, v, at) ==> NoneLater(t, k, v, at)
    {
    }
  }

  /** Versions issued now are later than every reading in flight. */
  lemma IssuedNow(s: Sys, t: Sys)
    requires Ordered(s) && s.issued <= t.issued && t.flights == s.flights && t.clock == s.clock
    requires forall i :: |s.issued| <= i < |t.issued| ==> t.issued[i].at == s.clock
    requires LastVersions(t)
    ensures Ordered(t)
  {
    forall p | p in t.flights
      ensures FlightOrdered(t, t.flights[p])
    {
      var f := s.flights[p];
      forall j | 0 <= j < |f.peeked|
        ensures NoneLater(t, f.peeked[j].taken.key, f.peeked[j].taken.version, f.peeked[j].at)
      {
        assert NoneLater(s, f.peeked[j].taken.key, f.peeked[j].taken.version, f.peeked[j].at);
      }
    }
  }

  lemma WriteOrdered(s: Sys, k: Key, e: Entry)
    requires Counted(s) && Ordered(s)
    ensures Ordered(Write(s, k, e))
  {
    IssuedNow(s, Write(s, k, e));
  }

  lemma RedirtyOrdered(s: Sys)
    requires Counted(s) && Ordered(s)
    ensures Ordered(Redirty(s))
  {
    var t := Redirty(s);
    TouchAllKeys(s.store, s.store.order);
    forall k, i | k in t.store.versions && t.store.versions[k] <= i < |t.issued|
      ensures t.issued[i].key != k
    {
      assert k in KeySet(s.store.order);
      var n :| 0 <= n < |s.store.order| && s.store.order[n] == k;
      TouchAllVersions(s.store, s.store.order, n);
    }
    IssuedNow(s, t);
  }

  lemma ReadOrdered(s: Sys, p: nat, k: Key)
    requires Counted(s) && Ordered(s) && p in s.flights && PeekIfDirty(s.store, k).Some?
    ensures Ordered(Next(s, Read(p, k)))
  {
    var t := Next(s, Read(p, k));
    var f := t.flights[p];
    assert NoneLater(t, k, s.store.versions[k], s.clock);
    forall q | q in t.flights
      ensures FlightOrdered(t, t.flights[q])
    {
      SameHistory(s, t, s.flights[q]);
      if q == p {
        assert s.flights[p].peeked <= f.peeked;
      }
    }
  }

  lemma PublishedOrdered(s: Sys, p: nat)
    requires Ordered(s) && p in s.flights && s.flights[p].cursor < |s.flights[p].peeked|
    ensures Ordered(Next(s, Published(p)))
  {
    var t := Next(s, Published(p));
    forall q | q in t.flights
      ensures FlightOrdered(t, t.flights[q])
    {
      SameHistory(s, t, s.flights[q]);
    }
  }

  /** The other steps only drop flights, start them or move their cursor. */
  lemma FlightsOrdered(s: Sys, step: Step)
    requires Ordered(s)
    requires step.Started? || step.NotPublished? || step.Committed? || step.Abandoned?
    ensures Ordered(Next(s, step))
  {
    var t := Next(s, step);
    forall q | q in t.flights
      ensures FlightOrdered(t, t.flights[q])
    {
      if q in s.flights {
        SameHistory(s, t, s.flights[q]);
      }
    }
  }

  lemma NextOrdered(s: Sys, step: Step)
    requires Inv(s) && Ordered(s)
    ensures Ordered(Next(s, step))
  {
    hide Inv, Ordered;
    InvCounts(s);
    match step
    case Measured(k, e, confirms) =>
      WriteOrdered(s, k, e);
      if confirms {
        WriteInv(s, k, e);
        InvCounts(Write(s, k, e));
        RedirtyOrdered(Write(s, k, e));
      }
      Tock(Act(s, step));
    case Redirtied =>
      RedirtyOrdered(s);
      Tock(Act(s, step));
    case Read(p, k) =>
      if p in s.flights && PeekIfDirty(s.store, k).Some? {
        ReadOrdered(s, p, k);
      } else {
        Tock(s);
      }
    case Published(p) =>
      if p in s.flights && s.flights[p].cursor < |s.flights[p].peeked| {
        PublishedOrdered(s, p);
      } else {
        Tock(s);
      }
    case _ =>
      FlightsOrdered(s, step);
  }

  lemma {:induction false} RunOrdered(s: Sys, steps: seq<Step>)
    requires Inv(s) && Ordered(s)
    ensures Inv(Run(s, steps)) && Ordered(Run(s, steps))
  {
    hide Inv, Ordered, Next;
    if steps != [] {
      var n := |steps| - 1;
      RunOrdered(s, steps[..n]);
      NextOrdered(Run(s, steps[..n]), steps[n]);
      NextInv(Run(s, steps[..n]), steps[n]);
    }
  }

  lemma InitOrdered()
    ensures Inv(INIT) && Ordered(INIT)
  {
    InitInv();
  }

  // ---------------------------------------------------------------- the commit

  /** A stored reading taken after the current version was issued carries that version. */
  lemma StoredIsCurrent(s: Sys, f: Flight, k: Key, j: nat)
    requires Inv(s) && LastVersions(s) && FlightOk(s, f) && FlightOrdered(s, f) && k in s.store.values
    requires j < |f.peeked| && f.peeked[j].taken.key == k && IssuedAt(s, k) <= f.peeked[j].at
    ensures f.peeked[j].taken.version == VersionOf(s.store, k)
  {
    var t := f.peeked[j].taken;
    var v := s.store.versions[k];
    assert Stamped(s, k, v, s.store.values[k].sample, s.clock);
    assert Stamped(s, t.key, t.version, t.entry.sample, f.peeked[j].at);
    assert NoneLater(s, k, t.version, f.peeked[j].at);
    assert s.issued[v - 1].key == k && s.issued[t.version - 1].key == k;
  }

  /** ... and one that carries it was taken after it was issued. */
  lemma CurrentIsStored(s: Sys, f: Flight, k: Key, d: Taken)
    requires FlightOk(s, f) && FlightOrdered(s, f)
    requires d in f.durable && d.key == k && d.version == VersionOf(s.store, k)
    ensures StoredSinceIssue(s, f, k)
  {
    var j :| 0 <= j < f.cursor && f.peeked[j].taken == d;
    assert Stamped(s, k, d.version, d.entry.sample, f.peeked[j].at);
  }

  lemma AcknowledgedIff(s: Sys, f: Flight, k: Key)
    requires Inv(s) && LastVersions(s) && FlightOk(s, f) && FlightOrdered(s, f) && k in s.store.values
    ensures Acknowledged(s.store, f.durable, k) <==> StoredSinceIssue(s, f, k)
  {
    hide Inv, LastVersions, FlightOk, FlightOrdered, IssuedAt;
    if i :| 0 <= i < |f.durable| && f.durable[i].key == k && f.durable[i].version == VersionOf(s.store, k) {
      CurrentIsStored(s, f, k, f.durable[i]);
    }
    if j :| 0 <= j < |f.peeked| && f.peeked[j].taken.key == k && f.peeked[j].taken in f.durable
            && IssuedAt(s, k) <= f.peeked[j].at {
      StoredIsCurrent(s, f, k, j);
    }
  }

  /** A commit, whatever other polls and writers did meanwhile: a known key is dirty afterwards
      exactly if it was dirty and no reading of it that this poll stored was taken after its
      current version was issued. Nothing else of the store changes. */
  lemma CommitSettles(steps: seq<Step>, p: nat)
    requires p in Run(INIT, steps).flights
    ensures var s := Run(INIT, steps);
            var t := Next(s, Committed(p));
            && t.store == s.store.(dirty := t.store.dirty)
            && forall k :: k in s.store.values ==>
                 (k in t.store.dirty <==> k in s.store.dirty && !StoredSinceIssue(s, s.flights[p], k))
  {
    hide Inv, FlightOk, FlightOrdered, LastVersions, StoredSinceIssue;
    var s := Run(INIT, steps);
    InitOrdered();
    RunOrdered(INIT, steps);
    FlightAt(s, p);
    forall k | k in s.store.values
      ensures Acknowledged(s.store, s.flights[p].durable, k) <==> StoredSinceIssue(s, s.flights[p], k)
    {
      AcknowledgedIff(s, s.flights[p], k);
    }
  }

  lemma FlightAt(s: Sys, p: nat)
    requires Inv(s) && Ordered(s) && p in s.flights
    ensures LastVersions(s) && FlightOk(s, s.flights[p]) && FlightOrdered(s, s.flights[p])
  {
  }

  // ---------------------------------------------------------------- the dirty set, from the run alone

  /** What was measured last for this key. */
  function LastSample(steps: seq<Step>, k: Key): Option<Sample> {
    if steps == [] then None
    else
      var step := steps[|steps| - 1];
      if step.Measured? && step.key == k then Some(step.entry.sample) else LastSample(steps[..|steps| - 1], k)
  }

  /** Something about k is still to be published: a measurement that differs from the one before
      it, or a re-dirtying, that no commit has settled. */
  ghost predicate Unsettled(steps: seq<Step>, k: Key) {
    steps != [] &&
    var n := |steps| - 1;
    var before := steps[..n];
    var s := Run(INIT, before);
    match steps[n]
    case Measured(x, e, confirms) =>
      || Unsettled(before, k)
      || (x == k && LastSample(before, k) != Some(e.sample))
      || (confirms && (x == k || LastSample(before, k).Some?))
    case Redirtied => LastSample(before, k).Some?
    case Committed(p) => Unsettled(before, k) && !(p in s.flights && StoredSinceIssue(s, s.flights[p], k))
    case _ => Unsettled(before, k)
  }

  ghost predicate StoreMeans(s: Store, sample: Option<Sample>, unsettled: bool, k: Key) {
    && (sample.Some? <==> k in s.values)
    && (sample.Some? ==> s.values[k].sample == sample.value)
    && (k in s.dirty <==> unsettled)
    && (unsettled ==> k in s.values)
  }

  lemma WriteMeans(s: Store, x: Key, e: Entry, sample: Option<Sample>, unsettled: bool, k: Key)
    requires StoreMeans(s, sample, unsettled, k)
    ensures StoreMeans(StoreSet(s, x, e), if x == k then Some(e.sample) else sample,
                       unsettled || (x == k && sample != Some(e.sample)), k)
  {
  }

  lemma RedirtiedMeans(s: Sys, sample: Option<Sample>, unsettled: bool, k: Key)
    requires Inv(s) && StoreMeans(s.store, sample, unsettled, k)
    ensures StoreMeans(Redirty(s).store, sample, sample.Some?, k)
  {
    hide Inv, MarkAllDirty;
    InvCounts(s);
    MarkAllDirtyMeaning(s.store);
  }

  lemma MeasuredMeans(s: Sys, x: Key, e: Entry, confirms: bool, sample: Option<Sample>, unsettled: bool, k: Key)
    requires Inv(s) && StoreMeans(s.store, sample, unsettled, k)
    ensures StoreMeans(Act(s, Measured(x, e, confirms)).store,
                       if x == k then Some(e.sample) else sample,
                       unsettled || (x == k && sample != Some(e.sample)) || (confirms && (x == k || sample.Some?)), k)
  {
    hide Inv, StoreMeans, StoreSet, Redirty;
    WriteInv(s, x, e);
    WriteMeans(s.store, x, e, sample, unsettled, k);
    if confirms {
      var more := unsettled || (x == k && sample != Some(e.sample));
      assert more ==> x == k || sample.Some? by { Known(s.store, sample, unsettled, k); }
      RedirtiedMeans(Write(s, x, e), if x == k then Some(e.sample) else sample, more, k);
    }
  }

  lemma Known(s: Store, sample: Option<Sample>, unsettled: bool, k: Key)
    requires StoreMeans(s, sample, unsettled, k)
    ensures unsettled ==> sample.Some?
  {
  }

  /** Over every run a key is dirty exactly if something about it is still to be published, and its
      sample is what was measured last. A repeated measurement changes neither. */
  lemma {:induction false} DirtyIffUnsettled(steps: seq<Step>, k: Key)
    ensures StoreMeans(Run(INIT, steps).store, LastSample(steps, k), Unsettled(steps, k), k)
  {
    if steps != [] {
      hide Inv, Act, StoredSinceIssue;
      var n := |steps| - 1;
      var s := Run(INIT, steps[..n]);
      var sample, unsettled := LastSample(steps[..n], k), Unsettled(steps[..n], k);
      DirtyIffUnsettled(steps[..n], k);
      InitOrdered();
      RunInv(INIT, steps[..n]);
      match steps[n]
      case Measured(x, e, confirms) => MeasuredMeans(s, x, e, confirms, sample, unsettled, k);
      case Redirtied => RedirtiedMeans(s, sample, unsettled, k);
      case Committed(p) =>
        if p in s.flights {
          CommitSettles(steps[..n], p);
        } else {
          OtherSteps(s, steps[n]);
        }
      case _ => OtherSteps(s, steps[n]);
    }
  }

  lemma OtherSteps(s: Sys, step: Step)
    requires !step.Measured? && !step.Redirtied? && !(step.Committed? && step.p in s.flights)
    ensures Act(s, step).store == s.store
  {
  }

  // ---------------------------------------------------------------- a poll nobody disturbs

  /** No write and no re-dirtying happens, and no message of poll p fails. */
  ghost predicate Undisturbed(during: seq<Step>, p: nat) {
    forall i :: 0 <= i < |during| ==>
      !during[i].Measured? && !during[i].Redirtied? && during[i] != NotPublished(p)
  }

  ghost predicate AllStored(m: Sys, s: Sys, p: nat) {
    && s.issued == m.issued && s.store.values == m.store.values && s.store.versions == m.store.versions
    && m.clock <= s.clock
    && (p in s.flights ==>
          var f := s.flights[p];
          && f.cursor <= |f.peeked|
          && (forall j :: 0 <= j < f.cursor ==> f.peeked[j].taken in f.durable)
          && (forall j :: 0 <= j < |f.peeked| ==> f.peeked[j].at >= m.clock && f.peeked[j].taken.key in s.store.values))
  }

  lemma StoredStep(m: Sys, s: Sys, step: Step, p: nat)
    requires AllStored(m, s, p)
    requires !step.Measured? && !step.Redirtied? && step != NotPublished(p)
    ensures AllStored(m, Next(s, step), p)
  {
  }

  lemma {:induction false} StoredRun(m: Sys, during: seq<Step>, p: nat)
    requires p !in m.flights && Undisturbed(during, p)
    ensures AllStored(m, Run(m, during), p)
  {
    if during != [] {
      hide Next, AllStored;
      var n := |during| - 1;
      StoredRun(m, during[..n], p);
      StoredStep(m, Run(m, during[..n]), during[n], p);
    } else {
    }
  }

  /** A poll all of whose messages were stored, and which no write or re-dirtying overtook,
      leaves every key it read clean. */
  lemma UndisturbedPollCleans(before: seq<Step>, during: seq<Step>, p: nat)
    requires p !in Run(INIT, before).flights && Undisturbed(during, p)
    requires var s := Run(Run(INIT, before), during);
             p in s.flights && s.flights[p].cursor == |s.flights[p].peeked|
    ensures var s := Run(Run(INIT, before), during);
            var t := Next(s, Committed(p));
            forall j :: 0 <= j < |s.flights[p].peeked| ==> s.flights[p].peeked[j].taken.key !in t.store.dirty
  {
    hide Inv, Next, FlightOk, LastVersions;
    var m := Run(INIT, before);
    var s := Run(m, during);
    InitOrdered();
    RunOrdered(INIT, before);
    RunOrdered(m, during);
    StoredRun(m, during, p);
    FlightAt(s, p);
    Cleans(m, s, p);
  }

  lemma Cleans(m: Sys, s: Sys, p: nat)
    requires Inv(s) && LastVersions(s) && Ordered(m) && AllStored(m, s, p)
    requires p in s.flights && s.flights[p].cursor == |s.flights[p].peeked|
    requires FlightOk(s, s.flights[p]) && FlightOrdered(s, s.flights[p])
    ensures forall j :: 0 <= j < |s.flights[p].peeked| ==>
              s.flights[p].peeked[j].taken.key !in Next(s, Committed(p)).store.dirty
  {
    hide Inv, FlightOk, LastVersions, FlightOrdered;
    var f := s.flights[p];
    forall j | 0 <= j < |f.peeked|
      ensures Acknowledged(s.store, f.durable, f.peeked[j].taken.key)
    {
      var k := f.peeked[j].taken.key;
      assert IssuedAt(s, k) <= m.clock;
      assert StoredSinceIssue(s, f, k);
      AcknowledgedIff(s, f, k);
    }
  }
}
