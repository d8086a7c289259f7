/** Which value the outside world saw last. A clean key's current sample is always durable
    (Publication.NoLostUpdate), but it is also the last one published exactly when at most one
    poll of the device is in flight. The poller does not wait for a timed-out poll
    (`fut.cancel()` does not interrupt it), so two can overlap. */
module SingleFlight {
  import opened Wrappers
  import opened CacheModel
  import opened Publication

  function LastPub(log: seq<Pub>, k: Key): Option<Pub> {
    if log == [] then None
    else if log[|log| - 1].key == k then Some(log[|log| - 1])
    else LastPub(log[..|log| - 1], k)
  }

  function LastVersion(log: seq<Pub>, k: Key): nat {
    if LastPub(log, k).Some? then LastPub(log, k).value.version else 0
  }

  /** For every clean key, the last measurement published is the current sample. */
  ghost predicate LastIsCurrent(s: Sys) {
    forall k :: k in s.store.values && k !in s.store.dirty ==>
      LastPub(s.log, k).Some? && LastPub(s.log, k).value.sample == s.store.values[k].sample
  }

  /** At no point of the run are more than `limit` polls in flight. */
  ghost predicate AtMostInFlight(steps: seq<Step>, limit: nat) {
    forall n :: 0 <= n <= |steps| ==> |Run(INIT, steps[..n]).flights| <= limit
  }

  ghost predicate AlwaysLastIsCurrent(limit: nat) {
    forall steps :: AtMostInFlight(steps, limit) ==> LastIsCurrent(Run(INIT, steps))
  }

  // ---------------------------------------------------------------- one poll in flight

  /** An open poll's keys are still dirty, its tokens are in version order per key, and what
      it already published is not newer than what the log shows last. */
  ghost predicate FlightInOrder(s: Sys, f: Flight) {
    && f.cursor <= |f.peeked|
    && (forall i :: 0 <= i < |f.peeked| ==>
          var t := f.peeked[i].taken; t.key in s.store.dirty && t.version <= VersionOf(s.store, t.key))
    && (forall i, j :: 0 <= i < j < |f.peeked| && f.peeked[i].taken.key == f.peeked[j].taken.key ==>
          f.peeked[i].taken.version <= f.peeked[j].taken.version)
    && (forall d, j | 0 <= d < |f.durable| && f.cursor <= j < |f.peeked| ::
          f.durable[d].key == f.peeked[j].taken.key ==> f.durable[d].version <= f.peeked[j].taken.version)
    && (forall d :: 0 <= d < |f.durable| ==> f.durable[d].version <= LastVersion(s.log, f.durable[d].key))
  }

  ghost predicate OneInv(s: Sys) {
    && s.store.dirty <= s.store.values.Keys == s.store.versions.Keys
    && (forall k :: k in s.store.versions ==> s.store.versions[k] <= s.store.versionSeq)
    && (forall k :: LastVersion(s.log, k) <= VersionOf(s.store, k))
    && (forall k :: k in s.store.values && k !in s.store.dirty ==> LastVersion(s.log, k) == VersionOf(s.store, k))
    && (forall p :: p in s.flights ==> FlightInOrder(s, s.flights[p]))
  }

  /** What the store may do while polls stay as they are: versions rise, and a version that
      rises leaves its key dirty. */
  ghost predicate StoreMoves(a: Store, b: Store) {
    && b.dirty <= b.values.Keys == b.versions.Keys
    && a.dirty <= b.dirty
    && (forall k :: k in b.versions ==> b.versions[k] <= b.versionSeq)
    && (forall k :: VersionOf(a, k) <= VersionOf(b, k))
    && (forall k :: k in b.values && k !in b.dirty ==>
          k in a.values && k !in a.dirty && VersionOf(a, k) == VersionOf(b, k))
  }

  lemma StoreMovesKeepOneInv(s: Sys, t: Sys)
    requires OneInv(s) && StoreMoves(s.store, t.store) && t.flights == s.flights && t.log == s.log
    ensures OneInv(t)
  {
  }

  lemma RedirtyMoves(s: Sys)
    requires Counted(s)
    ensures StoreMoves(s.store, Redirty(s).store)
  {
    StoreLaws.MarkAllDirtyMeaning(s.store);
  }

  lemma ActOne(s: Sys, step: Step)
    requires Inv(s) && OneInv(s)
    requires |s.flights| <= 1
    ensures OneInv(Act(s, step))
  {
    hide Inv;
    InvCounts(s);
    var t := Act(s, step);
    match step
    case Measured(k, e, confirms) =>
      StoreMovesKeepOneInv(s, Write(s, k, e));
      if confirms {
        WriteInv(s, k, e);
        InvCounts(Write(s, k, e));
        RedirtyMoves(Write(s, k, e));
        StoreMovesKeepOneInv(Write(s, k, e), t);
      }
    case Redirtied =>
      RedirtyMoves(s);
      StoreMovesKeepOneInv(s, t);
    case Read(p, k) =>
      ReadOne(s, p, k);
    case Published(p) =>
      if p in s.flights && s.flights[p].cursor < |s.flights[p].peeked| {
        PublishedOne(s, p);
      }
    case Committed(p) =>
      if p in s.flights {
        CommittedOne(s, p);
      }
    case NotPublished(p) =>
      NotPublishedOne(s, p);
    case Started(p) =>
      FramesOne(s, t);
    case Abandoned(p) =>
      FramesOne(s, t);
  }

  lemma FramesOne(s: Sys, t: Sys)
    requires OneInv(s) && t.store == s.store && t.log == s.log
    requires forall p :: p in t.flights ==>
               (p in s.flights && t.flights[p] == s.flights[p]) || FlightInOrder(s, t.flights[p])
    ensures OneInv(t)
  {
  }

  lemma ReadFlight(s: Sys, p: nat, k: Key)
    requires OneInv(s) && p in s.flights && PeekIfDirty(s.store, k).Some?
    ensures FlightInOrder(s, Act(s, Read(p, k)).flights[p])
  {
    hide LastVersion;
    assert FlightInOrder(s, s.flights[p]);
  }

  lemma ReadOne(s: Sys, p: nat, k: Key)
    requires OneInv(s)
    ensures OneInv(Act(s, Read(p, k)))
  {
    hide FlightInOrder;
    var t := Act(s, Read(p, k));
    if t != s {
      ReadFlight(s, p, k);
    }
    FramesOne(s, t);
  }

  lemma NotPublishedOne(s: Sys, p: nat)
    requires OneInv(s)
    ensures OneInv(Act(s, NotPublished(p)))
  {
    var t := Act(s, NotPublished(p));
    if t != s {
      assert FlightInOrder(s, s.flights[p]);
      assert FlightInOrder(s, t.flights[p]);
    }
    FramesOne(s, t);
  }

  lemma OnlyFlight(s: Sys, p: nat)
    requires |s.flights| <= 1 && p in s.flights
    ensures s.flights.Keys == {p}
  {
    var rest := s.flights.Keys - {p};
    assert |rest| == |s.flights.Keys| - 1;
    assert s.flights.Keys == {p} + rest;
  }

  lemma PublishedFlight(s: Sys, p: nat)
    requires p in s.flights && s.flights[p].cursor < |s.flights[p].peeked|
    requires FlightInOrder(s, s.flights[p])
    ensures var t := Act(s, Published(p)); FlightInOrder(t, t.flights[p])
  {
  }

  lemma PublishedOne(s: Sys, p: nat)
    requires OneInv(s) && |s.flights| <= 1
    requires p in s.flights && s.flights[p].cursor < |s.flights[p].peeked|
    ensures OneInv(Act(s, Published(p)))
  {
    hide FlightInOrder;
    OnlyFlight(s, p);
    PublishedFlight(s, p);
    assert Act(s, Published(p)).flights.Keys == {p};
  }

  /** A key that the commit cleans was published last under its current version. */
  lemma CommittedKeys(s: Sys, f: Flight)
    requires OneInv(s) && FlightInOrder(s, f)
    ensures var c := CommitPublished(s.store, f.durable);
            forall k :: k in c.values && k !in c.dirty ==> LastVersion(s.log, k) == VersionOf(c, k)
  {
  }

  lemma CommittedOne(s: Sys, p: nat)
    requires OneInv(s) && |s.flights| <= 1 && p in s.flights
    ensures OneInv(Act(s, Committed(p)))
  {
    hide FlightInOrder, LastVersion;
    var t := Act(s, Committed(p));
    OnlyFlight(s, p);
    CommittedKeys(s, s.flights[p]);
    assert t.flights.Keys == {};
    assert forall k :: VersionOf(t.store, k) == VersionOf(s.store, k);
  }

  lemma InitOne()
    ensures OneInv(INIT)
  {
  }

  lemma ClockOne(s: Sys)
    requires OneInv(s)
    ensures OneInv(s.(clock := s.clock + 1))
  {
  }

  lemma {:induction false} RunOne(steps: seq<Step>)
    requires AtMostInFlight(steps, 1)
    ensures OneInv(Run(INIT, steps))
  {
    hide Inv, Act, OneInv;
    if steps == [] {
      InitOne();
    } else {
      var n := |steps| - 1;
      forall m | 0 <= m <= n
        ensures |Run(INIT, steps[..n][..m]).flights| <= 1
      {
        assert steps[..n][..m] == steps[..m];
      }
      RunOne(steps[..n]);
      InitInv();
      RunInv(INIT, steps[..n]);
      ActOne(Run(INIT, steps[..n]), steps[n]);
      ClockOne(Act(Run(INIT, steps[..n]), steps[n]));
    }
  }

  /** With at most one poll in flight the last measurement published for a clean key is the
      current one. */
  lemma OneFlightLastIsCurrent(steps: seq<Step>)
    requires AtMostInFlight(steps, 1)
    ensures LastIsCurrent(Run(INIT, steps))
  {
    hide Inv, OneInv, LastPub, Run;
    var s := Run(INIT, steps);
    InitInv();
    RunInv(INIT, steps);
    RunOne(steps);
    forall k | k in s.store.values && k !in s.store.dirty
      ensures LastPub(s.log, k).Some? && LastPub(s.log, k).value.sample == s.store.values[k].sample
    {
      CleanIsLast(s, k);
    }
  }

  lemma CleanIsLast(s: Sys, k: Key)
    requires Inv(s) && OneInv(s) && k in s.store.values && k !in s.store.dirty
    ensures LastPub(s.log, k).Some? && LastPub(s.log, k).value.sample == s.store.values[k].sample
  {
    hide LastPub, FlightOk, FlightInOrder;
    assert Stamped(s, k, s.store.versions[k], s.store.values[k].sample, s.clock);
    assert LastVersion(s.log, k) == VersionOf(s.store, k);
    LastPubInLog(s.log, k);
    var i :| 0 <= i < |s.log| && LastPub(s.log, k) == Some(s.log[i]) && s.log[i].key == k;
    assert Stamped(s, s.log[i].key, s.log[i].version, s.log[i].sample, s.log[i].peekedAt);
  }

  lemma {:induction false} LastPubInLog(log: seq<Pub>, k: Key)
    ensures LastPub(log, k).Some? ==> exists i :: 0 <= i < |log| && LastPub(log, k) == Some(log[i]) && log[i].key == k
  {
    if log != [] && log[|log| - 1].key != k {
      LastPubInLog(log[..|log| - 1], k);
    }
  }

  // ---------------------------------------------------------------- two polls in flight

  const KEY := Key(30, 0)

  function EntryOf(raw: real): Entry {
    Entry(Sample(raw, None, None), None, None)
  }

  /** Poll 0 reads 1.0 and is slow; poll 1 reads and commits 2.0; then poll 0 publishes. */
  const OVERTAKEN: seq<Step> := [
    Measured(KEY, EntryOf(1.0), false), Started(0), Read(0, KEY),
    Measured(KEY, EntryOf(2.0), false), Started(1), Read(1, KEY), Published(1), Committed(1),
    Published(0)]

  const E1 := EntryOf(1.0)
  const E2 := EntryOf(2.0)
  const T1 := Taken(KEY, 1, E1)
  const T2 := Taken(KEY, 2, E2)
  const OLD_STORE := Store([KEY], map[KEY := E1], map[KEY := 1], 1, {KEY})
  const NEW_STORE := Store([KEY], map[KEY := E2], map[KEY := 2], 2, {KEY})
  const IDLE := Flight([], 0, [])
  const SLOW := Flight([Peek(T1, 2)], 0, [])
  const FAST := Flight([Peek(T2, 5)], 0, [])
  const ISSUED := [Issue(KEY, E1.sample, 0), Issue(KEY, E2.sample, 3)]
  const NEW_PUB := Pub(KEY, 2, E2.sample, 5)
  const OLD_PUB := Pub(KEY, 1, E1.sample, 2)

  /** The state after the first n steps of OVERTAKEN. */
  function Trail(n: nat): Sys
    requires n <= 9
  {
    match n
    case 0 => INIT
    case 1 => Sys(OLD_STORE, 1, ISSUED[..1], map[], [])
    case 2 => Sys(OLD_STORE, 2, ISSUED[..1], map[0 := IDLE], [])
    case 3 => Sys(OLD_STORE, 3, ISSUED[..1], map[0 := SLOW], [])
    case 4 => Sys(NEW_STORE, 4, ISSUED, map[0 := SLOW], [])
    case 5 => Sys(NEW_STORE, 5, ISSUED, map[0 := SLOW, 1 := IDLE], [])
    case 6 => Sys(NEW_STORE, 6, ISSUED, map[0 := SLOW, 1 := FAST], [])
    case 7 => Sys(NEW_STORE, 7, ISSUED, map[0 := SLOW, 1 := FAST.(cursor := 1, durable := [T2])], [NEW_PUB])
    case 8 => Sys(NEW_STORE.(dirty := {}), 8, ISSUED, map[0 := SLOW], [NEW_PUB])
    case 9 => Sys(NEW_STORE.(dirty := {}), 9, ISSUED, map[0 := SLOW.(cursor := 1, durable := [T1])], [NEW_PUB, OLD_PUB])
  }

  lemma TrailStart(n: nat)
    requires n < 4
    ensures Next(Trail(n), OVERTAKEN[n]) == Trail(n + 1)
  {
    assert [] + [Peek(T1, 2)] == SLOW.peeked;
    assert [] + [Issue(KEY, E1.sample, 0)] == ISSUED[..1];
    assert ISSUED[..1] + [Issue(KEY, E2.sample, 3)] == ISSUED;
    assert [] + [KEY] == [KEY];
  }

  lemma TrailMiddle(n: nat)
    requires 4 <= n < 7
    ensures Next(Trail(n), OVERTAKEN[n]) == Trail(n + 1)
  {
    assert [] + [Peek(T2, 5)] == FAST.peeked;
    assert [] + [T2] == [T2];
    assert [] + [NEW_PUB] == [NEW_PUB];
  }

  lemma TrailCommit()
    ensures Next(Trail(7), OVERTAKEN[7]) == Trail(8)
  {
    assert [T2][0].version == VersionOf(NEW_STORE, KEY);
    assert Acknowledged(NEW_STORE, [T2], KEY);
    assert (Trail(7).flights - {1}) == map[0 := SLOW];
    assert CommitPublished(NEW_STORE, [T2]).dirty == {};
  }

  lemma TrailLate()
    ensures Next(Trail(8), OVERTAKEN[8]) == Trail(9)
  {
    assert [] + [T1] == [T1];
    assert [NEW_PUB] + [OLD_PUB] == [NEW_PUB, OLD_PUB];
  }

  lemma {:induction false} TrailIsRun(n: nat)
    requires n <= 9
    ensures Run(INIT, OVERTAKEN[..n]) == Trail(n)
  {
    hide Act, Trail;
    if n == 0 {
      assert Trail(0) == INIT by { TrailZero(); }
    } else {
      TrailIsRun(n - 1);
      assert OVERTAKEN[..n] == OVERTAKEN[..n - 1] + [OVERTAKEN[n - 1]];
      if n <= 4 {
        TrailStart(n - 1);
      } else if n <= 7 {
        TrailMiddle(n - 1);
      } else if n == 8 {
        TrailCommit();
      } else {
        TrailLate();
      }
    }
  }

  lemma TrailZero()
    ensures Trail(0) == INIT
  {
  }

  lemma TrailFlights(n: nat)
    requires n <= 9
    ensures |Trail(n).flights| <= 2
  {
  }

  lemma OvertakenIsStale()
    ensures !LastIsCurrent(Trail(9))
  {
    assert LastPub([NEW_PUB, OLD_PUB], KEY) == Some(OLD_PUB);
  }

  /** The last published measurement is current on every run exactly when the poller keeps at
      most one poll of the device in flight. */
  lemma LastIsCurrentIffOneInFlight(limit: nat)
    ensures AlwaysLastIsCurrent(limit) <==> limit <= 1
  {
    hide Act, Trail, LastIsCurrent, Run;
    if limit <= 1 {
      forall steps | AtMostInFlight(steps, limit)
        ensures LastIsCurrent(Run(INIT, steps))
      {
        OneFlightLastIsCurrent(steps);
      }
    } else {
      forall n | 0 <= n <= |OVERTAKEN|
        ensures |Run(INIT, OVERTAKEN[..n]).flights| <= limit
      {
        TrailIsRun(n);
        TrailFlights(n);
      }
      assert AtMostInFlight(OVERTAKEN, limit);
      assert OVERTAKEN[..9] == OVERTAKEN;
      TrailIsRun(9);
      OvertakenIsStale();
    }
  }
}
