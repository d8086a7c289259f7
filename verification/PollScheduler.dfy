/** Which devices a poll cycle reads and which it counts as read. */
module PollSchedulers {
  import opened Wrappers

  type Time = real

  type Code = string

  datatype Device = Device(code: Code, interval: int)

  datatype Fleet = Fleet(devices: seq<Device>, lastRead: map<Code, Time>)

  ghost predicate DistinctCodes(devices: seq<Device>) {
    forall i, j :: 0 <= i < j < |devices| ==> devices[i].code != devices[j].code
  }

  function LastOf(f: Fleet, c: Code): Time {
    if c in f.lastRead then f.lastRead[c] else 0.0
  }

  function Last(f: Fleet, i: nat): Time
    requires i < |f.devices|
  {
    LastOf(f, f.devices[i].code)
  }

  /** Seconds between two reads: the configured interval, but at least one. */
  function Pause(d: Device): int {
    if d.interval < 1 then 1 else d.interval
  }

  predicate IsDue(f: Fleet, i: nat, now: Time)
    requires i < |f.devices|
  {
    now - Last(f, i) >= Pause(f.devices[i]) as real
  }

  /** The stable sort of the source: an element goes behind all that are not read later. */
  function Insert(f: Fleet, order: seq<nat>, i: nat): seq<nat>
    requires i < |f.devices| && forall k :: 0 <= k < |order| ==> order[k] < |f.devices|
    ensures forall k :: 0 <= k < |Insert(f, order, i)| ==> Insert(f, order, i)[k] < |f.devices|
  {
    if order != [] && Last(f, order[|order| - 1]) > Last(f, i) then
      Insert(f, order[..|order| - 1], i) + [order[|order| - 1]]
    else order + [i]
  }

  /** Positions of the due devices among the first n, the longest unread first. */
  function DueUpTo(f: Fleet, n: nat, now: Time): seq<nat>
    requires n <= |f.devices|
    ensures forall k :: 0 <= k < |DueUpTo(f, n, now)| ==> DueUpTo(f, n, now)[k] < |f.devices|
  {
    if n == 0 then []
    else if IsDue(f, n - 1, now) then Insert(f, DueUpTo(f, n - 1, now), n - 1)
    else DueUpTo(f, n - 1, now)
  }

  function Due(f: Fleet, now: Time): seq<nat> {
    DueUpTo(f, |f.devices|, now)
  }

  /** Longer unread, and first in the configuration among equals. */
  predicate Ahead(f: Fleet, i: nat, j: nat)
    requires i < |f.devices| && j < |f.devices|
  {
    Last(f, i) < Last(f, j) || (Last(f, i) == Last(f, j) && i < j)
  }

  ghost predicate Sorted(f: Fleet, order: seq<nat>)
    requires forall k :: 0 <= k < |order| ==> order[k] < |f.devices|
  {
    forall a, b :: 0 <= a < b < |order| ==> Ahead(f, order[a], order[b])
  }

  lemma {:induction false} InsertHas(f: Fleet, order: seq<nat>, i: nat, x: nat)
    requires i < |f.devices| && forall k :: 0 <= k < |order| ==> order[k] < i
    ensures x in Insert(f, order, i) <==> x in order || x == i
  {
    hide Last;
    if order != [] {
      var n := |order| - 1;
      InsertHas(f, order[..n], i, x);
      assert order == order[..n] + [order[n]];
    }
  }

  lemma {:induction false} InsertMeans(f: Fleet, order: seq<nat>, i: nat)
    requires i < |f.devices| && (forall k :: 0 <= k < |order| ==> order[k] < i) && Sorted(f, order)
    ensures Sorted(f, Insert(f, order, i))
    ensures forall x :: x in Insert(f, order, i) <==> x in order || x == i
  {
    forall x
      ensures x in Insert(f, order, i) <==> x in order || x == i
    {
      InsertHas(f, order, i, x);
    }
    if order != [] && Last(f, order[|order| - 1]) > Last(f, i) {
      InsertBefore(f, order, i);
    }
  }

  /** The new element goes somewhere before the last. */
  lemma InsertBefore(f: Fleet, order: seq<nat>, i: nat)
    requires i < |f.devices| && (forall k :: 0 <= k < |order| ==> order[k] < i) && Sorted(f, order)
    requires order != [] && Last(f, order[|order| - 1]) > Last(f, i)
    ensures Sorted(f, Insert(f, order, i))
    decreases |order|, 0
  {
    var n := |order| - 1;
    var rest := order[..n];
    if rest != [] && Last(f, rest[n - 1]) > Last(f, i) {
      InsertBefore(f, rest, i);
    }
    var front := Insert(f, rest, i);
    forall a | 0 <= a < |front|
      ensures Ahead(f, front[a], order[n])
    {
      InsertHas(f, rest, i, front[a]);
      if front[a] != i {
        var b :| 0 <= b < n && rest[b] == front[a];
        assert order[b] == front[a];
      }
    }
  }

  ghost predicate DueOnly(f: Fleet, order: seq<nat>, n: nat, now: Time)
    requires n <= |f.devices|
  {
    && (forall k :: 0 <= k < |order| ==> order[k] < n)
    && Sorted(f, order)
    && (forall i: nat :: i in order <==> i < n && IsDue(f, i, now))
  }

  lemma InsertDue(f: Fleet, order: seq<nat>, i: nat, now: Time)
    requires i < |f.devices| && DueOnly(f, order, i, now) && IsDue(f, i, now)
    ensures DueOnly(f, Insert(f, order, i), i + 1, now)
  {
    hide Insert, IsDue, Last, Sorted;
    InsertMeans(f, order, i);
    var more := Insert(f, order, i);
    forall k | 0 <= k < |more|
      ensures more[k] < i + 1
    {
      assert more[k] in more;
    }
  }

  lemma NotDue(f: Fleet, order: seq<nat>, i: nat, now: Time)
    requires i < |f.devices| && DueOnly(f, order, i, now) && !IsDue(f, i, now)
    ensures DueOnly(f, order, i + 1, now)
  {
    hide IsDue, Sorted;
  }

  lemma NothingYet(f: Fleet, now: Time)
    ensures DueOnly(f, [], 0, now)
  {
  }

  lemma {:induction false} DueUpToMeans(f: Fleet, n: nat, now: Time)
    requires n <= |f.devices|
    ensures DueOnly(f, DueUpTo(f, n, now), n, now)
  {
    hide DueOnly, IsDue, Insert;
    if n == 0 {
      NothingYet(f, now);
    } else {
      var order := DueUpTo(f, n - 1, now);
      DueUpToMeans(f, n - 1, now);
      if IsDue(f, n - 1, now) {
        InsertDue(f, order, n - 1, now);
      } else {
        NotDue(f, order, n - 1, now);
      }
    }
  }

  /** `due_devices`: exactly the devices whose interval has passed, each once, strictly ordered
      by (last read, configuration order). */
  lemma DueMeans(f: Fleet, now: Time)
    ensures Sorted(f, Due(f, now))
    ensures forall i: nat :: i in Due(f, now) <==> i < |f.devices| && now - Last(f, i) >= Pause(f.devices[i]) as real
    ensures forall a, b :: 0 <= a < b < |Due(f, now)| ==> Due(f, now)[a] != Due(f, now)[b]
  {
    DueUpToMeans(f, |f.devices|, now);
  }

  // ---------------------------------------------------------------- accounting of one cycle

  function Mark(lastRead: map<Code, Time>, codes: set<Code>, now: Time): map<Code, Time> {
    map c | c in lastRead.Keys + codes :: if c in codes then now else lastRead[c]
  }

  /** One look at the futures: which have finished, which have started and when, and the clock. */
  datatype Look = Look(finished: set<Code>, started: map<Code, Time>, now: Time)

  /** What became of the futures of one parallel cycle. */
  datatype Classes = Classes(done: set<Code>, timedOut: set<Code>, left: set<Code>)

  function Codes(due: seq<Device>): set<Code> {
    set d | d in due :: d.code
  }

  function Late(pending: set<Code>, look: Look, timeout: Time): set<Code> {
    if timeout > 0.0 then set c | c in pending && c in look.started && look.now - look.started[c] >= timeout else {}
  }

  function Observe(k: Classes, look: Look, timeout: Time): Classes {
    var left := k.left - look.finished;
    var late := Late(left, look, timeout);
    Classes(k.done + (k.left * look.finished), k.timedOut + late, left - late)
  }

  /** The looks end with the cycle deadline, a stop request or an empty pending set. */
  function ObserveAll(codes: set<Code>, looks: seq<Look>, timeout: Time): Classes {
    if looks == [] then Classes({}, {}, codes)
    else Observe(ObserveAll(codes, looks[..|looks| - 1], timeout), looks[|looks| - 1], timeout)
  }

  /** Everything that has been started by the end of the cycle; the clock of the futures only
      moves forward and what has finished was started. */
  ghost predicate Consistent(looks: seq<Look>, started: set<Code>) {
    forall i :: 0 <= i < |looks| ==> looks[i].finished <= started && looks[i].started.Keys <= started
  }

  lemma {:induction false} ClassesPartition(codes: set<Code>, looks: seq<Look>, timeout: Time, started: set<Code>)
    requires Consistent(looks, started)
    ensures var k := ObserveAll(codes, looks, timeout);
            && k.done + k.timedOut + k.left == codes
            && k.done !! k.timedOut && k.done !! k.left && k.timedOut !! k.left
            && k.done <= started && k.timedOut <= started
  {
    if looks != [] {
      ClassesPartition(codes, looks[..|looks| - 1], timeout, started);
    }
  }

  /** Unfinished so far, and by now running for at least the timeout, if there is one. */
  ghost predicate OverdueAt(looks: seq<Look>, i: nat, c: Code, timeout: Time)
    requires i < |looks|
  {
    && timeout > 0.0 && c in looks[i].started && looks[i].now - looks[i].started[c] >= timeout
    && forall j :: 0 <= j <= i ==> c !in looks[j].finished
  }

  /** What becomes of a due device, look by look: it is given up iff some look finds its poll
      unfinished after a positive timeout, left iff no look finds it finished or that late, and
      done iff some look finds it finished that none before gave up. */
  lemma {:induction false} OutcomeIff(codes: set<Code>, looks: seq<Look>, timeout: Time, c: Code)
    requires c in codes
    ensures var k := ObserveAll(codes, looks, timeout);
            && (c in k.done || c in k.timedOut || c in k.left)
            && (c in k.timedOut <==> exists i :: 0 <= i < |looks| && OverdueAt(looks, i, c, timeout))
            && (c in k.left <==> forall i :: 0 <= i < |looks| ==>
                  c !in looks[i].finished && !OverdueAt(looks, i, c, timeout))
            && (c in k.done <==> exists i :: 0 <= i < |looks| && c in looks[i].finished
                                             && forall j :: 0 <= j < i ==> !OverdueAt(looks, j, c, timeout))
  {
    if looks != [] {
      var n := |looks| - 1;
      var before := looks[..n];
      OutcomeIff(codes, before, timeout, c);
      forall i | 0 <= i < n
        ensures OverdueAt(before, i, c, timeout) <==> OverdueAt(looks, i, c, timeout)
      {
        assert forall j :: 0 <= j <= i ==> before[j] == looks[j];
      }
      assert forall j :: 0 <= j < n ==> before[j] == looks[j];
      var k := ObserveAll(codes, before, timeout);
      if OverdueAt(looks, n, c, timeout) {
        assert c !in k.done;
      }
    }
  }

  class PollCycle {
    var fleet: Fleet

    constructor (devices: seq<Device>)
      ensures fleet == Fleet(devices, map[])
    {
      fleet := Fleet(devices, map[]);
    }

    method MarkRead(code: Code, now: Time)
      modifies this
      ensures fleet == Fleet(old(fleet).devices, Mark(old(fleet).lastRead, {code}, now))
    {
      fleet := fleet.(lastRead := fleet.lastRead[code := now]);
      assert fleet.lastRead == Mark(old(fleet).lastRead, {code}, now);
    }

    /** The loop over pending futures after each look. */
    method Expire(due: seq<Device>, pending: set<Code>, look: Look, timeout: Time, now: Time) returns (late: set<Code>)
      requires pending <= Codes(due)
      modifies this
      ensures late == Late(pending, look, timeout)
      ensures fleet == Fleet(old(fleet).devices, Mark(old(fleet).lastRead, late, now))
    {
      hide Mark;
      late := {};
      MarkNone(fleet.lastRead, now);
      if timeout > 0.0 {
        for i := 0 to |due|
          invariant late == Late(pending, look, timeout) * Codes(due[..i])
          invariant fleet == Fleet(old(fleet).devices, Mark(old(fleet).lastRead, late, now))
        {
          var c := due[i].code;
          assert Codes(due[..i + 1]) == Codes(due[..i]) + {c};
          if c in pending && c in look.started && look.now - look.started[c] >= timeout {
            MarkTwice(old(fleet).lastRead, late, {c}, now);
            MarkRead(c, now);
            late := late + {c};
          }
        }
        assert due[..|due|] == due;
      }
    }

    /** The parallel path. A due device counts as read exactly if its poll was started. */
    method RunParallel(due: seq<Device>, looks: seq<Look>, timeout: Time, started: set<Code>, now: Time)
      returns (classes: Classes)
      requires Consistent(looks, started)
      modifies this
      ensures classes == ObserveAll(Codes(due), looks, timeout)
      ensures fleet == Fleet(old(fleet).devices, Mark(old(fleet).lastRead, Codes(due) * started, now))
    {
      classes := Classes({}, {}, Codes(due));
      assert fleet.lastRead == Mark(fleet.lastRead, {}, now);
      for i := 0 to |looks|
        invariant classes == ObserveAll(Codes(due), looks[..i], timeout)
        invariant classes.left <= Codes(due)
        invariant fleet == Fleet(old(fleet).devices, Mark(old(fleet).lastRead, classes.timedOut, now))
      {
        assert looks[..i + 1][..i] == looks[..i];
        var left := classes.left - looks[i].finished;
        var late := Expire(due, left, looks[i], timeout, now);
        MarkTwice(old(fleet).lastRead, classes.timedOut, late, now);
        classes := Classes(classes.done + (classes.left * looks[i].finished), classes.timedOut + late, left - late);
      }
      assert looks[..|looks|] == looks;
      ClassesPartition(Codes(due), looks, timeout, started);
      var marked := MarkStarted(due, classes, started, now);
      MarkTwice(old(fleet).lastRead, classes.timedOut, marked, now);
      assert classes.timedOut + marked == Codes(due) * started;
    }

    /** The two final loops: all finished futures, then the unfinished ones that had started. */
    method MarkStarted(due: seq<Device>, classes: Classes, started: set<Code>, now: Time) returns (marked: set<Code>)
      requires classes.done + classes.left <= Codes(due)
      modifies this
      ensures marked == classes.done + (classes.left * started)
      ensures fleet == Fleet(old(fleet).devices, Mark(old(fleet).lastRead, marked, now))
    {
      marked := {};
      assert fleet.lastRead == Mark(fleet.lastRead, {}, now);
      for i := 0 to |due|
        invariant marked == (classes.done + (classes.left * started)) * Codes(due[..i])
        invariant fleet == Fleet(old(fleet).devices, Mark(old(fleet).lastRead, marked, now))
      {
        var c := due[i].code;
        assert Codes(due[..i + 1]) == Codes(due[..i]) + {c};
        if c in classes.done || (c in classes.left && c in started) {
          MarkTwice(old(fleet).lastRead, marked, {c}, now);
          MarkRead(c, now);
          marked := marked + {c};
        }
      }
      assert due[..|due|] == due;
    }

    /** The serial path: `stopAt` is the first position at which a stop request is seen, and
        `fullAt` the first poll that finds the outbox full; that device still counts as read. */
    method RunSerial(due: seq<Device>, stopAt: nat, fullAt: nat, now: Time) returns (polled: nat)
      modifies this
      ensures polled <= |due| && polled <= stopAt && polled <= fullAt + 1
      ensures polled == |due| || polled == stopAt || polled == fullAt + 1
      ensures fleet == Fleet(old(fleet).devices, Mark(old(fleet).lastRead, Codes(due[..polled]), now))
    {
      polled := 0;
      assert fleet.lastRead == Mark(fleet.lastRead, {}, now);
      assert Codes(due[..0]) == {};
      while polled < |due|
        invariant polled <= |due| && polled <= stopAt && polled <= fullAt
        invariant fleet == Fleet(old(fleet).devices, Mark(old(fleet).lastRead, Codes(due[..polled]), now))
      {
        if polled == stopAt {
          return;
        }
        var c := due[polled].code;
        assert Codes(due[..polled + 1]) == Codes(due[..polled]) + {c};
        MarkTwice(old(fleet).lastRead, Codes(due[..polled]), {c}, now);
        MarkRead(c, now);
        polled := polled + 1;
        if polled == fullAt + 1 {
          return;
        }
      }
    }
  }

  lemma MarkNone(lastRead: map<Code, Time>, now: Time)
    ensures Mark(lastRead, {}, now) == lastRead
  {
  }

  lemma MarkTwice(lastRead: map<Code, Time>, a: set<Code>, b: set<Code>, now: Time)
    ensures Mark(Mark(lastRead, a, now), b, now) == Mark(lastRead, a + b, now)
  {
  }

  // ---------------------------------------------------------------- no starvation

  /** One cycle: its clock and the devices whose poll it started. */
  datatype Cycle = Cycle(now: Time, started: set<Code>)

  function After(f: Fleet, cycles: seq<Cycle>): Fleet {
    if cycles == [] then f
    else
      var g := After(f, cycles[..|cycles| - 1]);
      var c := cycles[|cycles| - 1];
      Fleet(g.devices, Mark(g.lastRead, c.started * DueCodes(g, c.now), c.now))
  }

  function DueCodes(f: Fleet, now: Time): set<Code> {
    set i | i in Due(f, now) :: f.devices[i].code
  }

  /** When the last cycle that started this device's poll ran; what counted before if none did. */
  function ReadAt(f: Fleet, cycles: seq<Cycle>, d: nat): Time
    requires d < |f.devices|
  {
    if cycles == [] then Last(f, d)
    else
      var n := |cycles| - 1;
      var before := ReadAt(f, cycles[..n], d);
      if f.devices[d].code in cycles[n].started && cycles[n].now - before >= Pause(f.devices[d]) as real
      then cycles[n].now
      else before
  }

  lemma {:induction false} LastIsReadAt(f: Fleet, cycles: seq<Cycle>, d: nat)
    requires DistinctCodes(f.devices) && d < |f.devices|
    ensures After(f, cycles).devices == f.devices && Last(After(f, cycles), d) == ReadAt(f, cycles, d)
  {
    if cycles != [] {
      hide Due;
      var n := |cycles| - 1;
      var g := After(f, cycles[..n]);
      LastIsReadAt(f, cycles[..n], d);
      DueMeans(g, cycles[n].now);
      assert f.devices[d].code in DueCodes(g, cycles[n].now) <==> d in Due(g, cycles[n].now);
    }
  }

  /** After any cycles a device is due exactly if its interval has passed since the last cycle that
      started its poll. */
  lemma DueIff(f: Fleet, cycles: seq<Cycle>, d: nat, now: Time)
    requires DistinctCodes(f.devices) && d < |f.devices|
    ensures d in Due(After(f, cycles), now) <==>
              now - ReadAt(f, cycles, d) >= (if f.devices[d].interval > 1 then f.devices[d].interval else 1) as real
  {
    LastIsReadAt(f, cycles, d);
    DueMeans(After(f, cycles), now);
  }

  /** The first w due devices, or all of them, are started. */
  ghost predicate FrontStarted(f: Fleet, c: Cycle, w: nat) {
    forall k :: 0 <= k < w && k < |Due(f, c.now)| ==> f.devices[Due(f, c.now)[k]].code in c.started
  }

  /** The clock does not run backwards, and every cycle has room for w devices. */
  ghost predicate Served(f: Fleet, cycles: seq<Cycle>, w: nat, from: Time) {
    && (forall i :: 0 <= i < |cycles| ==> cycles[i].now >= from)
    && (forall i, j :: 0 <= i < j < |cycles| ==> cycles[i].now <= cycles[j].now)
    && (forall i :: 0 <= i < |cycles| ==> FrontStarted(After(f, cycles[..i]), cycles[i], w))
  }

  ghost function AheadOf(f: Fleet, d: nat): set<nat>
    requires d < |f.devices|
  {
    set i: nat | i < |f.devices| && Ahead(f, i, d)
  }

  lemma DueRank(f: Fleet, now: Time, d: nat, k: nat)
    requires d < |f.devices| && k < |Due(f, now)| && Due(f, now)[k] == d
    ensures forall a :: 0 <= a < k ==> Due(f, now)[a] in AheadOf(f, d)
  {
    DueMeans(f, now);
  }

  function Front(order: seq<nat>, w: nat): set<nat> {
    set k | 0 <= k < w && k < |order| :: order[k]
  }

  lemma {:induction false} FrontSize(order: seq<nat>, w: nat)
    requires w <= |order| && forall a, b :: 0 <= a < b < |order| ==> order[a] != order[b]
    ensures |Front(order, w)| == w
  {
    if w == 0 {
      assert Front(order, 0) == {};
    } else {
      FrontSize(order, w - 1);
      assert Front(order, w) == Front(order, w - 1) + {order[w - 1]};
      assert order[w - 1] !in Front(order, w - 1);
    }
  }

  /** A cycle that passes over a due device puts at least w devices behind it and none ahead. */
  lemma AheadShrinks(f: Fleet, c: Cycle, w: nat, d: nat)
    requires DistinctCodes(f.devices) && d < |f.devices| && IsDue(f, d, c.now)
    requires f.devices[d].code !in c.started && FrontStarted(f, c, w)
    ensures var g := Fleet(f.devices, Mark(f.lastRead, c.started * DueCodes(f, c.now), c.now));
            Last(g, d) == Last(f, d) && |AheadOf(g, d)| + w <= |AheadOf(f, d)|
  {
    var order := Due(f, c.now);
    DueMeans(f, c.now);
    assert d in order;
    var k :| 0 <= k < |order| && order[k] == d;
    DueRank(f, c.now, d, k);
    assert w <= k;
    FrontSize(order, w);
    var g := Fleet(f.devices, Mark(f.lastRead, c.started * DueCodes(f, c.now), c.now));
    PassedOver(f, c, w, d);
    assert Front(order, w) <= AheadOf(f, d);
    Disjoint(AheadOf(g, d), Front(order, w), AheadOf(f, d));
  }

  lemma Disjoint(a: set<nat>, b: set<nat>, c: set<nat>)
    requires a <= c && b <= c && a !! b
    ensures |a| + |b| <= |c|
  {
    assert |a + b| == |a| + |b|;
    Subset(a + b, c);
  }

  lemma Subset(a: set<nat>, b: set<nat>)
    requires a <= b
    ensures |a| <= |b|
  {
    assert |b - a| + |a| == |b|;
  }

  lemma PassedOver(f: Fleet, c: Cycle, w: nat, d: nat)
    requires DistinctCodes(f.devices) && d < |f.devices| && IsDue(f, d, c.now)
    requires f.devices[d].code !in c.started && FrontStarted(f, c, w) && w <= |Due(f, c.now)|
    ensures var g := Fleet(f.devices, Mark(f.lastRead, c.started * DueCodes(f, c.now), c.now));
            && Last(g, d) == Last(f, d)
            && AheadOf(g, d) <= AheadOf(f, d) && AheadOf(g, d) !! Front(Due(f, c.now), w)
  {
  }

  lemma ServedPrefix(f: Fleet, cycles: seq<Cycle>, w: nat, from: Time)
    requires Served(f, cycles, w, from) && cycles != []
    ensures var n := |cycles| - 1;
            && Served(f, cycles[..n], w, from)
            && cycles[n].now >= from && FrontStarted(After(f, cycles[..n]), cycles[n], w)
  {
    hide FrontStarted, After;
    var n := |cycles| - 1;
    assert forall i :: 0 <= i <= n ==> cycles[..n][..i] == cycles[..i];
  }

  lemma {:induction false} WaitsCost(f: Fleet, cycles: seq<Cycle>, w: nat, d: nat, from: Time)
    requires DistinctCodes(f.devices) && d < |f.devices| && IsDue(f, d, from)
    requires Served(f, cycles, w, from)
    requires forall i :: 0 <= i < |cycles| ==> f.devices[d].code !in cycles[i].started
    ensures After(f, cycles).devices == f.devices && Last(After(f, cycles), d) == Last(f, d)
    ensures |AheadOf(After(f, cycles), d)| + |cycles| * w <= |AheadOf(f, d)|
  {
    if cycles != [] {
      hide AheadOf, Due, DueCodes, Mark, FrontStarted, Served, DistinctCodes, LastOf;
      var n := |cycles| - 1;
      ServedPrefix(f, cycles, w, from);
      WaitsCost(f, cycles[..n], w, d, from);
      AheadShrinks(After(f, cycles[..n]), cycles[n], w, d);
      MoreCost(n, w);
    }
  }

  lemma MoreCost(n: nat, w: nat)
    ensures (n + 1) * w == n * w + w
  {
  }

  /** A fixed fleet whose cycles each start at least the first w due devices: a due device with
      `a` devices ahead of it in (last read, configuration order) is started within a / w + 1
      cycles. */
  lemma ServedWithin(f: Fleet, cycles: seq<Cycle>, w: nat, d: nat, from: Time)
    requires DistinctCodes(f.devices) && d < |f.devices| && IsDue(f, d, from)
    requires w >= 1 && Served(f, cycles, w, from)
    requires |cycles| >= |AheadOf(f, d)| / w + 1
    ensures exists i :: 0 <= i <= |AheadOf(f, d)| / w && f.devices[d].code in cycles[i].started
  {
    hide AheadOf, After, FrontStarted, IsDue, DistinctCodes, Served;
    var m := |AheadOf(f, d)| / w + 1;
    Quotient(|AheadOf(f, d)|, w);
    ServedUpTo(f, cycles, m, w, from);
    if forall i :: 0 <= i < m ==> f.devices[d].code !in cycles[i].started {
      WaitsCost(f, cycles[..m], w, d, from);
    }
  }

  lemma ServedUpTo(f: Fleet, cycles: seq<Cycle>, m: nat, w: nat, from: Time)
    requires Served(f, cycles, w, from) && m <= |cycles|
    ensures Served(f, cycles[..m], w, from)
  {
    hide FrontStarted, After;
    assert forall i :: 0 <= i < m ==> cycles[..m][..i] == cycles[..i];
  }

  lemma Quotient(a: nat, w: nat)
    requires w >= 1
    ensures (a / w + 1) * w > a
  {
  }
}
