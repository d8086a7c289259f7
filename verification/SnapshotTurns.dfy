/** When a turn of the health publisher is a full snapshot, told from the run: what was requested,
    restarted and completed, and when. */
module SnapshotTurns {
  import opened Wrappers
  import opened HealthWire
  import opened HealthPublishers
  import opened Replication

  /** The last batch of a snapshot turn is acknowledged. */
  predicate EndsSnapshot(s: Sys, move: Move) {
    move.Tried? && move.fate.Arrived? && LastBatch(s) && s.turn.value.snapshot
  }

  /** A snapshot is asked for, by a request or because the publisher starts again. */
  predicate AsksSnapshot(s: Sys, move: Move) {
    move.Requested? || (move.Restarted? && move.boot > s.pub.boot)
  }

  /** When the last successful snapshot ended, unless there was none or one has been asked for
      since. */
  function SettledAt(s: Sys, trace: seq<Move>): Option<Time>
    requires s.pub.batchMax >= 1
  {
    if trace == [] then None
    else
      var n := |trace| - 1;
      var before := Run(s, trace[..n]);
      if EndsSnapshot(before, trace[n]) then Some(trace[n].now)
      else if AsksSnapshot(before, trace[n]) then None
      else SettledAt(s, trace[..n])
  }

  /** Clock readings are positive. */
  ghost predicate Clocked(trace: seq<Move>) {
    forall i :: 0 <= i < |trace| && trace[i].Tried? ==> trace[i].now > 0.0
  }

  ghost predicate Remembers(p: Publisher, settled: Option<Time>, interval: Time) {
    && p.interval == interval >= 10.0
    && match settled
       case None => p.needed || p.lastAt == 0.0
       case Some(end) => !p.needed && p.lastAt == end > 0.0
  }

  lemma NextRemembers(s: Sys, move: Move, settled: Option<Time>, interval: Time)
    requires s.pub.batchMax >= 1 && Remembers(s.pub, settled, interval)
    requires move.Tried? ==> move.now > 0.0
    ensures Remembers(Next(s, move).pub,
                      if EndsSnapshot(s, move) then Some(move.now)
                      else if AsksSnapshot(s, move) then None
                      else settled,
                      interval)
  {
    hide Note, Receive, Selected, Table, Parts;
  }

  lemma {:induction false} RunRemembers(s: Sys, trace: seq<Move>, interval: Time)
    requires s.pub.batchMax >= 1 && Remembers(s.pub, None, interval) && Clocked(trace)
    ensures Remembers(Run(s, trace).pub, SettledAt(s, trace), interval)
  {
    if trace != [] {
      hide Next, Remembers, EndsSnapshot, AsksSnapshot;
      var n := |trace| - 1;
      RunRemembers(s, trace[..n], interval);
      NextRemembers(Run(s, trace[..n]), trace[n], SettledAt(s, trace[..n]), interval);
    }
  }

  /** The configured interval, but at least ten seconds. */
  function Period(interval: Time): Time {
    if interval < 10.0 then 10.0 else interval
  }

  /** The start, a request or a restart has not been answered by a snapshot yet, or the last one
      ended a period ago. */
  predicate Owed(settled: Option<Time>, interval: Time, now: Time) {
    settled.None? || now - settled.value >= Period(interval)
  }

  /** A turn that sends is a snapshot exactly if one is owed; if one is owed and some record can be
      built, the turn does send. */
  lemma SnapshotIffOwed(boot: nat, batchMax: int, interval: Time, trace: seq<Move>, rows: seq<Row>, now: Time)
    requires Clocked(trace) && Run(Fresh(boot, batchMax, interval), trace).turn.None?
    ensures var s0 := Fresh(boot, batchMax, interval);
            var t := Next(Run(s0, trace), Begun(rows, now));
            var owed := Owed(SettledAt(s0, trace), interval, now);
            && (t.turn.Some? ==> (t.turn.value.snapshot <==> owed))
            && (owed ==> (t.turn.Some? <==> RecordTable(rows) != map[]))
  {
    var s0 := Fresh(boot, batchMax, interval);
    RunRemembers(s0, trace, Period(interval));
    SelectedIsTable(Run(s0, trace).pub, rows);
  }

  // ---------------------------------------------------------------- what an owed turn brings about

  lemma {:induction false} RunConcat(s: Sys, a: seq<Move>, b: seq<Move>)
    requires s.pub.batchMax >= 1
    ensures Run(s, a + b) == Run(Run(s, a), b)
  {
    hide Next;
    if b == [] {
      assert a + b == a;
    } else {
      var n := |b| - 1;
      assert (a + b)[..|a| + n] == a + b[..n];
      RunConcat(s, a, b[..n]);
    }
  }

  /** While no other turn begins, a turn under way is the one that was begun. */
  ghost predicate SameTurn(m: Sys, s: Sys) {
    s.turn.Some? ==> m.turn.Some? && s.turn.value.snapshot == m.turn.value.snapshot && s.read == m.read
  }

  lemma {:induction false} TurnStays(m: Sys, after: seq<Move>)
    requires m.pub.batchMax >= 1
    requires forall i :: 0 <= i < |after| ==> !after[i].Begun?
    ensures SameTurn(m, Run(m, after))
  {
    if after != [] {
      hide Receive, Note;
      TurnStays(m, after[..|after| - 1]);
    }
  }

  /** However the network behaves meanwhile: when the turn that an owed snapshot started ends well,
      the receiver holds exactly the table read at its beginning. */
  lemma OwedTurnReconciles(boot: nat, batchMax: int, interval: Time, before: seq<Move>, rows: seq<Row>, now: Time,
                           after: seq<Move>, end: Time)
    requires Clocked(before) && Run(Fresh(boot, batchMax, interval), before).turn.None?
    requires Owed(SettledAt(Fresh(boot, batchMax, interval), before), interval, now)
    requires forall i :: 0 <= i < |after| ==> !after[i].Begun?
    requires LastBatch(Run(Next(Run(Fresh(boot, batchMax, interval), before), Begun(rows, now)), after))
    ensures var s := Run(Next(Run(Fresh(boot, batchMax, interval), before), Begun(rows, now)), after);
            Next(s, Tried(Arrived, end)).recv.rows == RecordTable(rows)
  {
    hide Next;
    var s0 := Fresh(boot, batchMax, interval);
    var m := Next(Run(s0, before), Begun(rows, now));
    SnapshotIffOwed(boot, batchMax, interval, before, rows, now);
    assert m.read == rows by { ReadIs(Run(s0, before), rows, now); }
    BatchStays(Run(s0, before), rows, now);
    TurnStays(m, after);
    var trace := (before + [Begun(rows, now)]) + after;
    assert (before + [Begun(rows, now)])[..|before|] == before;
    RunConcat(s0, before + [Begun(rows, now)], after);
    SnapshotReconciles(boot, batchMax, interval, trace, end);
  }

  lemma ReadIs(s: Sys, rows: seq<Row>, now: Time)
    requires s.pub.batchMax >= 1 && s.turn.None?
    ensures Next(s, Begun(rows, now)).read == rows
  {
  }

  lemma BatchStays(s: Sys, rows: seq<Row>, now: Time)
    requires s.pub.batchMax >= 1
    ensures Next(s, Begun(rows, now)).pub.batchMax >= 1
  {
  }
}
