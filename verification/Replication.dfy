/** Device health replicated over a lossy channel: a publisher, a network that may lose, delay
    or repeat envelopes, and a receiver that follows the wire contract. Kept beside them: the batches
    of every snapshot begun (`history`), the rows read by the last turn (`read`) and the
    signatures of the records acknowledged so far (`acked`). */
module Replication {
  import opened Wrappers
  import opened HealthWire
  import opened HealthPublishers

  /** `Unsure`: the send raised, yet the envelope may still arrive. */
  datatype Fate = Arrived | Lost | Unsure

  datatype Sys = Sys(
    pub: Publisher,
    turn: Option<Turn>,
    recv: Receiver,
    pool: set<Envelope>,
    history: map<Id, seq<seq<Device>>>,
    read: seq<Row>,
    acked: map<Code, Signature>)

  datatype Move =
    | Begun(rows: seq<Row>, now: Time)
    | Tried(fate: Fate, now: Time)
    | Delivered(envelope: Envelope)
    | Requested
    | Restarted(boot: nat)

  function Fresh(boot: nat, batchMax: int, interval: Time): Sys {
    Sys(NewPublisher(boot, batchMax, interval), None, EMPTY_RECEIVER, {}, map[], [], map[])
  }

  function BeginTurn(s: Sys, rows: seq<Row>, now: Time): Sys
    requires s.pub.batchMax >= 1
  {
    var b := Begin(s.pub, rows, now);
    s.(pub := b.0, turn := b.1, read := rows,
       history := if b.1.Some? && b.1.value.snapshot then s.history[Id(b.0.boot, b.1.value.n) := b.1.value.parts]
                else s.history)
  }

  function Try(s: Sys, fate: Fate, now: Time): Sys
    requires s.turn.Some? && s.turn.value.index < |s.turn.value.parts|
  {
    var t := s.turn.value;
    var r := SendNext(s.pub, t, fate.Arrived?, now);
    var n := s.(pub := r.pub, turn := r.turn, pool := if fate.Lost? then s.pool else s.pool + {r.envelope});
    if fate.Arrived? then n.(recv := Receive(s.recv, r.envelope), acked := Note(s.acked, t.parts[t.index])) else n
  }

  function Next(s: Sys, move: Move): Sys
    requires s.pub.batchMax >= 1
  {
    match move
    case Begun(rows, now) => if s.turn.Some? then s else BeginTurn(s, rows, now)
    case Tried(fate, now) =>
      if s.turn.Some? && s.turn.value.index < |s.turn.value.parts| then Try(s, fate, now) else s
    case Delivered(e) => if e in s.pool then s.(recv := Receive(s.recv, e)) else s
    case Requested => s.(pub := s.pub.(needed := true))
    case Restarted(boot) =>
      if boot > s.pub.boot then s.(pub := NewPublisher(boot, s.pub.batchMax, s.pub.interval), turn := None) else s
  }

  // ---------------------------------------------------------------- the invariant

  ghost predicate NotAfter(s: Sys, m: Mark) {
    !Newer(m, Mark(s.pub.boot, s.pub.sequence))
  }

  /** An envelope carries a batch of the snapshot it names. */
  ghost predicate Genuine(s: Sys, e: Envelope) {
    e.part.Some? ==>
      var p := e.part.value;
      && p.id in s.history && p.count == |s.history[p.id]|
      && p.index < p.count && e.devices == s.history[p.id][p.index]
  }

  ghost predicate PendingOk(s: Sys, p: Partial) {
    && p.id in s.history && p.count == |s.history[p.id]|
    && (forall i :: i in p.got ==> i < p.count && p.got[i] == s.history[p.id][i])
  }

  ghost predicate Known(s: Sys, id: Id) {
    id.boot < s.pub.boot || (id.boot == s.pub.boot && id.n <= s.pub.snapshots)
  }

  /** While a snapshot is being sent the receiver holds exactly its batches so far. */
  ghost predicate SnapshotOk(s: Sys, t: Turn) {
    var id := Id(s.pub.boot, t.n);
    && t.n == s.pub.snapshots
    && id in s.history && s.history[id] == t.parts
    && (if t.index == 0 then
          && (forall e :: e in s.pool && e.part.Some? ==> e.part.value.id != id)
          && (s.recv.pending.Some? ==> s.recv.pending.value.id != id)
        else
          && s.recv.last == Mark(s.pub.boot, s.pub.sequence)
          && s.recv.pending.Some? && s.recv.pending.value.id == id
          && (forall i: nat :: i in s.recv.pending.value.got <==> i < t.index))
  }

  ghost predicate Inv(s: Sys) {
    && s.pub.batchMax >= 1
    && NotAfter(s, s.recv.last)
    && (forall e :: e in s.pool ==> NotAfter(s, e.mark) && Genuine(s, e))
    && (forall id :: id in s.history ==> Known(s, id))
    && (s.recv.pending.Some? ==> PendingOk(s, s.recv.pending.value))
    && (s.turn.Some? ==> s.turn.value.index < |s.turn.value.parts|)
    && (s.turn.Some? && s.turn.value.snapshot ==> SnapshotOk(s, s.turn.value))
  }

  /** The parts of Inv that a send which does not reach the receiver touches. */
  lemma UnheardInv(s: Sys, fate: Fate, now: Time)
    requires Inv(s) && s.turn.Some? && !fate.Arrived?
    ensures Inv(Try(s, fate, now))
  {
  }

  lemma HeardReceiver(s: Sys)
    requires Inv(s) && s.turn.Some? && s.turn.value.snapshot
    ensures var t := s.turn.value;
            var r := Receive(s.recv, EnvelopeOf(s.pub, t));
            var id := Id(s.pub.boot, t.n);
            && r.last == Mark(s.pub.boot, s.pub.sequence + 1)
            && (if t.index + 1 < |t.parts| then
                  && r.rows == s.recv.rows
                  && r.pending.Some? && PendingOk(s, r.pending.value) && r.pending.value.id == id
                  && (forall i: nat :: i in r.pending.value.got <==> i < t.index + 1)
                else r.pending.None? && r.rows == Apply(map[], Join(t.parts)))
  {
    hide Join, Apply;
    var t := s.turn.value;
    var e := EnvelopeOf(s.pub, t);
    var p := Continue(s.recv, e.part.value);
    var q := p.(got := p.got[t.index := e.devices]);
    assert Newer(e.mark, s.recv.last);
    assert PendingOk(s, q);
    assert forall i: nat :: i in q.got <==> i < t.index + 1;
    if t.index + 1 < |t.parts| {
      assert t.index + 1 !in q.got;
    } else {
      assert Collected(q.got, q.count) == t.parts;
    }
  }

  lemma HeardInv(s: Sys, now: Time)
    requires Inv(s) && s.turn.Some?
    ensures Inv(Try(s, Arrived, now))
  {
    hide Note, Join, Apply, Receive;
    var t := Try(s, Arrived, now);
    var e := EnvelopeOf(s.pub, s.turn.value);
    assert Genuine(t, e);
    forall x | x in s.pool
      ensures NotAfter(t, x.mark) && Genuine(t, x)
    {
      assert NotAfter(s, x.mark) && Genuine(s, x);
    }
    if s.turn.value.snapshot {
      HeardReceiver(s);
    } else {
      DeltaHeard(s);
    }
  }

  lemma DeltaHeard(s: Sys)
    requires Inv(s) && s.turn.Some? && !s.turn.value.snapshot
    ensures Receive(s.recv, EnvelopeOf(s.pub, s.turn.value)) ==
            Receiver(Mark(s.pub.boot, s.pub.sequence + 1), Apply(s.recv.rows, s.turn.value.parts[s.turn.value.index]),
                     s.recv.pending)
  {
  }

  lemma NextInv(s: Sys, move: Move)
    requires Inv(s)
    ensures Inv(Next(s, move))
  {
    match move
    case Begun(rows, now) =>
    case Tried(fate, now) =>
      if s.turn.Some? {
        if fate.Arrived? {
          HeardInv(s, now);
        } else {
          UnheardInv(s, fate, now);
        }
      }
    case Delivered(e) =>
    case Requested =>
    case Restarted(boot) =>
  }

  // ---------------------------------------------------------------- runs

  function Run(s: Sys, trace: seq<Move>): Sys
    requires s.pub.batchMax >= 1
    ensures Run(s, trace).pub.batchMax >= 1
  {
    if trace == [] then s else Next(Run(s, trace[..|trace| - 1]), trace[|trace| - 1])
  }

  lemma {:induction false} RunInv(s: Sys, trace: seq<Move>)
    requires Inv(s)
    ensures Inv(Run(s, trace))
  {
    if trace != [] {
      RunInv(s, trace[..|trace| - 1]);
      NextInv(Run(s, trace[..|trace| - 1]), trace[|trace| - 1]);
    }
  }

  /** The rows whose record could be built, last entry winning. */
  function RecordTable(rows: seq<Row>): Rows {
    if rows == [] then map[]
    else
      var row := rows[|rows| - 1];
      var rest := RecordTable(rows[..|rows| - 1]);
      if row.record.Some? then rest[row.code := row.record.value] else rest
  }

  lemma {:induction false} SelectedIsTable(p: Publisher, rows: seq<Row>)
    ensures Apply(map[], Selected(p, rows, true)) == RecordTable(rows)
    ensures Selected(p, rows, true) == [] <==> RecordTable(rows) == map[]
  {
    if rows != [] {
      var n := |rows| - 1;
      SelectedIsTable(p, rows[..n]);
      if rows[n].record.Some? {
        var d := Device(rows[n].code, rows[n].record.value);
        var rest := Selected(p, rows[..n], true);
        assert (rest + [d])[..|rest|] == rest;
        assert rows[n].code in RecordTable(rows);
      }
    }
  }

  /** A snapshot turn sends all of the table it read. */
  ghost predicate SendsTable(s: Sys) {
    s.turn.Some? && s.turn.value.snapshot ==> Apply(map[], Join(s.turn.value.parts)) == RecordTable(s.read)
  }

  lemma {:induction false} RunSendsTable(s: Sys, trace: seq<Move>)
    requires s.pub.batchMax >= 1 && s.turn.None?
    ensures SendsTable(Run(s, trace))
  {
    if trace != [] {
      hide Join, Apply, RecordTable, Receive;
      var n := |trace| - 1;
      var before := Run(s, trace[..n]);
      RunSendsTable(s, trace[..n]);
      if trace[n].Begun? {
        SelectedIsTable(before.pub, trace[n].rows);
        PartsPartition(Selected(before.pub, trace[n].rows, true), before.pub.batchMax);
      }
    }
  }

  // ---------------------------------------------------------------- snapshots reconcile

  predicate LastBatch(s: Sys) {
    s.turn.Some? && s.turn.value.index + 1 == |s.turn.value.parts|
  }

  /** Whatever was lost, delayed, repeated or left half-sent before: when the last batch of a
      snapshot turn is acknowledged, the receiver holds exactly the table read in that turn,
      removals included. */
  lemma SnapshotReconciles(boot: nat, batchMax: int, interval: Time, trace: seq<Move>, now: Time)
    requires var s := Run(Fresh(boot, batchMax, interval), trace); LastBatch(s) && s.turn.value.snapshot
    ensures var s := Run(Fresh(boot, batchMax, interval), trace);
            Next(s, Tried(Arrived, now)).recv.rows == RecordTable(s.read)
  {
    var s := Run(Fresh(boot, batchMax, interval), trace);
    RunInv(Fresh(boot, batchMax, interval), trace);
    RunSendsTable(Fresh(boot, batchMax, interval), trace);
    HeardReceiver(s);
  }

  /** The receiver has batch i of the snapshot that is coming in. */
  predicate Has(r: Receiver, id: Id, i: nat) {
    r.pending.Some? && r.pending.value.id == id && i in r.pending.value.got
  }

  /** A batch that is new and the only one the receiver lacks of its snapshot. */
  predicate LacksOnly(r: Receiver, e: Envelope)
    requires e.part.Some?
  {
    var p := e.part.value;
    Newer(e.mark, r.last) && forall i | 0 <= i < p.count :: i == p.index || Has(r, p.id, i)
  }

  /** What a new batch makes of the snapshot that is coming in. */
  lemma BatchHeard(s: Sys, e: Envelope)
    requires Inv(s) && Genuine(s, e) && e.part.Some?
    ensures var p := Continue(s.recv, e.part.value);
            var q := p.(got := p.got[e.part.value.index := e.devices]);
            && PendingOk(s, q) && q.id == e.part.value.id
            && (Complete(q) <==> forall i | 0 <= i < e.part.value.count ::
                  i == e.part.value.index || Has(s.recv, e.part.value.id, i))
  {
    var p := Continue(s.recv, e.part.value);
    var q := p.(got := p.got[e.part.value.index := e.devices]);
    assert PendingOk(s, q) && q.count == e.part.value.count;
    forall i: nat
      ensures i in q.got <==> i == e.part.value.index || Has(s.recv, e.part.value.id, i)
    {
    }
  }

  /** No snapshot mixes two reads: a batch leaves the rows alone unless it is the only one missing,
      and then the rows become the batches of the single snapshot it names, all of them and in
      order. */
  lemma CompletedIsOneRead(boot: nat, batchMax: int, interval: Time, trace: seq<Move>, e: Envelope)
    requires var s := Run(Fresh(boot, batchMax, interval), trace); e in s.pool && e.part.Some?
    ensures var s := Run(Fresh(boot, batchMax, interval), trace);
            var rows := Receive(s.recv, e).rows;
            && e.part.value.id in s.history
            && rows == if LacksOnly(s.recv, e) then Apply(map[], Join(s.history[e.part.value.id])) else s.recv.rows
  {
    hide Join, Apply, Run, Continue, Complete, Has;
    var s := Run(Fresh(boot, batchMax, interval), trace);
    RunInv(Fresh(boot, batchMax, interval), trace);
    BatchHeard(s, e);
    var p := Continue(s.recv, e.part.value);
    var q := p.(got := p.got[e.part.value.index := e.devices]);
    if Complete(q) {
      CompleteHas(s, q);
      assert Collected(q.got, q.count) == s.history[e.part.value.id];
    }
  }

  lemma CompleteHas(s: Sys, p: Partial)
    requires Complete(p) && PendingOk(s, p)
    ensures (forall i | 0 <= i < p.count :: i in p.got) && Collected(p.got, p.count) == s.history[p.id]
  {
  }

  /** When a snapshot is due, a turn sends something exactly if some record could be built; an
      empty fleet sends nothing, so its removals stay unreconciled. */
  lemma DueTurnSendsIffNonEmpty(p: Publisher, rows: seq<Row>, now: Time)
    requires p.batchMax >= 1 && SnapshotDue(p, now)
    ensures Begin(p, rows, now).1.Some? <==> RecordTable(rows) != map[]
    ensures Begin(p, rows, now).1.Some? ==> Begin(p, rows, now).1.value.snapshot
  {
    SelectedIsTable(p, rows);
  }

  /** A request for a snapshot that arrives while a turn is sending survives the turn unless
      that turn is itself a snapshot and succeeds: then it is forgotten, although the table it
      sent was read before the request. */
  lemma {:induction false} RequestSurvivesIff(p: Publisher, t: Turn, failAt: Option<nat>, end: Time)
    requires t.index < |t.parts| && p.needed
    ensures SendAll(p, t, failAt, end).pub.needed <==> !(t.snapshot && SendAll(p, t, failAt, end).success)
    decreases |t.parts| - t.index
  {
    var s := SendNext(p, t, failAt != Some(t.index), end);
    if s.turn.Some? {
      RequestSurvivesIff(s.pub, s.turn.value, failAt, end);
    }
  }
}
