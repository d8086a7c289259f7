/** Delta turns: which devices they send, what the publisher remembers as sent, and when the
    receiver agrees with the gateway after a turn. */
module DeltaReplication {
  import opened Wrappers
  import opened HealthWire
  import opened HealthPublishers
  import opened Replication

  /** The health source is a dictionary: one row per device. */
  ghost predicate DistinctRows(rows: seq<Row>) {
    forall i, j :: 0 <= i < j < |rows| ==> rows[i].code != rows[j].code
  }

  lemma {:induction false} TableAt(rows: seq<Row>, i: nat)
    requires DistinctRows(rows) && i < |rows|
    ensures rows[i].record.Some? ==>
              rows[i].code in Table(rows) && Table(rows)[rows[i].code] == SignatureOf(rows[i].record.value)
  {
    var n := |rows| - 1;
    if i < n {
      TableAt(rows[..n], i);
    }
  }

  lemma {:induction false} TableFrom(rows: seq<Row>, k: Code)
    requires k in Table(rows)
    ensures exists i :: 0 <= i < |rows| && rows[i].code == k && rows[i].record.Some?
                        && Table(rows)[k] == SignatureOf(rows[i].record.value)
  {
    var n := |rows| - 1;
    if rows[n].record.Some? && rows[n].code == k {
      assert Table(rows)[k] == SignatureOf(rows[n].record.value);
    } else {
      TableFrom(rows[..n], k);
      var i :| 0 <= i < n && rows[..n][i].code == k && rows[..n][i].record.Some?
               && Table(rows[..n])[k] == SignatureOf(rows[..n][i].record.value);
      assert rows[i] == rows[..n][i];
    }
  }

  lemma {:induction false} SelectedFrom(p: Publisher, rows: seq<Row>, snapshot: bool, d: Device)
    ensures d in Selected(p, rows, snapshot) <==>
              exists i :: 0 <= i < |rows| && rows[i] == Row(d.code, Some(d.record)) && (snapshot || Differs(p, rows[i]))
  {
    if rows != [] {
      var n := |rows| - 1;
      SelectedFrom(p, rows[..n], snapshot, d);
      if d in Selected(p, rows[..n], snapshot) {
        var i :| 0 <= i < n && rows[..n][i] == Row(d.code, Some(d.record)) && (snapshot || Differs(p, rows[..n][i]));
        assert rows[i] == rows[..n][i];
      }
      if i :| 0 <= i < |rows| && rows[i] == Row(d.code, Some(d.record)) && (snapshot || Differs(p, rows[i])) {
        if i < n {
          assert rows[..n][i] == rows[i];
        }
      }
    }
  }

  lemma NoneSelected(p: Publisher, rows: seq<Row>, i: nat)
    requires Selected(p, rows, false) == [] && i < |rows|
    ensures !Differs(p, rows[i])
  {
  }

  /** When no snapshot is due, a turn sends exactly the devices whose semantic fields differ
      from those of the record last noted as sent, and nothing at all if there are none:
      observations alone never cause a send. */
  lemma DeltaSendsExactlyChanged(p: Publisher, rows: seq<Row>, now: Time)
    requires p.batchMax >= 1 && !SnapshotDue(p, now)
    ensures var turn := Begin(p, rows, now).1;
            && (turn.Some? ==> !turn.value.snapshot)
            && (turn.None? <==> forall i :: 0 <= i < |rows| ==> !Differs(p, rows[i]))
            && (turn.Some? ==> forall d :: d in Join(turn.value.parts) <==>
                  exists i :: 0 <= i < |rows| && rows[i] == Row(d.code, Some(d.record)) && Differs(p, rows[i]))
  {
    var devices := Selected(p, rows, false);
    PartsPartition(devices, p.batchMax);
    forall d
      ensures d in devices <==>
                exists i :: 0 <= i < |rows| && rows[i] == Row(d.code, Some(d.record)) && Differs(p, rows[i])
    {
      SelectedFrom(p, rows, false, d);
    }
    if devices == [] {
      forall i | 0 <= i < |rows|
        ensures !Differs(p, rows[i])
      {
        NoneSelected(p, rows, i);
      }
    } else {
      assert devices[0] in devices;
    }
  }

  // ---------------------------------------------------------------- what counts as sent

  /** Every device of the table is noted with its signature or is still to be sent with it. */
  ghost predicate Covered(sent: map<Code, Signature>, table: map<Code, Signature>, rest: seq<Device>) {
    && (forall d :: d in rest ==> d.code in table && table[d.code] == SignatureOf(d.record))
    && (forall k :: k in table ==>
          (k in sent && sent[k] == table[k]) || exists d :: d in rest && d.code == k)
  }

  ghost predicate Noted(sent: map<Code, Signature>, acked: map<Code, Signature>) {
    forall k :: k in sent ==> k in acked && acked[k] == sent[k]
  }

  function Rest(t: Turn): seq<Device>
    requires t.index <= |t.parts|
  {
    Join(t.parts[t.index..])
  }

  ghost predicate TurnInv(s: Sys) {
    && s.pub.batchMax >= 1
    && Noted(s.pub.sent, s.acked)
    && (s.turn.Some? ==>
          && s.turn.value.index < |s.turn.value.parts|
          && s.turn.value.table == Table(s.read)
          && Covered(s.pub.sent, s.turn.value.table, Rest(s.turn.value)))
  }

  lemma BeginCovers(p: Publisher, rows: seq<Row>, snapshot: bool)
    requires DistinctRows(rows)
    ensures Covered(p.sent, Table(rows), Selected(p, rows, snapshot))
  {
    var devices := Selected(p, rows, snapshot);
    forall d | d in devices
      ensures d.code in Table(rows) && Table(rows)[d.code] == SignatureOf(d.record)
    {
      SelectedFrom(p, rows, snapshot, d);
      var i :| 0 <= i < |rows| && rows[i] == Row(d.code, Some(d.record)) && (snapshot || Differs(p, rows[i]));
      TableAt(rows, i);
    }
    forall k | k in Table(rows)
      ensures (k in p.sent && p.sent[k] == Table(rows)[k]) || exists d :: d in devices && d.code == k
    {
      TableFrom(rows, k);
      var i :| 0 <= i < |rows| && rows[i].code == k && rows[i].record.Some?
               && Table(rows)[k] == SignatureOf(rows[i].record.value);
      SelectedFrom(p, rows, snapshot, Device(k, rows[i].record.value));
    }
  }

  lemma {:induction false} NoteMeans(sent: map<Code, Signature>, table: map<Code, Signature>, devices: seq<Device>,
                                       k: Code)
    requires forall d :: d in devices ==> d.code in table && table[d.code] == SignatureOf(d.record)
    ensures if exists d :: d in devices && d.code == k then
              k in Note(sent, devices) && k in table && Note(sent, devices)[k] == table[k]
            else k in Note(sent, devices) <==> k in sent
    ensures (forall d :: d in devices ==> d.code != k) ==> k in sent ==> Note(sent, devices)[k] == sent[k]
  {
    if devices != [] {
      var n := |devices| - 1;
      assert devices == devices[..n] + [devices[n]];
      NoteMeans(sent, table, devices[..n], k);
    }
  }

  lemma JoinRest(t: Turn)
    requires t.index < |t.parts|
    ensures Join(t.parts[t.index..]) == t.parts[t.index] + Join(t.parts[t.index + 1..])
  {
    assert t.parts[t.index..] == [t.parts[t.index]] + t.parts[t.index + 1..];
    JoinCons(t.parts[t.index], t.parts[t.index + 1..]);
  }

  lemma NoteCovers(sent: map<Code, Signature>, table: map<Code, Signature>, part: seq<Device>, rest: seq<Device>)
    requires Covered(sent, table, part + rest)
    ensures Covered(Note(sent, part), table, rest)
  {
    forall d | d in part + rest
      ensures d in part || d in rest
    {
    }
    forall d | d in part
      ensures d.code in table && table[d.code] == SignatureOf(d.record)
    {
      assert d in part + rest;
    }
    forall d | d in rest
      ensures d.code in table && table[d.code] == SignatureOf(d.record)
    {
      assert d in part + rest;
    }
    forall k | k in table
      ensures (k in Note(sent, part) && Note(sent, part)[k] == table[k]) || exists d :: d in rest && d.code == k
    {
      NoteMeans(sent, table, part, k);
    }
  }

  lemma {:induction false} NoteNoted(sent: map<Code, Signature>, acked: map<Code, Signature>, devices: seq<Device>)
    requires Noted(sent, acked)
    ensures Noted(Note(sent, devices), Note(acked, devices))
  {
    if devices != [] {
      NoteNoted(sent, acked, devices[..|devices| - 1]);
    }
  }

  lemma HeardTurn(s: Sys, now: Time)
    requires TurnInv(s) && s.turn.Some?
    ensures TurnInv(Try(s, Arrived, now))
    ensures LastBatch(s) ==> Try(s, Arrived, now).pub.sent == Table(s.read)
    ensures forall k :: k in Try(s, Arrived, now).pub.sent ==>
                        k in Note(s.pub.sent, s.turn.value.parts[s.turn.value.index])
                        && Try(s, Arrived, now).pub.sent[k]
                           == Note(s.pub.sent, s.turn.value.parts[s.turn.value.index])[k]
  {
    hide Receive, Note, SignatureOf, Table;
    var t := s.turn.value;
    var part := t.parts[t.index];
    var rest := Join(t.parts[t.index + 1..]);
    JoinRest(t);
    NoteCovers(s.pub.sent, t.table, part, rest);
    NoteNoted(s.pub.sent, s.acked, part);
    if LastBatch(s) {
      assert t.parts[t.index + 1..] == [];
      assert rest == [];
    }
  }

  lemma NextTurn(s: Sys, move: Move)
    requires TurnInv(s)
    requires move.Begun? ==> DistinctRows(move.rows)
    ensures TurnInv(Next(s, move))
  {
    hide Receive, Note, Covered, Table;
    match move
    case Begun(rows, now) =>
      if s.turn.None? {
        var snapshot := SnapshotDue(s.pub, now);
        var devices := Selected(s.pub, rows, snapshot);
        var parts := Parts(devices, s.pub.batchMax);
        BeginCovers(s.pub, rows, snapshot);
        PartsPartition(devices, s.pub.batchMax);
        assert parts[0..] == parts;
      }
    case Tried(fate, now) =>
      if s.turn.Some? && fate.Arrived? {
        HeardTurn(s, now);
      }
    case _ =>
  }

  ghost predicate Dictionaries(trace: seq<Move>) {
    forall i :: 0 <= i < |trace| && trace[i].Begun? ==> DistinctRows(trace[i].rows)
  }

  /** `_gonderilen` after any run, also in the middle of a turn that fails later: what it holds
      for a device is the signature of that device's last acknowledged record. */
  lemma {:induction false} SentIsLastAcknowledged(s: Sys, trace: seq<Move>)
    requires TurnInv(s) && Dictionaries(trace)
    ensures TurnInv(Run(s, trace)) && Noted(Run(s, trace).pub.sent, Run(s, trace).acked)
  {
    if trace != [] {
      SentIsLastAcknowledged(s, trace[..|trace| - 1]);
      NextTurn(Run(s, trace[..|trace| - 1]), trace[|trace| - 1]);
    }
  }

  // ---------------------------------------------------------------- agreement after a turn

  /** The receiver's rows carry the signatures `sent` says they carry. */
  ghost predicate Synced(sent: map<Code, Signature>, rows: Rows) {
    forall k :: k in sent ==> k in rows && SignatureOf(rows[k]) == sent[k]
  }

  /** Every live device has the semantic state of the table at the receiver. */
  ghost predicate Agrees(s: Sys) {
    Synced(Table(s.read), s.recv.rows)
  }

  /** Nothing under way can change the receiver, and it matches what counts as sent unless a
      snapshot is due, which stays due until one succeeds. */
  ghost predicate Calm(s: Sys, clock: Time) {
    && (forall e :: e in s.pool ==> !Newer(e.mark, s.recv.last))
    && (Synced(s.pub.sent, s.recv.rows) || SnapshotDue(s.pub, clock))
    && (s.turn.Some? && s.turn.value.snapshot ==> SnapshotDue(s.pub, clock))
    && (s.turn.Some? && !s.turn.value.snapshot ==> Synced(s.pub.sent, s.recv.rows))
  }

  ghost predicate Reached(s: Sys, clock: Time) {
    Inv(s) && TurnInv(s) && SendsTable(s) && Calm(s, clock)
  }

  function Clock(move: Move, clock: Time): Time {
    if move.Begun? || move.Tried? then move.now else clock
  }

  predicate EndsTurn(s: Sys, move: Move) {
    || (move.Tried? && move.fate.Arrived? && LastBatch(s))
    || (move.Begun? && s.turn.None? && s.pub.batchMax >= 1 && Begin(s.pub, move.rows, move.now).1.None?)
  }

  lemma {:induction false} NoteSynced(sent: map<Code, Signature>, rows: Rows, devices: seq<Device>)
    requires Synced(sent, rows)
    ensures Synced(Note(sent, devices), Apply(rows, devices))
  {
    if devices != [] {
      NoteSynced(sent, rows, devices[..|devices| - 1]);
    }
  }

  lemma {:induction false} TableSynced(rows: seq<Row>)
    ensures Synced(Table(rows), RecordTable(rows))
  {
    if rows != [] {
      TableSynced(rows[..|rows| - 1]);
    }
  }

  lemma HeardCalm(s: Sys, clock: Time, now: Time)
    requires Reached(s, clock) && s.turn.Some? && clock <= now
    ensures Calm(Try(s, Arrived, now), now)
    ensures LastBatch(s) ==> Agrees(Try(s, Arrived, now))
  {
    hide Note, Receive, Apply, SignatureOf, Table, Covered, Join, RecordTable;
    var t := s.turn.value;
    var n := Try(s, Arrived, now);
    HeardTurn(s, now);
    if t.snapshot {
      HeardReceiver(s);
      TableSynced(s.read);
    } else {
      DeltaHeard(s);
      NoteSynced(s.pub.sent, s.recv.rows, t.parts[t.index]);
    }
    assert n.recv.last == Mark(s.pub.boot, s.pub.sequence + 1);
    forall e | e in n.pool
      ensures !Newer(e.mark, n.recv.last)
    {
      assert e in s.pool ==> NotAfter(s, e.mark);
    }
  }

  lemma LostCalm(s: Sys, clock: Time, now: Time)
    requires Reached(s, clock) && s.turn.Some? && clock <= now
    ensures Calm(Try(s, Lost, now), now)
  {
  }

  lemma BegunCalm(s: Sys, rows: seq<Row>, clock: Time, now: Time)
    requires Reached(s, clock) && s.turn.None? && clock <= now && DistinctRows(rows)
    ensures Calm(BeginTurn(s, rows, now), now)
    ensures Begin(s.pub, rows, now).1.None? ==> Agrees(BeginTurn(s, rows, now))
  {
    hide Note, SignatureOf, Apply, Parts;
    var snapshot := SnapshotDue(s.pub, now);
    BeginCovers(s.pub, rows, snapshot);
    if Selected(s.pub, rows, snapshot) == [] {
      if snapshot {
        NothingBuilt(s.pub, rows);
      }
    }
  }

  lemma NothingBuilt(p: Publisher, rows: seq<Row>)
    requires Selected(p, rows, true) == []
    ensures Table(rows) == map[]
  {
  }

  // ---------------------------------------------------------------- over whole runs

  function ClockAt(trace: seq<Move>): Time {
    if trace == [] then 0.0 else Clock(trace[|trace| - 1], ClockAt(trace[..|trace| - 1]))
  }

  ghost predicate Timed(trace: seq<Move>) {
    forall i :: 0 <= i < |trace| ==> ClockAt(trace[..i]) <= ClockAt(trace[..i + 1])
  }

  /** A send that raises has not been and will not be applied. */
  ghost predicate NeverUnsure(trace: seq<Move>) {
    forall i :: 0 <= i < |trace| && trace[i].Tried? ==> !trace[i].fate.Unsure?
  }

  lemma {:induction false} RunReached(boot: nat, batchMax: int, interval: Time, trace: seq<Move>)
    requires Timed(trace) && Dictionaries(trace) && NeverUnsure(trace)
    ensures Reached(Run(Fresh(boot, batchMax, interval), trace), ClockAt(trace))
  {
    hide Inv, TurnInv, SendsTable, Calm, Next;
    var s0 := Fresh(boot, batchMax, interval);
    FreshReached(boot, batchMax, interval);
    RunInv(s0, trace);
    SentIsLastAcknowledged(s0, trace);
    RunSendsTable(s0, trace);
    if trace != [] {
      var n := |trace| - 1;
      TimedPrefix(trace);
      RunReached(boot, batchMax, interval, trace[..n]);
      NextCalm(Run(s0, trace[..n]), trace[n], ClockAt(trace[..n]));
    }
  }

  lemma FreshReached(boot: nat, batchMax: int, interval: Time)
    ensures Reached(Fresh(boot, batchMax, interval), 0.0)
  {
  }

  lemma TimedPrefix(trace: seq<Move>)
    requires Timed(trace) && trace != []
    ensures Timed(trace[..|trace| - 1])
    ensures ClockAt(trace[..|trace| - 1]) <= Clock(trace[|trace| - 1], ClockAt(trace[..|trace| - 1]))
  {
    var n := |trace| - 1;
    assert trace[..n + 1] == trace;
    forall i | 0 <= i < n
      ensures ClockAt(trace[..n][..i]) <= ClockAt(trace[..n][..i + 1])
    {
      assert trace[..n][..i] == trace[..i] && trace[..n][..i + 1] == trace[..i + 1];
    }
  }

  lemma NextCalm(s: Sys, move: Move, clock: Time)
    requires Reached(s, clock) && clock <= Clock(move, clock)
    requires move.Begun? ==> DistinctRows(move.rows)
    requires move.Tried? ==> !move.fate.Unsure?
    ensures Calm(Next(s, move), Clock(move, clock))
    ensures EndsTurn(s, move) ==> Agrees(Next(s, move))
  {
    hide BeginTurn, Try, Synced, Receive;
    match move
    case Begun(rows, now) =>
      if s.turn.None? {
        BegunCalm(s, rows, clock, now);
      } else {
      }
    case Tried(fate, now) =>
      if s.turn.None? {
      } else if fate.Arrived? {
        HeardCalm(s, clock, now);
      } else {
        LostCalm(s, clock, now);
      }
    case Delivered(e) =>
      if e in s.pool {
        assert Receive(s.recv, e) == s.recv by { Stale(s.recv, e); }
      }
    case _ =>
  }

  lemma Stale(r: Receiver, e: Envelope)
    requires !Newer(e.mark, r.last)
    ensures Receive(r, e) == r
  {
  }

  /** If a send that raises is never applied, then after any turn that succeeds, and after any
      turn that finds nothing to send, the receiver has the semantic state of every live device,
      whatever was lost, repeated, requested or restarted before. */
  lemma TurnsLeaveAgreement(boot: nat, batchMax: int, interval: Time, trace: seq<Move>, move: Move)
    requires Timed(trace) && Dictionaries(trace) && NeverUnsure(trace)
    requires ClockAt(trace) <= Clock(move, ClockAt(trace))
    requires move.Begun? ==> DistinctRows(move.rows)
    requires EndsTurn(Run(Fresh(boot, batchMax, interval), trace), move)
    ensures Agrees(Next(Run(Fresh(boot, batchMax, interval), trace), move))
  {
    RunReached(boot, batchMax, interval, trace);
    NextCalm(Run(Fresh(boot, batchMax, interval), trace), move, ClockAt(trace));
  }

  lemma {:induction false} ReadIsDictionary(s: Sys, trace: seq<Move>)
    requires s.pub.batchMax >= 1 && DistinctRows(s.read) && Dictionaries(trace)
    ensures DistinctRows(Run(s, trace).read)
  {
    if trace != [] {
      hide Receive, Note, Table, Selected, Parts;
      ReadIsDictionary(s, trace[..|trace| - 1]);
    }
  }

  /** After every turn that ends well, also one that found nothing to send, what counts as sent is
      exactly what that turn read: a device that is gone is forgotten, so it is sent again when it
      comes back. */
  lemma GoodTurnRemembersRead(boot: nat, batchMax: int, interval: Time, trace: seq<Move>, move: Move)
    requires Dictionaries(trace) && (move.Begun? ==> DistinctRows(move.rows))
    requires EndsTurn(Run(Fresh(boot, batchMax, interval), trace), move)
    ensures var t := Next(Run(Fresh(boot, batchMax, interval), trace), move);
            && (forall k :: k in t.pub.sent <==>
                  exists i :: 0 <= i < |t.read| && t.read[i].code == k && t.read[i].record.Some?)
            && (forall i :: 0 <= i < |t.read| && t.read[i].record.Some? ==>
                  t.read[i].code in t.pub.sent
                  && t.pub.sent[t.read[i].code] == SignatureOf(t.read[i].record.value))
  {
    hide Run, Receive, Note, Table, SignatureOf;
    var s0 := Fresh(boot, batchMax, interval);
    var s := Run(s0, trace);
    var t := Next(s, move);
    SentIsLastAcknowledged(s0, trace);
    ReadIsDictionary(s0, trace);
    assert t.pub.sent == Table(t.read);
    forall k | k in t.pub.sent
      ensures exists i :: 0 <= i < |t.read| && t.read[i].code == k && t.read[i].record.Some?
    {
      TableFrom(t.read, k);
    }
    forall i | 0 <= i < |t.read| && t.read[i].record.Some?
      ensures t.read[i].code in t.pub.sent && t.pub.sent[t.read[i].code] == SignatureOf(t.read[i].record.value)
    {
      TableAt(t.read, i);
    }
  }

  /** Every turn that ends well leaves agreement; `unsure` allows sends that raise and yet
      arrive. */
  ghost predicate AlwaysAgrees(unsure: bool) {
    forall boot, batchMax, interval, trace, move ::
      Timed(trace) && Dictionaries(trace) && (unsure || NeverUnsure(trace))
      && ClockAt(trace) <= Clock(move, ClockAt(trace)) && (move.Begun? ==> DistinctRows(move.rows))
      && EndsTurn(Run(Fresh(boot, batchMax, interval), trace), move) ==>
        Agrees(Next(Run(Fresh(boot, batchMax, interval), trace), move))
  }

  // ---------------------------------------------------------------- a raised send that arrives

  const UP: Record := map[Connected := Flag(true)]
  const DOWN: Record := map[Connected := Flag(false)]

  function One(r: Record): seq<Row> {
    [Row("a", Some(r))]
  }

  lemma SignaturesDiffer()
    ensures SignatureOf(UP) != SignatureOf(DOWN)
  {
    SignatureIsSemantics(UP, DOWN);
    assert !Observational(Connected) && Get(UP, Connected) != Get(DOWN, Connected);
  }

  lemma OneSelected(p: Publisher, r: Record, snapshot: bool)
    requires p.batchMax >= 1
    ensures Table(One(r)) == map["a" := SignatureOf(r)]
    ensures snapshot || Differs(p, One(r)[0]) ==>
              Selected(p, One(r), snapshot) == [Device("a", r)]
              && Parts(Selected(p, One(r), snapshot), p.batchMax) == [[Device("a", r)]]
    ensures !snapshot && !Differs(p, One(r)[0]) ==> Selected(p, One(r), snapshot) == []
  {
  }

  lemma ApplyOne(rows: Rows, r: Record, sent: map<Code, Signature>)
    ensures Apply(rows, [Device("a", r)]) == rows["a" := r]
    ensures Note(sent, [Device("a", r)]) == sent["a" := SignatureOf(r)]
    ensures Join([[Device("a", r)]]) == [Device("a", r)]
  {
  }

  /** After a successful first snapshot of one device that is up. */
  ghost predicate KnowsUp(s: Sys) {
    && s.turn.None? && s.pub.batchMax == 1 && s.pub.interval == 300.0
    && s.pub.sent == map["a" := SignatureOf(UP)] && !s.pub.needed && s.pub.lastAt == 2.0
    && !Newer(s.recv.last, Mark(s.pub.boot, s.pub.sequence))
  }

  lemma FirstSnapshot(s: Sys)
    requires s == Fresh(1, 1, 300.0)
    ensures KnowsUp(Next(Next(s, Begun(One(UP), 1.0)), Tried(Arrived, 2.0)))
  {
  }

  /** The envelope of the send that raised. */
  function DownEnvelope(s: Sys): Envelope {
    Envelope(Mark(s.pub.boot, s.pub.sequence + 1), None, [Device("a", DOWN)], 1)
  }

  lemma RaisedYetApplied(s: Sys)
    requires KnowsUp(s)
    ensures var t := Next(Next(Next(s, Begun(One(DOWN), 3.0)), Tried(Unsure, 4.0)), Delivered(DownEnvelope(s)));
            EndsTurn(t, Begun(One(UP), 5.0)) && !Agrees(Next(t, Begun(One(UP), 5.0)))
  {
    hide SignatureOf, Selected, Parts, Table, Join, Note, Apply;
    SignaturesDiffer();
    OneSelected(s.pub, DOWN, false);
    ApplyOne(s.recv.rows, DOWN, map[]);
    var a := Next(s, Begun(One(DOWN), 3.0));
    assert |map["a" := SignatureOf(DOWN)]| == 1;
    var b := Next(a, Tried(Unsure, 4.0));
    assert DownEnvelope(s) in b.pool;
    var c := Next(b, Delivered(DownEnvelope(s)));
    assert c.recv.rows["a"] == DOWN;
    OneSelected(c.pub, UP, false);
  }

  lemma {:induction false} RunAppend(s: Sys, trace: seq<Move>, move: Move)
    requires s.pub.batchMax >= 1
    ensures Run(s, trace + [move]) == Next(Run(s, trace), move)
  {
  }

  const MOVES: seq<Move> := [
    Begun(One(UP), 1.0), Tried(Arrived, 2.0), Begun(One(DOWN), 3.0), Tried(Unsure, 4.0)]

  lemma MovesTimed(e: Envelope)
    ensures Timed(MOVES + [Delivered(e)]) && ClockAt(MOVES + [Delivered(e)]) == 4.0
  {
  }

  /** The run that ends in disagreement, as a whole. */
  lemma Disagreement()
    ensures !AlwaysAgrees(true)
  {
    hide Next, KnowsUp, EndsTurn, Agrees, Timed;
    var s := Fresh(1, 1, 300.0);
    assert Run(s, []) == s;
    assert [] + [MOVES[0]] == MOVES[..1];
    RunAppend(s, [], MOVES[0]);
    assert MOVES[..1] + [MOVES[1]] == MOVES[..2];
    RunAppend(s, MOVES[..1], MOVES[1]);
    assert MOVES[..2] + [MOVES[2]] == MOVES[..3];
    RunAppend(s, MOVES[..2], MOVES[2]);
    assert MOVES[..3] + [MOVES[3]] == MOVES;
    RunAppend(s, MOVES[..3], MOVES[3]);
    var e := DownEnvelope(Run(s, MOVES[..2]));
    RunAppend(s, MOVES, Delivered(e));
    FirstSnapshot(s);
    RaisedYetApplied(Run(s, MOVES[..2]));
    MovesTimed(e);
    assert Clock(Begun(One(UP), 5.0), 4.0) == 5.0;
    assert DistinctRows(One(UP));
  }

  /** Turns always leave agreement exactly when a raised send is never applied after all. */
  lemma AgreesIffNeverUnsure(unsure: bool)
    ensures AlwaysAgrees(unsure) <==> !unsure
  {
    hide Next, EndsTurn, Agrees, Timed, Run, ClockAt;
    if unsure {
      Disagreement();
    } else {
      forall boot, batchMax, interval, trace: seq<Move>, move: Move |
        Timed(trace) && Dictionaries(trace) && NeverUnsure(trace)
        && ClockAt(trace) <= Clock(move, ClockAt(trace)) && (move.Begun? ==> DistinctRows(move.rows))
        && EndsTurn(Run(Fresh(boot, batchMax, interval), trace), move)
        ensures Agrees(Next(Run(Fresh(boot, batchMax, interval), trace), move))
      {
        TurnsLeaveAgreement(boot, batchMax, interval, trace, move);
      }
    }
  }
}
