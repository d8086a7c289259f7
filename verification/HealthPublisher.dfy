/** The background publisher of device health: what one turn sends and what it remembers as
    sent. `HealthPublisher` is the code's own form; `Begin` and `SendNext` are its two steps as
    functions, so that requests and deliveries can fall between two batches. */
module HealthPublishers {
  import opened Wrappers
  import opened HealthWire

  type Time = real

  /** One entry of the health source; the record is None when it cannot be built. */
  datatype Row = Row(code: Code, record: Option<Record>)

  datatype Publisher = Publisher(
    boot: nat,
    batchMax: nat,
    interval: Time,
    sent: map<Code, Signature>,
    sequence: nat,
    snapshots: nat,
    needed: bool,
    lastAt: Time)

  /** A turn that has something to send; `index` is the next batch. */
  datatype Turn = Turn(table: map<Code, Signature>, parts: seq<seq<Device>>, snapshot: bool, n: nat, index: nat)

  ghost predicate Valid(p: Publisher) {
    p.batchMax >= 1
  }

  function NewPublisher(boot: nat, batchMax: int, interval: Time): Publisher {
    Publisher(boot, if batchMax < 1 then 1 else batchMax, if interval < 10.0 then 10.0 else interval,
              map[], 0, 0, true, 0.0)
  }

  predicate SnapshotDue(p: Publisher, now: Time) {
    p.needed || p.lastAt == 0.0 || now - p.lastAt >= p.interval
  }

  function Table(rows: seq<Row>): map<Code, Signature> {
    if rows == [] then map[]
    else
      var row := rows[|rows| - 1];
      var rest := Table(rows[..|rows| - 1]);
      if row.record.Some? then rest[row.code := SignatureOf(row.record.value)] else rest
  }

  predicate Differs(p: Publisher, row: Row) {
    row.record.Some? && !(row.code in p.sent && p.sent[row.code] == SignatureOf(row.record.value))
  }

  /** What goes into the turn: everything for a snapshot, otherwise the changed devices. */
  function Selected(p: Publisher, rows: seq<Row>, snapshot: bool): seq<Device> {
    if rows == [] then []
    else
      var row := rows[|rows| - 1];
      var rest := Selected(p, rows[..|rows| - 1], snapshot);
      if row.record.Some? && (snapshot || Differs(p, row)) then rest + [Device(row.code, row.record.value)] else rest
  }

  function Begin(p: Publisher, rows: seq<Row>, now: Time): (Publisher, Option<Turn>)
    requires p.batchMax >= 1
  {
    var snapshot := SnapshotDue(p, now);
    var devices := Selected(p, rows, snapshot);
    if devices == [] then (p.(sent := Table(rows)), None)
    else
      var n := if snapshot then p.snapshots + 1 else p.snapshots;
      (p.(snapshots := n), Some(Turn(Table(rows), Parts(devices, p.batchMax), snapshot, n, 0)))
  }

  function Note(sent: map<Code, Signature>, devices: seq<Device>): map<Code, Signature> {
    if devices == [] then sent
    else
      var d := devices[|devices| - 1];
      Note(sent, devices[..|devices| - 1])[d.code := SignatureOf(d.record)]
  }

  function EnvelopeOf(p: Publisher, t: Turn): Envelope
    requires t.index < |t.parts|
  {
    Envelope(Mark(p.boot, p.sequence + 1),
             if t.snapshot then Some(PartOf(Id(p.boot, t.n), t.index, |t.parts|)) else None,
             t.parts[t.index], |t.table|)
  }

  /** One batch: `ok` says whether the send returned. The turn ends with the first failure or
      with the last batch. */
  datatype Sent = Sent(pub: Publisher, turn: Option<Turn>, envelope: Envelope)

  function SendNext(p: Publisher, t: Turn, ok: bool, now: Time): Sent
    requires t.index < |t.parts|
  {
    var e := EnvelopeOf(p, t);
    var q := p.(sequence := p.sequence + 1);
    if !ok then Sent(q, None, e)
    else
      var r := q.(sent := Note(q.sent, t.parts[t.index]));
      if t.index + 1 < |t.parts| then Sent(r, Some(t.(index := t.index + 1)), e)
      else Sent(Finished(r, t, now), None, e)
  }

  /** After the last batch the table read in this turn is what counts as sent. */
  function Finished(p: Publisher, t: Turn, now: Time): Publisher {
    var f := p.(sent := t.table);
    if t.snapshot then f.(needed := false, lastAt := now) else f
  }

  ghost predicate Started(t: Turn) {
    t.parts != [] && t.index == 0
  }

  /** The rest of a turn in which send number `failAt` raises, if any does. */
  datatype Outcome = Outcome(pub: Publisher, success: bool, envelopes: seq<Envelope>)

  function SendAll(p: Publisher, t: Turn, failAt: Option<nat>, end: Time): Outcome
    requires t.index < |t.parts|
    decreases |t.parts| - t.index
  {
    var ok := failAt != Some(t.index);
    var s := SendNext(p, t, ok, end);
    if s.turn.None? then Outcome(s.pub, ok, [s.envelope])
    else
      var rest := SendAll(s.pub, s.turn.value, failAt, end);
      rest.(envelopes := [s.envelope] + rest.envelopes)
  }

  // ---------------------------------------------------------------- the code's own form

  class HealthPublisher {
    const boot: nat
    const batchMax: nat
    const interval: Time
    var sent: map<Code, Signature>
    var sequence: nat
    var snapshots: nat
    var needed: bool
    var lastAt: Time

    ghost function View(): Publisher
      reads this
    {
      Publisher(boot, batchMax, interval, sent, sequence, snapshots, needed, lastAt)
    }

    constructor (boot: nat, batchMax: int, interval: Time)
      ensures View() == NewPublisher(boot, batchMax, interval)
    {
      this.boot := boot;
      this.batchMax := if batchMax < 1 then 1 else batchMax;
      this.interval := if interval < 10.0 then 10.0 else interval;
      sent, sequence, snapshots, needed, lastAt := map[], 0, 0, true, 0.0;
    }

    method RequestSnapshot()
      modifies this`needed
      ensures View() == old(View()).(needed := true)
    {
      needed := true;
    }

    /** The table of signatures and the devices to send. */
    method Collect(rows: seq<Row>, snapshot: bool) returns (table: map<Code, Signature>, devices: seq<Device>)
      ensures table == Table(rows) && devices == Selected(View(), rows, snapshot)
    {
      table, devices := map[], [];
      for i := 0 to |rows|
        invariant table == Table(rows[..i]) && devices == Selected(View(), rows[..i], snapshot)
      {
        var row := rows[i];
        assert rows[..i + 1][..i] == rows[..i];
        if row.record.Some? {
          var signature := SignatureOf(row.record.value);
          table := table[row.code := signature];
          if snapshot || !(row.code in sent && sent[row.code] == signature) {
            devices := devices + [Device(row.code, row.record.value)];
          }
        }
      }
      assert rows[..|rows|] == rows;
    }

    method Remember(devices: seq<Device>)
      modifies this`sent
      ensures sent == Note(old(sent), devices)
    {
      for i := 0 to |devices|
        invariant sent == Note(old(sent), devices[..i])
      {
        assert devices[..i + 1][..i] == devices[..i];
        sent := sent[devices[i].code := SignatureOf(devices[i].record)];
      }
      assert devices[..|devices|] == devices;
    }

    /** One turn (`_tur`); None means there was nothing to send. */
    method RunTurn(rows: seq<Row>, failAt: Option<nat>, now: Time, end: Time)
      returns (done: Option<bool>, envelopes: seq<Envelope>)
      requires Valid(View())
      modifies this
      ensures var started := Begin(old(View()), rows, now);
              if started.1.None? then View() == started.0 && done == None && envelopes == []
              else Started(started.1.value)
                   && var o := SendAll(started.0, started.1.value, failAt, end);
                      View() == o.pub && done == Some(o.success) && envelopes == o.envelopes
    {
      var snapshot := needed || lastAt == 0.0;
      if !snapshot {
        snapshot := now - lastAt >= interval;
      }
      var table, devices := Collect(rows, snapshot);
      if devices == [] {
        sent := table;
        return None, [];
      }
      if snapshot {
        snapshots := snapshots + 1;
      }
      ghost var turn := Turn(table, Parts(devices, batchMax), snapshot, snapshots, 0);
      assert Started(turn) by { PartsPartition(devices, batchMax); }
      var ok;
      ok, envelopes := SendBatches(devices, table, snapshot, failAt, end, turn);
      done := Some(ok);
    }

    /** The loop over batches, starting position `i` advancing by `batchMax`. */
    method SendBatches(devices: seq<Device>, table: map<Code, Signature>, snapshot: bool, failAt: Option<nat>,
                       end: Time, ghost turn: Turn)
      returns (ok: bool, envelopes: seq<Envelope>)
      requires Valid(View()) && devices != []
      requires turn == Turn(table, Parts(devices, batchMax), snapshot, snapshots, 0) && Started(turn)
      modifies this`sequence, this`sent, this`needed, this`lastAt
      ensures var o := SendAll(old(View()), turn, failAt, end);
              View() == o.pub && ok == o.success && envelopes == o.envelopes
    {
      hide SendNext, SendAll, Join, EnvelopeOf, Here, Remaining, Parts;
      PartsPartition(devices, batchMax);
      AtStart(View(), devices, turn, failAt, end);
      var count := (|devices| + batchMax - 1) / batchMax;
      envelopes := [];
      var i := 0;
      ghost var index := 0;
      ghost var all := SendAll(View(), turn, failAt, end);
      while i < |devices|
        invariant i == index * batchMax
        invariant Here(devices, batchMax, turn, i, index)
        invariant View() == old(View()).(sequence := sequence, sent := sent)
        invariant Remaining(View(), turn, index, failAt, end, envelopes, all)
        decreases |devices| - i
      {
        var part := devices[i..if i + batchMax < |devices| then i + batchMax else |devices|];
        NextPart(devices, batchMax, turn, i, index);
        DivExact(index, 0, batchMax);
        Advance(View(), turn, index, failAt, end, envelopes, all);
        var outcome := SendBatch(part, i / batchMax, count, snapshot, |table|, failAt, turn.(index := index));
        envelopes := envelopes + [outcome.0];
        if !outcome.1 {
          return false, envelopes;
        }
        i := i + batchMax;
        index := index + 1;
      }
      AtEnd(View(), devices, turn, i, index, failAt, end, envelopes, all);
      sent := table;
      if snapshot {
        needed, lastAt := false, end;
      }
      ok := true;
    }

    method SendBatch(part: seq<Device>, index: nat, count: nat, snapshot: bool, total: nat, failAt: Option<nat>,
                     ghost turn: Turn)
      returns (result: (Envelope, bool))
      requires turn.index == index < |turn.parts| == count && turn.parts[index] == part
      requires turn.snapshot == snapshot && turn.n == snapshots && total == |turn.table|
      modifies this`sequence, this`sent
      ensures result == (EnvelopeOf(old(View()), turn), failAt != Some(index))
      ensures View() == Acked(old(View()), turn, result.1)
    {
      sequence := sequence + 1;
      var e := Envelope(Mark(boot, sequence),
                        if snapshot then Some(PartOf(Id(boot, snapshots), index, count)) else None, part, total);
      if failAt == Some(index) {
        return (e, false);
      }
      Remember(part);
      return (e, true);
    }
  }

  // ---------------------------------------------------------------- the loop and the function

  /** The publisher right after one batch, before a finished turn is recorded. */
  ghost function Acked(p: Publisher, t: Turn, ok: bool): Publisher
    requires t.index < |t.parts|
  {
    var q := p.(sequence := p.sequence + 1);
    if ok then q.(sent := Note(q.sent, t.parts[t.index])) else q
  }

  /** The parts still to send are the batches of the devices from position i on. */
  ghost predicate Here(devices: seq<Device>, most: nat, t: Turn, i: nat, index: nat)
    requires most >= 1
  {
    && index <= |t.parts|
    && (if i < |devices| then t.parts[index..] == Parts(devices[i..], most) else index == |t.parts|)
  }

  lemma NextPart(devices: seq<Device>, most: nat, t: Turn, i: nat, index: nat)
    requires most >= 1 && i < |devices| && Here(devices, most, t, i, index)
    ensures index < |t.parts|
    ensures t.parts[index] == devices[i..if i + most < |devices| then i + most else |devices|]
    ensures Here(devices, most, t, i + most, index + 1)
  {
  }

  /** What the whole turn comes to, given what has been sent up to batch `index`. */
  ghost predicate Remaining(p: Publisher, t: Turn, index: nat, failAt: Option<nat>, end: Time, done: seq<Envelope>,
                            all: Outcome)
  {
    if index < |t.parts| then
      var o := SendAll(p, t.(index := index), failAt, end);
      all == o.(envelopes := done + o.envelopes)
    else all == Outcome(Finished(p, t, end), true, done)
  }

  lemma AtStart(p: Publisher, devices: seq<Device>, t: Turn, failAt: Option<nat>, end: Time)
    requires p.batchMax >= 1 && devices != [] && Started(t) && t.parts == Parts(devices, p.batchMax)
    ensures Here(devices, p.batchMax, t, 0, 0)
    ensures Remaining(p, t, 0, failAt, end, [], SendAll(p, t, failAt, end))
  {
  }

  lemma AtEnd(p: Publisher, devices: seq<Device>, t: Turn, i: nat, index: nat, failAt: Option<nat>, end: Time,
              done: seq<Envelope>, all: Outcome)
    requires p.batchMax >= 1 && i >= |devices|
    requires Here(devices, p.batchMax, t, i, index) && Remaining(p, t, index, failAt, end, done, all)
    ensures all == Outcome(Finished(p, t, end), true, done)
  {
  }

  lemma Advance(p: Publisher, t: Turn, index: nat, failAt: Option<nat>, end: Time, done: seq<Envelope>, all: Outcome)
    requires index < |t.parts| && Remaining(p, t, index, failAt, end, done, all)
    ensures var here := t.(index := index);
            var ok := failAt != Some(index);
            var more := done + [EnvelopeOf(p, here)];
            if ok then Remaining(Acked(p, here, true), t, index + 1, failAt, end, more, all)
            else all == Outcome(Acked(p, here, false), false, more)
  {
  }
}
