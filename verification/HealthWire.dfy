/** The device-health wire: records and their semantic signature, batched envelopes, and a
    receiver written from the envelope's contract. */
module HealthWire {
  import opened Wrappers

  type Code = string

  datatype Field =
    // Changes here are state changes and trigger a delta.
    | ConfiguredPolicy | Connected | ConnectionState | DeviceClockStatus | DeviceCode | DialInMinutes
    | EffectivePolicy | IpEndpointType | IpProbe | NeedTime | OperationMode | Reachable | ReportLate | TcpProbe
    // Observations ride along but trigger nothing.
    | NextReport | ReportOverdue | LastContact | LastFrame | LastProbe | ClockOffset | LastDeviceTime | SessionStarted

  datatype Datum = Null | Text(text: string) | Flag(flag: bool) | Number(number: real)

  type Record = map<Field, Datum>

  const SEMANTIC: seq<Field> := [
    ConfiguredPolicy, Connected, ConnectionState, DeviceClockStatus, DeviceCode, DialInMinutes, EffectivePolicy,
    IpEndpointType, IpProbe, NeedTime, OperationMode, Reachable, ReportLate, TcpProbe]

  predicate Observational(f: Field) {
    f.NextReport? || f.ReportOverdue? || f.LastContact? || f.LastFrame? || f.LastProbe? || f.ClockOffset?
    || f.LastDeviceTime? || f.SessionStarted?
  }

  function Get(r: Record, f: Field): Datum {
    if f in r then r[f] else Null
  }

  type Signature = seq<Datum>

  function SignatureOf(r: Record): Signature {
    seq(|SEMANTIC|, i requires 0 <= i < |SEMANTIC| => Get(r, SEMANTIC[i]))
  }

  /** Every field belongs to exactly one of the two classes. */
  lemma FieldsAreClassified(f: Field)
    ensures f in SEMANTIC <==> !Observational(f)
  {
  }

  /** Two records have the same signature exactly when they differ in observations only. */
  lemma SignatureIsSemantics(a: Record, b: Record)
    ensures SignatureOf(a) == SignatureOf(b) <==> forall f :: !Observational(f) ==> Get(a, f) == Get(b, f)
  {
    if SignatureOf(a) == SignatureOf(b) {
      forall f | !Observational(f)
        ensures Get(a, f) == Get(b, f)
      {
        FieldsAreClassified(f);
        var i :| 0 <= i < |SEMANTIC| && SEMANTIC[i] == f;
        assert SignatureOf(a)[i] == SignatureOf(b)[i];
      }
    }
    if forall f :: !Observational(f) ==> Get(a, f) == Get(b, f) {
      forall i | 0 <= i < |SEMANTIC|
        ensures SignatureOf(a)[i] == SignatureOf(b)[i]
      {
        FieldsAreClassified(SEMANTIC[i]);
      }
    }
  }

  // ---------------------------------------------------------------- envelopes

  datatype Device = Device(code: Code, record: Record)

  /** Ordering pair of an envelope. */
  datatype Mark = Mark(boot: nat, seqNo: nat)

  /** Identity of one full snapshot: boot number and a counter. */
  datatype Id = Id(boot: nat, n: nat)

  datatype PartOf = PartOf(id: Id, index: nat, count: nat)

  datatype Envelope = Envelope(mark: Mark, part: Option<PartOf>, devices: seq<Device>, total: nat)

  predicate Newer(a: Mark, b: Mark) {
    a.boot > b.boot || (a.boot == b.boot && a.seqNo > b.seqNo)
  }

  /** The batches of one turn: at most `most` devices each. */
  function Parts(devices: seq<Device>, most: nat): seq<seq<Device>>
    requires most >= 1
  {
    if devices == [] then []
    else if |devices| <= most then [devices]
    else [devices[..most]] + Parts(devices[most..], most)
  }

  function Join(parts: seq<seq<Device>>): seq<Device> {
    if parts == [] then [] else Join(parts[..|parts| - 1]) + parts[|parts| - 1]
  }

  lemma {:induction false} JoinCons(first: seq<Device>, parts: seq<seq<Device>>)
    ensures Join([first] + parts) == first + Join(parts)
  {
    if parts == [] {
      assert [first] + parts == [first];
      assert [first][..0] == [];
      assert Join([]) == [];
    } else {
      var n := |parts| - 1;
      assert ([first] + parts)[..n + 1] == [first] + parts[..n];
      JoinCons(first, parts[..n]);
    }
  }

  lemma {:induction false} PartsJoin(devices: seq<Device>, most: nat)
    requires most >= 1
    ensures Join(Parts(devices, most)) == devices
    ensures forall i :: 0 <= i < |Parts(devices, most)| ==> 1 <= |Parts(devices, most)[i]| <= most
  {
    if devices == [] {
    } else if |devices| <= most {
      assert [devices][..0] == [];
      assert Join([]) == [];
    } else {
      PartsJoin(devices[most..], most);
      JoinCons(devices[..most], Parts(devices[most..], most));
    }
  }

  lemma {:induction false} PartsCount(devices: seq<Device>, most: nat)
    requires most >= 1
    ensures |Parts(devices, most)| == (|devices| + most - 1) / most
  {
    if devices == [] {
      DivExact(0, most - 1, most);
    } else if |devices| <= most {
      DivExact(1, |devices| - 1, most);
    } else {
      PartsCount(devices[most..], most);
      DivStep(|devices| - 1, most);
    }
  }

  /** The batches partition the devices in order; none is empty or longer than the limit, and
      their number is the rounded-up quotient the envelope announces. */
  lemma PartsPartition(devices: seq<Device>, most: nat)
    requires most >= 1
    ensures Join(Parts(devices, most)) == devices
    ensures forall i :: 0 <= i < |Parts(devices, most)| ==> 1 <= |Parts(devices, most)[i]| <= most
    ensures |Parts(devices, most)| == (|devices| + most - 1) / most
  {
    hide Parts, Join;
    PartsJoin(devices, most);
    PartsCount(devices, most);
  }

  lemma DivExact(q: nat, r: nat, d: nat)
    requires r < d
    ensures (q * d + r) / d == q
  {
    var x := (q * d + r) / d;
    assert q * d + r == x * d + (q * d + r) % d;
    MulOrder(x + 1, q, d);
    MulOrder(q + 1, x, d);
  }

  lemma MulOrder(a: nat, b: nat, d: nat)
    ensures a <= b ==> a * d <= b * d
  {
  }

  lemma DivStep(n: nat, d: nat)
    requires d >= 1
    ensures (n + d) / d == n / d + 1
  {
    assert n == (n / d) * d + n % d;
    assert (n / d + 1) * d == (n / d) * d + d;
    DivExact(n / d + 1, n % d, d);
  }

  // ---------------------------------------------------------------- the receiver

  type Rows = map<Code, Record>

  function Apply(rows: Rows, devices: seq<Device>): Rows {
    if devices == [] then rows
    else Apply(rows, devices[..|devices| - 1])[devices[|devices| - 1].code := devices[|devices| - 1].record]
  }

  /** A snapshot whose batches are still coming in. */
  datatype Partial = Partial(id: Id, count: nat, got: map<nat, seq<Device>>)

  datatype Receiver = Receiver(last: Mark, rows: Rows, pending: Option<Partial>)

  const EMPTY_RECEIVER := Receiver(Mark(0, 0), map[], None)

  predicate Complete(p: Partial) {
    forall i | 0 <= i < p.count :: i in p.got
  }

  function Collected(got: map<nat, seq<Device>>, count: nat): seq<seq<Device>>
    requires forall i | 0 <= i < count :: i in got
  {
    seq(count, i requires 0 <= i < count => got[i])
  }

  function Continue(r: Receiver, part: PartOf): Partial {
    if r.pending.Some? && r.pending.value.id == part.id then r.pending.value else Partial(part.id, part.count, map[])
  }

  /** The wire contract: envelopes not newer than the last one are stale; a batch of another
      snapshot discards an incomplete one; only a complete snapshot replaces the rows, and only
      then do missing devices disappear. */
  function Receive(r: Receiver, e: Envelope): Receiver {
    if !Newer(e.mark, r.last) then r
    else if e.part.None? then Receiver(e.mark, Apply(r.rows, e.devices), r.pending)
    else
      var p := Continue(r, e.part.value);
      var q := p.(got := p.got[e.part.value.index := e.devices]);
      if Complete(q) then Receiver(e.mark, Apply(map[], Join(Collected(q.got, q.count))), None)
      else Receiver(e.mark, r.rows, Some(q))
  }
}
