/** The per-device cache as a value: what each method of `_DeviceCache` does to the
    state that the lock protects. Time is one monotonic clock in seconds; 0.0 is the
    source's "unset" sentinel, so clock readings are positive. */
module CacheModel {
  import opened Wrappers

  type Time = real

  // ---------------------------------------------------------------- measurements

  datatype Key = Key(group: int, index: int)

  /** The part of a measurement that is compared to decide whether it changed. */
  datatype Sample = Sample(raw: real, text: Option<string>, flags: Option<int>)

  datatype Entry = Entry(sample: Sample, deviceTime: Option<real>, timeQuality: Option<string>)

  /** What a poll takes out of the cache for one key: the value and its version token. */
  datatype Taken = Taken(key: Key, version: nat, entry: Entry)

  /** `order` is the insertion order of the `_values` dictionary. */
  datatype Store = Store(
    order: seq<Key>,
    values: map<Key, Entry>,
    versions: map<Key, nat>,
    versionSeq: nat,
    dirty: set<Key>)

  ghost predicate Distinct(keys: seq<Key>) {
    forall i, j :: 0 <= i < j < |keys| ==> keys[i] != keys[j]
  }

  function KeySet(keys: seq<Key>): set<Key> {
    set k | k in keys
  }

  ghost predicate ValidStore(s: Store) {
    && Distinct(s.order)
    && KeySet(s.order) == s.values.Keys
    && s.versions.Keys == s.values.Keys
    && s.dirty <= s.values.Keys
    && (forall k :: k in s.versions ==> 1 <= s.versions[k] <= s.versionSeq)
  }

  const EMPTY_STORE := Store([], map[], map[], 0, {})

  /** Mark one key dirty under a new version. */
  function Touch(s: Store, k: Key): Store {
    s.(dirty := s.dirty + {k}, versionSeq := s.versionSeq + 1, versions := s.versions[k := s.versionSeq + 1])
  }

  function TouchAll(s: Store, keys: seq<Key>): Store {
    if keys == [] then s else Touch(TouchAll(s, keys[..|keys| - 1]), keys[|keys| - 1])
  }

  function MarkAllDirty(s: Store): Store {
    TouchAll(s, s.order)
  }

  predicate Changes(s: Store, k: Key, e: Entry) {
    k !in s.values || s.values[k].sample != e.sample
  }

  function Put(s: Store, k: Key, e: Entry): Store {
    s.(order := if k in s.values then s.order else s.order + [k], values := s.values[k := e])
  }

  function StoreSet(s: Store, k: Key, e: Entry): Store {
    if Changes(s, k, e) then Touch(Put(s, k, e), k) else Put(s, k, e)
  }

  function VersionOf(s: Store, k: Key): nat {
    if k in s.versions then s.versions[k] else 0
  }

  function PeekIfDirty(s: Store, k: Key): Option<Taken> {
    if k in s.dirty && k in s.values then Some(Taken(k, VersionOf(s, k), s.values[k])) else None
  }

  /** Some acknowledged item carries the key's current version. */
  predicate Acknowledged(s: Store, items: seq<Taken>, k: Key) {
    exists i :: 0 <= i < |items| && items[i].key == k && items[i].version == VersionOf(s, k)
  }

  function CommitPublished(s: Store, items: seq<Taken>): Store {
    s.(dirty := set k | k in s.dirty && !Acknowledged(s, items, k))
  }

  // ---------------------------------------------------------------- link state

  datatype Mode = Lost | Recovering | Online | SmartIdle

  datatype Link = Link(
    connected: bool,
    linkOpenedAt: Time,
    lastUpdateAt: Time,
    lastEvidenceAt: Time,
    mode: Mode,
    recoveryStartedAt: Time,
    recoveryAnchorAt: Time,
    evidenceSeq: nat,
    recoveryFailedSeq: Option<nat>,
    deferralStartedAt: Time,
    pendingRecovery: bool,
    smart: bool,
    sessionEvidence: bool,
    idleSince: Time,
    lastContact: Time,
    wakeupPending: Time)

  datatype Announce = Announce(announced: bool, generation: nat)

  datatype G110 = G110(waiting: bool, arrived: bool, attempts: nat, nextAt: Time)

  datatype Cache = Cache(store: Store, link: Link, announce: Announce, g110: G110)

  const OBJECT_GROUP_STRING := 110
  const G110_BACKOFF_BASE_SEC: Time := 15.0
  const G110_BACKOFF_MAX_SEC: Time := 240.0
  const G110_MAX_ATTEMPTS := 6

  function NewLink(smart: bool): Link {
    Link(false, 0.0, 0.0, 0.0, Lost, 0.0, 0.0, 0, None, 0.0, false, smart, false, 0.0, 0.0, -1.0)
  }

  function NewCache(smart: bool): Cache {
    Cache(EMPTY_STORE, NewLink(smart), Announce(false, 0), G110(false, false, 0, 0.0))
  }

  function Witness(l: Link, now: Time): Link {
    l.(lastEvidenceAt := now, evidenceSeq := l.evidenceSeq + 1, sessionEvidence := true, lastContact := now)
  }

  /** `note_evidence`: an IIN or a successful task, without data. */
  function NoteEvidence(c: Cache, now: Time): Cache {
    c.(link := Witness(c.link, now))
  }

  predicate ConfirmsRecovery(l: Link, now: Time) {
    l.mode == Recovering && now >= l.recoveryAnchorAt
  }

  function MeasureStore(s: Store, l: Link, k: Key, e: Entry, now: Time): Store {
    if ConfirmsRecovery(l, now) then MarkAllDirty(StoreSet(s, k, e)) else StoreSet(s, k, e)
  }

  function MeasureLink(l: Link, now: Time): Link {
    var w := Witness(l, now).(lastUpdateAt := now);
    if ConfirmsRecovery(l, now) then w.(mode := Online, pendingRecovery := true, deferralStartedAt := 0.0) else w
  }

  function MeasureStrings(g: G110, k: Key): G110 {
    if k.group == OBJECT_GROUP_STRING then g.(arrived := true, waiting := false) else g
  }

  /** `set`: a measurement arrived. The first one after the anchor confirms a recovery
      and re-dirties every known key in the same locked section. */
  function Measure(c: Cache, k: Key, e: Entry, now: Time): Cache {
    Cache(MeasureStore(c.store, c.link, k, e, now), MeasureLink(c.link, now), c.announce, MeasureStrings(c.g110, k))
  }

  function BeginRecovery(l: Link, now: Time): Link {
    if l.mode == Recovering then l
    else l.(mode := Recovering, recoveryStartedAt := now, recoveryAnchorAt := now,
            pendingRecovery := false, recoveryFailedSeq := None)
  }

  function RecoveryAge(l: Link, now: Time): Time {
    if l.mode != Recovering || l.recoveryStartedAt == 0.0 then 0.0 else now - l.recoveryStartedAt
  }

  function FailRecovery(l: Link): Link {
    if l.mode == Recovering then
      l.(mode := Lost, recoveryStartedAt := 0.0, recoveryAnchorAt := 0.0,
         pendingRecovery := false, recoveryFailedSeq := Some(l.evidenceSeq))
    else l
  }

  /** A failed recovery may only be retried on evidence newer than the failure. */
  predicate RelinkAllowed(l: Link) {
    l.recoveryFailedSeq.None? || l.evidenceSeq > l.recoveryFailedSeq.value
  }

  function OpenLink(l: Link, now: Time): Link {
    if l.connected then l
    else
      var o := l.(connected := true, linkOpenedAt := now, recoveryFailedSeq := None, sessionEvidence := false);
      if l.idleSince == 0.0 then o
      else o.(idleSince := 0.0, wakeupPending := if now > l.idleSince then now - l.idleSince else 0.0)
  }

  /** Closing after a session that carried evidence is expected sleep for a smart device. */
  function CloseLink(l: Link, now: Time): Link {
    var idleSince := if l.smart && l.sessionEvidence then now else l.idleSince;
    l.(connected := false, linkOpenedAt := 0.0, idleSince := idleSince,
       mode := if idleSince != 0.0 then SmartIdle else Lost,
       recoveryStartedAt := 0.0, recoveryAnchorAt := 0.0,
       pendingRecovery := false, lastEvidenceAt := 0.0)
  }

  /** `set_connected` */
  function SetConnected(c: Cache, ok: bool, now: Time): Cache {
    if ok then c.(link := OpenLink(c.link, now))
    else c.(link := CloseLink(c.link, now), g110 := G110(false, false, 0, 0.0))
  }

  /** `comm_lost_ertelenebilir`: whether a waking smart device may still postpone comm_lost. */
  function DeferCommLost(l: Link, grace: Time, now: Time): (Link, bool) {
    if l.deferralStartedAt == 0.0 then (l.(deferralStartedAt := now), true)
    else (l, now - l.deferralStartedAt <= if grace > 0.0 then grace else 0.0)
  }

  function EnterSmartIdle(l: Link, anchor: bool, now: Time): Link {
    if l.idleSince != 0.0 then l
    else l.(idleSince := now, mode := SmartIdle,
            lastContact := if l.lastContact == 0.0 && anchor then now else l.lastContact)
  }

  function ExitSmartIdle(l: Link): Link {
    l.(idleSince := 0.0)
  }

  function SmartIdleToLost(l: Link): Link {
    if l.idleSince == 0.0 then l
    else l.(idleSince := 0.0, sessionEvidence := false, mode := Lost)
  }

  // ---------------------------------------------------------------- announcements, strings

  function ConfirmStale(a: Announce, generation: nat): Announce {
    if generation == a.generation && !a.announced then a.(announced := true) else a
  }

  function ResetStale(a: Announce): Announce {
    Announce(false, a.generation + 1)
  }

  function RequestStrings(g: G110): G110 {
    G110(true, false, 0, 0.0)
  }

  function Pow2(n: nat): nat {
    if n == 0 then 1 else 2 * Pow2(n - 1)
  }

  /** Delay after the k-th string request (k from 1). */
  function StringDelay(k: nat): Time
    requires k >= 1
  {
    var d := G110_BACKOFF_BASE_SEC * Pow2(k - 1) as real;
    if d < G110_BACKOFF_MAX_SEC then d else G110_BACKOFF_MAX_SEC
  }

  predicate StringsDue(g: G110, ceiling: nat, now: Time) {
    g.waiting && !g.arrived && now >= g.nextAt && g.attempts < ceiling
  }

  function CountStringRequest(g: G110, now: Time): G110 {
    g.(attempts := g.attempts + 1, nextAt := now + StringDelay(g.attempts + 1))
  }
}
