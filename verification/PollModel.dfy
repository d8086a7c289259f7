/** One poll of one device (`_oku`) as a function of the master's state. A poll reads the
    link state once and acts on it, so it is one step against the I/O callbacks. */
module PollModel {
  import opened Wrappers
  import opened CacheModel

  const RECOVERY_GRACE_SEC: Time := 15.0
  const AUTO_DECISION_SEC: Time := 120.0

  /** The device's reported operation mode, as read from the cache. */
  datatype OpMode = Unknown | SmartMode | BoostMode

  /** State of `auto` classification; `configured` is false for a manual policy. */
  datatype Auto = Auto(configured: bool, known: OpMode, connectedSince: Time, classified: bool, fallback: bool)

  datatype Master = Master(cache: Cache, auto: Auto)

  /** What a poll is given: thresholds, endpoint type, the observed mode, whether adding scans
      works, and the keys of the signal list. A silence limit of 0.0 switches the watch off. */
  datatype Env = Env(
    threshold: Time,
    silenceLimit: Time,
    initiating: bool,
    createdAt: Time,
    seen: OpMode,
    scansStart: bool,
    keys: seq<Key>)

  /** What the readings of one poll say: measurements (with version tokens), comm_lost with its
      generation token, nothing because it was already announced or is postponed, or nothing
      because the master was just dropped. */
  datatype Emission = Values(tokens: seq<Taken>) | CommLost(generation: nat) | Repeated | Deferred | Dropped

  /** `asksForData` and `probes` hand the poll over to the rate-limited data-silence and
      lost-device probes; `resets` clears the lost-device probe record. */
  datatype Poll = Poll(
    after: Master,
    out: Emission,
    stringRounds: nat,
    integrityPolls: nat,
    entered: nat,
    resets: bool,
    asksForData: bool,
    probes: bool)

  // ---------------------------------------------------------------- auto classification

  datatype Classified = Classified(auto: Auto, link: Link, integrityPolls: nat, dropped: bool)

  function EnableScans(a: Auto, l: Link, env: Env): Classified {
    if l.smart && env.scansStart then Classified(a, l.(smart := false), 0, false)
    else Classified(a, l, 0, true)
  }

  /** `_auto_politikayi_coz` */
  function Classify(a: Auto, l: Link, env: Env, now: Time): Classified {
    if !a.configured then Classified(a, l, 0, false)
    else if env.seen != Unknown then
      var b := a.(known := env.seen, fallback := false);
      if env.seen == a.known then Classified(a, l, 0, false)
      else if env.seen == SmartMode then Classified(b, l, 0, !l.smart)
      else EnableScans(b, ExitSmartIdle(l), env)
    else if !l.connected then
      Classified(a.(connectedSince := 0.0, classified := false), l, 0, false)
    else if a.connectedSince == 0.0 then
      if env.initiating || a.classified then Classified(a.(connectedSince := now), l, 0, false)
      else Classified(a.(connectedSince := now, classified := true), l, 1, false)
    else if now - a.connectedSince < AUTO_DECISION_SEC || a.fallback then Classified(a, l, 0, false)
    else EnableScans(a.(fallback := true), l, env)
  }

  // ---------------------------------------------------------------- smart idle

  /** `_sessizlik_yasi` */
  function SilenceAge(l: Link, env: Env, now: Time): Time {
    if l.lastContact != 0.0 then now - l.lastContact
    else if now > env.createdAt then now - env.createdAt else 0.0
  }

  predicate SilenceExceeded(l: Link, env: Env, now: Time) {
    env.silenceLimit != 0.0 && SilenceAge(l, env, now) > env.silenceLimit
  }

  /** `_smart_idle_denetle`: the new link state and whether the device is still asleep. */
  function CheckSmartIdle(l: Link, env: Env, connected: bool, now: Time): (Link, bool) {
    var a := l.(wakeupPending := -1.0);
    if a.idleSince == 0.0 && (env.initiating || connected || SilenceExceeded(a, env, now)) then (a, false)
    else
      var b := EnterSmartIdle(a, env.createdAt != 0.0, now);
      if SilenceExceeded(b, env, now) then (SmartIdleToLost(b), false) else (b, true)
  }

  // ---------------------------------------------------------------- link decision

  predicate Stale(l: Link, env: Env, now: Time) {
    l.lastEvidenceAt == 0.0 || now - l.lastEvidenceAt > env.threshold
  }

  predicate DataStale(l: Link, env: Env, now: Time) {
    l.lastUpdateAt == 0.0 || now - l.lastUpdateAt > env.threshold
  }

  /** A continuous device that is online but silent goes back to recovering. */
  predicate StaleEdge(l: Link, stale: bool) {
    l.connected && stale && l.mode == Online && !l.smart
  }

  function TimeOutRecovery(l: Link, now: Time): Link {
    if l.mode == Recovering && RecoveryAge(l, now) > RECOVERY_GRACE_SEC then FailRecovery(l) else l
  }

  /** A lost device whose link is open and which has spoken since the last failure. */
  predicate Relinks(l: Link, stale: bool) {
    l.mode == Lost && l.connected && !stale && RelinkAllowed(l)
  }

  datatype Judged = Judged(link: Link, entered: nat, integrityPolls: nat, relinked: bool)

  function Judge(l: Link, stale: bool, now: Time): Judged {
    var edge := StaleEdge(l, stale);
    var l1 := if edge then BeginRecovery(l, now) else l;
    var l2 := TimeOutRecovery(l1, now);
    var again := Relinks(l2, stale);
    var l3 := if again then BeginRecovery(l2, now) else l2;
    Judged(l3, (if edge then 1 else 0) + (if again then 1 else 0),
           (if edge then 1 else 0) + (if again && !l.smart then 1 else 0), again)
  }

  // ---------------------------------------------------------------- readings

  /** `_degisenleri_yayinla`: the dirty signals, in signal order. */
  function TakeDirty(s: Store, keys: seq<Key>): seq<Taken> {
    if keys == [] then []
    else
      var rest := TakeDirty(s, keys[..|keys| - 1]);
      var t := PeekIfDirty(s, keys[|keys| - 1]);
      if t.Some? then rest + [t.value] else rest
  }

  datatype Spoken = Spoken(cache: Cache, out: Emission)

  function Speak(c: Cache, env: Env, now: Time): Spoken {
    var l := c.link;
    if l.mode != Online then
      var postponed := l.smart && l.mode == Recovering;
      var d := if postponed then DeferCommLost(l, RECOVERY_GRACE_SEC, now) else (l, false);
      Spoken(c.(link := d.0),
             if d.1 then Deferred
             else if c.announce.announced then Repeated
             else CommLost(c.announce.generation))
    else if l.pendingRecovery then
      var r := c.(link := l.(pendingRecovery := false), announce := ResetStale(c.announce),
                  store := MarkAllDirty(c.store));
      Spoken(r, Values(TakeDirty(r.store, env.keys)))
    else
      Spoken(c, Values(TakeDirty(c.store, env.keys)))
  }

  datatype Awake = Awake(cache: Cache, out: Emission, integrityPolls: nat, entered: nat, resets: bool, probes: bool)

  /** The part of a poll that a sleeping device does not reach. */
  function WakePoll(c: Cache, stale: bool, env: Env, now: Time): Awake {
    var j := Judge(c.link, stale, now);
    var said := Speak(c.(link := j.link), env, now);
    Awake(said.cache, said.out, j.integrityPolls, j.entered,
          (c.link.connected && !stale) || j.relinked || j.link.mode == Online,
          j.link.mode == Lost && !j.link.smart)
  }

  /** `_oku` */
  function PollOnce(m: Master, env: Env, now: Time): Poll {
    var connected := m.cache.link.connected;
    var k := Classify(m.auto, m.cache.link, env, now);
    if k.dropped then
      Poll(Master(m.cache.(link := k.link), k.auto), Dropped, 0, k.integrityPolls, 0, false, false, false)
    else
      var smart := k.link.smart;
      var due := connected && StringsDue(m.cache.g110, if smart then 1 else G110_MAX_ATTEMPTS, now);
      var g := if due then CountStringRequest(m.cache.g110, now) else m.cache.g110;
      var rounds := if due then 1 else 0;
      var stale := Stale(k.link, env, now);
      var idle := if smart then CheckSmartIdle(k.link, env, connected, now) else (k.link, false);
      var c := m.cache.(link := idle.0, g110 := g);
      if idle.1 then
        Poll(Master(c, k.auto), Values(TakeDirty(c.store, env.keys)), rounds, k.integrityPolls, 0, false, false, false)
      else
        var w := WakePoll(c, stale, env, now);
        Poll(Master(w.cache, k.auto), w.out, rounds, k.integrityPolls + w.integrityPolls, w.entered, w.resets,
             connected && !stale && DataStale(k.link, env, now) && !smart, w.probes)
  }
}
