/** What the gateway does about a lost device whose socket still looks open: rate-limited
    integrity polls, and after enough of them a forced relink with exponential backoff.
    `Prober` is the code's own form; the properties are about runs of many devices, where the
    two halves of a probe (counting it, then deciding on a relink) interleave freely. */
module RelinkBackoff {
  import opened Wrappers
  import opened CacheModel

  const MIN_LINK_AGE_SEC: Time := 300.0
  const BACKOFF_BASE_SEC: Time := 300.0
  const BACKOFF_MAX_SEC: Time := 3600.0
  const COMMAND_GRACE_SEC: Time := 60.0

  type Code = string

  /** `interval` seconds between probes, `probes` unanswered ones before a relink. */
  datatype Limits = Limits(interval: Time, probes: nat)

  /** A configured value of zero selects the default. */
  function Effective(configured: Limits): Limits {
    Limits(if configured.interval == 0.0 then 30.0 else configured.interval,
           if configured.probes == 0 then 3 else configured.probes)
  }

  /** The record of one device; `backoff` and `relinkedAt` are 0.0 until the first relink. */
  datatype Record = Record(last: Time, tries: nat, relinkedAt: Time, backoff: Time)

  datatype Book = Book(records: map<Code, Record>, probed: nat, forced: nat)

  /** The link as the decision sees it: its age (negative when closed) and the last command. */
  datatype Session = Session(linkAge: Time, commandAt: Time)

  datatype Verdict = TooSoon | Probe | Decide

  function RecordOf(b: Book, d: Code, now: Time): Record {
    if d in b.records then b.records[d] else Record(now, 0, 0.0, 0.0)
  }

  /** First half: the rate limit and the counters. */
  function Arm(b: Book, lim: Limits, d: Code, now: Time): (Book, Verdict) {
    var r := RecordOf(b, d, 0.0);
    if now - r.last < lim.interval then (b.(records := b.records[d := r]), TooSoon)
    else
      var c := b.(records := b.records[d := r.(last := now, tries := r.tries + 1)]);
      if r.tries + 1 <= lim.probes then (c.(probed := c.probed + 1), Probe)
      else (c.(forced := c.forced + 1), Decide)
  }

  /** `_relink_denemesini_geri_al` */
  function Undo(b: Book, lim: Limits, d: Code): Book {
    Book(if d in b.records then b.records[d := b.records[d].(tries := lim.probes)] else b.records,
         b.probed, if b.forced > 0 then b.forced - 1 else 0)
  }

  predicate FreshSession(s: Session) {
    0.0 <= s.linkAge < MIN_LINK_AGE_SEC
  }

  predicate CommandUnderWay(s: Session, now: Time) {
    s.commandAt != 0.0 && now - s.commandAt < COMMAND_GRACE_SEC
  }

  predicate BackingOff(r: Record, now: Time) {
    r.relinkedAt != 0.0 && r.backoff != 0.0 && now - r.relinkedAt < r.backoff
  }

  function NextBackoff(previous: Time): Time {
    var next := if previous != 0.0 then previous * 2.0 else BACKOFF_BASE_SEC;
    if next < BACKOFF_MAX_SEC then next else BACKOFF_MAX_SEC
  }

  /** The reasons to postpone, with the clock reading of the count: true means go ahead. */
  function Weigh(b: Book, lim: Limits, d: Code, s: Session, now: Time): (Book, bool) {
    if FreshSession(s) || CommandUnderWay(s, now) then (Undo(b, lim, d), false)
    else
      var r := RecordOf(b, d, now);
      var kept := b.(records := b.records[d := r]);
      if BackingOff(r, now) then (Undo(kept, lim, d), false) else (kept, true)
  }

  /** After the session is torn down the record keeps only the relink and its doubled wait. */
  function Tear(b: Book, d: Code, now: Time): Book {
    b.(records := b.records[d := Record(0.0, 0, now, NextBackoff(RecordOf(b, d, 0.0).backoff))])
  }

  /** The decision as a whole; true means that the session was torn down. */
  function Settle(b: Book, lim: Limits, d: Code, s: Session, now: Time): (Book, bool) {
    var judged := Weigh(b, lim, d, s, now);
    if judged.1 then (Tear(judged.0, d, now), true) else judged
  }

  /** `_lost_probe_sifirla` */
  function Forget(b: Book, d: Code): Book {
    b.(records := b.records - {d})
  }

  // ---------------------------------------------------------------- the code's own form

  datatype Done = Nothing | Polled | Postponed | Relinked

  class Prober {
    var records: map<Code, Record>
    var probed: nat
    var forced: nat
    const limits: Limits

    ghost function View(): Book
      reads this
    {
      Book(records, probed, forced)
    }

    constructor (configured: Limits)
      ensures View() == Book(map[], 0, 0)
      ensures limits.interval == configured.interval || (configured.interval == 0.0 && limits.interval == 30.0)
      ensures limits.probes == configured.probes || (configured.probes == 0 && limits.probes == 3)
      ensures limits.interval != 0.0 && limits.probes != 0
    {
      records, probed, forced := map[], 0, 0;
      limits := Effective(configured);
    }

    /** `_kopuk_cihazi_yokla` of a device whose state is `lost`. */
    method ProbeLost(d: Code, connected: bool, session: Session, now: Time) returns (done: Done)
      modifies this
      ensures !connected ==> View() == old(View()) && done == Nothing
      ensures connected ==>
                var armed := Arm(old(View()), limits, d, now);
                var settled := Settle(armed.0, limits, d, session, now);
                match armed.1
                case TooSoon => View() == armed.0 && done == Nothing
                case Probe => View() == armed.0 && done == Polled
                case Decide => View() == settled.0 && done == if settled.1 then Relinked else Postponed
    {
      if !connected {
        return Nothing;
      }
      var verdict := CountAttempt(d, now);
      match verdict
      case TooSoon => done := Nothing;
      case Probe => done := Polled;
      case Decide =>
        var torn := TryRelink(d, session, now);
        done := if torn then Relinked else Postponed;
    }

    /** The rate limit and the counters. */
    method CountAttempt(d: Code, now: Time) returns (verdict: Verdict)
      modifies this
      ensures (View(), verdict) == Arm(old(View()), limits, d, now)
    {
      if d !in records {
        records := records[d := Record(0.0, 0, 0.0, 0.0)];
      }
      assert records == old(records)[d := RecordOf(old(View()), d, 0.0)];
      if now - records[d].last < limits.interval {
        return TooSoon;
      }
      records := records[d := records[d].(last := now, tries := records[d].tries + 1)];
      assert records == old(records)[d := records[d]];
      if records[d].tries <= limits.probes {
        probed := probed + 1;
        return Probe;
      }
      forced := forced + 1;
      return Decide;
    }

    /** The reasons not to relink, then the relink; the new record keeps only the backoff. */
    method TryRelink(d: Code, session: Session, now: Time) returns (torn: bool)
      modifies this
      ensures (View(), torn) == Settle(old(View()), limits, d, session, now)
    {
      if 0.0 <= session.linkAge < MIN_LINK_AGE_SEC {
        UndoAttempt(d);
        return false;
      }
      if session.commandAt != 0.0 && now - session.commandAt < COMMAND_GRACE_SEC {
        UndoAttempt(d);
        return false;
      }
      if d !in records {
        records := records[d := Record(now, 0, 0.0, 0.0)];
      }
      var r := records[d];
      assert records == old(records)[d := RecordOf(old(View()), d, now)];
      if r.relinkedAt != 0.0 && r.backoff != 0.0 && now - r.relinkedAt < r.backoff {
        UndoAttempt(d);
        return false;
      }
      records := records[d := Record(0.0, 0, now, NextBackoff(r.backoff))];
      assert records == old(records)[d := records[d]];
      return true;
    }

    method UndoAttempt(d: Code)
      modifies this`records, this`forced
      ensures View() == Undo(old(View()), limits, d)
    {
      if d in records {
        records := records[d := records[d].(tries := limits.probes)];
      }
      if forced > 0 {
        forced := forced - 1;
      }
    }

    method Reset(d: Code)
      modifies this`records
      ensures View() == Forget(old(View()), d)
    {
      if d !in records {
        return;
      }
      records := records - {d};
    }
  }

  // ---------------------------------------------------------------- runs

  /** A poll between its count and the end of its decision. */
  datatype Decision = Counted(now: Time) | Going(now: Time, session: Session)

  /** Polls run in numbered slots of their device; slots that are deciding are remembered. */
  datatype Slot = Slot(d: Code, p: nat)

  datatype Sys = Sys(book: Book, deciding: map<Slot, Decision>)

  datatype Move =
    | Armed(slot: Slot, now: Time)
    | Judged(slot: Slot, session: Session)
    | Torn(slot: Slot)
    | Heard(slot: Slot)

  /** A poll that is deciding does nothing else; polls in other slots may. */
  function Next(s: Sys, lim: Limits, move: Move): Sys {
    var d := move.slot.d;
    match move
    case Armed(slot, now) =>
      if slot in s.deciding then s
      else
        var armed := Arm(s.book, lim, d, now);
        Sys(armed.0, if armed.1.Decide? then s.deciding[slot := Counted(now)] else s.deciding)
    case Judged(slot, session) =>
      if slot !in s.deciding || !s.deciding[slot].Counted? then s
      else
        var now := s.deciding[slot].now;
        var judged := Weigh(s.book, lim, d, session, now);
        Sys(judged.0, if judged.1 then s.deciding[slot := Going(now, session)] else s.deciding - {slot})
    case Torn(slot) =>
      if !Performs(s, move) then s else Sys(Tear(s.book, d, s.deciding[slot].now), s.deciding - {slot})
    case Heard(slot) => if slot in s.deciding then s else s.(book := Forget(s.book, d))
  }

  predicate Performs(s: Sys, move: Move) {
    move.Torn? && move.slot in s.deciding && s.deciding[move.slot].Going?
  }

  predicate Asks(s: Sys, lim: Limits, move: Move) {
    move.Armed? && move.slot !in s.deciding && Arm(s.book, lim, move.slot.d, move.now).1.Probe?
  }

  const START := Sys(Book(map[], 0, 0), map[])

  function Run(lim: Limits, trace: seq<Move>): Sys {
    if trace == [] then START else Next(Run(lim, trace[..|trace| - 1]), lim, trace[|trace| - 1])
  }

  /** The clock is positive and never runs backwards. */
  ghost predicate Timed(trace: seq<Move>) {
    && (forall i :: 0 <= i < |trace| && trace[i].Armed? ==> trace[i].now > 0.0)
    && (forall i, j :: 0 <= i < j < |trace| && trace[i].Armed? && trace[j].Armed? ==> trace[i].now <= trace[j].now)
  }

  /** At most `limit` polls of a device are under way at a time. */
  ghost predicate Slots(trace: seq<Move>, limit: nat) {
    forall i :: 0 <= i < |trace| ==> trace[i].slot.p < limit
  }

  /** How many sessions were really torn down, over all devices. */
  function Performed(lim: Limits, trace: seq<Move>): nat {
    if trace == [] then 0
    else
      var n := |trace| - 1;
      Performed(lim, trace[..n]) + if Performs(Run(lim, trace[..n]), trace[n]) then 1 else 0
  }

  lemma DecidingSize(deciding: map<Slot, Decision>, slot: Slot, k: Decision)
    ensures |deciding[slot := k]| == |deciding| + if slot in deciding then 0 else 1
    ensures slot in deciding ==> |deciding - {slot}| == |deciding| - 1
  {
    assert deciding[slot := k].Keys == deciding.Keys + {slot};
    if slot in deciding {
      assert deciding.Keys == (deciding - {slot}).Keys + {slot};
      assert deciding[slot := k].Keys == deciding.Keys;
    }
  }

  lemma HalvesCount(b: Book, lim: Limits, d: Code, s: Session, now: Time)
    ensures var armed := Arm(b, lim, d, now);
            armed.0.forced == b.forced + if armed.1.Decide? then 1 else 0
    ensures var judged := Weigh(b, lim, d, s, now);
            judged.0.forced == if judged.1 || b.forced == 0 then b.forced else b.forced - 1
    ensures Tear(b, d, now).forced == b.forced
  {
  }

  /** Every step counts what it decides. */
  lemma NextCounts(s: Sys, lim: Limits, move: Move)
    requires s.book.forced >= |s.deciding|
    ensures Next(s, lim, move).book.forced + |s.deciding| ==
            s.book.forced + |Next(s, lim, move).deciding| + if Performs(s, move) then 1 else 0
  {
    hide Arm, Weigh, Tear;
    match move
    case Armed(slot, now) =>
      HalvesCount(s.book, lim, slot.d, OPEN, now);
      DecidingSize(s.deciding, slot, Counted(now));
    case Judged(slot, session) =>
      if slot in s.deciding {
        HalvesCount(s.book, lim, slot.d, session, s.deciding[slot].now);
        DecidingSize(s.deciding, slot, Going(s.deciding[slot].now, session));
      }
    case Torn(slot) =>
      if slot in s.deciding {
        HalvesCount(s.book, lim, slot.d, OPEN, s.deciding[slot].now);
        DecidingSize(s.deciding, slot, Counted(0.0));
      }
    case Heard(slot) =>
  }

  /** However many devices and polls overlap, the counter that health reporting shows is the
      number of relinks performed plus those being decided at this moment, although every attempt
      is counted before it is known to be wanted and taken back afterwards. */
  lemma {:induction false} ForcedCountsRelinks(lim: Limits, trace: seq<Move>)
    ensures Run(lim, trace).book.forced == Performed(lim, trace) + |Run(lim, trace).deciding|
  {
    if trace != [] {
      hide Next, Performs;
      var n := |trace| - 1;
      ForcedCountsRelinks(lim, trace[..n]);
      NextCounts(Run(lim, trace[..n]), lim, trace[n]);
    }
  }

  /** The session was open for less than five minutes, or a command was sent in the last minute. */
  predicate YoungOrBusy(session: Session, now: Time) {
    0.0 <= session.linkAge < 300.0 || (session.commandAt != 0.0 && now - session.commandAt < 60.0)
  }

  /** No session is torn down that was young when the decision fell, or had a command under way. */
  ghost predicate Spared(s: Sys) {
    forall slot :: slot in s.deciding && s.deciding[slot].Going? ==>
      !YoungOrBusy(s.deciding[slot].session, s.deciding[slot].now)
  }

  lemma {:induction false} SparesYoungAndBusy(lim: Limits, trace: seq<Move>)
    ensures Spared(Run(lim, trace))
  {
    if trace != [] {
      SparesYoungAndBusy(lim, trace[..|trace| - 1]);
    }
  }

  // ---------------------------------------------------------------- one device

  /** The record of d, as if it had always existed. */
  function Seen(s: Sys, d: Code): Record {
    RecordOf(s.book, d, 0.0)
  }

  /** Times of d's relinks since it was last heard. */
  function Relinks(lim: Limits, trace: seq<Move>, d: Code): seq<Time> {
    if trace == [] then []
    else
      var n := |trace| - 1;
      var s := Run(lim, trace[..n]);
      var times := Relinks(lim, trace[..n], d);
      if trace[n].slot.d != d then times
      else if trace[n].Heard? && trace[n].slot !in s.deciding then []
      else if Performs(s, trace[n]) then times + [s.deciding[trace[n].slot].now]
      else times
  }

  /** Times of d's unanswered integrity polls since it was last heard or relinked. */
  function Probes(lim: Limits, trace: seq<Move>, d: Code): seq<Time> {
    if trace == [] then []
    else
      var n := |trace| - 1;
      var s := Run(lim, trace[..n]);
      var times := Probes(lim, trace[..n], d);
      if trace[n].slot.d != d then times
      else if trace[n].Heard? && trace[n].slot !in s.deciding then []
      else if Performs(s, trace[n]) then []
      else if Asks(s, lim, trace[n]) then times + [trace[n].now]
      else times
  }

  /** The wait after the k-th relink: min(3600, 300 * 2^(k-1)) seconds. */
  function Wait(k: nat): Time
    requires k >= 1
  {
    var w := BACKOFF_BASE_SEC * Pow2(k - 1) as real;
    if w < BACKOFF_MAX_SEC then w else BACKOFF_MAX_SEC
  }

  lemma WaitGrows(k: nat)
    requires k >= 1
    ensures Wait(k) > 0.0 && NextBackoff(Wait(k)) == Wait(k + 1) && NextBackoff(0.0) == Wait(1)
  {
    var p := Pow2(k - 1) as real;
    assert Pow2(k) as real == 2.0 * p;
    assert p >= 1.0 by { PowPositive(k - 1); }
  }

  lemma PowPositive(n: nat)
    ensures Pow2(n) >= 1
  {
  }

  ghost predicate Spaced(times: seq<Time>) {
    forall i :: 0 <= i < |times| - 1 ==> times[i + 1] - times[i] >= Wait(i + 1)
  }

  /** What the record says about the relinks so far. */
  ghost predicate BackoffTracked(r: Record, times: seq<Time>) {
    && Spaced(times)
    && (times == [] ==> r.backoff == 0.0)
    && (times != [] ==> r.backoff == Wait(|times|) && r.relinkedAt == times[|times| - 1] && r.relinkedAt > 0.0)
  }

  /** The decision of d's only poll was right about the backoff, and still is. */
  ghost predicate DecisionOk(s: Sys, d: Code, times: seq<Time>) {
    var slot := Slot(d, 0);
    slot in s.deciding ==>
      && s.deciding[slot].now > 0.0
      && (s.deciding[slot].Going? && times != [] ==> s.deciding[slot].now - times[|times| - 1] >= Wait(|times|))
  }

  ghost predicate BackoffInv(s: Sys, d: Code, times: seq<Time>) {
    BackoffTracked(Seen(s, d), times) && DecisionOk(s, d, times)
  }

  lemma JudgeTracks(s: Sys, lim: Limits, d: Code, session: Session, times: seq<Time>)
    requires BackoffInv(s, d, times)
    ensures BackoffInv(Next(s, lim, Judged(Slot(d, 0), session)), d, times)
  {
    hide Wait, Spaced;
    if times != [] {
      WaitGrows(|times|);
    }
  }

  lemma TearTracks(s: Sys, lim: Limits, d: Code, times: seq<Time>)
    requires BackoffInv(s, d, times)
    ensures var move := Torn(Slot(d, 0));
            var more := if Performs(s, move) then times + [s.deciding[move.slot].now] else times;
            BackoffInv(Next(s, lim, move), d, more)
  {
    hide Wait, NextBackoff;
    WaitGrows(if times == [] then 1 else |times|);
    var move := Torn(Slot(d, 0));
    if Performs(s, move) {
      var more := times + [s.deciding[move.slot].now];
      forall i | 0 <= i < |more| - 1
        ensures more[i + 1] - more[i] >= Wait(i + 1)
      {
      }
    }
  }

  lemma OtherUntouched(s: Sys, lim: Limits, move: Move, d: Code)
    requires move.slot.d != d
    ensures Seen(Next(s, lim, move), d) == Seen(s, d)
    ensures d in Next(s, lim, move).book.records <==> d in s.book.records
    ensures forall p :: Slot(d, p) in Next(s, lim, move).deciding <==> Slot(d, p) in s.deciding
    ensures forall p :: Slot(d, p) in s.deciding ==>
              Next(s, lim, move).deciding[Slot(d, p)] == s.deciding[Slot(d, p)]
  {
  }

  lemma RestTracks(s: Sys, lim: Limits, move: Move, d: Code, times: seq<Time>)
    requires BackoffInv(s, d, times) && move.slot == Slot(d, 0) && !move.Judged? && !move.Torn?
    requires move.Armed? ==> move.now > 0.0
    ensures BackoffInv(Next(s, lim, move), d, if move.Heard? && move.slot !in s.deciding then [] else times)
  {
    hide Wait;
  }

  /** One poll of a device at a time, any number of devices: until the device is heard again, the
      gap after its k-th forced relink is at least min(3600, 300 * 2^(k-1)) seconds. */
  lemma {:induction false} RelinksBackOff(lim: Limits, trace: seq<Move>, d: Code)
    requires Timed(trace) && Slots(trace, 1)
    ensures Spaced(Relinks(lim, trace, d))
    ensures BackoffInv(Run(lim, trace), d, Relinks(lim, trace, d))
  {
    hide Spaced, Next, DecisionOk, Performs;
    if trace == [] {
      assert Spaced([]) && DecisionOk(START, d, []) by { NoGaps(d); }
    } else {
      var n := |trace| - 1;
      var s := Run(lim, trace[..n]);
      RelinksBackOff(lim, trace[..n], d);
      if trace[n].slot.d != d {
        OtherTracks(s, lim, trace[n], d, Relinks(lim, trace[..n], d));
      } else {
        assert trace[n].slot == Slot(d, 0);
        OwnTracks(s, lim, trace[n], d, Relinks(lim, trace[..n], d));
      }
    }
  }

  lemma OtherTracks(s: Sys, lim: Limits, move: Move, d: Code, times: seq<Time>)
    requires BackoffInv(s, d, times) && move.slot.d != d
    ensures BackoffInv(Next(s, lim, move), d, times)
  {
    hide Next, Wait, Spaced;
    OtherUntouched(s, lim, move, d);
  }

  lemma OwnTracks(s: Sys, lim: Limits, move: Move, d: Code, times: seq<Time>)
    requires BackoffInv(s, d, times) && move.slot == Slot(d, 0)
    requires move.Armed? ==> move.now > 0.0
    ensures BackoffInv(Next(s, lim, move), d,
                       if move.Heard? && move.slot !in s.deciding then []
                       else if Performs(s, move) then times + [s.deciding[move.slot].now] else times)
  {
    hide Next, BackoffInv;
    match move
    case Judged(_, session) => JudgeTracks(s, lim, d, session, times);
    case Torn(_) => TearTracks(s, lim, d, times);
    case _ => RestTracks(s, lim, move, d, times);
  }

  lemma NoGaps(d: Code)
    ensures Spaced([]) && DecisionOk(START, d, [])
  {
  }

  /** The earliest the n-th relink can follow the first: the sum of the waits between them. */
  function Waits(n: nat): Time {
    if n <= 1 then 0.0 else Waits(n - 1) + Wait(n - 1)
  }

  lemma {:induction false} SpacedSums(times: seq<Time>)
    requires Spaced(times) && times != []
    ensures times[|times| - 1] - times[0] >= Waits(|times|)
  {
    if |times| > 1 {
      var n := |times| - 1;
      forall i | 0 <= i < |times[..n]| - 1
        ensures times[..n][i + 1] - times[..n][i] >= Wait(i + 1)
      {
        assert times[i + 1] - times[i] >= Wait(i + 1);
      }
      SpacedSums(times[..n]);
      assert times[n] - times[n - 1] >= Wait(n - 1 + 1);
    }
  }

  lemma {:induction false} WaitsFromFive(n: nat)
    requires n >= 5
    ensures Waits(n) == 4500.0 + 3600.0 * (n - 5) as real
  {
    assert Pow2(1) == 2 && Pow2(2) == 4 && Pow2(3) == 8 && Pow2(4) == 16;
    if n == 5 {
      assert Waits(2) == 300.0 && Waits(3) == 900.0 && Waits(4) == 2100.0;
    } else {
      WaitsFromFive(n - 1);
      PowGrows(n - 2);
    }
  }

  lemma {:induction false} PowGrows(n: nat)
    requires n >= 4
    ensures Pow2(n) >= 16
  {
    assert Pow2(1) == 2 && Pow2(2) == 4 && Pow2(3) == 8;
    if n > 4 {
      PowGrows(n - 1);
    }
  }

  /** Within `span` seconds of its first relink an unheard device is relinked at most five
      times if the span is under 4500 + 3600 seconds, and once more per further hour. */
  lemma RelinksInSpan(lim: Limits, trace: seq<Move>, d: Code, span: Time)
    requires Timed(trace) && Slots(trace, 1)
    requires var times := Relinks(lim, trace, d); times != [] && times[|times| - 1] - times[0] <= span
    ensures var n := |Relinks(lim, trace, d)|; n <= 5 || 4500.0 + 3600.0 * (n - 5) as real <= span
  {
    var times := Relinks(lim, trace, d);
    RelinksBackOff(lim, trace, d);
    SpacedSums(times);
    if |times| > 5 {
      WaitsFromFive(|times|);
    }
  }

  // ---------------------------------------------------------------- probes before a relink

  ghost predicate Apart(times: seq<Time>, interval: Time) {
    forall i :: 0 <= i < |times| - 1 ==> times[i + 1] - times[i] >= interval
  }

  /** Every counted attempt was a probe, except the ones beyond the limit. */
  ghost predicate ProbesTracked(s: Sys, lim: Limits, d: Code, times: seq<Time>) {
    var r := Seen(s, d);
    && Apart(times, lim.interval)
    && (r.tries <= lim.probes ==> |times| >= r.tries)
    && (r.tries >= lim.probes || Slot(d, 0) in s.deciding ==> |times| >= lim.probes)
    && (times != [] ==> times[|times| - 1] <= r.last)
    && (Slot(d, 0) in s.deciding ==> d in s.book.records)
  }

  lemma OwnProbes(s: Sys, lim: Limits, move: Move, d: Code, times: seq<Time>)
    requires ProbesTracked(s, lim, d, times) && move.slot == Slot(d, 0) && lim.interval >= 0.0 && lim.probes >= 1
    ensures ProbesTracked(Next(s, lim, move), lim, d,
                          if (move.Heard? && move.slot !in s.deciding) || Performs(s, move) then []
                          else if Asks(s, lim, move) then times + [move.now] else times)
  {
    assert Apart([], lim.interval);
  }

  lemma OtherProbes(s: Sys, lim: Limits, move: Move, d: Code, times: seq<Time>)
    requires move.slot.d != d && ProbesTracked(s, lim, d, times)
    ensures ProbesTracked(Next(s, lim, move), lim, d, times)
  {
    hide Next;
    OtherUntouched(s, lim, move, d);
  }

  lemma {:induction false} ProbesAreTracked(lim: Limits, trace: seq<Move>, d: Code)
    requires Slots(trace, 1) && lim.interval >= 0.0 && lim.probes >= 1
    ensures ProbesTracked(Run(lim, trace), lim, d, Probes(lim, trace, d))
  {
    if trace == [] {
      assert Apart([], lim.interval);
    } else {
      hide ProbesTracked, Next, Performs, Asks;
      var n := |trace| - 1;
      ProbesAreTracked(lim, trace[..n], d);
      if trace[n].slot.d != d {
        OtherProbes(Run(lim, trace[..n]), lim, trace[n], d, Probes(lim, trace[..n], d));
      } else {
        assert trace[n].slot == Slot(d, 0);
        OwnProbes(Run(lim, trace[..n]), lim, trace[n], d, Probes(lim, trace[..n], d));
      }
    }
  }

  /** One poll of a device at a time: no session is torn down before `probes` integrity polls,
      each at least `interval` after the one before, stayed unanswered since the device was last
      heard or relinked, and never while the session was young or a command under way. */
  lemma RelinkNeedsProbes(lim: Limits, trace: seq<Move>, d: Code)
    requires Slots(trace, 1) && lim.interval >= 0.0 && lim.probes >= 1
    requires Performs(Run(lim, trace), Torn(Slot(d, 0)))
    ensures |Probes(lim, trace, d)| >= lim.probes
    ensures Apart(Probes(lim, trace, d), lim.interval)
    ensures var k := Run(lim, trace).deciding[Slot(d, 0)];
            !YoungOrBusy(k.session, k.now)
  {
    ProbesAreTracked(lim, trace, d);
    SparesYoungAndBusy(lim, trace);
  }

  // ---------------------------------------------------------------- when a probe or a relink comes

  /** When d was last probed or last came to a decision, since it was last heard or relinked. */
  function LastAttempt(lim: Limits, trace: seq<Move>, d: Code): Time {
    if trace == [] then 0.0
    else
      var n := |trace| - 1;
      var s := Run(lim, trace[..n]);
      var move := trace[n];
      if move.slot.d != d then LastAttempt(lim, trace[..n], d)
      else if (move.Heard? && move.slot !in s.deciding) || Performs(s, move) then 0.0
      else if Asks(s, lim, move) || (move.Armed? && move.slot !in s.deciding && move.slot in Run(lim, trace).deciding)
      then move.now
      else LastAttempt(lim, trace[..n], d)
  }

  /** The record of a device with one poll at a time counts its probes; a decision counts one more. */
  ghost predicate CountTracked(s: Sys, lim: Limits, d: Code, last: Time, times: seq<Time>) {
    var r := Seen(s, d);
    && r.last == last && |times| <= lim.probes
    && (if Slot(d, 0) in s.deciding then r.tries == lim.probes + 1 && |times| == lim.probes && d in s.book.records
        else r.tries == |times|)
  }

  lemma OwnCount(s: Sys, lim: Limits, move: Move, d: Code, last: Time, times: seq<Time>)
    requires CountTracked(s, lim, d, last, times) && move.slot == Slot(d, 0)
    ensures var heard := (move.Heard? && move.slot !in s.deciding) || Performs(s, move);
            var t := Next(s, lim, move);
            var tried := Asks(s, lim, move) || (move.Armed? && move.slot !in s.deciding && move.slot in t.deciding);
            CountTracked(t, lim, d, if heard then 0.0 else if tried then move.now else last,
                         if heard then [] else if Asks(s, lim, move) then times + [move.now] else times)
  {
  }

  lemma OtherCount(s: Sys, lim: Limits, move: Move, d: Code, last: Time, times: seq<Time>)
    requires move.slot.d != d && CountTracked(s, lim, d, last, times)
    ensures CountTracked(Next(s, lim, move), lim, d, last, times)
  {
    hide Next;
    OtherUntouched(s, lim, move, d);
  }

  lemma {:induction false} CountIsTracked(lim: Limits, trace: seq<Move>, d: Code)
    requires Slots(trace, 1)
    ensures CountTracked(Run(lim, trace), lim, d, LastAttempt(lim, trace, d), Probes(lim, trace, d))
  {
    if trace != [] {
      hide CountTracked, Next, Performs, Asks;
      var n := |trace| - 1;
      var s, last, times := Run(lim, trace[..n]), LastAttempt(lim, trace[..n], d), Probes(lim, trace[..n], d);
      CountIsTracked(lim, trace[..n], d);
      if trace[n].slot.d != d {
        OtherCount(s, lim, trace[n], d, last, times);
      } else {
        assert trace[n].slot == Slot(d, 0);
        OwnCount(s, lim, trace[n], d, last, times);
      }
    } else {
    }
  }

  /** One poll of a device at a time: a poll that comes at least an interval after the last attempt
      probes while fewer than `probes` stayed unanswered and comes to a decision after that; an
      earlier one does nothing. */
  lemma AttemptIff(lim: Limits, trace: seq<Move>, d: Code, now: Time)
    requires Slots(trace, 1) && Slot(d, 0) !in Run(lim, trace).deciding
    ensures var s := Run(lim, trace);
            var t := Next(s, lim, Armed(Slot(d, 0), now));
            var rested := now - LastAttempt(lim, trace, d) >= lim.interval;
            var unanswered := |Probes(lim, trace, d)|;
            && t.book.probed == s.book.probed + (if rested && unanswered < lim.probes then 1 else 0)
            && (Slot(d, 0) in t.deciding <==> rested && unanswered >= lim.probes)
  {
    hide LastAttempt, Probes, Run;
    CountIsTracked(lim, trace, d);
  }

  /** A decision goes ahead exactly if the session is neither young nor busy and the wait after the
      last relink, since the device was last heard, is over; otherwise it ends there. */
  lemma GoesAheadIff(lim: Limits, trace: seq<Move>, d: Code, session: Session)
    requires Timed(trace) && Slots(trace, 1)
    requires var s := Run(lim, trace); Slot(d, 0) in s.deciding && s.deciding[Slot(d, 0)].Counted?
    ensures var s := Run(lim, trace);
            var now := s.deciding[Slot(d, 0)].now;
            var t := Next(s, lim, Judged(Slot(d, 0), session));
            var relinks := Relinks(lim, trace, d);
            && (Performs(t, Torn(Slot(d, 0))) <==>
                  !YoungOrBusy(session, now)
                  && (relinks == [] || now - relinks[|relinks| - 1] >= Wait(|relinks|)))
            && (!Performs(t, Torn(Slot(d, 0))) ==> Slot(d, 0) !in t.deciding)
  {
    hide Run, Relinks, Wait, Spaced;
    RelinksBackOff(lim, trace, d);
    if Relinks(lim, trace, d) != [] {
      WaitGrows(|Relinks(lim, trace, d)|);
    }
  }

  // ---------------------------------------------------------------- polls of one device that overlap

  /** Relinks of a device keep their distances on every run with at most `limit` polls of it. */
  ghost predicate AlwaysSpaced(lim: Limits, limit: nat) {
    forall trace, d | Timed(trace) && Slots(trace, limit) :: Spaced(Relinks(lim, trace, d))
  }

  /** No relink comes before its probes. */
  ghost predicate AlwaysProbed(lim: Limits, limit: nat) {
    forall trace, slot | Timed(trace) && Slots(trace, limit) && Performs(Run(lim, trace), Torn(slot)) ::
      |Probes(lim, trace, slot.d)| >= lim.probes
  }

  const OPEN := Session(-1.0, 0.0)
  const FIRST := Slot("a", 0)
  const OTHER := Slot("a", 1)

  /** Clock of the k-th poll of a device that stays silent. */
  function ClockAt(lim: Limits, k: nat): Time {
    if k == 0 then lim.interval + 1.0 else ClockAt(lim, k - 1) + lim.interval
  }

  function Silence(lim: Limits, n: nat): seq<Move> {
    if n == 0 then [] else Silence(lim, n - 1) + [Armed(FIRST, ClockAt(lim, n - 1))]
  }

  lemma {:induction false} SilenceTimed(lim: Limits, n: nat)
    requires lim.interval >= 0.0
    ensures |Silence(lim, n)| == n && ClockAt(lim, n) > 0.0
    ensures forall i :: 0 <= i < n ==> Silence(lim, n)[i] == Armed(FIRST, ClockAt(lim, i))
    ensures forall i :: 0 <= i <= n ==> 0.0 < ClockAt(lim, i) <= ClockAt(lim, n)
  {
    if n > 0 {
      SilenceTimed(lim, n - 1);
    }
  }

  lemma {:induction false} ClockGrows(lim: Limits, i: nat, j: nat)
    requires lim.interval >= 0.0 && i <= j
    ensures ClockAt(lim, i) <= ClockAt(lim, j)
    decreases j - i
  {
    if i < j {
      ClockGrows(lim, i, j - 1);
    }
  }

  lemma {:induction false} RunAppend(lim: Limits, trace: seq<Move>, move: Move)
    ensures Run(lim, trace + [move]) == Next(Run(lim, trace), lim, move)
  {
  }

  lemma ArmedSilently(s: Sys, lim: Limits, tries: nat, last: Time, now: Time)
    requires s.deciding == map[] && Seen(s, "a") == Record(last, tries, 0.0, 0.0) && now - last >= lim.interval
    ensures var t := Next(s, lim, Armed(FIRST, now));
            && t.deciding == (if tries < lim.probes then map[] else map[FIRST := Counted(now)])
            && Seen(t, "a") == Record(now, tries + 1, 0.0, 0.0)
  {
  }

  lemma SilenceGrows(lim: Limits, n: nat)
    requires lim.interval >= 0.0
    ensures var move := Armed(FIRST, ClockAt(lim, n));
            && Run(lim, Silence(lim, n + 1)) == Next(Run(lim, Silence(lim, n)), lim, move)
            && Relinks(lim, Silence(lim, n + 1), "a") == Relinks(lim, Silence(lim, n), "a")
            && ClockAt(lim, n) - (if n == 0 then 0.0 else ClockAt(lim, n - 1)) >= lim.interval
  {
    hide Next;
    var move := Armed(FIRST, ClockAt(lim, n));
    assert Silence(lim, n + 1) == Silence(lim, n) + [move];
    RunAppend(lim, Silence(lim, n), move);
    RelinksAppend(lim, Silence(lim, n), move);
  }

  lemma NoSilence(lim: Limits)
    ensures var s := Run(lim, Silence(lim, 0));
            && s.deciding == map[] && Seen(s, "a") == Record(0.0, 0, 0.0, 0.0)
            && Relinks(lim, Silence(lim, 0), "a") == []
  {
  }

  /** After n unanswered polls, none of them beyond the limit. */
  lemma {:induction false} SilenceProbes(lim: Limits, n: nat)
    requires n <= lim.probes && lim.interval >= 0.0
    ensures var s := Run(lim, Silence(lim, n));
            && s.deciding == map[]
            && Seen(s, "a") == Record(if n == 0 then 0.0 else ClockAt(lim, n - 1), n, 0.0, 0.0)
            && Relinks(lim, Silence(lim, n), "a") == []
  {
    hide Next, Run, Relinks, Silence, Seen, ClockAt;
    if n == 0 {
      NoSilence(lim);
    } else {
      SilenceProbes(lim, n - 1);
      SilenceGrows(lim, n - 1);
      ArmedSilently(Run(lim, Silence(lim, n - 1)), lim, n - 1, if n == 1 then 0.0 else ClockAt(lim, n - 2),
                    ClockAt(lim, n - 1));
    }
  }

  /** The poll that finds the probes used up. */
  lemma SilenceDecides(lim: Limits)
    requires lim.interval >= 0.0
    ensures var trace := Silence(lim, lim.probes + 1);
            var s := Run(lim, trace);
            var now := ClockAt(lim, lim.probes);
            && s.deciding == map[FIRST := Counted(now)]
            && Seen(s, "a") == Record(now, lim.probes + 1, 0.0, 0.0)
            && Relinks(lim, trace, "a") == []
  {
    hide Next, Run, Relinks, Silence, Seen, ClockAt;
    var n := lim.probes;
    SilenceProbes(lim, n);
    SilenceGrows(lim, n);
    ArmedSilently(Run(lim, Silence(lim, n)), lim, n, if n == 0 then 0.0 else ClockAt(lim, n - 1), ClockAt(lim, n));
  }

  /** Another poll hears the device while the first one decides: the relink comes without any
      probe since. */
  function HeardMeanwhile(lim: Limits): seq<Move> {
    (Silence(lim, lim.probes + 1) + [Heard(OTHER)]) + [Judged(FIRST, OPEN)]
  }

  lemma HeardMeanwhileRelinks(lim: Limits)
    requires lim.interval >= 0.0
    ensures var trace := HeardMeanwhile(lim);
            Performs(Run(lim, trace), Torn(FIRST)) && Probes(lim, trace, "a") == []
  {
    hide Silence;
    var a := Silence(lim, lim.probes + 1);
    SilenceDecides(lim);
    RunAppend(lim, a, Heard(OTHER));
    RunAppend(lim, a + [Heard(OTHER)], Judged(FIRST, OPEN));
    var trace := HeardMeanwhile(lim);
    assert trace[..|trace| - 1] == a + [Heard(OTHER)] && (a + [Heard(OTHER)])[..|a|] == a;
  }

  /** Two polls pass their checks before either tears the session down. */
  function BothGo(lim: Limits): seq<Move> {
    ((((Silence(lim, lim.probes + 1) + [Armed(OTHER, ClockAt(lim, lim.probes + 1))]) + [Judged(FIRST, OPEN)])
      + [Judged(OTHER, OPEN)]) + [Torn(OTHER)]) + [Torn(FIRST)]
  }

  lemma BothGoRelink(lim: Limits)
    requires lim.interval >= 0.0
    ensures Relinks(lim, BothGo(lim), "a") == [ClockAt(lim, lim.probes + 1), ClockAt(lim, lim.probes)]
  {
    hide Silence, Next, Relinks, Run, ClockAt;
    var t0 := Silence(lim, lim.probes + 1);
    var t1 := t0 + [Armed(OTHER, ClockAt(lim, lim.probes + 1))];
    var t2 := t1 + [Judged(FIRST, OPEN)];
    var t3 := t2 + [Judged(OTHER, OPEN)];
    var t4 := t3 + [Torn(OTHER)];
    SilenceDecides(lim);
    SilenceTimed(lim, lim.probes + 1);
    assert ClockAt(lim, lim.probes + 1) == ClockAt(lim, lim.probes) + lim.interval by { NextClock(lim, lim.probes); }
    RunAppend(lim, t0, Armed(OTHER, ClockAt(lim, lim.probes + 1)));
    RunAppend(lim, t1, Judged(FIRST, OPEN));
    RunAppend(lim, t2, Judged(OTHER, OPEN));
    RunAppend(lim, t3, Torn(OTHER));
    BothPass(Run(lim, t0), lim, ClockAt(lim, lim.probes), ClockAt(lim, lim.probes + 1));
    RelinksAppend(lim, t0, Armed(OTHER, ClockAt(lim, lim.probes + 1)));
    RelinksAppend(lim, t1, Judged(FIRST, OPEN));
    RelinksAppend(lim, t2, Judged(OTHER, OPEN));
    RelinksAppend(lim, t3, Torn(OTHER));
    RelinksAppend(lim, t4, Torn(FIRST));
  }

  lemma NextClock(lim: Limits, k: nat)
    ensures ClockAt(lim, k + 1) == ClockAt(lim, k) + lim.interval
  {
  }

  lemma RelinksAppend(lim: Limits, trace: seq<Move>, move: Move)
    requires move.slot.d == "a" && !move.Heard?
    ensures var s := Run(lim, trace);
            Relinks(lim, trace + [move], "a") ==
            if Performs(s, move) then Relinks(lim, trace, "a") + [s.deciding[move.slot].now]
            else Relinks(lim, trace, "a")
  {
    assert (trace + [move])[..|trace|] == trace;
  }

  lemma BothPass(s: Sys, lim: Limits, from: Time, to: Time)
    requires s.deciding == map[FIRST := Counted(from)]
    requires Seen(s, "a") == Record(from, lim.probes + 1, 0.0, 0.0)
    requires lim.interval >= 0.0 && from > 0.0 && to == from + lim.interval
    ensures var s1 := Next(s, lim, Armed(OTHER, to));
            var s2 := Next(s1, lim, Judged(FIRST, OPEN));
            var s3 := Next(s2, lim, Judged(OTHER, OPEN));
            var s4 := Next(s3, lim, Torn(OTHER));
            && s3.deciding == map[FIRST := Going(from, OPEN), OTHER := Going(to, OPEN)]
            && s4.deciding == map[FIRST := Going(from, OPEN)]
  {
    assert "a" in s.book.records;
  }

  lemma SilenceSane(lim: Limits, limit: nat)
    requires lim.interval >= 0.0 && limit >= 2
    ensures forall trace :: trace in {HeardMeanwhile(lim), BothGo(lim)} ==> Timed(trace) && Slots(trace, limit)
  {
    var n := lim.probes + 1;
    SilenceTimed(lim, n);
    forall i, j | 0 <= i <= j <= n
      ensures ClockAt(lim, i) <= ClockAt(lim, j)
    {
      ClockGrows(lim, i, j);
    }
  }

  /** Relinks keep their distances on every run, and follow their probes, exactly if at most one
      poll of a device is under way at a time. */
  lemma SpacedIffAlone(lim: Limits, limit: nat)
    requires lim.interval >= 0.0
    ensures AlwaysSpaced(lim, limit) <==> limit <= 1
  {
    hide Run, Relinks, Spaced, Silence, BothGo;
    if limit <= 1 {
      forall trace, d | Timed(trace) && Slots(trace, limit)
        ensures Spaced(Relinks(lim, trace, d))
      {
        RelinksBackOff(lim, trace, d);
      }
    } else {
      SilenceSane(lim, limit);
      BothGoRelink(lim);
      assert !Spaced([ClockAt(lim, lim.probes + 1), ClockAt(lim, lim.probes)]) by {
        Backwards(ClockAt(lim, lim.probes), lim.interval);
      }
    }
  }

  lemma Backwards(t: Time, interval: Time)
    requires interval >= 0.0
    ensures !Spaced([t + interval, t])
  {
    var times := [t + interval, t];
    assert times[0 + 1] - times[0] < Wait(0 + 1);
  }

  lemma ProbedIffAlone(lim: Limits, limit: nat)
    requires lim.interval >= 0.0 && lim.probes >= 1
    ensures AlwaysProbed(lim, limit) <==> limit <= 1
  {
    hide Run, Probes, Silence, HeardMeanwhile;
    if limit <= 1 {
      forall trace, slot | Timed(trace) && Slots(trace, limit) && Performs(Run(lim, trace), Torn(slot))
        ensures |Probes(lim, trace, slot.d)| >= lim.probes
      {
        DecidersAreMoved(lim, trace);
        assert slot == Slot(slot.d, 0);
        RelinkNeedsProbes(lim, trace, slot.d);
      }
    } else {
      SilenceSane(lim, limit);
      HeardMeanwhileRelinks(lim);
    }
  }

  lemma {:induction false} DecidersAreMoved(lim: Limits, trace: seq<Move>)
    requires Slots(trace, 1)
    ensures forall slot :: slot in Run(lim, trace).deciding ==> slot.p == 0
  {
    if trace != [] {
      DecidersAreMoved(lim, trace[..|trace| - 1]);
    }
  }
}
