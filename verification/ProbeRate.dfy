/** How a poll uses the probe record of a lost device. A poll first forgets the record if the
    device has spoken recently and only then probes, so the 30 second limit between probes
    holds exactly for a device without fresh evidence. */
module ProbeRate {
  import opened Wrappers
  import opened CacheModel
  import opened PollModel
  import opened LinkRuns
  import opened RelinkBackoff

  /** The record after one poll and what the probe decided, if there was one. */
  function PollBook(b: Book, lim: Limits, d: Code, m: Master, env: Env, now: Time): (Book, Option<Verdict>) {
    var p := PollOnce(m, env, now);
    var c := if p.resets then Forget(b, d) else b;
    if p.probes && m.cache.link.connected then
      var armed := Arm(c, lim, d, now);
      (armed.0, Some(armed.1))
    else (c, None)
  }

  lemma ProbingPollResets(m: Master, env: Env, now: Time)
    requires m.cache.link.connected && PollOnce(m, env, now).probes
    ensures PollOnce(m, env, now).resets <==> !Stale(m.cache.link, env, now)
  {
    hide TakeDirty, StringsDue, CountStringRequest, MarkAllDirty;
  }

  /** A probing poll of a silent device respects the interval. A probing poll of a device with
      fresh evidence asks whatever the record says and never gets closer to a relink. */
  lemma RateLimitedIffSilent(b: Book, lim: Limits, d: Code, m: Master, env: Env, now: Time)
    requires m.cache.link.connected && PollOnce(m, env, now).probes
    requires now >= lim.interval >= 0.0 && lim.probes >= 1
    ensures var said := PollBook(b, lim, d, m, env, now);
            if Stale(m.cache.link, env, now) then
              said.1 == Some(TooSoon) <==> now - RecordOf(b, d, 0.0).last < lim.interval
            else said.1 == Some(Probe) && RecordOf(said.0, d, 0.0).tries == 1
  {
    hide PollOnce, Stale;
    ProbingPollResets(m, env, now);
  }

  // ---------------------------------------------------------------- the distance over a run

  /** The master of one device and its record; a relink replaces the master. */
  datatype Site = Site(m: Master, book: Book)

  /** An event of the device; a poll that decides on a relink sees `session`. */
  datatype Turn = Turn(at: Stamped, session: Session)

  function VerdictOf(s: Site, lim: Limits, d: Code, t: Turn): Option<Verdict> {
    if t.at.event.Polled? then PollBook(s.book, lim, d, s.m, t.at.event.env, t.at.now).1 else None
  }

  /** The poll asks the device or decides about a relink, instead of waiting. */
  predicate Attempts(s: Site, lim: Limits, d: Code, t: Turn) {
    var v := VerdictOf(s, lim, d, t);
    v == Some(Probe) || v == Some(Decide)
  }

  function Settled(s: Site, lim: Limits, d: Code, t: Turn): (Book, bool)
    requires t.at.event.Polled?
  {
    Settle(PollBook(s.book, lim, d, s.m, t.at.event.env, t.at.now).0, lim, d, t.session, t.at.now)
  }

  predicate Tears(s: Site, lim: Limits, d: Code, t: Turn) {
    t.at.event.Polled? && VerdictOf(s, lim, d, t) == Some(Decide) && Settled(s, lim, d, t).1
  }

  function Next(s: Site, lim: Limits, d: Code, t: Turn): Site {
    var m := Step(s.m, t.at);
    if !t.at.event.Polled? then Site(m, s.book)
    else if VerdictOf(s, lim, d, t) != Some(Decide) then
      Site(m, PollBook(s.book, lim, d, s.m, t.at.event.env, t.at.now).0)
    else Site(if Tears(s, lim, d, t) then Master(NewCache(false), m.auto) else m, Settled(s, lim, d, t).0)
  }

  function RunTurns(s: Site, lim: Limits, d: Code, turns: seq<Turn>): Site {
    if turns == [] then s
    else Next(RunTurns(s, lim, d, turns[..|turns| - 1]), lim, d, turns[|turns| - 1])
  }

  /** A device under the continuous policy. */
  ghost predicate Continuous(m: Master) {
    LinkInv(m.cache.link) && !m.cache.link.smart && m.cache.link.idleSince == 0.0
  }

  /** A poll that finds the link open and its evidence fresh, on a master it keeps. */
  predicate FreshPoll(m: Master, t: Turn) {
    t.at.event.Polled?
    && m.cache.link.connected && !Stale(m.cache.link, t.at.event.env, t.at.now)
    && !PollOnce(m, t.at.event.env, t.at.now).out.Dropped?
  }

  /** On a continuous device a poll forgets the record exactly if it finds fresh evidence. */
  lemma ResetsIffFresh(m: Master, t: Turn)
    requires Continuous(m) && t.at.event.Polled?
    ensures PollOnce(m, t.at.event.env, t.at.now).resets <==> FreshPoll(m, t)
  {
    hide TakeDirty, StringsDue, CountStringRequest, MarkAllDirty;
  }

  lemma PollContinuous(m: Master, env: Env, now: Time)
    requires Continuous(m)
    ensures Continuous(PollOnce(m, env, now).after)
  {
    hide Classify, CheckSmartIdle, Judge, TakeDirty, StringsDue, CountStringRequest, MarkAllDirty, Stale, LinkInv;
    PollInv(m, env, now);
    ClassifyContinuous(m.auto, m.cache.link, env, now);
    JudgePolicy(m.cache.link, Stale(m.cache.link, env, now), now);
  }

  lemma JudgePolicy(l: Link, stale: bool, now: Time)
    ensures var k := Judge(l, stale, now).link; k.smart == l.smart && k.idleSince == l.idleSince
  {
  }

  lemma NextContinuous(s: Site, lim: Limits, d: Code, t: Turn)
    requires Continuous(s.m)
    ensures Continuous(Next(s, lim, d, t).m)
  {
    hide PollOnce, PollBook, Settled, MarkAllDirty, CommitPublished, StoreSet;
    StepInv(s.m, t.at);
    if t.at.event.Polled? {
      PollContinuous(s.m, t.at.event.env, t.at.now);
    }
  }

  lemma {:induction false} RunContinuous(s: Site, lim: Limits, d: Code, turns: seq<Turn>)
    requires Continuous(s.m)
    ensures Continuous(RunTurns(s, lim, d, turns).m)
  {
    hide Next, Continuous;
    if turns != [] {
      RunContinuous(s, lim, d, turns[..|turns| - 1]);
      NextContinuous(RunTurns(s, lim, d, turns[..|turns| - 1]), lim, d, turns[|turns| - 1]);
    }
  }

  /** When the record says the last attempt was. */
  function LastAttempt(s: Site, d: Code): Time {
    RecordOf(s.book, d, 0.0).last
  }

  lemma AttemptLeaves(s: Site, lim: Limits, d: Code, t: Turn)
    requires Attempts(s, lim, d, t)
    ensures LastAttempt(Next(s, lim, d, t), d) == if Tears(s, lim, d, t) then 0.0 else t.at.now
  {
    hide PollOnce, Step;
  }

  lemma QuietLeaves(s: Site, lim: Limits, d: Code, t: Turn)
    requires Continuous(s.m) && !Attempts(s, lim, d, t)
    ensures LastAttempt(Next(s, lim, d, t), d) == if FreshPoll(s.m, t) then 0.0 else LastAttempt(s, d)
  {
    if t.at.event.Polled? {
      ResetsIffFresh(s.m, t);
    }
    hide PollOnce, Step, Continuous, FreshPoll;
  }

  /** The state before turn k, and whether that turn is a poll with fresh evidence. */
  ghost predicate FreshAt(s: Site, lim: Limits, d: Code, turns: seq<Turn>, k: nat)
    requires k < |turns|
  {
    FreshPoll(RunTurns(s, lim, d, turns[..k]).m, turns[k])
  }

  ghost predicate AttemptAt(s: Site, lim: Limits, d: Code, turns: seq<Turn>, k: nat)
    requires k < |turns|
  {
    Attempts(RunTurns(s, lim, d, turns[..k]), lim, d, turns[k])
  }

  ghost predicate TornAt(s: Site, lim: Limits, d: Code, turns: seq<Turn>, k: nat)
    requires k < |turns|
  {
    Tears(RunTurns(s, lim, d, turns[..k]), lim, d, turns[k])
  }

  /** Between two attempts the record keeps the time of the first, unless that one tore the
      session down or a poll has found fresh evidence since. */
  lemma {:induction false} RecordBetween(s: Site, lim: Limits, d: Code, turns: seq<Turn>, i: nat, n: nat)
    requires Continuous(s.m) && i < n <= |turns|
    requires AttemptAt(s, lim, d, turns, i)
    requires forall k :: i < k < n ==> !AttemptAt(s, lim, d, turns, k)
    ensures LastAttempt(RunTurns(s, lim, d, turns[..n]), d) ==
            if TornAt(s, lim, d, turns, i) || exists k :: i < k < n && FreshAt(s, lim, d, turns, k) then 0.0
            else turns[i].at.now
    decreases n
  {
    hide Attempts, Tears, FreshPoll, Next, Continuous, LastAttempt;
    assert turns[..n][..n - 1] == turns[..n - 1];
    var before := RunTurns(s, lim, d, turns[..n - 1]);
    RunContinuous(s, lim, d, turns[..n - 1]);
    if n == i + 1 {
      AttemptLeaves(before, lim, d, turns[i]);
    } else {
      RecordBetween(s, lim, d, turns, i, n - 1);
      assert !AttemptAt(s, lim, d, turns, n - 1);
      QuietLeaves(before, lim, d, turns[n - 1]);
      if FreshAt(s, lim, d, turns, n - 1) {
        assert FreshPoll(before.m, turns[n - 1]);
      } else {
        forall k | i < k < n && FreshAt(s, lim, d, turns, k)
          ensures i < k < n - 1
        {
        }
      }
    }
  }

  /** The next attempt after one that is less than the interval ago is made, rather than put
      off, exactly if that one tore the session down or a poll since then, this one included,
      has found fresh evidence. */
  lemma CloserIffFresh(s: Site, lim: Limits, d: Code, turns: seq<Turn>, i: nat, j: nat)
    requires Continuous(s.m) && i < j < |turns| && AttemptAt(s, lim, d, turns, i)
    requires forall k :: i < k < j ==> !AttemptAt(s, lim, d, turns, k)
    requires VerdictOf(RunTurns(s, lim, d, turns[..j]), lim, d, turns[j]).Some?
    requires turns[j].at.now - turns[i].at.now < lim.interval <= turns[j].at.now
    ensures AttemptAt(s, lim, d, turns, j) <==>
              TornAt(s, lim, d, turns, i) || exists k :: i < k <= j && FreshAt(s, lim, d, turns, k)
  {
    hide PollOnce, Next, RunTurns, Tears;
    var before := RunTurns(s, lim, d, turns[..j]);
    RecordBetween(s, lim, d, turns, i, j);
    RunContinuous(s, lim, d, turns[..j]);
    ResetsIffFresh(before.m, turns[j]);
    assert FreshAt(s, lim, d, turns, j) <==> FreshPoll(before.m, turns[j]);
  }

  /** Hence two attempts of a run are closer than the interval only if, in between, a session was
      torn down or a poll found fresh evidence. */
  lemma {:induction false} CloseAttempts(s: Site, lim: Limits, d: Code, turns: seq<Turn>, i: nat, j: nat)
    requires Continuous(s.m) && i < j < |turns|
    requires AttemptAt(s, lim, d, turns, i) && AttemptAt(s, lim, d, turns, j)
    requires forall a, b :: 0 <= a < b < |turns| ==> turns[a].at.now <= turns[b].at.now
    requires turns[j].at.now - turns[i].at.now < lim.interval <= turns[j].at.now
    ensures exists k :: i <= k <= j
                        && ((k < j && TornAt(s, lim, d, turns, k)) || (i < k && FreshAt(s, lim, d, turns, k)))
    decreases j - i
  {
    hide Attempts, Tears, FreshPoll, RunTurns;
    if k :| i < k < j && AttemptAt(s, lim, d, turns, k) {
      CloseAttempts(s, lim, d, turns, k, j);
    } else {
      AttemptSpeaks(s, lim, d, turns, j);
      CloserIffFresh(s, lim, d, turns, i, j);
    }
  }

  lemma AttemptSpeaks(s: Site, lim: Limits, d: Code, turns: seq<Turn>, j: nat)
    requires j < |turns| && AttemptAt(s, lim, d, turns, j)
    ensures VerdictOf(RunTurns(s, lim, d, turns[..j]), lim, d, turns[j]).Some?
  {
  }

  // ---------------------------------------------------------------- it happens

  /** Such polls happen: the device answers once after opening but sends no measurement. After
      the grace window every poll asks again, here one second apart, for as long as the answer
      counts as fresh. */
  lemma ProbeBurst(b: Book, d: Code, key: Key, auto: Auto)
    requires !auto.configured
    ensures var env := Env(120.0, 0.0, false, 1.0, Unknown, true, [key]);
            var lim := Limits(30.0, 3);
            var m := Step(Step(Master(NewCache(false), auto), At(1000.0, Opened)), At(1001.0, Answered));
            var next := PollOnce(m, env, 1020.0).after;
            && PollBook(b, lim, d, m, env, 1020.0).1 == Some(Probe)
            && PollBook(PollBook(b, lim, d, m, env, 1020.0).0, lim, d, next, env, 1021.0).1 == Some(Probe)
  {
    hide TakeDirty, StringsDue, CountStringRequest, MarkAllDirty;
    var env := Env(120.0, 0.0, false, 1.0, Unknown, true, [key]);
    var lim := Limits(30.0, 3);
    var m := Step(Step(Master(NewCache(false), auto), At(1000.0, Opened)), At(1001.0, Answered));
    var next := PollOnce(m, env, 1020.0).after;
    RateLimitedIffSilent(b, lim, d, m, env, 1020.0);
    RateLimitedIffSilent(PollBook(b, lim, d, m, env, 1020.0).0, lim, d, next, env, 1021.0);
  }

}
