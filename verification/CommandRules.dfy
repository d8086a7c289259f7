/** The two pure gates of a physical command: is it fresh, and does it name an output of this
    device. Parsing of ISO-8601 text is not part of this model: a time stamp is absent,
    unreadable, or an instant. */
module CommandRules {
  import opened Wrappers
  import Text

  type Time = real

  datatype Stamp = Absent | Unreadable | Instant(t: Time)

  datatype Policy = Policy(maxAge: Time, skew: Time, requireStamp: bool)

  datatype Freshness =
    | Fresh
    | LegacyAllowed
    | Expired
    | StampMissing
    | StampInvalid
    | StampFuture
    | DeadlinePassed
    | DeadlineInvalid

  predicate Accepts(f: Freshness) {
    f.Fresh? || f.LegacyAllowed?
  }

  /** `validate_command_freshness` */
  function Validate(created: Stamp, deadline: Stamp, p: Policy, now: Time): Freshness {
    match created
    case Unreadable => StampInvalid
    case Absent => if p.requireStamp then StampMissing else LegacyAllowed
    case Instant(t) =>
      var age := now - t;
      if age < 0.0 then
        if -age > p.skew then StampFuture else Fresh
      else if age > p.maxAge then Expired
      else
        match deadline
        case Absent => Fresh
        case Unreadable => DeadlineInvalid
        case Instant(d) => if now > d then DeadlinePassed else Fresh
  }

  /** Created at most `skew` ahead of now, or at most `maxAge` ago with a deadline that is absent or
      not over; or unstamped where that is allowed. */
  predicate InTime(created: Stamp, deadline: Stamp, p: Policy, now: Time) {
    || (created.Absent? && !p.requireStamp)
    || (created.Instant? && now < created.t <= now + p.skew)
    || (created.Instant? && created.t <= now <= created.t + p.maxAge
        && (deadline.Absent? || (deadline.Instant? && now <= deadline.t)))
  }

  lemma AcceptsIff(created: Stamp, deadline: Stamp, p: Policy, now: Time)
    ensures Accepts(Validate(created, deadline, p, now)) <==> InTime(created, deadline, p, now)
  {
  }

  /** A stamped command is executed only inside the window from `skew` before its creation to
      `maxAge` after it; exactly that window if it carries no deadline. */
  lemma FreshWindow(t: Time, deadline: Stamp, p: Policy, now: Time)
    requires p.maxAge >= 0.0 && p.skew >= 0.0
    ensures Accepts(Validate(Instant(t), deadline, p, now)) ==> t - p.skew <= now <= t + p.maxAge
    ensures deadline == Absent ==>
              (Accepts(Validate(Instant(t), deadline, p, now)) <==> t - p.skew <= now <= t + p.maxAge)
  {
  }

  /** No command of this creation time is ever executed after its deadline. */
  ghost predicate DeadlineHolds(t: Time, d: Time, p: Policy) {
    forall now :: Accepts(Validate(Instant(t), Instant(d), p, now)) ==> now <= d
  }

  /** The branch that tolerates a creation time slightly in the future returns before the
      deadline is looked at, so the deadline binds exactly when nothing is tolerated or it does
      not lie before the creation. */
  lemma DeadlineHoldsIff(t: Time, d: Time, p: Policy)
    requires p.maxAge >= 0.0 && p.skew >= 0.0
    ensures DeadlineHolds(t, d, p) <==> p.skew == 0.0 || t <= d
  {
    if p.skew > 0.0 && d < t {
      var back := if t - d < p.skew then t - d else p.skew;
      var now := t - back / 2.0;
      assert now > d && t - now <= p.skew && now < t;
      assert Accepts(Validate(Instant(t), Instant(d), p, now));
    }
  }

  // ---------------------------------------------------------------- authorization

  const COMMAND_KEY_PREFIX := "master."
  const BINARY_OUTPUT := "binary_output"

  datatype Signal = Signal(key: string, dataType: string, index: int)

  datatype Authorization = Authorized | CatalogUnavailable | CommandMissing | IndexNotAuthorized | CommandIndexMismatch

  function Outputs(signals: seq<Signal>): seq<Signal> {
    if signals == [] then []
    else if signals[0].dataType == BINARY_OUTPUT then [signals[0]] + Outputs(signals[1..])
    else Outputs(signals[1..])
  }

  function FirstAt(signals: seq<Signal>, index: int): Option<Signal> {
    if signals == [] then None
    else if signals[0].index == index then Some(signals[0])
    else FirstAt(signals[1..], index)
  }

  /** `authorize_output_command` */
  function Authorize(signals: seq<Signal>, index: int, command: Option<string>): Authorization {
    var outputs := Outputs(signals);
    if outputs == [] then CatalogUnavailable
    else if command.None? || Text.Blank(command.value) then CommandMissing
    else
      match FirstAt(outputs, index)
      case None => IndexNotAuthorized
      case Some(s) => if s.key != COMMAND_KEY_PREFIX + command.value then CommandIndexMismatch else Authorized
  }

  predicate OutputAt(s: Signal, index: int) {
    s.dataType == BINARY_OUTPUT && s.index == index
  }

  lemma {:induction false} FirstOutput(signals: seq<Signal>, index: int)
    ensures FirstAt(Outputs(signals), index).Some? ==>
              exists i :: 0 <= i < |signals| && OutputAt(signals[i], index)
                          && FirstAt(Outputs(signals), index) == Some(signals[i])
                          && forall j :: 0 <= j < i ==> !OutputAt(signals[j], index)
    ensures FirstAt(Outputs(signals), index).None? ==> forall i :: 0 <= i < |signals| ==> !OutputAt(signals[i], index)
  {
    if signals != [] {
      FirstOutput(signals[1..], index);
      if !OutputAt(signals[0], index) && FirstAt(Outputs(signals[1..]), index).Some? {
        var i :| 0 <= i < |signals[1..]| && OutputAt(signals[1..][i], index)
                 && FirstAt(Outputs(signals[1..]), index) == Some(signals[1..][i])
                 && forall j :: 0 <= j < i ==> !OutputAt(signals[1..][j], index);
        assert signals[i + 1] == signals[1..][i];
        forall j | 0 <= j < i + 1
          ensures !OutputAt(signals[j], index)
        {
          assert j > 0 ==> signals[j] == signals[1..][j - 1];
        }
      }
    }
  }

  /** Signal i is the first binary output at this index. */
  ghost predicate FirstAtIndex(signals: seq<Signal>, index: int, i: nat)
    requires i < |signals|
  {
    OutputAt(signals[i], index) && forall j :: 0 <= j < i ==> !OutputAt(signals[j], index)
  }

  /** The command is not blank and names the first binary output at its index. */
  ghost predicate NamesOutput(signals: seq<Signal>, index: int, command: Option<string>) {
    && command.Some? && !Text.Blank(command.value)
    && exists i :: 0 <= i < |signals| && FirstAtIndex(signals, index, i)
                   && signals[i].key == COMMAND_KEY_PREFIX + command.value
  }

  /** A command is authorised exactly if it is not blank and the first binary output this
      device has at the requested index is the one the command names. */
  lemma AuthorizedIff(signals: seq<Signal>, index: int, command: Option<string>)
    ensures Authorize(signals, index, command).Authorized? <==> NamesOutput(signals, index, command)
  {
    FirstOutput(signals, index);
    if FirstAt(Outputs(signals), index).Some? {
      var i :| 0 <= i < |signals| && OutputAt(signals[i], index) && FirstAt(Outputs(signals), index) == Some(signals[i])
               && forall j :: 0 <= j < i ==> !OutputAt(signals[j], index);
      assert FirstAtIndex(signals, index, i);
      forall k | 0 <= k < |signals| && FirstAtIndex(signals, index, k)
        ensures k == i
      {
      }
    }
  }
}
