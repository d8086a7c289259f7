/** What the outcome of a command says, in terms of its stamps, its device's signals and the
    device's answer. */
module CommandResults {
  import opened Wrappers
  import opened CommandRules
  import opened CommandLedgers
  import opened CommandDispatch
  import Text

  // ---------------------------------------------------------------- the gates in plain terms

  ghost predicate Passes(devices: Catalog, cmd: Command, p: Policy, now: Time) {
    && cmd.device in devices
    && InTime(cmd.created, cmd.deadline, p, now)
    && NamesOutput(devices[cmd.device], cmd.index, cmd.command)
  }

  // ---------------------------------------------------------------- why a command is refused

  /** The reason a time stamp or deadline gives. */
  ghost predicate Untimely(created: Stamp, deadline: Stamp, p: Policy, now: Time, status: string) {
    match status
    case "command_timestamp_invalid" => created.Unreadable?
    case "command_timestamp_missing" => created.Absent? && p.requireStamp
    case "command_timestamp_future" => created.Instant? && created.t > now && created.t > now + p.skew
    case "expired" => created.Instant? && created.t <= now && now > created.t + p.maxAge
    case "delivery_metadata_invalid" =>
      created.Instant? && created.t <= now <= created.t + p.maxAge && deadline.Unreadable?
    case "delivery_deadline_passed" =>
      created.Instant? && created.t <= now <= created.t + p.maxAge && deadline.Instant? && now > deadline.t
    case _ => false
  }

  /** The reason the signals of the device give. */
  ghost predicate Unnamed(signals: seq<Signal>, index: int, command: Option<string>, status: string) {
    var none := forall i :: 0 <= i < |signals| ==> signals[i].dataType != BINARY_OUTPUT;
    var blank := command.None? || Text.Blank(command.value);
    match status
    case "catalog_unavailable" => none
    case "command_missing" => !none && blank
    case "index_not_authorized" => !none && !blank && forall i :: 0 <= i < |signals| ==> !OutputAt(signals[i], index)
    case "command_index_mismatch" =>
      !blank && exists i :: 0 <= i < |signals| && FirstAtIndex(signals, index, i)
                            && signals[i].key != COMMAND_KEY_PREFIX + command.value
    case _ => false
  }

  /** The first gate that refuses: an unknown device, then time, then the signals. */
  ghost predicate RefusedFor(devices: Catalog, cmd: Command, p: Policy, now: Time, status: string) {
    if cmd.device !in devices then status == "device_not_found"
    else if !InTime(cmd.created, cmd.deadline, p, now) then Untimely(cmd.created, cmd.deadline, p, now, status)
    else Unnamed(devices[cmd.device], cmd.index, cmd.command, status)
  }

  lemma UntimelyStatus(created: Stamp, deadline: Stamp, p: Policy, now: Time)
    ensures var f := Validate(created, deadline, p, now);
            !Accepts(f) ==> Untimely(created, deadline, p, now, StatusOfFreshness(f))
  {
  }

  lemma {:induction false} NoOutputs(signals: seq<Signal>)
    ensures Outputs(signals) == [] <==> forall i :: 0 <= i < |signals| ==> signals[i].dataType != BINARY_OUTPUT
  {
    if signals != [] {
      NoOutputs(signals[1..]);
      assert forall i :: 1 <= i < |signals| ==> signals[i] == signals[1..][i - 1];
    }
  }

  lemma UnnamedStatus(signals: seq<Signal>, index: int, command: Option<string>)
    ensures var a := Authorize(signals, index, command);
            !a.Authorized? ==> Unnamed(signals, index, command, StatusOfAuthorization(a))
  {
    NoOutputs(signals);
    FirstOutput(signals, index);
    if FirstAt(Outputs(signals), index).Some? {
      var i :| 0 <= i < |signals| && OutputAt(signals[i], index) && FirstAt(Outputs(signals), index) == Some(signals[i])
               && forall j :: 0 <= j < i ==> !OutputAt(signals[j], index);
      assert FirstAtIndex(signals, index, i);
    }
  }

  lemma RefusalMeans(devices: Catalog, cmd: Command, p: Policy, now: Time)
    ensures var r := Refusal(devices, cmd, p, now);
            && (r.None? <==> Passes(devices, cmd, p, now))
            && (r.Some? ==> RefusedFor(devices, cmd, p, now, r.value))
  {
    hide Validate, Authorize, Accepts, InTime, NamesOutput, Untimely, Unnamed, StatusOfFreshness, StatusOfAuthorization;
    if cmd.device in devices {
      AcceptsIff(cmd.created, cmd.deadline, p, now);
      AuthorizedIff(devices[cmd.device], cmd.index, cmd.command);
      UntimelyStatus(cmd.created, cmd.deadline, p, now);
      UnnamedStatus(devices[cmd.device], cmd.index, cmd.command);
    }
  }

  // ---------------------------------------------------------------- results

  /** The result of one command of a batch: it is ok exactly if every gate lets the command
      through and the device answers ok. Otherwise it says which gate refused first, that the
      call failed, or what the device answered. */
  ghost predicate Tells(devices: Catalog, cmd: Command, p: Policy, now: Time, answer: Answer, result: Result) {
    && result.id == cmd.id
    && (result.ok <==> Passes(devices, cmd, p, now) && answer.Replied? && answer.ok)
    && (!Passes(devices, cmd, p, now) ==> RefusedFor(devices, cmd, p, now, result.status))
    && (Passes(devices, cmd, p, now) ==> result.status == if answer.Raised? then "error" else answer.status)
  }

  lemma ResultTells(devices: Catalog, cmd: Command, p: Policy, now: Time, answer: Answer)
    ensures Tells(devices, cmd, p, now, answer, ResultOf(cmd.id, Refusal(devices, cmd, p, now), answer))
  {
    RefusalMeans(devices, cmd, p, now);
  }

  /** Exactly the commands that pass every gate reach their device. */
  lemma {:induction false} CalledIff(devices: Catalog, cmds: seq<Command>, p: Policy, clocks: seq<Time>, id: int)
    requires |clocks| == |cmds|
    ensures id in Calls(devices, cmds, p, clocks) <==>
              exists i :: 0 <= i < |cmds| && cmds[i].id == id && Passes(devices, cmds[i], p, clocks[i])
  {
    hide Passes;
    if cmds != [] {
      var n := |cmds| - 1;
      CalledIff(devices, cmds[..n], p, clocks[..n], id);
      RefusalMeans(devices, cmds[n], p, clocks[n]);
      assert forall i :: 0 <= i < n ==> cmds[..n][i] == cmds[i] && clocks[..n][i] == clocks[i];
    }
  }

  /** One round of the pull channel, as `PullOnce` runs it: every new command has a row with the
      result that tells what became of it, and exactly those that pass every gate were called. */
  lemma RoundTells(l: Ledger, devices: Catalog, pending: seq<Command>, p: Policy, clocks: seq<Time>,
                   answers: seq<Answer>, results: seq<Result>, end: Time)
    requires |clocks| == |answers| == |pending|
    requires var batch := Unseen(l, pending);
             |results| == |batch| <= |pending| && forall i :: 0 <= i < |batch| ==>
               results[i] == ResultOf(batch[i].id, Refusal(devices, batch[i], p, clocks[i]), answers[i])
    ensures var batch := Unseen(l, pending);
            var m := CompleteAll(StartAll(l, batch), results, end);
            forall i :: 0 <= i < |batch| ==>
              && Tells(devices, batch[i], p, clocks[i], answers[i], results[i])
              && batch[i].id in m && m[batch[i].id] == Row(Some(results[i]), Some(end), Pending)
              && (batch[i].id in Calls(devices, batch, p, clocks[..|batch|]) <==>
                    Passes(devices, batch[i], p, clocks[i]))
  {
    hide Tells, Passes, Refusal, StartAll, CompleteAll, Unseen;
    var batch := Unseen(l, pending);
    UnseenMeans(l, pending);
    RoundMeans(l, pending, results, end);
    forall i | 0 <= i < |batch|
      ensures Tells(devices, batch[i], p, clocks[i], answers[i], results[i])
      ensures batch[i].id in Calls(devices, batch, p, clocks[..|batch|]) <==> Passes(devices, batch[i], p, clocks[i])
    {
      ResultTells(devices, batch[i], p, clocks[i], answers[i]);
      CalledIff(devices, batch, p, clocks[..|batch|], batch[i].id);
    }
  }

  // ---------------------------------------------------------------- one HTTP request

  /** The request passes every gate of the endpoint, in plain terms. */
  lemma AdmittedIff(device: Option<seq<Signal>>, canOperate: bool, r: Request, p: Policy, journal: Journal, now: Time)
    requires p.skew >= 0.0 && p.maxAge >= 0.0
    ensures Admitted(device, canOperate, r, p, journal, now) <==>
              && device.Some? && canOperate && r.id.IdNumber? && journal.Open?
              && NamesOutput(device.value, r.index, r.command)
              && r.created.Instant? && r.created.t - p.skew <= now <= r.created.t + p.maxAge
  {
    if device.Some? {
      AuthorizedIff(device.value, r.index, r.command);
    }
  }
}
