/** The two command channels as they run: the pull loop over a batch, and one HTTP request with
    its gates. What the device answers is a parameter. */
module CommandDispatch {
  import opened Wrappers
  import opened CommandRules
  import opened CommandLedgers

  type Code = string

  datatype Command =
    Command(id: int, device: Code, command: Option<string>, index: int, created: Stamp, deadline: Stamp)

  /** What the operate call comes back with. */
  datatype Answer = Replied(ok: bool, status: string) | Raised

  type Catalog = map<Code, seq<Signal>>

  function StatusOfFreshness(f: Freshness): string {
    match f
    case Fresh => "fresh"
    case LegacyAllowed => "fresh"
    case Expired => "expired"
    case StampMissing => "command_timestamp_missing"
    case StampInvalid => "command_timestamp_invalid"
    case StampFuture => "command_timestamp_future"
    case DeadlinePassed => "delivery_deadline_passed"
    case DeadlineInvalid => "delivery_metadata_invalid"
  }

  function StatusOfAuthorization(a: Authorization): string {
    match a
    case Authorized => "authorized"
    case CatalogUnavailable => "catalog_unavailable"
    case CommandMissing => "command_missing"
    case IndexNotAuthorized => "index_not_authorized"
    case CommandIndexMismatch => "command_index_mismatch"
  }

  /** Why a reserved command of the pull channel is not executed, in the order of the gates. */
  function Refusal(devices: Catalog, cmd: Command, p: Policy, now: Time): Option<string> {
    if cmd.device !in devices then Some("device_not_found")
    else
      var f := Validate(cmd.created, cmd.deadline, p, now);
      if !Accepts(f) then Some(StatusOfFreshness(f))
      else
        var a := Authorize(devices[cmd.device], cmd.index, cmd.command);
        if a.Authorized? then None else Some(StatusOfAuthorization(a))
  }

  function ResultOf(id: int, refusal: Option<string>, answer: Answer): Result {
    match refusal
    case Some(status) => Result(id, false, status)
    case None => if answer.Raised? then Result(id, false, "error") else Result(id, answer.ok, answer.status)
  }

  /** The ids that reach the device, in order. */
  function Calls(devices: Catalog, cmds: seq<Command>, p: Policy, clocks: seq<Time>): seq<int>
    requires |clocks| == |cmds|
  {
    if cmds == [] then []
    else
      var n := |cmds| - 1;
      Calls(devices, cmds[..n], p, clocks[..n])
      + if Refusal(devices, cmds[n], p, clocks[n]).None? then [cmds[n].id] else []
  }

  /** `_execute_pending_commands`: exactly one result per command, in the order of the batch,
      and a call to the device exactly for those that no gate refuses. */
  method ExecutePending(devices: Catalog, cmds: seq<Command>, p: Policy, clocks: seq<Time>, answers: seq<Answer>)
    returns (results: seq<Result>, calls: seq<int>)
    requires |clocks| == |cmds| == |answers|
    ensures |results| == |cmds|
    ensures forall i :: 0 <= i < |cmds| ==>
              results[i] == ResultOf(cmds[i].id, Refusal(devices, cmds[i], p, clocks[i]), answers[i])
    ensures calls == Calls(devices, cmds, p, clocks)
  {
    results, calls := [], [];
    for i := 0 to |cmds|
      invariant |results| == i
      invariant forall k :: 0 <= k < i ==>
                  results[k] == ResultOf(cmds[k].id, Refusal(devices, cmds[k], p, clocks[k]), answers[k])
      invariant calls == Calls(devices, cmds[..i], p, clocks[..i])
    {
      var cmd := cmds[i];
      assert cmds[..i + 1][..i] == cmds[..i] && clocks[..i + 1][..i] == clocks[..i];
      if cmd.device !in devices {
        results := results + [Result(cmd.id, false, "device_not_found")];
        continue;
      }
      var freshness := Validate(cmd.created, cmd.deadline, p, clocks[i]);
      if !Accepts(freshness) {
        results := results + [Result(cmd.id, false, StatusOfFreshness(freshness))];
        continue;
      }
      var verdict := Authorize(devices[cmd.device], cmd.index, cmd.command);
      if !verdict.Authorized? {
        results := results + [Result(cmd.id, false, StatusOfAuthorization(verdict))];
        continue;
      }
      calls := calls + [cmd.id];
      if answers[i].Raised? {
        results := results + [Result(cmd.id, false, "error")];
      } else {
        results := results + [Result(cmd.id, answers[i].ok, answers[i].status)];
      }
    }
    assert cmds[..|cmds|] == cmds && clocks[..|clocks|] == clocks;
  }

  /** Some command of the batch has this id, names an output its own device has, and was
      inside its window when it was its turn. */
  ghost predicate Legitimate(devices: Catalog, cmds: seq<Command>, p: Policy, clocks: seq<Time>, id: int)
    requires |clocks| == |cmds|
  {
    exists i :: 0 <= i < |cmds| && cmds[i].id == id && cmds[i].device in devices
                && Authorize(devices[cmds[i].device], cmds[i].index, cmds[i].command).Authorized?
                && cmds[i].created.Instant?
                && cmds[i].created.t - p.skew <= clocks[i] <= cmds[i].created.t + p.maxAge
  }

  /** With time stamps required, whatever the batch contains, only such commands reach a device. */
  lemma {:induction false} OnlyLegitimateCalls(devices: Catalog, cmds: seq<Command>, p: Policy, clocks: seq<Time>,
                                                 id: int)
    requires |clocks| == |cmds| && p.requireStamp && p.skew >= 0.0 && p.maxAge >= 0.0
    requires id in Calls(devices, cmds, p, clocks)
    ensures Legitimate(devices, cmds, p, clocks, id)
  {
    var n := |cmds| - 1;
    if id in Calls(devices, cmds[..n], p, clocks[..n]) {
      OnlyLegitimateCalls(devices, cmds[..n], p, clocks[..n], id);
      var i :| 0 <= i < n && cmds[..n][i].id == id && cmds[..n][i].device in devices
               && Authorize(devices[cmds[..n][i].device], cmds[..n][i].index, cmds[..n][i].command).Authorized?
               && cmds[..n][i].created.Instant?
               && cmds[..n][i].created.t - p.skew <= clocks[..n][i] <= cmds[..n][i].created.t + p.maxAge;
      assert cmds[i] == cmds[..n][i] && clocks[i] == clocks[..n][i];
    } else {
      assert Refusal(devices, cmds[n], p, clocks[n]).None?;
    }
  }

  // ---------------------------------------------------------------- the pull loop

  /** The commands of a poll that have no row yet, the first of each id. */
  function Unseen(l: Ledger, cmds: seq<Command>): seq<Command> {
    if cmds == [] then []
    else
      var n := |cmds| - 1;
      var rest := Unseen(l, cmds[..n]);
      if cmds[n].id in l || HasId(cmds[..n], cmds[n].id) then rest else rest + [cmds[n]]
  }

  predicate HasId(cmds: seq<Command>, id: int) {
    exists i :: 0 <= i < |cmds| && cmds[i].id == id
  }

  ghost predicate DistinctIds(cmds: seq<Command>) {
    forall i, j :: 0 <= i < j < |cmds| ==> cmds[i].id != cmds[j].id
  }

  /** The batch holds one command for every id that was not in the journal, and no others. */
  lemma {:induction false} UnseenMeans(l: Ledger, cmds: seq<Command>)
    ensures var batch := Unseen(l, cmds);
            && DistinctIds(batch)
            && (forall i :: 0 <= i < |batch| ==> batch[i] in cmds && batch[i].id !in l)
            && (forall id :: HasId(cmds, id) && id !in l ==> HasId(batch, id))
            && (forall id :: HasId(batch, id) ==> HasId(cmds, id))
  {
    if cmds != [] {
      var n := |cmds| - 1;
      UnseenMeans(l, cmds[..n]);
      var rest := Unseen(l, cmds[..n]);
      var batch := Unseen(l, cmds);
      forall id | HasId(cmds, id) && id !in l
        ensures HasId(batch, id)
      {
        if HasId(cmds[..n], id) {
          var i :| 0 <= i < |rest| && rest[i].id == id;
          assert batch[i].id == id;
        } else {
          assert cmds[n].id == id;
          assert batch[|rest|].id == id;
        }
      }
      forall i | 0 <= i < |rest|
        ensures HasId(cmds[..n], rest[i].id)
      {
        assert HasId(rest, rest[i].id);
      }
      forall id | HasId(batch, id)
        ensures HasId(cmds, id)
      {
        var i :| 0 <= i < |batch| && batch[i].id == id;
        if i < |rest| {
          var j :| 0 <= j < n && cmds[..n][j].id == id;
          assert cmds[j].id == id;
        }
      }
    }
  }

  function StartAll(l: Ledger, batch: seq<Command>): Ledger {
    if batch == [] then l else Start(StartAll(l, batch[..|batch| - 1]), batch[|batch| - 1].id)
  }

  function CompleteAll(l: Ledger, results: seq<Result>, now: Time): Ledger {
    if results == [] then l
    else Complete(CompleteAll(l, results[..|results| - 1], now), results[|results| - 1], now)
  }

  lemma {:induction false} StartAllKeys(l: Ledger, batch: seq<Command>)
    ensures forall id :: id in StartAll(l, batch) <==> id in l || HasId(batch, id)
    ensures forall id :: id in l ==> StartAll(l, batch)[id] == l[id]
  {
    if batch != [] {
      var n := |batch| - 1;
      StartAllKeys(l, batch[..n]);
      forall id
        ensures HasId(batch, id) <==> HasId(batch[..n], id) || batch[n].id == id
      {
        if HasId(batch[..n], id) {
          var i :| 0 <= i < n && batch[..n][i].id == id;
          assert batch[i].id == id;
        }
        if HasId(batch, id) && batch[n].id != id {
          var i :| 0 <= i < |batch| && batch[i].id == id;
          assert batch[..n][i].id == id;
        }
      }
    }
  }

  lemma {:induction false} CompleteAllMeans(l: Ledger, results: seq<Result>, now: Time)
    requires forall i :: 0 <= i < |results| ==> results[i].id in l
    requires forall i, j :: 0 <= i < j < |results| ==> results[i].id != results[j].id
    ensures var m := CompleteAll(l, results, now);
            && m.Keys == l.Keys
            && (forall i :: 0 <= i < |results| ==> m[results[i].id] == Row(Some(results[i]), Some(now), Pending))
            && (forall id :: id in l && (forall i :: 0 <= i < |results| ==> results[i].id != id) ==> m[id] == l[id])
  {
    if results != [] {
      CompleteAllMeans(l, results[..|results| - 1], now);
    }
  }

  /** Durable reservations; the batch is what was new. */
  method Reserve(journal: CommandLedger, pending: seq<Command>) returns (batch: seq<Command>)
    modifies journal
    ensures batch == Unseen(old(journal.rows), pending) && |batch| <= |pending|
    ensures journal.rows == StartAll(old(journal.rows), batch)
  {
    batch := [];
    for i := 0 to |pending|
      invariant batch == Unseen(old(journal.rows), pending[..i]) && |batch| <= i
      invariant journal.rows == StartAll(old(journal.rows), batch)
    {
      hide StartAll, Start;
      assert pending[..i + 1][..i] == pending[..i];
      var cmd := pending[i];
      ReserveStep(old(journal.rows), pending[..i], cmd);
      var created := journal.StartDispatch(cmd.id);
      if created {
        batch := batch + [cmd];
      }
    }
    assert pending[..|pending|] == pending;
  }

  /** A command is new to the journal exactly if it is new to the batch. */
  lemma ReserveStep(l: Ledger, before: seq<Command>, cmd: Command)
    ensures var batch := Unseen(l, before);
            && (cmd.id in StartAll(l, batch) <==> cmd.id in l || HasId(before, cmd.id))
            && StartAll(l, batch + [cmd]) == Start(StartAll(l, batch), cmd.id)
            && (cmd.id in StartAll(l, batch) ==> Start(StartAll(l, batch), cmd.id) == StartAll(l, batch))
  {
    var batch := Unseen(l, before);
    UnseenMeans(l, before);
    StartAllKeys(l, batch);
    assert (batch + [cmd])[..|batch|] == batch;
  }

  method RecordAll(journal: CommandLedger, results: seq<Result>, end: Time)
    modifies journal
    ensures journal.rows == CompleteAll(old(journal.rows), results, end)
  {
    for i := 0 to |results|
      invariant journal.rows == CompleteAll(old(journal.rows), results[..i], end)
    {
      assert results[..i + 1][..i] == results[..i];
      journal.RecordResult(results[i], end);
    }
    assert results[..|results|] == results;
  }

  /** The part of one round of `_run_command_poll` between fetching and delivering: reserve
      durably, execute, record. */
  method PullOnce(journal: CommandLedger, devices: Catalog, pending: seq<Command>, p: Policy, clocks: seq<Time>,
                  answers: seq<Answer>, end: Time)
    returns (batch: seq<Command>, results: seq<Result>, calls: seq<int>)
    requires |clocks| == |answers| == |pending|
    modifies journal
    ensures batch == Unseen(old(journal.rows), pending) && |batch| <= |pending|
    ensures |results| == |batch| && forall i :: 0 <= i < |batch| ==>
              results[i] == ResultOf(batch[i].id, Refusal(devices, batch[i], p, clocks[i]), answers[i])
    ensures calls == Calls(devices, batch, p, clocks[..|batch|])
    ensures journal.rows == CompleteAll(StartAll(old(journal.rows), batch), results, end)
  {
    hide Refusal, ResultOf, Unseen, StartAll, CompleteAll;
    batch := Reserve(journal, pending);
    results, calls := ExecutePending(devices, batch, p, clocks[..|batch|], answers[..|batch|]);
    RecordAll(journal, results, end);
  }

  /** After a round every offered id has a row; each command of the batch has its own result
      there, and a row that existed before is untouched, whatever was offered again. */
  lemma RoundMeans(l: Ledger, pending: seq<Command>, results: seq<Result>, end: Time)
    requires var batch := Unseen(l, pending);
             |results| == |batch| && forall i :: 0 <= i < |batch| ==> results[i].id == batch[i].id
    ensures var batch := Unseen(l, pending);
            var m := CompleteAll(StartAll(l, batch), results, end);
            && (forall id :: HasId(pending, id) ==> id in m)
            && (forall id :: id in l ==> id in m && m[id] == l[id])
            && (forall i :: 0 <= i < |batch| ==>
                  batch[i].id in m && m[batch[i].id] == Row(Some(results[i]), Some(end), Pending))
  {
    var batch := Unseen(l, pending);
    UnseenMeans(l, pending);
    StartAllKeys(l, batch);
    forall i | 0 <= i < |batch|
      ensures batch[i].id in StartAll(l, batch)
    {
      assert HasId(batch, batch[i].id);
    }
    CompleteAllMeans(StartAll(l, batch), results, end);
  }

  // ---------------------------------------------------------------- one HTTP request

  datatype IdField = IdMissing | IdNotInteger | IdNumber(n: int)

  /** The journal as the endpoint finds it. */
  datatype Journal = NoJournal | Broken | Open

  datatype Request = Request(
    index: int,
    command: Option<string>,
    created: Stamp,
    id: IdField)

  /** What is sent back: the HTTP status and the outcome. A duplicate returns the recorded
      result while that is still waiting to be delivered. */
  datatype Response =
    | Refused(code: int, status: string)
    | Duplicate(prior: Option<Result>)
    | Executed(ok: bool, status: string)
    | Failed

  /** All gates before the reservation let the request through. */
  predicate Admitted(device: Option<seq<Signal>>, canOperate: bool, r: Request, p: Policy, journal: Journal,
                     now: Time) {
    && device.Some? && canOperate
    && Authorize(device.value, r.index, r.command).Authorized?
    && Accepts(Validate(r.created, Absent, p.(requireStamp := true), now))
    && r.id.IdNumber? && journal.Open?
  }

  /** `_handle_operate` from the device lookup on. The device is called exactly if every gate
      lets the request through and its id is new; any other request leaves the journal as it
      was, so a refused id can be used again. */
  method HandleOperate(ledger: CommandLedger, device: Option<seq<Signal>>, canOperate: bool, r: Request, p: Policy,
                       journal: Journal, answer: Answer, now: Time, end: Time)
    returns (response: Response, called: bool)
    modifies ledger
    ensures called <==> Admitted(device, canOperate, r, p, journal, now) && r.id.n !in old(ledger.rows)
    ensures !called ==> ledger.rows == old(ledger.rows)
    ensures called ==>
              var result := if answer.Raised? then Result(r.id.n, false, "error")
                            else Result(r.id.n, answer.ok, answer.status);
              ledger.rows == old(ledger.rows)[r.id.n := Row(Some(result), Some(end), Pending)]
    ensures response.Duplicate? <==> Admitted(device, canOperate, r, p, journal, now) && r.id.n in old(ledger.rows)
    ensures response.Duplicate? ==>
              var row := old(ledger.rows)[r.id.n];
              response.prior == if row.delivery.Pending? then row.result else None
    ensures called ==> response == if answer.Raised? then Failed else Executed(answer.ok, answer.status)
    ensures device.None? ==> response == Refused(404, "")
    ensures device.Some? && !canOperate ==> response == Refused(503, "")
    ensures device.Some? && canOperate ==>
              var verdict := Authorize(device.value, r.index, r.command);
              var freshness := Validate(r.created, Absent, p.(requireStamp := true), now);
              && (!verdict.Authorized? ==> response == Refused(403, StatusOfAuthorization(verdict)))
              && (verdict.Authorized? && !Accepts(freshness) ==> response == Refused(400, StatusOfFreshness(freshness)))
              && (verdict.Authorized? && Accepts(freshness) && !r.id.IdNumber? ==>
                    response == Refused(400, if r.id.IdMissing? then "command_id_missing" else "command_id_invalid"))
              && (verdict.Authorized? && Accepts(freshness) && r.id.IdNumber? && !journal.Open? ==>
                    response == Refused(503, "rejected"))
  {
    called := false;
    if device.None? {
      return Refused(404, ""), false;
    }
    if !canOperate {
      return Refused(503, ""), false;
    }
    var verdict := Authorize(device.value, r.index, r.command);
    if !verdict.Authorized? {
      return Refused(403, StatusOfAuthorization(verdict)), false;
    }
    var freshness := Validate(r.created, Absent, p.(requireStamp := true), now);
    if !Accepts(freshness) {
      return Refused(400, StatusOfFreshness(freshness)), false;
    }
    if r.id.IdMissing? {
      return Refused(400, "command_id_missing"), false;
    }
    if r.id.IdNotInteger? {
      return Refused(400, "command_id_invalid"), false;
    }
    if journal.NoJournal? || journal.Broken? {
      return Refused(503, "rejected"), false;
    }
    var created := ledger.StartDispatch(r.id.n);
    if !created {
      var row := ledger.rows[r.id.n];
      return Duplicate(if row.delivery.Pending? then row.result else None), false;
    }
    var result := ResultOf(r.id.n, None, answer);
    ledger.RecordResult(result, end);
    return if answer.Raised? then Failed else Executed(answer.ok, answer.status), true;
  }
}
