/** The durable command journal: one row per command id, written before the physical command
    and never twice. */
module CommandLedgers {
  import opened Wrappers
  import opened CommandRules

  datatype Result = Result(id: int, ok: bool, status: string)

  datatype Delivery = Pending | Delivered | DeadLetter

  /** `result` and `completedAt` are None while the command is being dispatched. */
  datatype Row = Row(result: Option<Result>, completedAt: Option<Time>, delivery: Delivery)

  type Ledger = map<int, Row>

  const DISPATCHING := Row(None, None, Pending)

  predicate Completed(r: Row) {
    r.result.Some?
  }

  function Start(l: Ledger, id: int): Ledger {
    if id in l then l else l[id := DISPATCHING]
  }

  function Complete(l: Ledger, r: Result, now: Time): Ledger {
    if r.id in l then l[r.id := Row(Some(r), Some(now), Pending)] else l
  }

  function Unknown(id: int): Result {
    Result(id, false, "unknown")
  }

  /** At start-up every command still dispatching gets the result "unknown". */
  function Recover(l: Ledger, now: Time): Ledger {
    map id | id in l :: if Completed(l[id]) then l[id] else Row(Some(Unknown(id)), Some(now), Pending)
  }

  /** Recover for some of the open commands. */
  function Recovered(l: Ledger, ids: set<int>, now: Time): Ledger {
    map id | id in l :: if id in ids then Row(Some(Unknown(id)), Some(now), Pending) else l[id]
  }

  function Deliver(l: Ledger, id: int, d: Delivery): Ledger {
    if id in l then l[id := l[id].(delivery := d)] else l
  }

  predicate Prunable(r: Row, cutoff: Time) {
    r.delivery.Delivered? && r.completedAt.Some? && r.completedAt.value < cutoff
  }

  function Prune(l: Ledger, retain: Time, now: Time): Ledger {
    map id | id in l && !Prunable(l[id], now - (if retain > 0.0 then retain else 0.0)) :: l[id]
  }

  class CommandLedger {
    var rows: Ledger

    constructor ()
      ensures rows == map[]
    {
      rows := map[];
    }

    /** True means that the intent is durable and was not there before. */
    method StartDispatch(id: int) returns (created: bool)
      modifies this
      ensures created <==> id !in old(rows)
      ensures rows == Start(old(rows), id)
    {
      if id in rows {
        return false;
      }
      rows := rows[id := DISPATCHING];
      return true;
    }

    method RecordResult(result: Result, now: Time)
      modifies this
      ensures rows == Complete(old(rows), result, now)
    {
      if result.id in rows {
        rows := rows[result.id := Row(Some(result), Some(now), Pending)];
      }
    }

    /** Returns the results it had to invent. */
    method RecoverUnknown(now: Time) returns (open: set<int>)
      modifies this
      ensures open == set id | id in old(rows) && !Completed(old(rows)[id])
      ensures rows == Recover(old(rows), now)
    {
      open := set id | id in rows && !Completed(rows[id]);
      var left := open;
      while left != {}
        invariant left <= open
        invariant rows == Recovered(old(rows), open - left, now)
        decreases left
      {
        NonEmpty(left);
        var id :| id in left;
        rows := rows[id := Row(Some(Unknown(id)), Some(now), Pending)];
        left := left - {id};
        assert rows == Recovered(old(rows), open - left, now);
      }
      assert rows == Recover(old(rows), now);
    }

    method MarkDelivery(id: int, delivery: Delivery)
      modifies this
      ensures rows == Deliver(old(rows), id, delivery)
    {
      if id in rows {
        rows := rows[id := rows[id].(delivery := delivery)];
      }
    }

    method PruneOld(retain: Time, now: Time) returns (count: nat)
      modifies this
      ensures rows == Prune(old(rows), retain, now)
      ensures count == |old(rows)| - |rows|
    {
      var cutoff := now - (if retain > 0.0 then retain else 0.0);
      var gone := set id | id in rows && Prunable(rows[id], cutoff);
      rows := rows - gone;
      count := |gone|;
      assert old(rows).Keys == rows.Keys + gone;
      assert rows == Prune(old(rows), retain, now);
    }
  }

  lemma NonEmpty(s: set<int>)
    requires s != {}
    ensures exists k :: k in s
  {
    assert (forall k :: k !in s) ==> s == {};
  }

  /** Start-up answers every command that was interrupted, never with success, and touches nothing
      else. */
  lemma RecoverMeans(l: Ledger, now: Time, id: int)
    ensures id in Recover(l, now) <==> id in l
    ensures id in l ==> Recover(l, now)[id] == if l[id].result.Some? then l[id]
                                               else Row(Some(Result(id, false, "unknown")), Some(now), Pending)
  {
  }

  /** Only a delivered result can lose its row, and only after the retention time. */
  lemma PruneKeeps(l: Ledger, retain: Time, now: Time, id: int)
    requires id in l && retain >= 0.0
    ensures id !in Prune(l, retain, now) <==>
              l[id].delivery.Delivered? && l[id].completedAt.Some? && now - l[id].completedAt.value > retain
  {
  }
}
