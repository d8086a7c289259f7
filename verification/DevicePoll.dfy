/** From the readings of one device to their acknowledgement: published as one batch, or one by
    one when the publisher cannot batch. Only what became durable is acknowledged. */
module DevicePolls {
  import opened Wrappers

  datatype Quality = Good | CommLost | NoChange

  datatype Reading = Reading(signal: string, quality: Quality)

  /** What publishing one message comes to: durable, a passing failure, or no room on disk. */
  datatype Fate = Stored | Failed | Full

  /** What the publisher does with a whole batch: durable at the broker, durable on disk, or an
      exception. */
  datatype Batch = Acked | Outboxed | Raised

  function ToPublish(readings: seq<Reading>): seq<Reading> {
    if readings == [] then []
    else
      var rest := ToPublish(readings[..|readings| - 1]);
      var r := readings[|readings| - 1];
      if r.quality.NoChange? then rest else rest + [r]
  }

  /** The items that are durable when the loop ends, at the first full disk or after the last. */
  function StoredOf(items: seq<Reading>, fates: seq<Fate>): seq<Reading>
    requires |fates| == |items|
  {
    if items == [] || fates[0].Full? then []
    else if fates[0].Stored? then [items[0]] + StoredOf(items[1..], fates[1..])
    else StoredOf(items[1..], fates[1..])
  }

  /** The loop over single messages. */
  method PublishEach(items: seq<Reading>, fates: seq<Fate>) returns (stored: seq<Reading>, raised: bool)
    requires |fates| == |items|
    ensures stored == StoredOf(items, fates) && (raised <==> exists i :: 0 <= i < |fates| && fates[i].Full?)
  {
    stored := [];
    for i := 0 to |items|
      invariant stored + StoredOf(items[i..], fates[i..]) == StoredOf(items, fates)
      invariant forall k :: 0 <= k < i ==> !fates[k].Full?
    {
      assert items[i..][1..] == items[i + 1..] && fates[i..][1..] == fates[i + 1..];
      if fates[i].Full? {
        return stored, true;
      }
      if fates[i].Stored? {
        stored := stored + [items[i]];
      }
    }
    raised := false;
  }

  /** `poll_device`, given the readings (None if reading failed): what is acknowledged to the
      reader, how many count as published, and whether the cycle sees an exception. */
  method PollDevice(readings: Option<seq<Reading>>, batch: Option<Batch>, fates: seq<Fate>)
    returns (committed: seq<Reading>, count: nat, raised: bool)
    requires readings.Some? ==> |fates| == |ToPublish(readings.value)|
    ensures readings.None? ==> committed == [] && count == 0 && !raised
    ensures readings.Some? ==>
              var items := ToPublish(readings.value);
              && committed == (if items == [] then [] else Committed(items, batch, fates))
              && count == (if batch == Some(Outboxed) || raised then 0 else |committed|)
              && (raised <==> items != [] && (batch == Some(Raised)
                                              || (batch.None? && exists i :: 0 <= i < |fates| && fates[i].Full?)))
  {
    if readings.None? {
      return [], 0, false;
    }
    var items := [];
    for i := 0 to |readings.value|
      invariant items == ToPublish(readings.value[..i])
    {
      assert readings.value[..i + 1][..i] == readings.value[..i];
      if !readings.value[i].quality.NoChange? {
        items := items + [readings.value[i]];
      }
    }
    assert readings.value[..|readings.value|] == readings.value;
    if items == [] {
      return [], 0, false;
    }
    match batch
    case Some(b) =>
      if b.Raised? {
        return [], 0, true;
      }
      return items, if b.Outboxed? then 0 else |items|, false;
    case None =>
      committed, raised := PublishEach(items, fates);
      count := if raised then 0 else |committed|;
  }

  /** Exactly the readings that say something are published ... */
  lemma {:induction false} ToPublishMeans(readings: seq<Reading>, r: Reading)
    ensures r in ToPublish(readings) <==> r in readings && r.quality != NoChange
  {
    if readings != [] {
      var n := |readings| - 1;
      ToPublishMeans(readings[..n], r);
      assert readings == readings[..n] + [readings[n]];
    }
  }

  /** ... in the order in which they were read. */
  lemma {:induction false} ToPublishOrder(a: seq<Reading>, b: seq<Reading>)
    ensures ToPublish(a + b) == ToPublish(a) + ToPublish(b)
  {
    if b == [] {
      assert a + b == a;
    } else {
      var n := |b| - 1;
      assert (a + b)[..|a| + n] == a + b[..n];
      ToPublishOrder(a, b[..n]);
    }
  }

  /** An item is acknowledged exactly if it was stored before the disk was full. */
  ghost predicate StoredAt(fates: seq<Fate>, i: nat)
    requires i < |fates|
  {
    fates[i].Stored? && forall k :: 0 <= k < i ==> !fates[k].Full?
  }

  lemma {:induction false} StoredMeans(items: seq<Reading>, fates: seq<Fate>, r: Reading)
    requires |fates| == |items|
    ensures r in StoredOf(items, fates) <==> exists i :: 0 <= i < |items| && items[i] == r && StoredAt(fates, i)
  {
    if items != [] && !fates[0].Full? {
      StoredMeans(items[1..], fates[1..], r);
      if i :| 0 <= i < |items| && items[i] == r && StoredAt(fates, i) {
        if i > 0 {
          assert items[1..][i - 1] == r;
          forall k | 0 <= k < i - 1
            ensures !fates[1..][k].Full?
          {
            assert fates[1..][k] == fates[k + 1];
          }
          assert StoredAt(fates[1..], i - 1);
        }
      }
      if i :| 0 <= i < |items[1..]| && items[1..][i] == r && StoredAt(fates[1..], i) {
        assert items[i + 1] == r;
        forall k | 0 <= k < i + 1
          ensures !fates[k].Full?
        {
          assert k > 0 ==> fates[1..][k - 1] == fates[k];
        }
        assert StoredAt(fates, i + 1);
      }
      if fates[0].Stored? && items[0] == r {
        assert StoredAt(fates, 0);
      }
    }
  }

  // ---------------------------------------------------------------- comm_lost, signal by signal

  /** The comm_lost readings of a device with these signals. */
  ghost predicate LostReadings(items: seq<Reading>) {
    && (forall i :: 0 <= i < |items| ==> items[i].quality.CommLost?)
    && (forall i, j :: 0 <= i < j < |items| ==> items[i] != items[j])
  }

  /** One durable comm_lost marks the device announced, and nothing more is said of its other
      signals: they are told only if theirs is durable as well. */
  ghost predicate AllTold(items: seq<Reading>, committed: seq<Reading>) {
    committed != [] ==> forall i :: 0 <= i < |items| ==> items[i] in committed
  }

  /** What the publisher acknowledges of these readings, in a batch or one by one. */
  function Committed(items: seq<Reading>, batch: Option<Batch>, fates: seq<Fate>): seq<Reading>
    requires |fates| == |items|
  {
    match batch
    case None => StoredOf(items, fates)
    case Some(b) => if b.Raised? then [] else items
  }

  /** One reading: a batch that does not raise tells it, and so does its own message if that is
      stored before the disk is full. */
  lemma ToldIff(items: seq<Reading>, batch: Option<Batch>, fates: seq<Fate>, r: Reading)
    requires |fates| == |items|
    ensures r in Committed(items, batch, fates) <==>
              exists i :: 0 <= i < |items| && items[i] == r
                          && (batch == Some(Acked) || batch == Some(Outboxed) || (batch.None? && StoredAt(fates, i)))
  {
    StoredMeans(items, fates, r);
  }

  /** Whatever happens to the messages, an announced loss has been told for every signal, exactly
      if the publisher takes batches or the device has a single signal to tell. */
  lemma AllToldIff(items: seq<Reading>, batches: bool)
    requires LostReadings(items)
    ensures (forall batch: Option<Batch>, fates: seq<Fate> | |fates| == |items| && batch.Some? == batches ::
               AllTold(items, Committed(items, batch, fates)))
            <==> batches || |items| <= 1
  {
    if !batches && |items| > 1 {
      var fates := seq(|items|, i => if i == 0 then Stored else Failed);
      StoredMeans(items, fates, items[0]);
      StoredMeans(items, fates, items[1]);
      assert StoredAt(fates, 0);
      assert !AllTold(items, Committed(items, None, fates));
    } else if !batches {
      forall fates: seq<Fate> | |fates| == |items|
        ensures AllTold(items, StoredOf(items, fates))
      {
      }
    }
  }
}
