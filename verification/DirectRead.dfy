/** The direct read strategy: how many requests are made of an outstation with a fixed point
    table, and that their outcome is what reading every index alone would give. */
module DirectReads {
  import opened Wrappers

  datatype Point = Point(group: int, index: int)

  type Table = map<Point, real>

  /** One read request for a closed range of indices, and whether it raised. */
  datatype Request = Request(group: int, lo: int, hi: int, failed: bool)

  datatype Signal = Signal(group: int, index: int)

  datatype Reading = Good(value: real) | NoChange

  const BINARY_INPUT := 1
  const BINARY_OUTPUT := 10
  const COUNTER := 20
  const ANALOG_INPUT := 30
  const ANALOG_OUTPUT := 40
  const STRING := 110
  const ANALOG_MAX_CHUNK := 12

  predicate Readable(group: int) {
    || group == BINARY_INPUT || group == BINARY_OUTPUT || group == COUNTER
    || group == ANALOG_INPUT || group == ANALOG_OUTPUT
  }

  /** `_point_raw_from_object` */
  function Raw(group: int, value: real): real {
    if group == BINARY_INPUT || group == BINARY_OUTPUT then (if value != 0.0 then 1.0 else 0.0) else value
  }

  /** The reference: this signal's index read alone, successfully. */
  function ReadAlone(t: Table, s: Signal): Reading {
    if s.group == STRING then Good(0.0)
    else if Readable(s.group) && Point(s.group, s.index) in t then Good(Raw(s.group, t[Point(s.group, s.index)]))
    else NoChange
  }

  /** Inputs and outputs read 1.0 exactly for a value that is not zero and 0.0 otherwise, counters and
      analog points their value, strings 0.0; anything else, and a point that is not there, reads
      "no change". */
  lemma AloneMeans(t: Table, s: Signal)
    ensures var r := ReadAlone(t, s);
            var there := Point(s.group, s.index) in t;
            && (s.group == 110 ==> r == Good(0.0))
            && (s.group in {1, 10} && there ==> r == Good(1.0) || r == Good(0.0))
            && (s.group in {1, 10} && there ==> (r == Good(0.0) <==> t[Point(s.group, s.index)] == 0.0))
            && (s.group in {20, 30, 40} && there ==> r == Good(t[Point(s.group, s.index)]))
            && (r == NoChange <==> s.group != 110 && (s.group !in {1, 10, 20, 30, 40} || !there))
  {
  }

  function ChunkSize(most: nat, group: int): nat {
    if group == ANALOG_INPUT && ANALOG_MAX_CHUNK < most then ANALOG_MAX_CHUNK else most
  }

  datatype Item = Item(index: int, value: real)

  /** The points of [lo, hi] that exist, in order. */
  function Listing(t: Table, group: int, lo: int, hi: int): seq<Item>
    decreases hi - lo + 1
  {
    if lo > hi then []
    else if Point(group, hi) in t then Listing(t, group, lo, hi - 1) + [Item(hi, t[Point(group, hi)])]
    else Listing(t, group, lo, hi - 1)
  }

  lemma {:induction false} ListingMeans(t: Table, group: int, lo: int, hi: int)
    ensures forall k :: 0 <= k < |Listing(t, group, lo, hi)| ==>
              var item := Listing(t, group, lo, hi)[k];
              lo <= item.index <= hi && Point(group, item.index) in t && t[Point(group, item.index)] == item.value
    ensures forall i :: lo <= i <= hi && Point(group, i) in t ==>
              exists k :: 0 <= k < |Listing(t, group, lo, hi)| && Listing(t, group, lo, hi)[k].index == i
    decreases hi - lo + 1
  {
    if lo <= hi {
      var rest := Listing(t, group, lo, hi - 1);
      var all := Listing(t, group, lo, hi);
      ListingMeans(t, group, lo, hi - 1);
      forall i | lo <= i <= hi && Point(group, i) in t
        ensures exists k :: 0 <= k < |all| && all[k].index == i
      {
        if i < hi {
          var k :| 0 <= k < |rest| && rest[k].index == i;
          assert all[k].index == i;
        } else {
          assert all[|rest|].index == i;
        }
      }
    }
  }

  class Master {
    const table: Table
    /** Whether the n-th request raises. */
    const fails: nat -> bool
    var log: seq<Request>

    constructor (table: Table, fails: nat -> bool)
      ensures this.table == table && this.fails == fails && log == []
    {
      this.table, this.fails, log := table, fails, [];
    }

    method Read(group: int, lo: int, hi: int) returns (items: Option<seq<Item>>)
      modifies this
      ensures log == old(log) + [Request(group, lo, hi, items.None?)]
      ensures items.None? <==> fails(|old(log)|)
      ensures items.Some? ==> items.value == Listing(table, group, lo, hi)
    {
      var failed := fails(|log|);
      log := log + [Request(group, lo, hi, failed)];
      if failed {
        return None;
      }
      var list := [];
      var i := lo;
      while i <= hi
        invariant i <= hi + 1 || i == lo
        invariant list == Listing(table, group, lo, i - 1)
        decreases hi - i
      {
        if Point(group, i) in table {
          list := list + [Item(i, table[Point(group, i)])];
        }
        i := i + 1;
      }
      assert lo > hi ==> Listing(table, group, lo, hi) == [];
      return Some(list);
    }
  }

  // ---------------------------------------------------------------- what the cache may hold

  /** Everything cached is what the table says. */
  ghost predicate Sound(cache: Table, t: Table) {
    forall p :: p in cache ==>
      if p.group == STRING then cache[p] == 0.0
      else Readable(p.group) && p in t && cache[p] == Raw(p.group, t[p])
  }

  /** From position `from` of the log on, a request for this index alone raised. */
  ghost predicate AloneFailed(log: seq<Request>, from: nat, group: int, i: int) {
    exists n :: from <= n < |log| && log[n] == Request(group, i, i, true)
  }

  ghost predicate Have(cache: Table, log: seq<Request>, from: nat, t: Table, group: int, i: int) {
    Readable(group) && Point(group, i) in t ==> Point(group, i) in cache || AloneFailed(log, from, group, i)
  }

  /** The cache and the log only grow, and the cache stays sound. */
  ghost predicate Extends(cache: Table, cache0: Table, log: seq<Request>, log0: seq<Request>, t: Table) {
    cache0.Keys <= cache.Keys && log0 <= log && Sound(cache, t)
  }

  lemma HaveStays(cache: Table, cache0: Table, log: seq<Request>, log0: seq<Request>, from: nat, t: Table)
    requires cache0.Keys <= cache.Keys && log0 <= log
    ensures forall g, i :: Have(cache0, log0, from, t, g, i) ==> Have(cache, log, from, t, g, i)
  {
  }

  /** No request since `from` asks for more than `most` points, nor for more than 12 analog inputs. */
  ghost predicate Narrow(log: seq<Request>, from: nat, most: nat) {
    forall n :: from <= n < |log| ==>
      log[n].hi - log[n].lo < most && (log[n].group == 30 ==> log[n].hi - log[n].lo < 12)
  }

  ghost predicate Clean(log: seq<Request>, from: nat) {
    forall n :: from <= n < |log| ==> !log[n].failed
  }

  /** One request per index. */
  function Singles(group: int, indices: seq<int>): seq<Request> {
    seq(|indices|, k requires 0 <= k < |indices| => Request(group, indices[k], indices[k], false))
  }

  /** One request per range. */
  function Ranged(group: int, tiles: seq<(int, int)>): seq<Request> {
    seq(|tiles|, k requires 0 <= k < |tiles| => Request(group, tiles[k].0, tiles[k].1, false))
  }

  /** Writing the answers of one request into the cache; `need` may restrict which. */
  method Store(t: Table, group: int, lo: int, hi: int, items: seq<Item>, need: Option<set<int>>, cache0: Table)
    returns (cache: Table)
    requires Readable(group) && items == Listing(t, group, lo, hi) && Sound(cache0, t)
    ensures Sound(cache, t) && cache0.Keys <= cache.Keys
    ensures forall i :: lo <= i <= hi && Point(group, i) in t && (need.None? || i in need.value) ==>
              Point(group, i) in cache
  {
    ListingMeans(t, group, lo, hi);
    cache := cache0;
    for k := 0 to |items|
      invariant Sound(cache, t) && cache0.Keys <= cache.Keys
      invariant forall j :: 0 <= j < k && (need.None? || items[j].index in need.value) ==>
                  Point(group, items[j].index) in cache
    {
      if need.None? || items[k].index in need.value {
        cache := cache[Point(group, items[k].index) := Raw(group, items[k].value)];
      }
    }
  }

  /** `_direct_fill_sequential_indices` */
  method FillAlone(m: Master, group: int, indices: seq<int>, cache0: Table, ghost from: nat, ghost most: nat)
    returns (cache: Table)
    requires most >= 1 && Sound(cache0, m.table) && from <= |m.log|
    modifies m
    ensures Narrow(m.log, |old(m.log)|, most)
    ensures Extends(cache, cache0, m.log, old(m.log), m.table)
    ensures forall k :: 0 <= k < |indices| ==> Have(cache, m.log, from, m.table, group, indices[k])
    ensures Readable(group) && Clean(m.log, |old(m.log)|) ==> m.log == old(m.log) + Singles(group, indices)
  {
    cache := cache0;
    if !Readable(group) {
      return;
    }
    for k := 0 to |indices|
      invariant Narrow(m.log, |old(m.log)|, most)
      invariant Extends(cache, cache0, m.log, old(m.log), m.table)
      invariant forall j :: 0 <= j < k ==> Have(cache, m.log, from, m.table, group, indices[j])
      invariant Clean(m.log, |old(m.log)|) ==> m.log == old(m.log) + Singles(group, indices[..k])
    {
      ghost var before, log := cache, m.log;
      var items := m.Read(group, indices[k], indices[k]);
      if items.Some? {
        cache := Store(m.table, group, indices[k], indices[k], items.value, None, cache);
      } else {
        assert m.log[|log|] == Request(group, indices[k], indices[k], true);
      }
      HaveStays(cache, before, m.log, log, from, m.table);
    }
  }

  // ---------------------------------------------------------------- chunks

  /** The closed ranges the chunk loop asks for. */
  function Tiles(lo: int, hi: int, size: nat): seq<(int, int)>
    requires size >= 1
    decreases hi - lo + 1
  {
    if lo > hi then []
    else
      var end := if lo + size - 1 < hi then lo + size - 1 else hi;
      [(lo, end)] + Tiles(end + 1, hi, size)
  }

  /** The chunks follow each other without gap or overlap from lo to hi, and none is empty or
      longer than the limit. */
  lemma {:induction false} TilesExact(lo: int, hi: int, size: nat)
    requires size >= 1 && lo <= hi + 1
    ensures var tiles := Tiles(lo, hi, size);
            && (forall k :: 0 <= k < |tiles| ==> tiles[k].0 <= tiles[k].1 < tiles[k].0 + size)
            && (lo <= hi ==> tiles != [] && tiles[0].0 == lo && tiles[|tiles| - 1].1 == hi)
            && (forall k :: 0 <= k < |tiles| - 1 ==> tiles[k + 1].0 == tiles[k].1 + 1)
    decreases hi - lo + 1
  {
    if lo <= hi {
      var end := if lo + size - 1 < hi then lo + size - 1 else hi;
      TilesExact(end + 1, hi, size);
      var rest := Tiles(end + 1, hi, size);
      var tiles := Tiles(lo, hi, size);
      forall k | 0 <= k < |tiles|
        ensures tiles[k].0 <= tiles[k].1 < tiles[k].0 + size
        ensures k < |tiles| - 1 ==> tiles[k + 1].0 == tiles[k].1 + 1
      {
        if k > 0 {
          assert tiles[k] == rest[k - 1];
        }
      }
    }
  }

  /** The indices of [a, b], in order. */
  function Within(indices: seq<int>, a: int, b: int): seq<int> {
    if indices == [] then []
    else
      var rest := Within(indices[..|indices| - 1], a, b);
      var i := indices[|indices| - 1];
      if a <= i <= b then rest + [i] else rest
  }

  lemma {:induction false} WithinMeans(indices: seq<int>, a: int, b: int, i: int)
    ensures i in Within(indices, a, b) <==> i in indices && a <= i <= b
  {
    if indices != [] {
      var n := |indices| - 1;
      assert indices == indices[..n] + [indices[n]];
      WithinMeans(indices[..n], a, b, i);
    }
  }

  /** One chunk: two attempts, then every needed index alone. */
  method FillChunk(m: Master, group: int, a: int, b: int, indices: seq<int>, cache0: Table, ghost from: nat,
                   ghost most: nat)
    returns (cache: Table)
    requires Readable(group) && Sound(cache0, m.table) && from <= |m.log|
    requires most >= 1 && b - a < ChunkSize(most, group)
    modifies m
    ensures Narrow(m.log, |old(m.log)|, most)
    ensures Extends(cache, cache0, m.log, old(m.log), m.table)
    ensures forall i :: i in indices && a <= i <= b ==> Have(cache, m.log, from, m.table, group, i)
    ensures Clean(m.log, |old(m.log)|) ==> m.log == old(m.log) + [Request(group, a, b, false)]
  {
    cache := cache0;
    var need := set i | i in indices;
    var success := false;
    for attempt := 0 to 2
      invariant Narrow(m.log, |old(m.log)|, most)
      invariant Extends(cache, cache0, m.log, old(m.log), m.table)
      invariant attempt == 0 ==> m.log == old(m.log)
      invariant attempt > 0 ==> |m.log| > |old(m.log)| && m.log[|old(m.log)|].failed
      invariant !success
    {
      ghost var log := m.log;
      var items := m.Read(group, a, b);
      assert m.log[|log|] == Request(group, a, b, items.None?);
      if items.Some? {
        cache := Store(m.table, group, a, b, items.value, Some(need), cache);
        success := true;
        break;
      }
    }
    assert m.log == old(m.log) + [Request(group, a, b, false)] || m.log[|old(m.log)|].failed;
    if !success {
      var sub := Within(indices, a, b);
      ghost var log := m.log;
      cache := FillAlone(m, group, sub, cache, from, most);
      assert m.log[|old(m.log)|] == log[|old(m.log)|];
      forall i | i in indices && a <= i <= b
        ensures Have(cache, m.log, from, m.table, group, i)
      {
        WithinMeans(indices, a, b, i);
        var k :| 0 <= k < |sub| && sub[k] == i;
        assert Have(cache, m.log, from, m.table, group, sub[k]);
      }
    }
  }

  lemma NextTile(done: seq<(int, int)>, a: int, hi: int, size: nat)
    requires size >= 1 && a <= hi
    ensures var b := if a + size - 1 < hi then a + size - 1 else hi;
            done + Tiles(a, hi, size) == (done + [(a, b)]) + Tiles(b + 1, hi, size)
  {
  }

  lemma NoTiles(a: int, hi: int, size: nat)
    requires size >= 1 && a > hi
    ensures Tiles(a, hi, size) == []
  {
  }

  /** `_direct_fill_range_chunked`; returns the chunks it went through. */
  method FillChunked(m: Master, group: int, lo: int, hi: int, indices: seq<int>, most: nat, cache0: Table,
                     ghost from: nat)
    returns (cache: Table, tiles: seq<(int, int)>)
    requires Readable(group) && most >= 1 && Sound(cache0, m.table) && from <= |m.log|
    modifies m
    ensures Narrow(m.log, |old(m.log)|, most)
    ensures Extends(cache, cache0, m.log, old(m.log), m.table)
    ensures forall i :: i in indices && lo <= i <= hi ==> Have(cache, m.log, from, m.table, group, i)
    ensures tiles == Tiles(lo, hi, ChunkSize(most, group))
    ensures Clean(m.log, |old(m.log)|) ==> m.log == old(m.log) + Ranged(group, tiles)
  {
    hide Have, Sound, Tiles;
    var size := ChunkSize(most, group);
    cache, tiles := cache0, [];
    assert [] + Tiles(lo, hi, size) == Tiles(lo, hi, size);
    var a := lo;
    while a <= hi
      invariant Narrow(m.log, |old(m.log)|, most)
      invariant Extends(cache, cache0, m.log, old(m.log), m.table)
      invariant Clean(m.log, |old(m.log)|) ==> m.log == old(m.log) + Ranged(group, tiles)
      invariant a >= lo && tiles + Tiles(a, hi, size) == Tiles(lo, hi, size)
      invariant forall i :: i in indices && lo <= i < a && i <= hi ==> Have(cache, m.log, from, m.table, group, i)
      decreases hi - a
    {
      var b := if a + size - 1 < hi then a + size - 1 else hi;
      ghost var before, log := cache, m.log;
      cache := FillChunk(m, group, a, b, indices, cache, from, most);
      HaveStays(cache, before, m.log, log, from, m.table);
      NextTile(tiles, a, hi, size);
      tiles := tiles + [(a, b)];
      a := b + 1;
    }
    NoTiles(a, hi, size);
  }

  // ---------------------------------------------------------------- the whole batch

  predicate Increasing(xs: seq<int>) {
    forall i, j | 0 <= i < j < |xs| :: xs[i] < xs[j]
  }

  function InsertSorted(xs: seq<int>, x: int): seq<int> {
    if xs == [] || xs[|xs| - 1] < x then xs + [x]
    else if xs[|xs| - 1] == x then xs
    else InsertSorted(xs[..|xs| - 1], x) + [xs[|xs| - 1]]
  }

  lemma {:induction false} InsertSortedHas(xs: seq<int>, x: int, y: int)
    ensures y in InsertSorted(xs, x) <==> y in xs || y == x
  {
    if xs != [] {
      var n := |xs| - 1;
      InsertSortedHas(xs[..n], x, y);
      assert xs == xs[..n] + [xs[n]];
    }
  }

  lemma {:induction false} InsertSortedIncreases(xs: seq<int>, x: int)
    requires Increasing(xs)
    ensures Increasing(InsertSorted(xs, x))
  {
    if xs != [] && xs[|xs| - 1] > x {
      var n := |xs| - 1;
      var front := InsertSorted(xs[..n], x);
      InsertSortedIncreases(xs[..n], x);
      forall i | 0 <= i < |front|
        ensures front[i] < xs[n]
      {
        InsertSortedHas(xs[..n], x, front[i]);
      }
    }
  }

  lemma InsertSortedMeans(xs: seq<int>, x: int)
    requires Increasing(xs)
    ensures Increasing(InsertSorted(xs, x))
    ensures forall y :: y in InsertSorted(xs, x) <==> y in xs || y == x
  {
    hide Increasing, InsertSorted;
    InsertSortedIncreases(xs, x);
    forall y
      ensures y in InsertSorted(xs, x) <==> y in xs || y == x
    {
      InsertSortedHas(xs, x, y);
    }
  }

  /** The sorted set of a group's indices. */
  function IndicesOf(signals: seq<Signal>, group: int): seq<int> {
    if signals == [] then []
    else
      var rest := IndicesOf(signals[..|signals| - 1], group);
      var s := signals[|signals| - 1];
      if s.group == group then InsertSorted(rest, s.index) else rest
  }

  lemma {:induction false} IndicesMean(signals: seq<Signal>, group: int)
    ensures Increasing(IndicesOf(signals, group))
    ensures forall k :: 0 <= k < |signals| && signals[k].group == group ==>
              signals[k].index in IndicesOf(signals, group)
  {
    if signals != [] {
      var n := |signals| - 1;
      IndicesMean(signals[..n], group);
      InsertSortedMeans(IndicesOf(signals[..n], group), signals[n].index);
    }
  }

  /** A group is sparse if reading its whole range would ask for too many absent points. */
  predicate Sparse(indices: seq<int>, ratio: nat)
    requires indices != []
  {
    |indices| * ratio < indices[|indices| - 1] - indices[0] + 1
  }

  lemma OneTile(group: int, lo: int, hi: int, size: nat)
    requires lo <= hi < lo + size
    ensures Ranged(group, Tiles(lo, hi, size)) == [Request(group, lo, hi, false)]
  {
    assert Tiles(lo, hi, size) == [(lo, hi)];
  }

  lemma HaveStored(cache: Table, log: seq<Request>, from: nat, t: Table, group: int, lo: int, hi: int)
    requires forall i :: lo <= i <= hi && Point(group, i) in t ==> Point(group, i) in cache
    ensures forall i :: lo <= i <= hi ==> Have(cache, log, from, t, group, i)
  {
  }

  /** All readings of one numeric group. If nothing fails, a sparse group costs one request per index
      and any other the ranges of its tiles. */
  method FillGroup(m: Master, group: int, indices: seq<int>, most: nat, ratio: nat, cache0: Table, ghost from: nat)
    returns (cache: Table)
    requires indices != [] && Increasing(indices) && most >= 1 && Sound(cache0, m.table) && from <= |m.log|
    modifies m
    ensures Narrow(m.log, |old(m.log)|, most)
    ensures Extends(cache, cache0, m.log, old(m.log), m.table)
    ensures forall i :: i in indices ==> Have(cache, m.log, from, m.table, group, i)
    ensures var first, last := indices[0], indices[|indices| - 1];
            Readable(group) && Clean(m.log, |old(m.log)|) ==>
              m.log == old(m.log) + if last - first + 1 > |indices| * ratio then Singles(group, indices)
                                    else Ranged(group, Tiles(first, last, ChunkSize(most, group)))
  {
    hide Have, Sound, Tiles, Singles;
    var lo, hi := indices[0], indices[|indices| - 1];
    assert forall i :: i in indices ==> lo <= i <= hi;
    if !Readable(group) || Sparse(indices, ratio) {
      cache := FillAlone(m, group, indices, cache0, from, most);
    } else if hi - lo + 1 <= ChunkSize(most, group) {
      OneTile(group, lo, hi, ChunkSize(most, group));
      ghost var log := m.log;
      var items := m.Read(group, lo, hi);
      assert m.log[|log|] == Request(group, lo, hi, items.None?);
      if items.Some? {
        cache := Store(m.table, group, lo, hi, items.value, None, cache0);
        HaveStored(cache, m.log, from, m.table, group, lo, hi);
      } else {
        cache := FillAlone(m, group, indices, cache0, from, most);
      }
    } else {
      var tiles;
      cache, tiles := FillChunked(m, group, lo, hi, indices, most, cache0, from);
    }
  }

  /** The groups of a batch in the order of their first signal. */
  function GroupsOf(signals: seq<Signal>): seq<int> {
    if signals == [] then []
    else
      var rest := GroupsOf(signals[..|signals| - 1]);
      var g := signals[|signals| - 1].group;
      if g in rest then rest else rest + [g]
  }

  lemma {:induction false} GroupsMean(signals: seq<Signal>)
    ensures forall k :: 0 <= k < |signals| ==> signals[k].group in GroupsOf(signals)
    ensures forall g :: g in GroupsOf(signals) ==> exists k :: 0 <= k < |signals| && signals[k].group == g
  {
    if signals != [] {
      var n := |signals| - 1;
      GroupsMean(signals[..n]);
      forall g | g in GroupsOf(signals)
        ensures exists k :: 0 <= k < |signals| && signals[k].group == g
      {
        if g in GroupsOf(signals[..n]) {
          var k :| 0 <= k < n && signals[..n][k].group == g;
          assert signals[k].group == g;
        } else {
          assert signals[n].group == g;
        }
      }
    }
  }

  function ReadingOf(cache: Table, s: Signal): Reading {
    if s.group == STRING then Good(0.0)
    else if Point(s.group, s.index) in cache then Good(cache[Point(s.group, s.index)])
    else NoChange
  }

  /** `_read_batch_direct`: one reading per signal, in order. Each is what reading that index
      alone gives, or "no change" because even the request for that index alone raised; so
      without failures the strategy cannot be told from reading every index alone. No request is
      wider than the limit of its group. */
  method ReadBatch(m: Master, signals: seq<Signal>, most: nat, ratio: nat) returns (out: seq<Reading>)
    requires most >= 1
    modifies m
    ensures |out| == |signals|
    ensures Narrow(m.log, |old(m.log)|, most)
    ensures forall k :: 0 <= k < |signals| ==>
              || out[k] == ReadAlone(m.table, signals[k])
              || (out[k] == NoChange && AloneFailed(m.log, |old(m.log)|, signals[k].group, signals[k].index))
    ensures (forall n :: |old(m.log)| <= n < |m.log| ==> !m.log[n].failed) ==>
              forall k :: 0 <= k < |signals| ==> out[k] == ReadAlone(m.table, signals[k])
  {
    ghost var from := |m.log|;
    var groups := GroupsOf(signals);
    GroupsMean(signals);
    var cache: Table := map[];
    for g := 0 to |groups|
      invariant Sound(cache, m.table) && from <= |m.log| && Narrow(m.log, from, most)
      invariant forall k :: 0 <= k < |signals| && signals[k].group in groups[..g] && signals[k].group != STRING ==>
                  Have(cache, m.log, from, m.table, signals[k].group, signals[k].index)
    {
      ghost var before, log := cache, m.log;
      if groups[g] == STRING {
        cache := CacheStrings(signals, cache, m.table);
      } else {
        var indices := IndicesOf(signals, groups[g]);
        IndicesMean(signals, groups[g]);
        assert groups[g] in groups;
        cache := FillGroup(m, groups[g], indices, most, ratio, cache, from);
      }
      HaveStays(cache, before, m.log, log, from, m.table);
    }
    assert groups[..|groups|] == groups;
    out := [];
    for k := 0 to |signals|
      invariant |out| == k
      invariant forall j :: 0 <= j < k ==> out[j] == ReadingOf(cache, signals[j])
    {
      out := out + [ReadingOf(cache, signals[k])];
    }
    forall k | 0 <= k < |signals|
      ensures || out[k] == ReadAlone(m.table, signals[k])
              || (out[k] == NoChange && AloneFailed(m.log, from, signals[k].group, signals[k].index))
    {
      assert signals[k].group in groups;
    }
  }

  method CacheStrings(signals: seq<Signal>, cache0: Table, ghost t: Table) returns (cache: Table)
    requires Sound(cache0, t)
    ensures Sound(cache, t) && cache0.Keys <= cache.Keys
  {
    cache := cache0;
    for k := 0 to |signals|
      invariant Sound(cache, t) && cache0.Keys <= cache.Keys
    {
      if signals[k].group == STRING {
        cache := cache[Point(STRING, signals[k].index) := 0.0];
      }
    }
  }
}
