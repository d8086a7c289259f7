/** The port ranges a gateway publishes for devices that dial in: parsing the operator's text,
    the checks, and the labels the renderer prints. */
module PortRanges {
  import opened Wrappers
  import opened Text

  const PORT_MIN := 1024
  const PORT_MAX := 65535
  const PORT_MAX_TOTAL := 512

  datatype Range = Range(first: nat, last: nat)

  datatype Error =
    EmptyItem | MalformedRange | NotNumeric | Reversed | PortOutOfBounds | Overlapping | TooMany

  datatype Parsed<T> = Accepted(value: T) | Rejected(error: Error)

  predicate Allowed(port: nat) {
    PORT_MIN <= port <= PORT_MAX
  }

  /** One comma-separated item, already stripped. */
  function ParseItem(item: string): Parsed<Range> {
    if item == "" then Rejected(EmptyItem)
    else
      var parts := if '-' in item then Split(item, '-') else [item, item];
      if |parts| != 2 then Rejected(MalformedRange)
      else
        var first, last := Strip(parts[0]), Strip(parts[1]);
        if !AllDigits(first) || !AllDigits(last) then Rejected(NotNumeric)
        else if Number(first) > Number(last) then Rejected(Reversed)
        else if !Allowed(Number(first)) || !Allowed(Number(last)) then Rejected(PortOutOfBounds)
        else Accepted(Range(Number(first), Number(last)))
  }

  function ParseItems(items: seq<string>): Parsed<seq<Range>> {
    if items == [] then Accepted([])
    else
      var n := |items| - 1;
      match ParseItems(items[..n])
      case Rejected(e) => Rejected(e)
      case Accepted(rest) =>
        match ParseItem(Strip(items[n]))
        case Rejected(e) => Rejected(e)
        case Accepted(r) => Accepted(rest + [r])
  }

  predicate Below(a: Range, b: Range) {
    a.first < b.first || (a.first == b.first && a.last <= b.last)
  }

  function Insert(sorted: seq<Range>, r: Range): seq<Range> {
    if sorted != [] && !Below(sorted[|sorted| - 1], r) then
      Insert(sorted[..|sorted| - 1], r) + [sorted[|sorted| - 1]]
    else sorted + [r]
  }

  function Sort(ranges: seq<Range>): seq<Range> {
    if ranges == [] then [] else Insert(Sort(ranges[..|ranges| - 1]), ranges[|ranges| - 1])
  }

  /** The check of the source: each range against its successor only. */
  predicate NeighboursApart(sorted: seq<Range>) {
    forall k | 0 <= k < |sorted| - 1 :: sorted[k].last < sorted[k + 1].first
  }

  function Total(ranges: seq<Range>): int {
    if ranges == [] then 0
    else Total(ranges[..|ranges| - 1]) + ranges[|ranges| - 1].last - ranges[|ranges| - 1].first + 1
  }

  function Check(ranges: seq<Range>): Parsed<seq<Range>> {
    if !NeighboursApart(Sort(ranges)) then Rejected(Overlapping)
    else if Total(ranges) > PORT_MAX_TOTAL then Rejected(TooMany)
    else Accepted(Sort(ranges))
  }

  /** `parse_initiating_ports` */
  function Parse(raw: Option<string>): Parsed<seq<Range>> {
    if raw.None? || Strip(raw.value) == "" then Accepted([])
    else
      match ParseItems(Split(Strip(raw.value), ','))
      case Rejected(e) => Rejected(e)
      case Accepted(ranges) => Check(ranges)
  }

  // ---------------------------------------------------------------- the loops of the source

  method ParsePorts(raw: Option<string>) returns (r: Parsed<seq<Range>>)
    ensures r == Parse(raw)
  {
    if raw.None? {
      return Accepted([]);
    }
    var text := Strip(raw.value);
    if text == "" {
      return Accepted([]);
    }
    var items := Split(text, ',');
    var ranges: seq<Range> := [];
    for i := 0 to |items|
      invariant ParseItems(items[..i]) == Accepted(ranges)
    {
      assert items[..i + 1][..i] == items[..i];
      var item := ParseItem(Strip(items[i]));
      if item.Rejected? {
        RejectedStays(items, i + 1);
        return Rejected(item.error);
      }
      ranges := ranges + [item.value];
    }
    assert items[..|items|] == items;
    var sorted := Sort(ranges);
    for k := 0 to |sorted| - 1
      invariant forall j :: 0 <= j < k ==> sorted[j].last < sorted[j + 1].first
    {
      if sorted[k + 1].first <= sorted[k].last {
        return Rejected(Overlapping);
      }
    }
    var total := 0;
    for i := 0 to |ranges|
      invariant total == Total(ranges[..i])
    {
      assert ranges[..i + 1][..i] == ranges[..i];
      total := total + (ranges[i].last - ranges[i].first + 1);
    }
    assert ranges[..|ranges|] == ranges;
    return if total > PORT_MAX_TOTAL then Rejected(TooMany) else Accepted(sorted);
  }

  lemma {:induction false} RejectedStays(items: seq<string>, n: nat)
    requires n <= |items| && ParseItems(items[..n]).Rejected?
    ensures ParseItems(items) == ParseItems(items[..n])
    decreases |items| - n
  {
    if n == |items| {
      assert items[..n] == items;
    } else {
      assert items[..n + 1][..n] == items[..n];
      RejectedStays(items, n + 1);
    }
  }

  // ---------------------------------------------------------------- what acceptance means

  /** The same port is in both. */
  predicate Meet(a: Range, b: Range) {
    a.first <= b.last && b.first <= a.last
  }

  ghost predicate Disjoint(ranges: seq<Range>) {
    forall i, j :: 0 <= i < j < |ranges| ==> !Meet(ranges[i], ranges[j])
  }

  ghost predicate Proper(ranges: seq<Range>) {
    forall i :: 0 <= i < |ranges| ==> 1024 <= ranges[i].first <= ranges[i].last <= 65535
  }

  ghost predicate Sorted(ranges: seq<Range>) {
    forall i, j :: 0 <= i < j < |ranges| ==> Below(ranges[i], ranges[j])
  }

  lemma {:induction false} InsertSame(sorted: seq<Range>, r: Range)
    ensures multiset(Insert(sorted, r)) == multiset(sorted) + multiset{r}
  {
    if sorted != [] {
      var n := |sorted| - 1;
      InsertSame(sorted[..n], r);
      assert sorted == sorted[..n] + [sorted[n]];
    }
  }

  lemma {:induction false} InsertSorts(sorted: seq<Range>, r: Range)
    requires Sorted(sorted)
    ensures Sorted(Insert(sorted, r))
  {
    if sorted != [] && !Below(sorted[|sorted| - 1], r) {
      var n := |sorted| - 1;
      var front := Insert(sorted[..n], r);
      InsertSorts(sorted[..n], r);
      forall i | 0 <= i < |front|
        ensures Below(front[i], sorted[n])
      {
        InsertedFrom(sorted[..n], r, i);
      }
    }
  }

  lemma InsertedFrom(sorted: seq<Range>, r: Range, i: nat)
    requires i < |Insert(sorted, r)|
    ensures Insert(sorted, r)[i] == r || exists k :: 0 <= k < |sorted| && sorted[k] == Insert(sorted, r)[i]
  {
    hide Insert;
    InsertSame(sorted, r);
    assert Insert(sorted, r)[i] in multiset(Insert(sorted, r));
    assert Insert(sorted, r)[i] in multiset(sorted) || Insert(sorted, r)[i] == r;
  }

  lemma {:induction false} SortMeans(ranges: seq<Range>)
    ensures Sorted(Sort(ranges)) && multiset(Sort(ranges)) == multiset(ranges)
  {
    if ranges != [] {
      var n := |ranges| - 1;
      SortMeans(ranges[..n]);
      InsertSorts(Sort(ranges[..n]), ranges[n]);
      InsertSame(Sort(ranges[..n]), ranges[n]);
      assert ranges == ranges[..n] + [ranges[n]];
    }
  }

  /** For sorted ranges, comparing neighbours decides whether any two of them meet. */
  lemma {:induction false} NeighboursDecide(sorted: seq<Range>)
    requires Sorted(sorted) && Proper(sorted)
    ensures NeighboursApart(sorted) <==> Disjoint(sorted)
  {
    if NeighboursApart(sorted) {
      forall i, j | 0 <= i < j < |sorted|
        ensures sorted[i].last < sorted[j].first
      {
        Chain(sorted, i, j);
      }
    }
    if Disjoint(sorted) {
      forall k | 0 <= k < |sorted| - 1
        ensures sorted[k].last < sorted[k + 1].first
      {
        assert !Meet(sorted[k], sorted[k + 1]);
        assert Below(sorted[k], sorted[k + 1]);
      }
    }
  }

  lemma {:induction false} Chain(sorted: seq<Range>, i: nat, j: nat)
    requires NeighboursApart(sorted) && Proper(sorted) && i < j < |sorted|
    ensures sorted[i].last < sorted[j].first
    decreases j - i
  {
    if i + 1 < j {
      Chain(sorted, i, j - 1);
    }
    assert sorted[j - 1].last < sorted[j - 1 + 1].first;
  }

  // ---------------------------------------------------------------- duplicates and order

  lemma {:induction false} CountTwo(ranges: seq<Range>, r: Range)
    requires multiset(ranges)[r] >= 2
    ensures exists i, j :: 0 <= i < j < |ranges| && ranges[i] == r && ranges[j] == r
  {
    var n := |ranges| - 1;
    assert ranges == ranges[..n] + [ranges[n]];
    if ranges[n] == r {
      assert r in multiset(ranges[..n]);
      var i :| 0 <= i < n && ranges[..n][i] == r;
      assert ranges[i] == r && i < n;
    } else {
      CountTwo(ranges[..n], r);
      var i, j :| 0 <= i < j < n && ranges[..n][i] == r && ranges[..n][j] == r;
      assert ranges[i] == r && ranges[j] == r;
    }
  }

  lemma TwoCount(ranges: seq<Range>, i: nat, j: nat)
    requires i < j < |ranges| && ranges[i] == ranges[j]
    ensures multiset(ranges)[ranges[i]] >= 2
  {
    assert ranges == ranges[..j] + ranges[j..];
    assert ranges[..j][i] == ranges[i] && ranges[j..][0] == ranges[i];
    assert ranges[i] in multiset(ranges[..j]) && ranges[i] in multiset(ranges[j..]);
  }

  lemma NoTwins(ranges: seq<Range>, r: Range)
    requires Proper(ranges) && Disjoint(ranges)
    ensures multiset(ranges)[r] <= 1
  {
    if multiset(ranges)[r] >= 2 {
      CountTwo(ranges, r);
    }
  }

  /** Whether any two ranges meet does not depend on the order they are written in. */
  lemma DisjointPermutes(a: seq<Range>, b: seq<Range>)
    requires multiset(a) == multiset(b) && Proper(a) && Disjoint(a)
    ensures Disjoint(b)
  {
    forall i, j | 0 <= i < j < |b|
      ensures !Meet(b[i], b[j])
    {
      assert b[i] in multiset(a) && b[j] in multiset(a);
      if b[i] == b[j] {
        TwoCount(b, i, j);
        NoTwins(a, b[i]);
        assert false;
      } else {
        var k :| 0 <= k < |a| && a[k] == b[i];
        var m :| 0 <= m < |a| && a[m] == b[j];
        assert k < m || m < k;
      }
    }
  }

  lemma ProperPermutes(a: seq<Range>, b: seq<Range>)
    requires multiset(a) == multiset(b) && Proper(a)
    ensures Proper(b)
  {
    forall i | 0 <= i < |b|
      ensures 1024 <= b[i].first <= b[i].last <= 65535
    {
      assert b[i] in multiset(a);
      var k :| 0 <= k < |a| && a[k] == b[i];
    }
  }

  lemma {:induction false} ItemsProper(items: seq<string>)
    ensures ParseItems(items).Accepted? ==> Proper(ParseItems(items).value) && |ParseItems(items).value| == |items|
  {
    if items != [] {
      ItemsProper(items[..|items| - 1]);
    }
  }

  // ---------------------------------------------------------------- the ports themselves

  predicate Holds(r: Range, p: nat) {
    r.first <= p <= r.last
  }

  function PortsOf(r: Range): set<nat> {
    set p: nat | r.first <= p <= r.last && Holds(r, p)
  }

  function Ports(ranges: seq<Range>): set<nat> {
    if ranges == [] then {} else Ports(ranges[..|ranges| - 1]) + PortsOf(ranges[|ranges| - 1])
  }

  lemma {:induction false} PortsMean(ranges: seq<Range>, p: nat)
    ensures p in Ports(ranges) <==> exists k :: 0 <= k < |ranges| && Holds(ranges[k], p)
  {
    if ranges != [] {
      var n := |ranges| - 1;
      PortsMean(ranges[..n], p);
      if p in Ports(ranges[..n]) {
        var k :| 0 <= k < n && Holds(ranges[..n][k], p);
        assert Holds(ranges[k], p);
      }
      if k :| 0 <= k < |ranges| && Holds(ranges[k], p) {
        if k < n {
          assert Holds(ranges[..n][k], p);
        }
      }
    }
  }

  lemma {:induction false} CountPorts(first: nat, last: nat)
    requires first <= last
    ensures |PortsOf(Range(first, last))| == last - first + 1
    decreases last - first
  {
    if first == last {
      assert PortsOf(Range(first, last)) == {first};
    } else {
      CountPorts(first, last - 1);
      assert PortsOf(Range(first, last)) == PortsOf(Range(first, last - 1)) + {last};
    }
  }

  /** Of disjoint ranges the total is the number of ports they hold. */
  lemma {:induction false} TotalCountsPorts(ranges: seq<Range>)
    requires Proper(ranges) && Disjoint(ranges)
    ensures Total(ranges) == |Ports(ranges)|
  {
    if ranges != [] {
      var n := |ranges| - 1;
      TotalCountsPorts(ranges[..n]);
      CountPorts(ranges[n].first, ranges[n].last);
      forall p | p in Ports(ranges[..n])
        ensures p !in PortsOf(ranges[n])
      {
        PortsMean(ranges[..n], p);
        var k :| 0 <= k < n && Holds(ranges[..n][k], p);
        assert !Meet(ranges[k], ranges[n]);
      }
      assert |Ports(ranges[..n]) + PortsOf(ranges[n])| == |Ports(ranges[..n])| + |PortsOf(ranges[n])|;
    }
  }

  lemma SamePorts(a: seq<Range>, b: seq<Range>)
    requires multiset(a) == multiset(b)
    ensures Ports(a) == Ports(b)
  {
    forall p: nat
      ensures p in Ports(a) <==> p in Ports(b)
    {
      PortsMean(a, p);
      PortsMean(b, p);
      forall k | 0 <= k < |a| && Holds(a[k], p)
        ensures exists m :: 0 <= m < |b| && Holds(b[m], p)
      {
        assert a[k] in multiset(b);
        var m :| 0 <= m < |b| && b[m] == a[k];
        assert Holds(b[m], p);
      }
      forall m | 0 <= m < |b| && Holds(b[m], p)
        ensures exists k :: 0 <= k < |a| && Holds(a[k], p)
      {
        assert b[m] in multiset(a);
        var k :| 0 <= k < |a| && a[k] == b[m];
        assert Holds(a[k], p);
      }
    }
  }

  /** Non-blank text is accepted exactly if every item is a proper range, no two of them meet
      and together they hold at most 512 ports. What comes back is those ranges, sorted, with
      exactly the ports that were written. */
  lemma AcceptedIff(text: string)
    requires Strip(text) != ""
    ensures var items := ParseItems(Split(Strip(text), ','));
            && (Parse(Some(text)).Accepted? <==>
                  items.Accepted? && Disjoint(items.value) && |Ports(items.value)| <= 512)
            && (Parse(Some(text)).Accepted? ==>
                  var r := Parse(Some(text)).value;
                  && Sorted(r) && Proper(r) && Disjoint(r)
                  && multiset(r) == multiset(items.value) && Ports(r) == Ports(items.value))
  {
    hide ParseItems, Split, Strip, Sort, Ports, Total, NeighboursApart, Disjoint, Proper, Sorted;
    var items := ParseItems(Split(Strip(text), ','));
    ItemsProper(Split(Strip(text), ','));
    if items.Accepted? {
      var sorted := Sort(items.value);
      SortMeans(items.value);
      ProperPermutes(items.value, sorted);
      NeighboursDecide(sorted);
      SamePorts(sorted, items.value);
      if Disjoint(items.value) {
        DisjointPermutes(items.value, sorted);
        TotalCountsPorts(items.value);
      }
      if Disjoint(sorted) {
        DisjointPermutes(sorted, items.value);
      }
    }
  }

  // ---------------------------------------------------------------- printing and parsing back

  /** The part of a compose mapping that names the ports. */
  function Label(r: Range): string {
    if r.first != r.last then Decimal(r.first) + ("-" + Decimal(r.last)) else Decimal(r.first)
  }

  function Labels(ranges: seq<Range>): seq<string> {
    if ranges == [] then [] else Labels(ranges[..|ranges| - 1]) + [Label(ranges[|ranges| - 1])]
  }

  lemma DigitsClean(s: string)
    requires AllDigits(s)
    ensures ',' !in s && '-' !in s && !Space(s[0]) && !Space(s[|s| - 1]) && Strip(s) == s
  {
  }

  lemma LabelClean(r: Range)
    ensures var s := Label(r); s != "" && ',' !in s && Strip(s) == s && !Space(s[0]) && !Space(s[|s| - 1])
  {
    DecimalRoundTrip(r.first);
    DecimalRoundTrip(r.last);
    DigitsClean(Decimal(r.first));
    DigitsClean(Decimal(r.last));
    StripTight(Label(r));
  }

  lemma LabelRoundTrip(r: Range)
    requires 1024 <= r.first <= r.last <= 65535
    ensures ParseItem(Label(r)) == Accepted(r)
  {
    var a, b := Decimal(r.first), Decimal(r.last);
    DecimalRoundTrip(r.first);
    DecimalRoundTrip(r.last);
    DigitsClean(a);
    DigitsClean(b);
    if r.first != r.last {
      assert "-" == ['-'];
      SplitOff(a, '-', b);
      SplitOff(b, '-', "");
      assert Label(r)[|a|] == '-';
    }
  }

  lemma {:induction false} LabelsAre(ranges: seq<Range>)
    ensures |Labels(ranges)| == |ranges|
    ensures forall i :: 0 <= i < |ranges| ==> Labels(ranges)[i] == Label(ranges[i])
  {
    hide Label;
    if ranges != [] {
      LabelsAre(ranges[..|ranges| - 1]);
    }
  }

  lemma ItemsAppend(items: seq<string>, item: string, ranges: seq<Range>, r: Range)
    requires ParseItems(items) == Accepted(ranges) && ParseItem(Strip(item)) == Accepted(r)
    ensures ParseItems(items + [item]) == Accepted(ranges + [r])
  {
  }

  lemma {:induction false} LabelsParse(ranges: seq<Range>)
    requires Proper(ranges)
    ensures ParseItems(Labels(ranges)) == Accepted(ranges)
  {
    hide Label, ParseItem, ParseItems, Strip;
    if ranges != [] {
      var n := |ranges| - 1;
      LabelsParse(ranges[..n]);
      LabelClean(ranges[n]);
      LabelRoundTrip(ranges[n]);
      ItemsAppend(Labels(ranges[..n]), Label(ranges[n]), ranges[..n], ranges[n]);
      assert ranges[..n] + [ranges[n]] == ranges;
    } else {
      NoItems();
    }
  }

  lemma NoItems()
    ensures ParseItems([]) == Accepted([])
  {
  }

  lemma {:induction false} SortSorted(ranges: seq<Range>)
    requires Sorted(ranges)
    ensures Sort(ranges) == ranges
  {
    if ranges != [] {
      var n := |ranges| - 1;
      SortSorted(ranges[..n]);
      assert n > 0 ==> Below(ranges[n - 1], ranges[n]);
    }
  }

  /** Printing an accepted list and parsing the comma-joined labels gives the list back. */
  lemma LabelsRoundTrip(ranges: seq<Range>)
    requires ranges != [] && Sorted(ranges) && Proper(ranges) && Disjoint(ranges) && |Ports(ranges)| <= 512
    ensures Parse(Some(Join(Labels(ranges), ','))) == Accepted(ranges)
  {
    hide Label, ParseItem, ParseItems, Strip, Split, Sort, Ports, Space;
    var labels := Labels(ranges);
    LabelsAre(ranges);
    forall i | 0 <= i < |labels|
      ensures labels[i] != "" && ',' !in labels[i] && !Space(labels[i][0]) && !Space(labels[i][|labels[i]| - 1])
    {
      LabelClean(ranges[i]);
    }
    JoinEnds(labels, ',');
    StripTight(Join(labels, ','));
    SplitJoin(labels, ',');
    LabelsParse(ranges);
    SortSorted(ranges);
    NeighboursDecide(ranges);
    TotalCountsPorts(ranges);
  }

  /** The renderer's check of the health port against every block. */
  method HostPortFree(ranges: seq<Range>, host: nat) returns (ok: bool)
    ensures ok <==> host !in Ports(ranges)
  {
    for i := 0 to |ranges|
      invariant host !in Ports(ranges[..i])
    {
      assert ranges[..i + 1][..i] == ranges[..i];
      if ranges[i].first <= host <= ranges[i].last {
        PortsMean(ranges, host);
        return false;
      }
    }
    assert ranges[..|ranges|] == ranges;
    return true;
  }
}
