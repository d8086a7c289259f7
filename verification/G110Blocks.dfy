/** Read blocks for octet strings (group 110): the catalogue's indices grouped into few narrow
    ranges, because one wide range read has broken devices before. */
module G110Blocks {
  import opened Wrappers
  import DirectReads

  const STRING := 110
  const GAP := 8
  const MAX_WIDTH := 512
  const MAX_BLOCKS := 16

  /** A signal as the catalogue has it; group and index may be absent. */
  datatype Signal = Signal(group: Option<int>, index: Option<int>)

  datatype Block = Block(first: int, last: int)

  function Wanted(signals: seq<Signal>): seq<int> {
    if signals == [] then []
    else
      var rest := Wanted(signals[..|signals| - 1]);
      var s := signals[|signals| - 1];
      if s.group == Some(STRING) && s.index.Some? then DirectReads.InsertSorted(rest, s.index.value) else rest
  }

  lemma {:induction false} WantedMeans(signals: seq<Signal>)
    ensures DirectReads.Increasing(Wanted(signals))
    ensures forall i :: i in Wanted(signals) <==> Signal(Some(110), Some(i)) in signals
  {
    if signals != [] {
      var n := |signals| - 1;
      WantedMeans(signals[..n]);
      assert signals == signals[..n] + [signals[n]];
      if signals[n].group == Some(STRING) && signals[n].index.Some? {
        DirectReads.InsertSortedMeans(Wanted(signals[..n]), signals[n].index.value);
      }
    }
  }

  // ---------------------------------------------------------------- what blocks promise

  predicate Inside(b: Block, i: int) {
    b.first <= i <= b.last
  }

  ghost predicate Covered(blocks: seq<Block>, i: int) {
    exists k :: 0 <= k < |blocks| && Inside(blocks[k], i)
  }

  /** Strictly between two wanted indices that are close enough to share a block. */
  ghost predicate Between(xs: seq<int>, i: int) {
    exists p, q :: p in xs && q in xs && p < i < q && q - p <= 8
  }

  /** The block asks for nothing but wanted indices and small gaps between them. */
  ghost predicate Tight(xs: seq<int>, b: Block) {
    forall i :: Inside(b, i) ==> i in xs || Between(xs, i)
  }

  ghost predicate Useful(xs: seq<int>, b: Block) {
    exists i :: i in xs && Inside(b, i)
  }

  ghost predicate Ordered(blocks: seq<Block>) {
    forall a, b :: 0 <= a < b < |blocks| ==> blocks[a].last < blocks[b].first
  }

  /** Maximal runs of wanted indices whose neighbours are at most 8 apart. */
  ghost predicate Runs(xs: seq<int>, runs: seq<Block>) {
    Ordered(runs) && Apart(runs) && AllRuns(xs, runs) && CoversAll(xs, runs)
  }

  ghost predicate Apart(runs: seq<Block>) {
    forall k :: 0 <= k < |runs| - 1 ==> runs[k + 1].first - runs[k].last > 8
  }

  /** Two neighbouring blocks could not have been one: too far apart, or the first is full. */
  predicate Separate(a: Block, b: Block) {
    b.first - a.last > 8 || (b.first == a.last + 1 && a.last - a.first + 1 == 512)
  }

  ghost predicate Merged(blocks: seq<Block>) {
    forall k :: 0 <= k < |blocks| - 1 ==> Separate(blocks[k], blocks[k + 1])
  }

  ghost predicate IsRun(xs: seq<int>, run: Block) {
    run.first <= run.last && run.last in xs && Tight(xs, run)
  }

  ghost predicate AllRuns(xs: seq<int>, runs: seq<Block>) {
    forall k :: 0 <= k < |runs| ==> IsRun(xs, runs[k])
  }

  ghost predicate CoversAll(xs: seq<int>, blocks: seq<Block>) {
    forall i :: i in xs ==> Covered(blocks, i)
  }

  ghost predicate Narrow(xs: seq<int>, blocks: seq<Block>) {
    Ordered(blocks) && Merged(blocks) && AllNarrow(xs, blocks)
  }

  ghost predicate IsNarrow(xs: seq<int>, b: Block) {
    && b.first <= b.last < b.first + 512
    && Useful(xs, b) && Tight(xs, b)
  }

  ghost predicate AllNarrow(xs: seq<int>, blocks: seq<Block>) {
    forall k :: 0 <= k < |blocks| ==> IsNarrow(xs, blocks[k])
  }

  /** The pieces of one run: narrow, inside the run, and together all of it. */
  ghost predicate PiecesOf(xs: seq<int>, run: Block, pieces: seq<Block>) {
    && Narrow(xs, pieces)
    && (forall k :: 0 <= k < |pieces| ==> run.first <= pieces[k].first && pieces[k].last <= run.last)
    && (forall i :: Covered(pieces, i) <==> Inside(run, i))
  }

  lemma RunGrows(xs: seq<int>, x: int, b: Block)
    requires IsRun(xs, b)
    ensures IsRun(xs + [x], b)
  {
    var ys := xs + [x];
    forall i | Inside(b, i)
      ensures i in ys || Between(ys, i)
    {
      if i in xs {
        assert i in ys;
      } else {
        var p, q :| p in xs && q in xs && p < i < q && q - p <= 8;
        assert p in ys && q in ys;
      }
    }
  }

  lemma Extend(xs: seq<int>, first: int, last: int, x: int)
    requires IsRun(xs, Block(first, last)) && last < x <= last + GAP
    ensures IsRun(xs + [x], Block(first, x))
  {
    var ys := xs + [x];
    RunGrows(xs, x, Block(first, last));
    forall i | Inside(Block(first, x), i)
      ensures i in ys || Between(ys, i)
    {
      if i <= last {
        assert Inside(Block(first, last), i);
      } else if i < x {
        assert last in ys && x in ys;
      }
    }
  }

  /** The first loop. */
  method Group(xs: seq<int>) returns (runs: seq<Block>)
    requires xs != [] && DirectReads.Increasing(xs)
    ensures Runs(xs, runs)
  {
    hide Runs, IsRun;
    runs := [];
    var first, last := xs[0], xs[0];
    OneRun(xs[0]);
    assert xs[..1] == [xs[0]] && [] + [Block(first, last)] == [Block(first, last)];
    for n := 1 to |xs|
      invariant last == xs[n - 1] && Runs(xs[..n], runs + [Block(first, last)])
    {
      var x := xs[n];
      assert xs[..n + 1] == xs[..n] + [x];
      GroupStep(xs[..n], x, runs, Block(first, last));
      if x - last <= GAP {
        last := x;
      } else {
        runs := runs + [Block(first, last)];
        first, last := x, x;
      }
    }
    runs := runs + [Block(first, last)];
    assert xs[..|xs|] == xs;
  }

  lemma OneRun(x: int)
    ensures Runs([x], [Block(x, x)])
  {
    assert Inside([Block(x, x)][0], x);
  }

  /** The next index either stretches the last run or opens a new one. */
  lemma GroupStep(xs: seq<int>, x: int, done: seq<Block>, last: Block)
    requires Runs(xs, done + [last]) && last.last < x
    ensures if x - last.last <= GAP then Runs(xs + [x], done + [Block(last.first, x)])
            else Runs(xs + [x], (done + [last]) + [Block(x, x)])
  {
    hide IsRun, Covered;
    var before := done + [last];
    assert before[|done|] == last;
    forall k | 0 <= k < |before|
      ensures IsRun(xs + [x], before[k])
    {
      RunGrows(xs, x, before[k]);
    }
    forall k | 0 <= k < |done|
      ensures done[k] == before[k] && done[k].last < last.first
    {
    }
    if x - last.last <= GAP {
      Extend(xs, last.first, last.last, x);
      Covers(xs, x, done, last, Block(last.first, x));
    } else {
      NewRun(xs, x);
      AddCovers(before, Block(x, x));
      assert forall k :: 0 <= k < |before| ==> before[k].last < x by { RunsBelow(xs, before, x); }
    }
  }

  lemma RunsBelow(xs: seq<int>, runs: seq<Block>, x: int)
    requires Ordered(runs) && AllRuns(xs, runs) && runs != [] && runs[|runs| - 1].last < x
    ensures forall k :: 0 <= k < |runs| ==> runs[k].last < x
  {
  }

  lemma NewRun(xs: seq<int>, x: int)
    ensures IsRun(xs + [x], Block(x, x))
  {
  }

  /** Stretching the last block keeps what is covered and adds x. */
  lemma Covers(xs: seq<int>, x: int, done: seq<Block>, last: Block, wider: Block)
    requires CoversAll(xs, done + [last]) && wider.first == last.first && wider.last == x > last.last
    requires wider.first <= x
    ensures CoversAll(xs + [x], done + [wider])
  {
    AddCovers(done, last);
    AddCovers(done, wider);
  }

  // ---------------------------------------------------------------- splitting and truncating

  lemma PieceUseful(xs: seq<int>, run: Block, p: int)
    requires IsRun(xs, run) && run.first <= p <= run.last
    ensures Useful(xs, Block(p, if run.last < p + MAX_WIDTH - 1 then run.last else p + MAX_WIDTH - 1))
  {
    var piece := Block(p, if run.last < p + MAX_WIDTH - 1 then run.last else p + MAX_WIDTH - 1);
    assert Inside(run, p);
    if p in xs {
      assert Inside(piece, p);
    } else {
      var a, q :| a in xs && q in xs && a < p < q && q - a <= GAP;
      if q <= run.last {
        assert Inside(piece, q);
      } else {
        assert Inside(piece, run.last);
      }
    }
  }

  /** A run that is too wide is cut into pieces; the others stay as they are. */
  method Split(xs: seq<int>, run: Block) returns (pieces: seq<Block>)
    requires IsRun(xs, run)
    ensures PiecesOf(xs, run, pieces)
  {
    hide Tight, Useful, Merged, Covered;
    if run.last - run.first + 1 <= MAX_WIDTH {
      WholeRun(xs, run);
      return [run];
    }
    pieces := [];
    Nothing(xs);
    var p := run.first;
    while p <= run.last
      invariant p >= run.first
      invariant Narrow(xs, pieces)
      invariant forall k :: 0 <= k < |pieces| ==>
                  run.first <= pieces[k].first && pieces[k].last < p && pieces[k].last <= run.last
      invariant forall i :: Covered(pieces, i) <==> run.first <= i < p && i <= run.last
      invariant pieces != [] && p <= run.last ==>
                  var full := pieces[|pieces| - 1]; full.last == p - 1 && full.last - full.first + 1 == MAX_WIDTH
      decreases run.last - p
    {
      var piece := Block(p, if run.last < p + MAX_WIDTH - 1 then run.last else p + MAX_WIDTH - 1);
      PieceUseful(xs, run, p);
      assert Tight(xs, piece) by { TightPart(xs, run, piece); }
      AddCovers(pieces, piece);
      MergedAdd(pieces, piece);
      pieces := pieces + [piece];
      p := p + MAX_WIDTH;
    }
  }

  lemma Nothing(xs: seq<int>)
    ensures Narrow(xs, []) && forall i :: !Covered([], i)
  {
  }

  lemma MergedAdd(blocks: seq<Block>, more: Block)
    requires Merged(blocks)
    requires blocks != [] ==> Separate(blocks[|blocks| - 1], more)
    ensures Merged(blocks + [more])
  {
  }

  lemma WholeRun(xs: seq<int>, run: Block)
    requires IsRun(xs, run) && run.last - run.first + 1 <= MAX_WIDTH
    ensures PiecesOf(xs, run, [run])
  {
    hide Tight, Covered;
    assert Inside(run, run.last);
    AddCovers([], run);
    NoBlocks();
    assert [] + [run] == [run];
  }

  lemma TightPart(xs: seq<int>, run: Block, piece: Block)
    requires Tight(xs, run) && run.first <= piece.first && piece.last <= run.last
    ensures Tight(xs, piece)
  {
  }

  lemma AddCovers(blocks: seq<Block>, more: Block)
    ensures forall i :: Covered(blocks + [more], i) <==> Covered(blocks, i) || Inside(more, i)
  {
    AppendCovers(blocks, [more]);
    assert forall i :: Covered([more], i) <==> Inside([more][0], i);
  }

  lemma AppendCovers(a: seq<Block>, b: seq<Block>)
    ensures forall i :: Covered(a + b, i) <==> Covered(a, i) || Covered(b, i)
  {
    forall i
      ensures Covered(a + b, i) <==> Covered(a, i) || Covered(b, i)
    {
      if Covered(a, i) {
        var k :| 0 <= k < |a| && Inside(a[k], i);
        assert Inside((a + b)[k], i);
      }
      if Covered(b, i) {
        var k :| 0 <= k < |b| && Inside(b[k], i);
        assert Inside((a + b)[|a| + k], i);
      }
      if Covered(a + b, i) {
        var k :| 0 <= k < |a + b| && Inside((a + b)[k], i);
        if k < |a| {
          assert Inside(a[k], i);
        } else {
          assert Inside(b[k - |a|], i);
        }
      }
    }
  }

  /** The second loop. */
  method SplitAll(xs: seq<int>, runs: seq<Block>) returns (blocks: seq<Block>)
    requires Runs(xs, runs)
    ensures Narrow(xs, blocks)
    ensures forall i :: Covered(blocks, i) <==> Covered(runs, i)
  {
    hide IsNarrow, Covered, IsRun, PiecesOf;
    blocks := [];
    for n := 0 to |runs|
      invariant SoFar(xs, runs, n, blocks)
    {
      var pieces := Split(xs, runs[n]);
      RunOrder(xs, runs);
      SplitStep(xs, runs, n, blocks, pieces);
      blocks := blocks + pieces;
    }
    assert runs[..|runs|] == runs;
  }

  /** The blocks of the first n runs. */
  ghost predicate SoFar(xs: seq<int>, runs: seq<Block>, n: nat, blocks: seq<Block>) {
    && n <= |runs|
    && Narrow(xs, blocks)
    && (if n == 0 then blocks == [] else forall k :: 0 <= k < |blocks| ==> blocks[k].last <= runs[n - 1].last)
    && (forall i :: Covered(blocks, i) <==> Covered(runs[..n], i))
  }

  lemma RunOrder(xs: seq<int>, runs: seq<Block>)
    requires AllRuns(xs, runs)
    ensures forall k :: 0 <= k < |runs| ==> runs[k].first <= runs[k].last
  {
  }

  lemma SplitStep(xs: seq<int>, runs: seq<Block>, n: nat, blocks: seq<Block>, pieces: seq<Block>)
    requires n < |runs| && Ordered(runs) && Apart(runs) && SoFar(xs, runs, n, blocks) && PiecesOf(xs, runs[n], pieces)
    requires runs[n].first <= runs[n].last && (n > 0 ==> runs[n - 1].first <= runs[n - 1].last)
    ensures SoFar(xs, runs, n + 1, blocks + pieces)
  {
    hide IsNarrow, Covered, Inside;
    var run := runs[n];
    assert runs[..n + 1] == runs[..n] + [run];
    AddCovers(runs[..n], run);
    AppendCovers(blocks, pieces);
    forall k | 0 <= k < |blocks|
      ensures blocks[k].last < run.first
    {
    }
    var all := blocks + pieces;
    forall k | 0 <= k < |all|
      ensures all[k].last <= run.last
    {
      if k >= |blocks| {
        assert all[k] == pieces[k - |blocks|];
      }
    }
    assert Ordered(all);
    assert Merged(all) by { MergedJoin(blocks, pieces); }
  }

  lemma MergedJoin(a: seq<Block>, b: seq<Block>)
    requires Merged(a) && Merged(b)
    requires a != [] && b != [] ==> b[0].first - a[|a| - 1].last > GAP
    ensures Merged(a + b)
  {
  }

  /** `_g110_bloklari`: at most 16 ordered, disjoint blocks of at most 512 indices, each with a
      wanted index, no padding but small gaps, and no neighbours that belong together. A wanted
      index is covered exactly if it does not lie beyond the last block, and nothing lies beyond
      it unless all 16 are used. */
  method Blocks(signals: seq<Signal>) returns (blocks: seq<Block>)
    ensures Narrow(Wanted(signals), blocks) && |blocks| <= 16
    ensures blocks == [] <==> Wanted(signals) == []
    ensures blocks != [] ==> forall i :: i in Wanted(signals) ==>
              (Covered(blocks, i) <==> i <= blocks[|blocks| - 1].last)
    ensures |blocks| < 16 ==> forall i :: i in Wanted(signals) ==> Covered(blocks, i)
  {
    hide IsNarrow, IsRun, Wanted, PiecesOf, Covered;
    var xs := Collect(signals);
    WantedMeans(signals);
    if xs == [] {
      return [];
    }
    var runs := Group(xs);
    var all := SplitAll(xs, runs);
    assert Covered(all, xs[0]);
    assert all != [] by { NoBlocks(); }
    blocks := if |all| > MAX_BLOCKS then all[..MAX_BLOCKS] else all;
    assert all[..|blocks|] == blocks;
    assert forall k :: 0 <= k < |all| ==> all[k].first <= all[k].last by { NarrowOrder(xs, all); }
    forall i | i in xs
      ensures Covered(blocks, i) <==> i <= blocks[|blocks| - 1].last
    {
      assert Covered(runs, i);
      Truncated(all, |blocks|, i);
    }
  }

  lemma NoBlocks()
    ensures forall i :: !Covered([], i)
  {
  }

  lemma NarrowOrder(xs: seq<int>, blocks: seq<Block>)
    requires AllNarrow(xs, blocks)
    ensures forall k :: 0 <= k < |blocks| ==> blocks[k].first <= blocks[k].last
  {
  }

  lemma Truncated(all: seq<Block>, n: nat, i: int)
    requires Ordered(all) && 1 <= n <= |all| && Covered(all, i)
    requires forall k :: 0 <= k < |all| ==> all[k].first <= all[k].last
    ensures Covered(all[..n], i) <==> i <= all[n - 1].last
  {
  }

  method Collect(signals: seq<Signal>) returns (xs: seq<int>)
    ensures xs == Wanted(signals)
  {
    xs := [];
    for n := 0 to |signals|
      invariant xs == Wanted(signals[..n])
    {
      assert signals[..n + 1][..n] == signals[..n];
      if signals[n].group == Some(STRING) && signals[n].index.Some? {
        xs := DirectReads.InsertSorted(xs, signals[n].index.value);
      }
    }
    assert signals[..|signals|] == signals;
  }
}
