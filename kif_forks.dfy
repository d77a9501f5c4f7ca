// Splicing the variation blocks of a KIF record into a tree of forks.
//
// A KIF file lists the main line and then, one after another, blocks of
// moves that start at some move number (the anchor). The current reader
// attaches every block to the nearest earlier block whose anchor is not
// greater than its own, at the entry with the same move number, and a block
// with no such predecessor to the main line; it does so with a stack,
// walking the blocks from the last one back. The older reader attaches
// every block to the main line, without nesting.
//
// The specification functions are total: a block whose anchor falls outside
// the entries it is pushed onto is dropped there. The methods require that
// this never happens, since the source indexes out of range (and panics)
// in that case.

module KifForks {
  import opened Jkf

  /** A run of moves and the move number of its first entry. */
  datatype Block = Block(anchor: nat, moves: seq<MoveFormat>)

  // ------------------------------------------------------------ the parent

  /** The last block before `below` whose anchor is at most block m's, or -1. */
  function Nearest(blocks: seq<Block>, m: nat, below: nat): (p: int)
    requires m < |blocks| && below <= m
    ensures -1 <= p < below
    ensures p >= 0 ==> blocks[p].anchor <= blocks[m].anchor
    decreases below
  {
    if below == 0 then -1
    else if blocks[below - 1].anchor <= blocks[m].anchor then below - 1
    else Nearest(blocks, m, below - 1)
  }

  lemma {:induction false} NearestSkips(blocks: seq<Block>, m: nat, below: nat, q: nat)
    requires m < |blocks| && below <= m
    requires Nearest(blocks, m, below) < q < below
    ensures blocks[q].anchor > blocks[m].anchor
    decreases below
  {
    if q < below - 1 {
      NearestSkips(blocks, m, below - 1, q);
    }
  }

  lemma {:induction false} NearestAtLeast(blocks: seq<Block>, m: nat, below: nat, q: nat)
    requires m < |blocks| && q < below <= m
    requires blocks[q].anchor <= blocks[m].anchor
    ensures Nearest(blocks, m, below) >= q
    decreases below
  {
    if q < below - 1 && blocks[below - 1].anchor > blocks[m].anchor {
      NearestAtLeast(blocks, m, below - 1, q);
    }
  }

  /**
   * Where block m goes: the nearest earlier block whose anchor is not
   * greater than m's, or -1 for the main line.
   */
  function ParentOf(blocks: seq<Block>, m: nat): (p: int)
    requires m < |blocks|
    ensures -1 <= p < m
    ensures p >= 0 ==> blocks[p].anchor <= blocks[m].anchor
  {
    Nearest(blocks, m, m)
  }

  /** Every block between the parent and block m has a greater anchor than m's. */
  lemma ParentSkips(blocks: seq<Block>, m: nat, q: nat)
    requires m < |blocks| && ParentOf(blocks, m) < q < m
    ensures blocks[q].anchor > blocks[m].anchor
  {
    NearestSkips(blocks, m, m, q);
  }

  /** No earlier block with an anchor at most m's lies after the parent. */
  lemma ParentAtLeast(blocks: seq<Block>, m: nat, q: nat)
    requires q < m < |blocks| && blocks[q].anchor <= blocks[m].anchor
    ensures ParentOf(blocks, m) >= q
  {
    NearestAtLeast(blocks, m, m, q);
  }

  /** The parent is the only block that satisfies its two conditions. */
  lemma ParentUnique(blocks: seq<Block>, m: nat, p: int)
    requires m < |blocks| && -1 <= p < m
    requires p >= 0 ==> blocks[p].anchor <= blocks[m].anchor
    requires forall q | p < q < m :: blocks[q].anchor > blocks[m].anchor
    ensures ParentOf(blocks, m) == p
  {
    var r := ParentOf(blocks, m);
    if p >= 0 {
      ParentAtLeast(blocks, m, p);
    }
    if r >= 0 {
      assert !(p < r < m) by {
        assert blocks[r].anchor <= blocks[m].anchor;
      }
    }
  }

  /**
   * The blocks from index `from` on whose parent lies in lo..hi-1, in input
   * order.
   */
  function Select(blocks: seq<Block>, lo: int, hi: int, from: nat): (cs: seq<nat>)
    requires from <= |blocks|
    ensures forall k | 0 <= k < |cs| :: from <= cs[k] < |blocks| && lo <= ParentOf(blocks, cs[k]) < hi
    decreases |blocks| - from
  {
    if from == |blocks| then []
    else if lo <= ParentOf(blocks, from) < hi then [from] + Select(blocks, lo, hi, from + 1)
    else Select(blocks, lo, hi, from + 1)
  }

  /** Select leaves out no block whose parent is in range, and keeps input order. */
  lemma {:induction false} SelectComplete(blocks: seq<Block>, lo: int, hi: int, from: nat, c: nat)
    requires from <= c < |blocks| && lo <= ParentOf(blocks, c) < hi
    ensures c in Select(blocks, lo, hi, from)
    decreases c - from
  {
    if from < c {
      SelectComplete(blocks, lo, hi, from + 1, c);
    }
  }

  /** Strictly increasing indices: block order is kept. */
  ghost predicate Increasing(cs: seq<nat>)
  {
    forall k, l | 0 <= k < l < |cs| :: cs[k] < cs[l]
  }

  lemma ConsIncreasing(x: nat, tail: seq<nat>)
    requires Increasing(tail) && forall k | 0 <= k < |tail| :: x < tail[k]
    ensures Increasing([x] + tail)
  {
  }

  lemma {:induction false} SelectIncreasing(blocks: seq<Block>, lo: int, hi: int, from: nat)
    requires from <= |blocks|
    ensures Increasing(Select(blocks, lo, hi, from))
    decreases |blocks| - from
  {
    if from < |blocks| {
      SelectIncreasing(blocks, lo, hi, from + 1);
      if lo <= ParentOf(blocks, from) < hi {
        ConsIncreasing(from, Select(blocks, lo, hi, from + 1));
      }
    }
  }

  /** The blocks that go into block p (the main line when p is -1), in input order. */
  function Children(blocks: seq<Block>, p: int): (cs: seq<nat>)
    requires -1 <= p < |blocks|
    ensures forall k | 0 <= k < |cs| :: p < cs[k] < |blocks| && ParentOf(blocks, cs[k]) == p
  {
    Select(blocks, p, p + 1, p + 1)
  }

  /** Every block is attached exactly once: to its parent, and not to any other block. */
  lemma AttachedOnce(blocks: seq<Block>, m: nat, p: int)
    requires m < |blocks| && -1 <= p < |blocks|
    ensures m in Children(blocks, p) <==> p == ParentOf(blocks, m)
  {
    if p == ParentOf(blocks, m) {
      SelectComplete(blocks, p, p + 1, p + 1, m);
    }
  }

  // ------------------------------------------------------------ the tree

  /** An entry with more variations after its own. */
  function Attached(mf: MoveFormat, vs: seq<Variation>): (r: MoveFormat)
    ensures VariationsOf(r) == VariationsOf(mf) + vs
    ensures r.move == mf.move && r.comments == mf.comments && r.time == mf.time && r.special == mf.special
  {
    if vs == [] then mf else mf.(forks := Forks(VariationsOf(mf) + vs))
  }

  /** The blocks among bs whose anchor is base + e, as variations, in order. */
  function LandingAt(bs: seq<Block>, base: nat, e: nat): seq<Variation>
  {
    if bs == [] then []
    else LandingAt(bs[..|bs| - 1], base, e) + (if bs[|bs| - 1].anchor == base + e then [Variation(bs[|bs| - 1].moves)] else [])
  }

  /** Every block of bs falls on an entry of ms, whose first entry is move number base. */
  predicate Lands(ms: seq<MoveFormat>, base: nat, bs: seq<Block>)
  {
    forall k | 0 <= k < |bs| :: base <= bs[k].anchor < base + |ms|
  }

  /** Block b pushed onto the forks of entry b.anchor - base, when there is one. */
  function PushAt(ms: seq<MoveFormat>, base: nat, b: Block): (r: seq<MoveFormat>)
    ensures |r| == |ms|
  {
    if base <= b.anchor < base + |ms| then ms[b.anchor - base := PushFork(ms[b.anchor - base], Variation(b.moves))]
    else ms
  }

  /** Blocks pushed one after another onto the entries of ms. */
  function AttachAll(ms: seq<MoveFormat>, base: nat, bs: seq<Block>): (r: seq<MoveFormat>)
    ensures |r| == |ms|
  {
    if bs == [] then ms
    else PushAt(AttachAll(ms, base, bs[..|bs| - 1]), base, bs[|bs| - 1])
  }

  /** Entry e ends up with its own variations followed by the blocks landing at e, in order. */
  lemma {:induction false} AttachAllAt(ms: seq<MoveFormat>, base: nat, bs: seq<Block>, e: nat)
    requires e < |ms|
    ensures AttachAll(ms, base, bs)[e] == Attached(ms[e], LandingAt(bs, base, e))
    decreases |bs|
  {
    if bs != [] {
      var init := bs[..|bs| - 1];
      AttachAllAt(ms, base, init, e);
      var b := bs[|bs| - 1];
      if b.anchor == base + e {
        var vs := LandingAt(init, base, e);
        assert LandingAt(bs, base, e) == vs + [Variation(b.moves)];
        assert VariationsOf(ms[e]) + vs + [Variation(b.moves)] == VariationsOf(ms[e]) + (vs + [Variation(b.moves)]);
      } else {
        assert LandingAt(bs, base, e) == LandingAt(init, base, e) + [];
      }
    }
  }

  /** Block m with all the blocks that go into it, each itself with its own. */
  function Tree(blocks: seq<Block>, m: nat): (t: seq<MoveFormat>)
    requires m < |blocks|
    ensures |t| == |blocks[m].moves|
    decreases |blocks| - m, 1, 0
  {
    AttachAll(blocks[m].moves, blocks[m].anchor, Forest(blocks, m, Children(blocks, m)))
  }

  /** The blocks cs, all after block `above`, each as a tree. */
  function Forest(blocks: seq<Block>, above: int, cs: seq<nat>): (bs: seq<Block>)
    requires -1 <= above
    requires forall k | 0 <= k < |cs| :: above < cs[k] < |blocks|
    ensures |bs| == |cs|
    decreases |blocks| - above, 0, |cs|
  {
    if cs == [] then [] else [Block(blocks[cs[0]].anchor, Tree(blocks, cs[0]))] + Forest(blocks, above, cs[1..])
  }

  lemma {:induction false} ForestAnyBound(blocks: seq<Block>, a: int, b: int, cs: seq<nat>)
    requires -1 <= a && -1 <= b
    requires forall k | 0 <= k < |cs| :: a < cs[k] < |blocks| && b < cs[k]
    ensures Forest(blocks, a, cs) == Forest(blocks, b, cs)
    decreases |cs|
  {
    if cs != [] {
      ForestAnyBound(blocks, a, b, cs[1..]);
    }
  }

  /** The blocks cs, each as a tree. */
  function Subtrees(blocks: seq<Block>, cs: seq<nat>): (bs: seq<Block>)
    requires forall k | 0 <= k < |cs| :: cs[k] < |blocks|
    ensures |bs| == |cs|
  {
    Forest(blocks, -1, cs)
  }

  lemma SubtreesCons(blocks: seq<Block>, cs: seq<nat>)
    requires cs != [] && forall k | 0 <= k < |cs| :: cs[k] < |blocks|
    ensures Subtrees(blocks, cs) == [Block(blocks[cs[0]].anchor, Tree(blocks, cs[0]))] + Subtrees(blocks, cs[1..])
  {
  }

  lemma {:induction false} SubtreesAt(blocks: seq<Block>, cs: seq<nat>, k: nat)
    requires forall k | 0 <= k < |cs| :: cs[k] < |blocks|
    requires k < |cs|
    ensures Subtrees(blocks, cs)[k] == Block(blocks[cs[k]].anchor, Tree(blocks, cs[k]))
    decreases k
  {
    SubtreesCons(blocks, cs);
    if k > 0 {
      SubtreesAt(blocks, cs[1..], k - 1);
    }
  }

  lemma TreeUnfold(blocks: seq<Block>, m: nat)
    requires m < |blocks|
    ensures Tree(blocks, m) == AttachAll(blocks[m].moves, blocks[m].anchor, Subtrees(blocks, Children(blocks, m)))
  {
    ForestAnyBound(blocks, m, -1, Children(blocks, m));
  }

  /** The main line with every block placed where its parent says. */
  function Spliced(main: seq<MoveFormat>, blocks: seq<Block>): (r: seq<MoveFormat>)
    ensures |r| == |main|
  {
    AttachAll(main, 0, Subtrees(blocks, Children(blocks, -1)))
  }

  /**
   * Entry e of the merged record is the main line's entry e followed by the
   * trees of the blocks that go into the main line at move number e, in
   * input order.
   */
  lemma SplicedAt(main: seq<MoveFormat>, blocks: seq<Block>, e: nat)
    requires e < |main|
    ensures Spliced(main, blocks)[e] == Attached(main[e], LandingAt(Subtrees(blocks, Children(blocks, -1)), 0, e))
  {
    AttachAllAt(main, 0, Subtrees(blocks, Children(blocks, -1)), e);
  }

  /** The blocks that have a parent fit at the entry with the same move number. */
  predicate FitsBlocks(blocks: seq<Block>)
  {
    forall c {:trigger ParentOf(blocks, c)} | 0 <= c < |blocks| && ParentOf(blocks, c) >= 0 ::
      blocks[c].anchor - blocks[ParentOf(blocks, c)].anchor < |blocks[ParentOf(blocks, c)].moves|
  }

  /** The blocks without a parent fit the main line. */
  predicate FitsMain(main: seq<MoveFormat>, blocks: seq<Block>)
  {
    forall c {:trigger ParentOf(blocks, c)} | 0 <= c < |blocks| && ParentOf(blocks, c) == -1 :: blocks[c].anchor < |main|
  }

  // ------------------------------------------------------------ the stack

  function Reverse<T>(xs: seq<T>): (r: seq<T>)
    ensures |r| == |xs|
  {
    if xs == [] then [] else Reverse(xs[1..]) + [xs[0]]
  }

  lemma ReverseCons<T>(x: T, xs: seq<T>)
    ensures Reverse([x] + xs) == Reverse(xs) + [x]
  {
    assert ([x] + xs)[1..] == xs;
  }

  /** A stack holding the trees of cs, the first of them on top. */
  lemma StackTop(blocks: seq<Block>, cs: seq<nat>)
    requires cs != [] && forall k | 0 <= k < |cs| :: cs[k] < |blocks|
    ensures Reverse(Subtrees(blocks, cs)) == Reverse(Subtrees(blocks, cs[1..])) + [Block(blocks[cs[0]].anchor, Tree(blocks, cs[0]))]
  {
    var x := Block(blocks[cs[0]].anchor, Tree(blocks, cs[0]));
    var xs := Subtrees(blocks, cs[1..]);
    SubtreesCons(blocks, cs);
    ReverseCons(x, xs);
  }

  /** Once a block with a smaller anchor than block j's follows j, no later block goes into j. */
  lemma {:induction false} NoLaterChild(blocks: seq<Block>, j: nat, m: nat, from: nat)
    requires j < m < from <= |blocks|
    requires blocks[m].anchor < blocks[j].anchor
    ensures Select(blocks, j, j + 1, from) == []
    decreases |blocks| - from
  {
    if from < |blocks| {
      if blocks[from].anchor >= blocks[j].anchor {
        ParentAtLeast(blocks, from, m);
      }
      NoLaterChild(blocks, j, m, from + 1);
    }
  }

  /**
   * The blocks from `from` on still waiting for a parent up to block p are
   * those of block p followed by those waiting for a parent before p.
   */
  lemma {:induction false} PendingSplit(blocks: seq<Block>, p: nat, from: nat)
    requires p < from <= |blocks|
    ensures Select(blocks, -1, p + 1, from) == Select(blocks, p, p + 1, from) + Select(blocks, -1, p, from)
    decreases |blocks| - from
  {
    if from < |blocks| {
      PendingSplit(blocks, p, from + 1);
      var r := ParentOf(blocks, from);
      var cs := Select(blocks, p, p + 1, from + 1);
      var ws := Select(blocks, -1, p, from + 1);
      if r < p {
        ParentSkips(blocks, from, p);
        NoLaterChild(blocks, p, from, from + 1);
        assert [from] + (cs + ws) == cs + ([from] + ws);
      } else if r == p {
        assert [from] + (cs + ws) == ([from] + cs) + ws;
      }
    }
  }

  /** The blocks of block p have anchors at least its own; those waiting further have smaller ones. */
  lemma PendingAnchors(blocks: seq<Block>, p: nat, c: nat)
    requires p < c < |blocks|
    ensures ParentOf(blocks, c) == p ==> blocks[c].anchor >= blocks[p].anchor
    ensures ParentOf(blocks, c) < p ==> blocks[c].anchor < blocks[p].anchor
  {
    if ParentOf(blocks, c) < p {
      ParentSkips(blocks, c, p);
    }
  }

  /**
   * With the trees of block p's blocks and then the waiting ones on the
   * stack, the top goes into block p exactly while it is one of its own.
   */
  lemma TopOfPending(blocks: seq<Block>, p: nat, cs: seq<nat>, ws: seq<nat>, q: nat)
    requires p + 1 < |blocks|
    requires cs == Children(blocks, p) && ws == Select(blocks, -1, p, p + 1)
    requires q < |cs| + |ws|
    ensures var st := Reverse(Subtrees(blocks, (cs + ws)[q..]));
      st != [] && (st[|st| - 1].anchor >= blocks[p].anchor <==> q < |cs|)
  {
    var pending := cs + ws;
    StackTop(blocks, pending[q..]);
    if q < |cs| {
      assert pending[q] == cs[q];
      PendingAnchors(blocks, p, cs[q]);
    } else {
      assert pending[q] == ws[q - |cs|];
      PendingAnchors(blocks, p, ws[q - |cs|]);
    }
  }

  lemma AttachStep(ms: seq<MoveFormat>, base: nat, bs: seq<Block>, q: nat)
    requires q < |bs|
    ensures AttachAll(ms, base, bs[..q + 1]) == PushAt(AttachAll(ms, base, bs[..q]), base, bs[q])
  {
    assert bs[..q + 1][..q] == bs[..q];
  }

  lemma AttachedAll(ms: seq<MoveFormat>, base: nat, bs: seq<Block>, q: nat)
    requires q == |bs|
    ensures AttachAll(ms, base, bs[..q]) == AttachAll(ms, base, bs)
  {
    assert bs[..q] == bs;
  }

  /**
   * One pop: the tree on top of the stack is the q-th of cs, and pushing it
   * extends the attached prefix by one.
   */
  lemma PopStep(ms: seq<MoveFormat>, base: nat, blocks: seq<Block>, cs: seq<nat>, ds: seq<nat>, q: nat, stack: seq<Block>, acc: seq<MoveFormat>)
    requires forall k | 0 <= k < |cs| :: cs[k] < |blocks|
    requires |ds| <= |cs| && ds == cs[..|ds|] && q < |ds|
    requires stack == Reverse(Subtrees(blocks, cs[q..]))
    requires acc == AttachAll(ms, base, Subtrees(blocks, ds)[..q])
    ensures stack != [] && stack[|stack| - 1] == Block(blocks[ds[q]].anchor, Tree(blocks, ds[q]))
    ensures stack[..|stack| - 1] == Reverse(Subtrees(blocks, cs[q + 1..]))
    ensures PushAt(acc, base, stack[|stack| - 1]) == AttachAll(ms, base, Subtrees(blocks, ds)[..q + 1])
  {
    var bs := Subtrees(blocks, ds);
    StackTop(blocks, cs[q..]);
    assert cs[q..][1..] == cs[q + 1..];
    assert cs[q..][0] == ds[q];
    SubtreesAt(blocks, ds, q);
    AttachStep(ms, base, bs, q);
  }

  lemma PushAtEntry(ms: seq<MoveFormat>, base: nat, b: Block)
    requires base <= b.anchor < base + |ms|
    ensures PushAt(ms, base, b) == ms[b.anchor - base := PushFork(ms[b.anchor - base], Variation(b.moves))]
  {
  }

  /** A child's anchor falls on an entry of its parent, in a record that fits. */
  lemma ChildLands(blocks: seq<Block>, p: nat, c: nat)
    requires FitsBlocks(blocks) && p < c < |blocks| && ParentOf(blocks, c) == p
    ensures blocks[p].anchor <= blocks[c].anchor < blocks[p].anchor + |blocks[p].moves|
  {
  }

  /**
   * The source's splice: the blocks are popped from the back onto a stack,
   * and after each pop the blocks on top of the stack whose anchor is at
   * least that of the block now last go into it; what is left on the stack
   * goes into the main line. Out-of-range entries make the source panic, so
   * the record must fit.
   */
  method MergeForks(main: seq<MoveFormat>, blocks: seq<Block>) returns (r: seq<MoveFormat>)
    requires FitsBlocks(blocks) && FitsMain(main, blocks)
    ensures r == Spliced(main, blocks)
  {
    var forks := blocks;
    var stack: seq<Block> := [];
    OuterStart(blocks);
    while |forks| > 0
      invariant Outer(blocks, forks, stack)
      decreases |forks|
    {
      var k := |forks| - 1;
      OuterPop(blocks, forks, stack, k);
      var fork := forks[k];
      forks := forks[..k];
      stack := stack + [fork];
      if k > 0 {
        var last;
        last, stack := AbsorbChildren(blocks, k - 1, forks[k - 1], stack);
        forks := forks[..k - 1] + [Block(forks[k - 1].anchor, last)];
        OuterAfter(blocks, k - 1, forks, stack);
      }
    }
    OuterDone(blocks, forks, stack);
    r := AttachRemaining(main, blocks, stack);
  }

  /**
   * The outer loop's state: the blocks left to pop are the input's, except
   * that the last of them already holds its tree; the stack holds, first on
   * top, the trees of the blocks after it still waiting for a parent.
   */
  ghost predicate Outer(blocks: seq<Block>, forks: seq<Block>, stack: seq<Block>)
  {
    |forks| <= |blocks| &&
    if |forks| == 0 then stack == Reverse(Subtrees(blocks, Select(blocks, -1, 0, 0)))
    else
      var p := |forks| - 1;
      forks[..p] == blocks[..p] &&
      forks[p] == Block(blocks[p].anchor, Tree(blocks, p)) &&
      stack == Reverse(Subtrees(blocks, Select(blocks, -1, p, p + 1)))
  }

  lemma OuterStart(blocks: seq<Block>)
    ensures Outer(blocks, blocks, [])
  {
    if |blocks| > 0 {
      var p := |blocks| - 1;
      assert Children(blocks, p) == [];
      TreeUnfold(blocks, p);
      assert Subtrees(blocks, []) == [];
      assert Select(blocks, -1, p, p + 1) == [];
    }
  }

  lemma OuterPop(blocks: seq<Block>, forks: seq<Block>, stack: seq<Block>, k: nat)
    requires Outer(blocks, forks, stack) && k + 1 == |forks|
    ensures forks[k] == Block(blocks[k].anchor, Tree(blocks, k))
    ensures stack + [forks[k]] == Reverse(Subtrees(blocks, Select(blocks, -1, k, k)))
    ensures k > 0 ==> forks[k - 1] == blocks[k - 1]
  {
    var pending := Select(blocks, -1, k, k);
    assert pending == [k] + Select(blocks, -1, k, k + 1);
    assert pending[1..] == Select(blocks, -1, k, k + 1);
    StackTop(blocks, pending);
    if k > 0 {
      assert forks[..k][k - 1] == blocks[..k][k - 1];
    }
  }

  lemma OuterAfter(blocks: seq<Block>, p: nat, forks: seq<Block>, stack: seq<Block>)
    requires p < |blocks| && |forks| == p + 1
    requires forks[..p] == blocks[..p]
    requires forks[p] == Block(blocks[p].anchor, Tree(blocks, p))
    requires stack == Reverse(Subtrees(blocks, Select(blocks, -1, p, p + 1)))
    ensures Outer(blocks, forks, stack)
  {
  }

  lemma OuterDone(blocks: seq<Block>, forks: seq<Block>, stack: seq<Block>)
    requires Outer(blocks, forks, stack) && |forks| == 0
    ensures stack == Reverse(Subtrees(blocks, Children(blocks, -1)))
  {
  }

  /**
   * The inner loop of the splice, for block p now last: moves from the
   * top of the stack every tree whose anchor is at least block p's onto the
   * entry with its move number.
   */
  method AbsorbChildren(blocks: seq<Block>, p: nat, fork: Block, stack0: seq<Block>) returns (last: seq<MoveFormat>, stack: seq<Block>)
    requires FitsBlocks(blocks) && p + 1 < |blocks| && fork == blocks[p]
    requires stack0 == Reverse(Subtrees(blocks, Select(blocks, -1, p + 1, p + 1)))
    ensures last == Tree(blocks, p)
    ensures stack == Reverse(Subtrees(blocks, Select(blocks, -1, p, p + 1)))
  {
    var i := fork.anchor;
    last := fork.moves;
    stack := stack0;
    ghost var q := 0;
    AbsorbStart(blocks, p);
    while stack != [] && stack[|stack| - 1].anchor >= i
      invariant Absorbing(blocks, p, q, stack, last)
      decreases |stack|
    {
      AbsorbStep(blocks, p, q, stack, last);
      var top := stack[|stack| - 1];
      PushAtEntry(last, i, top);
      stack := stack[..|stack| - 1];
      last := last[top.anchor - i := PushFork(last[top.anchor - i], Variation(top.moves))];
      q := q + 1;
    }
    AbsorbedAll(blocks, p, q, stack, last);
    AbsorbDone(blocks, p, q, last);
    WaitingLeft(blocks, p, q, stack, last);
  }

  /**
   * Midway through the inner loop for block p: the first q trees of its
   * blocks are in, and the rest of them and then the waiting ones are on the
   * stack, the next one on top.
   */
  ghost predicate Absorbing(blocks: seq<Block>, p: nat, q: nat, stack: seq<Block>, last: seq<MoveFormat>)
    requires p + 1 < |blocks|
  {
    var cs := Children(blocks, p);
    var ws := Select(blocks, -1, p, p + 1);
    q <= |cs| &&
    stack == Reverse(Subtrees(blocks, (cs + ws)[q..])) &&
    last == AttachAll(blocks[p].moves, blocks[p].anchor, Subtrees(blocks, cs)[..q])
  }

  lemma AbsorbStart(blocks: seq<Block>, p: nat)
    requires p + 1 < |blocks|
    ensures Absorbing(blocks, p, 0, Reverse(Subtrees(blocks, Select(blocks, -1, p + 1, p + 1))), blocks[p].moves)
  {
    StartPending(blocks, p, Children(blocks, p), Select(blocks, -1, p, p + 1));
    StartNone(blocks[p].moves, blocks[p].anchor, Subtrees(blocks, Children(blocks, p)));
  }

  lemma StartPending(blocks: seq<Block>, p: nat, cs: seq<nat>, ws: seq<nat>)
    requires p + 1 < |blocks|
    requires cs == Children(blocks, p) && ws == Select(blocks, -1, p, p + 1)
    ensures (cs + ws)[0..] == Select(blocks, -1, p + 1, p + 1)
  {
    PendingSplit(blocks, p, p + 1);
    assert (cs + ws)[0..] == cs + ws;
  }

  lemma StartNone(ms: seq<MoveFormat>, base: nat, bs: seq<Block>)
    ensures AttachAll(ms, base, bs[..0]) == ms
  {
    assert bs[..0] == [];
  }

  lemma AbsorbStep(blocks: seq<Block>, p: nat, q: nat, stack: seq<Block>, last: seq<MoveFormat>)
    requires FitsBlocks(blocks) && p + 1 < |blocks|
    requires Absorbing(blocks, p, q, stack, last)
    requires stack != [] && stack[|stack| - 1].anchor >= blocks[p].anchor
    ensures var top := stack[|stack| - 1];
      blocks[p].anchor <= top.anchor < blocks[p].anchor + |last| &&
      Absorbing(blocks, p, q + 1, stack[..|stack| - 1], PushAt(last, blocks[p].anchor, top))
  {
    var cs := Children(blocks, p);
    var ws := Select(blocks, -1, p, p + 1);
    assert (cs + ws)[..|cs|] == cs;
    TopOfPending(blocks, p, cs, ws, q);
    assert q < |cs|;
    PopStep(blocks[p].moves, blocks[p].anchor, blocks, cs + ws, cs, q, stack, last);
    ChildLands(blocks, p, cs[q]);
  }

  /** The inner loop stops exactly when block p's own blocks are all in. */
  lemma AbsorbedAll(blocks: seq<Block>, p: nat, q: nat, stack: seq<Block>, last: seq<MoveFormat>)
    requires p + 1 < |blocks|
    requires Absorbing(blocks, p, q, stack, last)
    requires !(stack != [] && stack[|stack| - 1].anchor >= blocks[p].anchor)
    ensures q == |Children(blocks, p)|
  {
    var cs := Children(blocks, p);
    var ws := Select(blocks, -1, p, p + 1);
    if q < |cs| {
      TopOfPending(blocks, p, cs, ws, q);
    }
  }

  lemma AbsorbDone(blocks: seq<Block>, p: nat, q: nat, last: seq<MoveFormat>)
    requires p + 1 < |blocks|
    requires q == |Children(blocks, p)|
    requires last == AttachAll(blocks[p].moves, blocks[p].anchor, Subtrees(blocks, Children(blocks, p))[..q])
    ensures last == Tree(blocks, p)
  {
    TreeUnfold(blocks, p);
    AttachedAll(blocks[p].moves, blocks[p].anchor, Subtrees(blocks, Children(blocks, p)), q);
  }

  lemma WaitingLeft(blocks: seq<Block>, p: nat, q: nat, stack: seq<Block>, last: seq<MoveFormat>)
    requires p + 1 < |blocks|
    requires Absorbing(blocks, p, q, stack, last)
    requires q == |Children(blocks, p)|
    ensures stack == Reverse(Subtrees(blocks, Select(blocks, -1, p, p + 1)))
  {
    var cs := Children(blocks, p);
    var ws := Select(blocks, -1, p, p + 1);
    assert (cs + ws)[q..] == ws;
  }

  /** The last loop of the splice: what is left on the stack goes into the main line. */
  method AttachRemaining(main: seq<MoveFormat>, blocks: seq<Block>, stack0: seq<Block>) returns (r: seq<MoveFormat>)
    requires FitsMain(main, blocks)
    requires stack0 == Reverse(Subtrees(blocks, Children(blocks, -1)))
    ensures r == Spliced(main, blocks)
  {
    r := main;
    var stack := stack0;
    ghost var q := 0;
    RemainingStart(main, blocks);
    while stack != []
      invariant Remaining(main, blocks, q, stack, r)
      decreases |stack|
    {
      RemainingStep(main, blocks, q, stack, r);
      var top := stack[|stack| - 1];
      stack := stack[..|stack| - 1];
      r := r[top.anchor := PushFork(r[top.anchor], Variation(top.moves))];
      q := q + 1;
    }
    RemainingDone(main, blocks, q, stack, r);
  }

  /** Midway through the last loop: the first q root trees are in, the rest on the stack. */
  ghost predicate Remaining(main: seq<MoveFormat>, blocks: seq<Block>, q: nat, stack: seq<Block>, r: seq<MoveFormat>)
  {
    var roots := Children(blocks, -1);
    q <= |roots| &&
    stack == Reverse(Subtrees(blocks, roots[q..])) &&
    r == AttachAll(main, 0, Subtrees(blocks, roots)[..q])
  }

  lemma RemainingStart(main: seq<MoveFormat>, blocks: seq<Block>)
    ensures Remaining(main, blocks, 0, Reverse(Subtrees(blocks, Children(blocks, -1))), main)
  {
    var roots := Children(blocks, -1);
    assert roots[0..] == roots;
    var none := Subtrees(blocks, roots)[..0];
    assert none == [];
    assert AttachAll(main, 0, none) == main;
  }

  lemma RemainingStep(main: seq<MoveFormat>, blocks: seq<Block>, q: nat, stack: seq<Block>, r: seq<MoveFormat>)
    requires FitsMain(main, blocks)
    requires Remaining(main, blocks, q, stack, r) && stack != []
    ensures var top := stack[|stack| - 1];
      top.anchor < |r| &&
      Remaining(main, blocks, q + 1, stack[..|stack| - 1], PushAt(r, 0, top))
  {
    var roots := Children(blocks, -1);
    assert roots[..|roots|] == roots;
    PopStep(main, 0, blocks, roots, roots, q, stack, r);
  }

  lemma RemainingDone(main: seq<MoveFormat>, blocks: seq<Block>, q: nat, stack: seq<Block>, r: seq<MoveFormat>)
    requires Remaining(main, blocks, q, stack, r) && stack == []
    ensures r == Spliced(main, blocks)
  {
    var roots := Children(blocks, -1);
    AttachedAll(main, 0, Subtrees(blocks, roots), q);
  }

  // ------------------------------------------------------------ the older reader

  /** Every block pushed onto the main-line entry with its anchor's number, in input order. */
  function FlatMerged(main: seq<MoveFormat>, blocks: seq<Block>): (r: seq<MoveFormat>)
    ensures |r| == |main|
  {
    AttachAll(main, 0, blocks)
  }

  /** Entry e gets its own variations followed by the blocks anchored at e, in input order. */
  lemma FlatMergedAt(main: seq<MoveFormat>, blocks: seq<Block>, e: nat)
    requires e < |main|
    ensures FlatMerged(main, blocks)[e] == Attached(main[e], LandingAt(blocks, 0, e))
  {
    AttachAllAt(main, 0, blocks, e);
  }

  /** The older reader's loop: each block in turn onto `moves[i].forks`; out of range it panics. */
  method FlatMergeForks(main: seq<MoveFormat>, blocks: seq<Block>) returns (r: seq<MoveFormat>)
    requires Lands(main, 0, blocks)
    ensures r == FlatMerged(main, blocks)
  {
    r := main;
    for q := 0 to |blocks|
      invariant r == AttachAll(main, 0, blocks[..q])
    {
      AttachStep(main, 0, blocks, q);
      r := r[blocks[q].anchor := PushFork(r[blocks[q].anchor], Variation(blocks[q].moves))];
    }
    AttachedAll(main, 0, blocks, |blocks|);
  }
}
