/** The computations of routers/pipelines/pipelines_get.py: the block order
    and the archive of the pipeline export, the run-history summary and the
    template filter. The platform API's answers are inputs; the HTTP calls,
    the token, the cache and the zip compression are not part of this model.

    The export order as written puts the blocks of a linear pipeline of four
    or more blocks out of order (`AsWrittenMisordersChain`); the export uses
    the corrected order (`OrderCorrected`, `LinearPipelineOrder`). */
module PipelinesGet {
  import opened Wrappers
  import Text
  import MageToCwl
  import MageToPythonBlock

  type Block = MageToCwl.Block

  // ---------------------------------------------------------------------
  // Sorting by the key (no upstream blocks, has downstream blocks)

  /** The sort key `(len(upstream) == 0, len(downstream) != 0)` as a number:
      pairs of booleans compare False before True, first component first. */
  function Rank(b: Block): nat {
    (if b.upstreamBlocks == [] then 2 else 0) + (if b.downstreamBlocks != [] then 1 else 0)
  }

  /** The blocks of rank `k`, in their original order. */
  function OfRank(bs: seq<Block>, k: nat): (r: seq<Block>)
    ensures |r| <= |bs|
  {
    if bs == [] then [] else (if Rank(bs[0]) == k then [bs[0]] else []) + OfRank(bs[1..], k)
  }

  /** `list.sort(key=...)`: stable, ascending. */
  function SortedByKey(bs: seq<Block>): seq<Block> {
    OfRank(bs, 0) + OfRank(bs, 1) + OfRank(bs, 2) + OfRank(bs, 3)
  }

  /** `list.sort(key=..., reverse=True)`: stable, descending. */
  function SortedByKeyDesc(bs: seq<Block>): seq<Block> {
    OfRank(bs, 3) + OfRank(bs, 2) + OfRank(bs, 1) + OfRank(bs, 0)
  }

  predicate Ascending(s: seq<Block>) {
    forall i, j :: 0 <= i < j < |s| ==> Rank(s[i]) <= Rank(s[j])
  }

  predicate Descending(s: seq<Block>) {
    forall i, j :: 0 <= i < j < |s| ==> Rank(s[i]) >= Rank(s[j])
  }

  /** A block is kept by `OfRank(bs, k)` exactly when it is in `bs` with rank `k`. */
  lemma {:induction false} OfRankMembers(bs: seq<Block>, k: nat, b: Block)
    ensures b in OfRank(bs, k) <==> b in bs && Rank(b) == k
  {
    if bs != [] {
      OfRankMembers(bs[1..], k, b);
      assert b in bs <==> b == bs[0] || b in bs[1..];
    }
  }

  lemma {:induction false} OfRankAppend(a: seq<Block>, b: seq<Block>, k: nat)
    ensures OfRank(a + b, k) == OfRank(a, k) + OfRank(b, k)
  {
    if a == [] {
      assert a + b == b;
    } else {
      var p: seq<Block> := if Rank(a[0]) == k then [a[0]] else [];
      assert (a + b)[0] == a[0];
      assert (a + b)[1..] == a[1..] + b;
      assert OfRank(a + b, k) == p + OfRank(a[1..] + b, k);
      OfRankAppend(a[1..], b, k);
      assert OfRank(a, k) == p + OfRank(a[1..], k);
      assert p + (OfRank(a[1..], k) + OfRank(b, k)) == (p + OfRank(a[1..], k)) + OfRank(b, k);
    }
  }

  lemma {:induction false} OfRankOfRank(bs: seq<Block>, j: nat, k: nat)
    ensures OfRank(OfRank(bs, j), k) == if j == k then OfRank(bs, k) else []
  {
    if bs != [] {
      OfRankOfRank(bs[1..], j, k);
      OfRankAppend(if Rank(bs[0]) == j then [bs[0]] else [], OfRank(bs[1..], j), k);
    }
  }

  lemma OfRankCons(bs: seq<Block>, k: nat)
    requires bs != []
    ensures multiset(OfRank(bs, k)) == (if Rank(bs[0]) == k then multiset{bs[0]} else multiset{}) + multiset(OfRank(bs[1..], k))
  {
  }

  lemma {:induction false} OfRankSplit(bs: seq<Block>)
    ensures multiset(bs) == multiset(OfRank(bs, 0)) + multiset(OfRank(bs, 1)) + multiset(OfRank(bs, 2)) + multiset(OfRank(bs, 3))
  {
    if bs != [] {
      var t := bs[1..];
      OfRankSplit(t);
      assert bs == [bs[0]] + t;
      var x := multiset{bs[0]};
      assert multiset(bs) == x + multiset(t);
      OfRankCons(bs, 0);
      OfRankCons(bs, 1);
      OfRankCons(bs, 2);
      OfRankCons(bs, 3);
      var m0, m1, m2, m3 := multiset(OfRank(t, 0)), multiset(OfRank(t, 1)), multiset(OfRank(t, 2)), multiset(OfRank(t, 3));
      var k := Rank(bs[0]);
      AddToPart(x, m0, m1, m2, m3, k);
    }
  }

  /** Adding `x` to part `k` of a sum of four parts adds it to the sum. */
  lemma AddToPart(x: multiset<Block>, m0: multiset<Block>, m1: multiset<Block>, m2: multiset<Block>, m3: multiset<Block>, k: nat)
    requires k < 4
    ensures x + (m0 + m1 + m2 + m3)
         == (if k == 0 then x else multiset{}) + m0 + ((if k == 1 then x else multiset{}) + m1)
          + ((if k == 2 then x else multiset{}) + m2) + ((if k == 3 then x else multiset{}) + m3)
  {
  }

  lemma {:induction false} OfRankRanks(bs: seq<Block>, k: nat)
    ensures forall i :: 0 <= i < |OfRank(bs, k)| ==> Rank(OfRank(bs, k)[i]) == k
  {
    if bs != [] {
      OfRankRanks(bs[1..], k);
    }
  }

  /** The rank of the block at index `i` of `a + b + c + d`, each part holding one rank. */
  lemma RankInParts(a: seq<Block>, b: seq<Block>, c: seq<Block>, d: seq<Block>, ka: nat, kb: nat, kc: nat, kd: nat, i: int)
    requires forall x :: 0 <= x < |a| ==> Rank(a[x]) == ka
    requires forall x :: 0 <= x < |b| ==> Rank(b[x]) == kb
    requires forall x :: 0 <= x < |c| ==> Rank(c[x]) == kc
    requires forall x :: 0 <= x < |d| ==> Rank(d[x]) == kd
    requires 0 <= i < |a + b + c + d|
    ensures Rank((a + b + c + d)[i]) ==
      if i < |a| then ka else if i < |a| + |b| then kb else if i < |a| + |b| + |c| then kc else kd
  {
    var s := a + b + c + d;
    if i < |a| {
      assert s[i] == a[i];
    } else if i < |a| + |b| {
      assert s[i] == b[i - |a|];
    } else if i < |a| + |b| + |c| {
      assert s[i] == c[i - |a| - |b|];
    } else {
      assert s[i] == d[i - |a| - |b| - |c|];
    }
  }

  /** The sorted list is ordered by the key and holds the same blocks. */
  lemma SortedByKeyIsSorted(bs: seq<Block>)
    ensures Ascending(SortedByKey(bs))
    ensures multiset(SortedByKey(bs)) == multiset(bs)
  {
    OfRankSplit(bs);
    OfRankRanks(bs, 0);
    OfRankRanks(bs, 1);
    OfRankRanks(bs, 2);
    OfRankRanks(bs, 3);
    var s := SortedByKey(bs);
    forall i, j | 0 <= i < j < |s|
      ensures Rank(s[i]) <= Rank(s[j])
    {
      RankInParts(OfRank(bs, 0), OfRank(bs, 1), OfRank(bs, 2), OfRank(bs, 3), 0, 1, 2, 3, i);
      RankInParts(OfRank(bs, 0), OfRank(bs, 1), OfRank(bs, 2), OfRank(bs, 3), 0, 1, 2, 3, j);
    }
  }

  /** The descending sort is ordered the other way and holds the same blocks. */
  lemma SortedByKeyDescIsSorted(bs: seq<Block>)
    ensures Descending(SortedByKeyDesc(bs))
    ensures multiset(SortedByKeyDesc(bs)) == multiset(bs)
  {
    OfRankSplit(bs);
    OfRankRanks(bs, 0);
    OfRankRanks(bs, 1);
    OfRankRanks(bs, 2);
    OfRankRanks(bs, 3);
    var s := SortedByKeyDesc(bs);
    forall i, j | 0 <= i < j < |s|
      ensures Rank(s[i]) >= Rank(s[j])
    {
      RankInParts(OfRank(bs, 3), OfRank(bs, 2), OfRank(bs, 1), OfRank(bs, 0), 3, 2, 1, 0, i);
      RankInParts(OfRank(bs, 3), OfRank(bs, 2), OfRank(bs, 1), OfRank(bs, 0), 3, 2, 1, 0, j);
    }
  }

  lemma OfRankFour(a: seq<Block>, b: seq<Block>, c: seq<Block>, d: seq<Block>, k: nat)
    ensures OfRank(a + b + c + d, k) == OfRank(a, k) + OfRank(b, k) + OfRank(c, k) + OfRank(d, k)
  {
    OfRankAppend(a + b + c, d, k);
    OfRankAppend(a + b, c, k);
    OfRankAppend(a, b, k);
  }

  /** Both sorts are stable: the blocks sharing a key keep their order. */
  lemma SortsAreStable(bs: seq<Block>, k: nat)
    requires k < 4
    ensures OfRank(SortedByKey(bs), k) == OfRank(bs, k)
    ensures OfRank(SortedByKeyDesc(bs), k) == OfRank(bs, k)
  {
    var a0, a1, a2, a3 := OfRank(bs, 0), OfRank(bs, 1), OfRank(bs, 2), OfRank(bs, 3);
    OfRankFour(a0, a1, a2, a3, k);
    OfRankFour(a3, a2, a1, a0, k);
    OfRankOfRank(bs, 0, k);
    OfRankOfRank(bs, 1, k);
    OfRankOfRank(bs, 2, k);
    OfRankOfRank(bs, 3, k);
    OnlyOwnPart(OfRank(a0, k), OfRank(a1, k), OfRank(a2, k), OfRank(a3, k), OfRank(bs, k), k);
  }

  /** Four parts of which only part `k` is non-empty concatenate, either way
      round, to that part. */
  lemma OnlyOwnPart(r0: seq<Block>, r1: seq<Block>, r2: seq<Block>, r3: seq<Block>, own: seq<Block>, k: nat)
    requires k < 4
    requires r0 == (if k == 0 then own else []) && r1 == (if k == 1 then own else [])
    requires r2 == (if k == 2 then own else []) && r3 == (if k == 3 then own else [])
    ensures r0 + r1 + r2 + r3 == own && r3 + r2 + r1 + r0 == own
  {
    var e: seq<Block> := [];
    assert own + e == own && e + own == own && e + e == e;
  }

  // ---------------------------------------------------------------------
  // Following the chain of downstream blocks

  /** `next(block for block in bs if u in block['upstream_blocks'])`: the
      index of the first block that lists `u` among its upstream blocks. */
  function FirstDownstream(bs: seq<Block>, u: string): (r: Option<nat>)
    ensures r.Some? ==> r.value < |bs| && u in bs[r.value].upstreamBlocks
    ensures r.Some? ==> forall j :: 0 <= j < r.value ==> u !in bs[j].upstreamBlocks
    ensures r.None? ==> forall j :: 0 <= j < |bs| ==> u !in bs[j].upstreamBlocks
  {
    if bs == [] then None
    else if u in bs[0].upstreamBlocks then Some(0)
    else match FirstDownstream(bs[1..], u)
      case None => None
      case Some(j) => Some(j + 1)
  }

  /** The loop of `export_pipeline`: while the chain is shorter than the
      list, append the first block downstream of the chain's last block. */
  function Chain(bs: seq<Block>, chain: seq<Block>): (r: seq<Block>)
    requires 0 < |chain|
    ensures chain <= r
    decreases |bs| - |chain|
  {
    if |chain| >= |bs| then chain
    else match FirstDownstream(bs, chain[|chain| - 1].uuid)
      case None => chain
      case Some(j) => Chain(bs, chain + [bs[j]])
  }

  /** Each block of `c` after the first is the first block of `bs`
      downstream of the one before it. */
  predicate Linked(bs: seq<Block>, c: seq<Block>) {
    forall j :: 0 <= j < |c| - 1 ==> Follows(bs, c[j], c[j + 1])
  }

  /** `y` is the first block of `bs` downstream of `x`. */
  predicate Follows(bs: seq<Block>, x: Block, y: Block) {
    var d := FirstDownstream(bs, x.uuid);
    d.Some? && bs[d.value] == y
  }

  /** The chain extends its start with linked blocks of the list, and stops
      only at the list's length or at a block with nothing downstream. */
  lemma {:induction false} ChainShape(bs: seq<Block>, chain: seq<Block>)
    requires 0 < |chain| <= |bs|
    requires Linked(bs, chain) && forall b :: b in chain ==> b in bs
    ensures var r := Chain(bs, chain);
      && chain <= r && |r| <= |bs| && Linked(bs, r) && (forall b :: b in r ==> b in bs)
      && (|r| < |bs| ==> FirstDownstream(bs, r[|r| - 1].uuid).None?)
    decreases |bs| - |chain|
  {
    if |chain| < |bs| {
      match FirstDownstream(bs, chain[|chain| - 1].uuid)
      case None =>
      case Some(j) =>
        var next := chain + [bs[j]];
        assert Linked(bs, next) by {
          forall i | 0 <= i < |next| - 1
            ensures Follows(bs, next[i], next[i + 1])
          {
            if i < |chain| - 1 {
              assert next[i] == chain[i] && next[i + 1] == chain[i + 1];
            } else {
              assert next[i] == chain[|chain| - 1] && next[i + 1] == bs[j];
              assert FirstDownstream(bs, next[i].uuid) == Some(j);
            }
          }
        }
        ChainShape(bs, next);
    }
  }

  /** The chain loop of `export_pipeline` (lines 433-441). */
  method FollowChain(bs: seq<Block>) returns (chain: seq<Block>)
    requires |bs| > 0
    ensures chain == Chain(bs, [bs[0]])
  {
    chain := [bs[0]];
    while |chain| < |bs|
      invariant 0 < |chain|
      invariant Chain(bs, chain) == Chain(bs, [bs[0]])
      decreases |bs| - |chain|
    {
      var next := FirstDownstream(bs, chain[|chain| - 1].uuid);
      if next.Some? {
        chain := chain + [bs[next.value]];
      } else {
        break;
      }
    }
  }

  /** `[block for block in bs if block not in chain]`. */
  function Remaining(bs: seq<Block>, chain: seq<Block>): (r: seq<Block>)
    ensures forall b :: b in r <==> b in bs && b !in chain
  {
    if bs == [] then []
    else (if bs[0] in chain then [] else [bs[0]]) + Remaining(bs[1..], chain)
  }

  function Reverse<T>(s: seq<T>): (r: seq<T>)
    ensures |r| == |s| && forall i :: 0 <= i < |s| ==> r[i] == s[|s| - 1 - i]
  {
    if s == [] then [] else Reverse(s[1..]) + [s[0]]
  }

  // ---------------------------------------------------------------------
  // The export order

  /** The order `export_pipeline` builds (lines 430-446): sort ascending by
      the key, follow the chain from the first block, append the blocks the
      chain missed, reverse. */
  function OrderAsWritten(blocks: seq<Block>): seq<Block>
    requires |blocks| > 0
  {
    var s := SortedByKey(blocks);
    SortedByKeyIsSorted(blocks);
    var c := Chain(s, [s[0]]);
    Reverse(c + Remaining(s, c))
  }

  lemma ReverseMembers<T>(s: seq<T>)
    ensures forall x :: x in Reverse(s) <==> x in s
  {
    var r := Reverse(s);
    forall x ensures x in r <==> x in s {
      if x in r {
        var i :| 0 <= i < |r| && r[i] == x;
        assert s[|s| - 1 - i] == x;
      }
      if x in s {
        var i :| 0 <= i < |s| && s[i] == x;
        assert r[|s| - 1 - i] == x;
      }
    }
  }

  lemma SameMultisetMembers(s: seq<Block>, t: seq<Block>)
    requires multiset(s) == multiset(t)
    ensures |s| == |t| && forall b :: b in s <==> b in t
  {
    assert |multiset(s)| == |multiset(t)|;
    forall b ensures b in s <==> b in t {
      assert b in s <==> b in multiset(s);
      assert b in t <==> b in multiset(t);
    }
  }

  /** The chain from the first block together with the blocks it missed
      holds every block of the list and nothing else. */
  lemma ChainAndRemainingCover(s: seq<Block>)
    requires |s| > 0
    ensures var c := Chain(s, [s[0]]);
      && c[0] == s[0]
      && forall b :: b in c + Remaining(s, c) <==> b in s
  {
    ChainShape(s, [s[0]]);
  }

  /** The order as written holds every block of the pipeline and nothing
      else, and ends with the first block of the sorted list. */
  lemma OrderAsWrittenCovers(blocks: seq<Block>)
    requires |blocks| > 0
    ensures var r := OrderAsWritten(blocks);
      && (forall b :: b in r <==> b in blocks)
      && r[|r| - 1] == SortedByKey(blocks)[0]
  {
    var s := SortedByKey(blocks);
    SortedByKeyIsSorted(blocks);
    SameMultisetMembers(s, blocks);
    ChainAndRemainingCover(s);
    var c := Chain(s, [s[0]]);
    ReverseMembers(c + Remaining(s, c));
  }

  /** The corrected order: sort descending by the key, so that the block
      without upstream blocks that feeds others comes first, follow the chain
      from it, append the blocks the chain missed, and do not reverse. */
  function OrderCorrected(blocks: seq<Block>): seq<Block>
    requires |blocks| > 0
  {
    var s := SortedByKeyDesc(blocks);
    SortedByKeyDescIsSorted(blocks);
    var c := Chain(s, [s[0]]);
    c + Remaining(s, c)
  }

  /** `c` is a linear pipeline: distinct uuids, each block after the first
      has exactly its predecessor upstream, each block but the last has
      exactly its successor downstream. */
  predicate Linear(c: seq<Block>) {
    && |c| > 0
    && (forall i, j :: 0 <= i < j < |c| ==> c[i].uuid != c[j].uuid)
    && c[0].upstreamBlocks == []
    && (forall j :: 0 < j < |c| ==> c[j].upstreamBlocks == [c[j - 1].uuid])
    && (forall j :: 0 <= j < |c| - 1 ==> c[j].downstreamBlocks == [c[j + 1].uuid])
    && c[|c| - 1].downstreamBlocks == []
  }

  /** In a linear pipeline listed in any order, the first block downstream
      of block k - 1 is block k. */
  lemma LinearFollows(s: seq<Block>, c: seq<Block>, k: nat)
    requires Linear(c) && multiset(s) == multiset(c)
    requires 0 < k < |c|
    ensures Follows(s, c[k - 1], c[k])
  {
    SameMultisetMembers(s, c);
    var u := c[k - 1].uuid;
    assert c[k] in s;
    var i :| 0 <= i < |s| && s[i] == c[k];
    assert u in s[i].upstreamBlocks;
    var j := FirstDownstream(s, u).value;
    assert s[j] in c;
    var m :| 0 <= m < |c| && c[m] == s[j];
    assert m != 0;
    assert c[m].upstreamBlocks == [c[m - 1].uuid];
    assert c[m - 1].uuid == u;
    assert m - 1 == k - 1;
  }

  lemma {:induction false} ChainOfLinear(s: seq<Block>, c: seq<Block>, k: nat)
    requires Linear(c) && multiset(s) == multiset(c)
    requires 1 <= k <= |c|
    ensures Chain(s, c[..k]) == c
    decreases |c| - k
  {
    SameMultisetMembers(s, c);
    if k == |c| {
      assert c[..k] == c;
    } else {
      LinearFollows(s, c, k);
      assert c[..k][k - 1] == c[k - 1];
      var j := FirstDownstream(s, c[k - 1].uuid).value;
      assert c[..k] + [s[j]] == c[..k + 1];
      ChainOfLinear(s, c, k + 1);
    }
  }

  /** Sorted descending, a linear pipeline starts with its first block. */
  lemma LinearSortedFirst(blocks: seq<Block>, c: seq<Block>)
    requires Linear(c) && multiset(blocks) == multiset(c)
    ensures |SortedByKeyDesc(blocks)| == |c| && SortedByKeyDesc(blocks)[0] == c[0]
  {
    var s := SortedByKeyDesc(blocks);
    SortedByKeyDescIsSorted(blocks);
    SameMultisetMembers(s, c);
    assert s[0] in c;
    var m :| 0 <= m < |c| && c[m] == s[0];
    assert c[0] in s;
    var i :| 0 <= i < |s| && s[i] == c[0];
    assert Rank(s[0]) >= Rank(s[i]) >= 2;
    LinearLaterRanks(c);
  }

  /** Every block of a linear pipeline but the first has an upstream block. */
  lemma LinearLaterRanks(c: seq<Block>)
    requires Linear(c)
    ensures forall m :: 0 < m < |c| ==> Rank(c[m]) <= 1
  {
    forall m | 0 < m < |c|
      ensures Rank(c[m]) <= 1
    {
      assert c[m].upstreamBlocks == [c[m - 1].uuid];
    }
  }

  lemma {:induction false} RemainingNone(s: seq<Block>, c: seq<Block>)
    requires forall b :: b in s ==> b in c
    ensures Remaining(s, c) == []
  {
    if s != [] {
      assert s[0] in c;
      RemainingNone(s[1..], c);
    }
  }

  /** The corrected order lists a linear pipeline in pipeline order,
      whatever order the platform returned its blocks in. */
  lemma LinearPipelineOrder(blocks: seq<Block>, c: seq<Block>)
    requires Linear(c) && multiset(blocks) == multiset(c)
    ensures |blocks| > 0 && OrderCorrected(blocks) == c
  {
    assert |multiset(blocks)| == |multiset(c)|;
    var s := SortedByKeyDesc(blocks);
    LinearSortedFirst(blocks, c);
    SortedByKeyDescIsSorted(blocks);
    LinearFromFirst(s, c);
  }

  lemma LinearFromFirst(s: seq<Block>, c: seq<Block>)
    requires Linear(c) && multiset(s) == multiset(c) && |s| > 0 && s[0] == c[0]
    ensures Chain(s, [s[0]]) + Remaining(s, Chain(s, [s[0]])) == c
  {
    assert [s[0]] == c[..1];
    ChainOfLinear(s, c, 1);
    SameMultisetMembers(s, c);
    RemainingNone(s, c);
    assert c + [] == c;
  }

  /** A four-block linear pipeline, listed in pipeline order. */
  function FourBlocks(): seq<Block> {
    [MageToCwl.Block("a", "", [], ["b"]), MageToCwl.Block("b", "", ["a"], ["c"]),
     MageToCwl.Block("c", "", ["b"], ["d"]), MageToCwl.Block("d", "", ["c"], [])]
  }

  lemma FourBlocksLinear()
    ensures Linear(FourBlocks())
  {
    var p := FourBlocks();
    assert p[1].upstreamBlocks == [p[0].uuid];
    assert p[2].upstreamBlocks == [p[1].uuid];
    assert p[3].upstreamBlocks == [p[2].uuid];
  }

  lemma FourBlocksSorted()
    ensures var p := FourBlocks(); SortedByKey(p) == [p[3], p[1], p[2], p[0]]
  {
    var p := FourBlocks();
    var a, b, c, d := p[0], p[1], p[2], p[3];
    assert p == [a, b, c, d] && p[1..] == [b, c, d] && p[2..] == [c, d] && p[3..] == [d];
    assert Rank(a) == 3 && Rank(b) == 1 && Rank(c) == 1 && Rank(d) == 0;
    assert OfRank([d], 0) == [d] && OfRank([d], 1) == [] && OfRank([d], 2) == [] && OfRank([d], 3) == [];
    assert OfRank([c, d], 0) == [d] && OfRank([c, d], 1) == [c] && OfRank([c, d], 2) == [] && OfRank([c, d], 3) == [];
    assert OfRank([b, c, d], 0) == [d] && OfRank([b, c, d], 1) == [b, c];
    assert OfRank([b, c, d], 2) == [] && OfRank([b, c, d], 3) == [];
  }

  lemma FourBlocksChain()
    ensures var p := FourBlocks(); var s := [p[3], p[1], p[2], p[0]];
      Chain(s, [p[3]]) == [p[3]] && Remaining(s, [p[3]]) == [p[1], p[2], p[0]]
  {
    var p := FourBlocks();
    var a, b, c, d := p[0], p[1], p[2], p[3];
    var s := [d, b, c, a];
    assert s[1..] == [b, c, a] && s[2..] == [c, a] && s[3..] == [a];
    assert FirstDownstream([a], "d") == None;
    assert FirstDownstream([c, a], "d") == None;
    assert FirstDownstream([b, c, a], "d") == None;
    assert FirstDownstream(s, "d") == None;
    assert Remaining([a], [d]) == [a];
    assert Remaining([c, a], [d]) == [c, a];
    assert Remaining([b, c, a], [d]) == [b, c, a];
  }

  /** As written, the export order of a four-block linear pipeline listed
      in pipeline order swaps its two middle blocks, so the third block is
      converted right after the first and is given the first block's output
      type and name as its predecessor's; the corrected order keeps the
      pipeline order. */
  lemma AsWrittenMisordersChain()
    ensures var p := FourBlocks();
      && Linear(p)
      && OrderAsWritten(p) == [p[0], p[2], p[1], p[3]]
      && p[0].uuid !in p[2].upstreamBlocks
      && OrderCorrected(p) == p
  {
    var p := FourBlocks();
    FourBlocksLinear();
    FourBlocksAsWritten();
    assert p[2].upstreamBlocks == ["b"];
    LinearPipelineOrder(p, p);
  }

  lemma FourBlocksAsWritten()
    ensures var p := FourBlocks(); OrderAsWritten(p) == [p[0], p[2], p[1], p[3]]
  {
    var p := FourBlocks();
    FourBlocksSorted();
    FourBlocksChain();
    var s := SortedByKey(p);
    assert s == [p[3], p[1], p[2], p[0]];
    var c := Chain(s, [s[0]]);
    assert c == [p[3]];
    var t := c + Remaining(s, c);
    assert Remaining(s, c) == [p[1], p[2], p[0]];
    var r := Reverse(t);
    SeqOfFour(r, p[0], p[2], p[1], p[3]);
    assert OrderAsWritten(p) == r;
  }

  lemma SeqOfFour(r: seq<Block>, a: Block, b: Block, c: Block, d: Block)
    requires |r| == 4 && r[0] == a && r[1] == b && r[2] == c && r[3] == d
    ensures r == [a, b, c, d]
  {
  }

  /** The corrected order starts at a block without upstream blocks exactly
      when the pipeline has one, so the converter accepts it exactly then. */
  lemma CorrectedStartsAtSource(blocks: seq<Block>)
    requires |blocks| > 0
    ensures |OrderCorrected(blocks)| > 0
    ensures OrderCorrected(blocks)[0].upstreamBlocks == [] <==> exists b :: b in blocks && b.upstreamBlocks == []
  {
    var s := SortedByKeyDesc(blocks);
    SortedByKeyDescIsSorted(blocks);
    SameMultisetMembers(s, blocks);
    ChainAndRemainingCover(s);
    if b :| b in blocks && b.upstreamBlocks == [] {
      var i :| 0 <= i < |s| && s[i] == b;
      assert Rank(s[0]) >= Rank(s[i]);
    }
  }

  // ---------------------------------------------------------------------
  // The archive

  /** What `zipf.writestr` stores for a bundle entry: its content, or the
      empty text for a directory entry. */
  function Written(content: Option<string>): string {
    if content.Some? then content.value else ""
  }

  /** The archive as a map from paths to stored texts. */
  function Archive(files: map<string, Option<string>>): map<string, string> {
    map k | k in files :: Written(files[k])
  }

  /** The `with zipfile.ZipFile(...)` loop (lines 452-457): one entry per
      bundle file, in the dictionary's order. */
  method WriteArchive(files: map<string, Option<string>>) returns (archive: map<string, string>)
    ensures archive.Keys == files.Keys
    ensures forall k :: k in files ==> archive[k] == Written(files[k])
    ensures archive == Archive(files)
  {
    archive := map[];
    var todo := files.Keys;
    while todo != {}
      invariant todo <= files.Keys
      invariant archive.Keys == files.Keys - todo
      invariant forall k :: k in archive ==> archive[k] == Written(files[k])
      decreases todo
    {
      var k :| k in todo;
      var content := files[k];
      if content.None? {
        archive := archive[k := ""];
      } else {
        archive := archive[k := content.value];
      }
      todo := todo - {k};
    }
  }

  /** `export_pipeline` after the API call: order the blocks, convert them
      into the bundle and store the bundle in the archive. An empty pipeline
      fails on `blocks[0]`; a pipeline whose first block has upstream blocks
      or whose block fails to convert fails with that error. The order is
      the corrected one (`OrderCorrected`). */
  method ExportPipeline(blocks: seq<Block>, pipelineName: string, tools: MageToPythonBlock.Tools, dump: MageToCwl.Yaml -> string)
    returns (r: Result<map<string, string>, string>)
    ensures blocks == [] ==> r == Failure("IndexError")
    ensures blocks != [] ==>
      var order := OrderCorrected(blocks);
      var t := MageToCwl.Transformed(order, |order|, MageToCwl.ConverterOf(tools));
      if MageToCwl.ConstructionError(order).Some? then r == Failure(MageToCwl.ConstructionError(order).value)
      else if t.Failure? then r == Failure(t.error)
      else r == Success(Archive(MageToCwl.FilesOf(MageToCwl.InitialFiles, t.value, dump)))
  {
    if |blocks| == 0 {
      return Failure("IndexError");
    }
    var sorted := SortedByKeyDesc(blocks);
    SortedByKeyDescIsSorted(blocks);
    SameMultisetMembers(sorted, blocks);
    var chain := FollowChain(sorted);
    var order := chain + Remaining(sorted, chain);
    var err := MageToCwl.ConstructionError(order);
    if err.Some? {
      return Failure(err.value);
    }
    var mtc := new MageToCwl.MageToCWL(order, pipelineName);
    var done := mtc.Process(tools, dump);
    if done.Failure? {
      var t := MageToCwl.Transformed(order, |order|, MageToCwl.ConverterOf(tools));
      return Failure(t.error);
    }
    var archive := WriteArchive(mtc.files);
    r := Success(archive);
  }

  // ---------------------------------------------------------------------
  // Run history

  /** A block run: its block's uuid, its status and its metrics (only the
      nested text values the summary reads). */
  datatype BlockRun = BlockRun(blockUuid: string, status: string, metrics: map<string, map<string, string>>)

  /** A pipeline run; `variables` is passed through unread. */
  datatype PipelineRun = PipelineRun(status: string, variables: string, executionDate: string, blockRuns: seq<BlockRun>)

  datatype RunSummary = RunSummary(
    status: string,
    variables: string,
    runningDate: string,
    lastCompletedBlock: string,
    lastFailedBlock: string,
    errorMessage: string)

  /** The index of the first failed block run. */
  method FirstFailed(runs: seq<BlockRun>) returns (r: Option<nat>)
    ensures r.Some? ==> r.value < |runs| && runs[r.value].status == "failed"
    ensures r.Some? ==> forall j :: 0 <= j < r.value ==> runs[j].status != "failed"
    ensures r.None? ==> forall j :: 0 <= j < |runs| ==> runs[j].status != "failed"
    ensures r == FailedIndex(runs)
  {
    r := None;
    var i := 0;
    while i < |runs|
      invariant 0 <= i <= |runs|
      invariant forall j :: 0 <= j < i ==> runs[j].status != "failed"
    {
      if runs[i].status == "failed" {
        r := Some(i);
        break;
      }
      i := i + 1;
    }
    FailedIndexIsFirst(runs);
  }

  /** The same search as a function, for the summary. */
  function FailedIndex(runs: seq<BlockRun>): (r: Option<nat>)
    ensures r.Some? ==> r.value < |runs|
  {
    if runs == [] then None
    else if runs[0].status == "failed" then Some(0)
    else match FailedIndex(runs[1..])
      case None => None
      case Some(j) => Some(j + 1)
  }

  lemma {:induction false} FailedIndexIsFirst(runs: seq<BlockRun>)
    ensures var r := FailedIndex(runs);
      && (r.Some? ==> r.value < |runs| && runs[r.value].status == "failed"
                      && forall j :: 0 <= j < r.value ==> runs[j].status != "failed")
      && (r.None? ==> forall j :: 0 <= j < |runs| ==> runs[j].status != "failed")
  {
    if runs != [] {
      FailedIndexIsFirst(runs[1..]);
      if runs[0].status != "failed" {
        forall j | 0 < j < |runs| ensures runs[j] == runs[1..][j - 1] {}
      }
    }
  }

  /** Python's `s[i]` for `-len(s) <= i < len(s)`. */
  function PyIndex<T>(s: seq<T>, i: int): T
    requires -|s| <= i < |s|
  {
    if i < 0 then s[|s| + i] else s[i]
  }

  /** `metrics["error"]["error"] if len(metrics.keys()) else "-"`. */
  function ErrorMessage(metrics: map<string, map<string, string>>): Result<string, string> {
    if |metrics| == 0 then Success("-")
    else if "error" in metrics && "error" in metrics["error"] then Success(metrics["error"]["error"])
    else Failure("KeyError")
  }

  /** One entry of the history (lines 327-350). The running date is the
      execution date reformatted by `reformat`, which fails on a date it
      cannot parse. Without a failed block run the last block run is the last
      completed one; otherwise it is the one before the failed one, which for
      a failure of the first block run is, by Python's negative index, the
      last block run. */
  function Summary(run: PipelineRun, reformat: string -> Option<string>): Result<RunSummary, string> {
    var date := reformat(run.executionDate);
    if date.None? then Failure("ValueError")
    else match FailedIndex(run.blockRuns)
      case None =>
        if run.blockRuns == [] then Failure("IndexError")
        else Success(RunSummary(run.status, run.variables, date.value, PyIndex(run.blockRuns, -1).blockUuid, "-", "-"))
      case Some(k) =>
        FailedIndexIsFirst(run.blockRuns);
        var failed := run.blockRuns[k];
        match ErrorMessage(failed.metrics)
        case Failure(e) => Failure(e)
        case Success(message) =>
          Success(RunSummary(run.status, run.variables, date.value,
            PyIndex(run.blockRuns, k - 1).blockUuid, failed.blockUuid, message))
  }

  /** What a history entry reports, case by case. */
  lemma SummaryMeaning(run: PipelineRun, reformat: string -> Option<string>)
    ensures var r := Summary(run, reformat);
      var b := run.blockRuns;
      && (r.Success? <==>
            && reformat(run.executionDate).Some?
            && b != []
            && (FailedIndex(b).Some? ==> ErrorMessage(b[FailedIndex(b).value].metrics).Success?))
      && (r.Success? ==> r.value.status == run.status && r.value.variables == run.variables
                         && r.value.runningDate == reformat(run.executionDate).value)
      && (r.Success? && (forall j :: 0 <= j < |b| ==> b[j].status != "failed") ==>
            r.value.lastCompletedBlock == b[|b| - 1].blockUuid
            && r.value.lastFailedBlock == "-" && r.value.errorMessage == "-")
  {
    FailedIndexIsFirst(run.blockRuns);
  }

  /** With a failed block run, the entry names it and its error, and the
      block run before it, which did not fail; when the first block run
      failed it names the last block run instead. */
  lemma SummaryOfFailure(run: PipelineRun, reformat: string -> Option<string>, k: nat)
    requires k < |run.blockRuns| && run.blockRuns[k].status == "failed"
    requires forall j :: 0 <= j < k ==> run.blockRuns[j].status != "failed"
    requires Summary(run, reformat).Success?
    ensures var r := Summary(run, reformat).value;
      var b := run.blockRuns;
      && r.lastFailedBlock == b[k].blockUuid
      && Success(r.errorMessage) == ErrorMessage(b[k].metrics)
      && (k > 0 ==> r.lastCompletedBlock == b[k - 1].blockUuid && b[k - 1].status != "failed")
      && (k == 0 ==> r.lastCompletedBlock == b[|b| - 1].blockUuid)
  {
    FailedIndexIsFirst(run.blockRuns);
  }

  /** `pipeline_history`'s loop over the runs (lines 326-352): a failing
      entry aborts the whole answer. */
  function Summaries(runs: seq<PipelineRun>, reformat: string -> Option<string>): Result<seq<RunSummary>, string> {
    if runs == [] then Success([])
    else match Summary(runs[0], reformat)
      case Failure(e) => Failure(e)
      case Success(first) =>
        match Summaries(runs[1..], reformat)
        case Failure(e) => Failure(e)
        case Success(rest) => Success([first] + rest)
  }

  method PipelineHistory(runs: seq<PipelineRun>, reformat: string -> Option<string>) returns (r: Result<seq<RunSummary>, string>)
    ensures r == Summaries(runs, reformat)
    ensures r.Success? ==> |r.value| == |runs| && forall i :: 0 <= i < |runs| ==> Summary(runs[i], reformat) == Success(r.value[i])
    ensures r.Failure? ==> exists i :: 0 <= i < |runs| && Summary(runs[i], reformat) == Failure(r.error)
  {
    var entries: seq<RunSummary> := [];
    var i := 0;
    while i < |runs|
      invariant 0 <= i <= |runs|
      invariant |entries| == i
      invariant forall j :: 0 <= j < i ==> Summary(runs[j], reformat) == Success(entries[j])
    {
      var entry := Summary(runs[i], reformat);
      if entry.Failure? {
        SummariesFailure(runs, reformat, i);
        return Failure(entry.error);
      }
      entries := entries + [entry.value];
      i := i + 1;
    }
    SummariesAll(runs, reformat, entries);
    r := Success(entries);
  }

  lemma {:induction false} SummariesAll(runs: seq<PipelineRun>, reformat: string -> Option<string>, out: seq<RunSummary>)
    requires |out| == |runs|
    requires forall j :: 0 <= j < |runs| ==> Summary(runs[j], reformat) == Success(out[j])
    ensures Summaries(runs, reformat) == Success(out)
  {
    if runs != [] {
      SummariesAll(runs[1..], reformat, out[1..]);
      assert out == [out[0]] + out[1..];
    }
  }

  lemma {:induction false} SummariesFailure(runs: seq<PipelineRun>, reformat: string -> Option<string>, i: nat)
    requires i < |runs| && Summary(runs[i], reformat).Failure?
    requires forall j :: 0 <= j < i ==> Summary(runs[j], reformat).Success?
    ensures Summaries(runs, reformat) == Failure(Summary(runs[i], reformat).error)
  {
    if i > 0 {
      SummariesFailure(runs[1..], reformat, i - 1);
    }
  }

  // ---------------------------------------------------------------------
  // Block templates

  datatype Template = Template(blockType: string, templateUuid: string, description: string)

  datatype TemplateInfo = TemplateInfo(kind: string, name: string, description: string)

  /** The characters of the class `[\w\s_-]`, over ASCII. */
  predicate IsTagChar(c: char) {
    ('a' <= c <= 'z') || ('A' <= c <= 'Z') || ('0' <= c <= '9') || c == '_' || c == '-' || Text.IsSpace(c)
  }

  /** The pattern `\([\w\s_-]+\) ` matches `s[i..e + 2]`. */
  predicate TagSpan(s: string, i: int, e: int) {
    && 0 <= i && i + 1 < e && e + 1 < |s|
    && s[i] == '(' && s[e] == ')' && s[e + 1] == ' '
    && forall x :: i < x < e ==> IsTagChar(s[x])
  }

  /** `len(re.findall(pattern, s)) != 0`. */
  predicate HasTag(s: string) {
    exists i, e :: 0 <= i < e < |s| && TagSpan(s, i, e)
  }

  /** The end of the run of tag characters starting at `j`. */
  function RunEnd(s: string, j: nat): (r: nat)
    requires j <= |s|
    ensures j <= r <= |s|
    ensures forall x :: j <= x < r ==> IsTagChar(s[x])
    ensures r < |s| ==> !IsTagChar(s[r])
    decreases |s| - j
  {
    if j < |s| && IsTagChar(s[j]) then RunEnd(s, j + 1) else j
  }

  /** The regular-expression search: a tag starting at or after `from`. */
  function FindTag(s: string, from: nat): (r: bool)
    requires from <= |s|
    ensures r <==> exists i, e :: from <= i && TagSpan(s, i, e)
    decreases |s| - from
  {
    if from + 1 >= |s| then
      assert forall i, e :: from <= i ==> !TagSpan(s, i, e);
      false
    else
      var e := RunEnd(s, from + 1);
      var here := s[from] == '(' && from + 1 < e && e + 1 < |s| && s[e] == ')' && s[e + 1] == ' ';
      assert !here ==> forall e' :: !TagSpan(s, from, e') by {
        forall e' | TagSpan(s, from, e') ensures here {
          assert !IsTagChar(')');
          assert e' == e;
        }
      }
      assert here ==> TagSpan(s, from, e);
      here || FindTag(s, from + 1)
  }

  /** The search from the start answers `HasTag`. */
  lemma FindTagIsHasTag(s: string)
    ensures FindTag(s, 0) == HasTag(s)
  {
    if FindTag(s, 0) {
      var i, e :| 0 <= i && TagSpan(s, i, e);
      assert 0 <= i < e < |s|;
    }
  }

  /** A template is offered for `pipelineType` when its description names
      the type or carries no tag at all. */
  predicate Offered(t: Template, pipelineType: string) {
    Text.Contains(t.description, pipelineType) || !HasTag(t.description)
  }

  /** The offered entry: the description loses every `"(<type>) "`. */
  function InfoOf(t: Template, pipelineType: string): TemplateInfo {
    TemplateInfo(t.blockType, t.templateUuid, Text.ReplaceAll(t.description, "(" + pipelineType + ") ", ""))
  }

  /** The templates offered for `pipelineType`, in the API's order. */
  function OfferedTemplates(body: seq<Template>, pipelineType: string): seq<TemplateInfo> {
    if body == [] then []
    else (if Offered(body[0], pipelineType) then [InfoOf(body[0], pipelineType)] else [])
         + OfferedTemplates(body[1..], pipelineType)
  }

  /** The loop of the templates endpoint (lines 400-408). */
  method FilterTemplates(body: seq<Template>, pipelineType: string) returns (templates: seq<TemplateInfo>)
    ensures templates == OfferedTemplates(body, pipelineType)
  {
    templates := [];
    var i := 0;
    while i < |body|
      invariant 0 <= i <= |body|
      invariant templates + OfferedTemplates(body[i..], pipelineType) == OfferedTemplates(body, pipelineType)
    {
      var entry := body[i];
      var tagged := FindTag(entry.description, 0);
      FindTagIsHasTag(entry.description);
      ghost var here: seq<TemplateInfo> := if Offered(entry, pipelineType) then [InfoOf(entry, pipelineType)] else [];
      assert body[i..][1..] == body[i + 1..];
      assert OfferedTemplates(body[i..], pipelineType) == here + OfferedTemplates(body[i + 1..], pipelineType);
      assert templates + OfferedTemplates(body[i..], pipelineType) == (templates + here) + OfferedTemplates(body[i + 1..], pipelineType);
      var keep := Text.Contains(entry.description, pipelineType) || !tagged;
      assert keep == Offered(entry, pipelineType);
      ghost var prev := templates;
      if keep {
        templates := templates + [InfoOf(entry, pipelineType)];
        assert templates == prev + here;
      } else {
        assert templates == prev + here;
      }
      i := i + 1;
    }
    assert body[|body|..] == [];
  }

  /** Every offered entry comes from a template offered for the type, and
      every such template yields an entry. */
  lemma {:induction false} OfferedTemplatesMembers(body: seq<Template>, pipelineType: string)
    ensures forall x :: x in OfferedTemplates(body, pipelineType) <==>
      exists t :: t in body && Offered(t, pipelineType) && x == InfoOf(t, pipelineType)
  {
    if body != [] {
      OfferedTemplatesMembers(body[1..], pipelineType);
      assert forall t :: t in body <==> t == body[0] || t in body[1..];
    }
  }

  /** An occurrence of `"(" + p + ") "` is a tag and holds an occurrence of `p`. */
  lemma TagOccurrence(d: string, p: string, i: int)
    requires p != [] && forall x :: 0 <= x < |p| ==> IsTagChar(p[x])
    requires Text.OccursAt(d, "(" + p + ") ", i)
    ensures TagSpan(d, i, i + 1 + |p|) && Text.OccursAt(d, p, i + 1)
  {
    var tag := "(" + p + ") ";
    var w := d[i..i + |tag|];
    assert w == tag;
    assert |tag| == |p| + 3;
    forall x | i < x < i + 1 + |p| ensures IsTagChar(d[x]) {
      assert d[x] == w[x - i] == tag[x - i] == p[x - i - 1];
    }
    assert d[i] == w[0] == '(';
    assert d[i + 1 + |p|] == w[|p| + 1] == ')';
    assert d[i + 2 + |p|] == w[|p| + 2] == ' ';
    forall x | 0 <= x < |p| ensures d[i + 1 + x] == p[x] {
      assert d[i + 1 + x] == w[1 + x] == tag[1 + x];
    }
    assert d[i + 1..i + 1 + |p|] == p;
  }

  /** A template tagged with the requested type, written with tag
      characters, is offered. */
  lemma OwnTagOffered(t: Template, pipelineType: string)
    requires pipelineType != [] && forall x :: 0 <= x < |pipelineType| ==> IsTagChar(pipelineType[x])
    requires Text.Contains(t.description, "(" + pipelineType + ") ")
    ensures Offered(t, pipelineType) && HasTag(t.description)
  {
    var i :| Text.OccursAt(t.description, "(" + pipelineType + ") ", i);
    TagOccurrence(t.description, pipelineType, i);
    HasTagAt(t.description, i, i + 1 + |pipelineType|);
    ContainsAt(t.description, pipelineType, i + 1);
  }

  lemma HasTagAt(s: string, i: int, e: int)
    requires TagSpan(s, i, e)
    ensures HasTag(s)
  {
    assert 0 <= i < e < |s|;
  }

  lemma ContainsAt(s: string, p: string, i: int)
    requires Text.OccursAt(s, p, i)
    ensures Text.Contains(s, p)
  {
  }

  /** A description without the requested tag is offered unchanged. */
  lemma UntaggedDescriptionKept(t: Template, pipelineType: string)
    requires !Text.Contains(t.description, "(" + pipelineType + ") ")
    ensures InfoOf(t, pipelineType).description == t.description
  {
    Text.ReplaceAllAbsent(t.description, "(" + pipelineType + ") ", "");
  }
}
