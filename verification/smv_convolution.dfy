/** The SMV convolution operator: the NHWC layout checks and halo set-up of
    `run`, and the tile-pair execution loop of `runNHWC`, which walks the
    (N, H, W) tile positions and, at each one, matches input channel tiles
    against weight channel tiles with two cursors. The compute kernel is opaque
    here: each invocation is recorded as a KernelCall event carrying the tile
    coordinates it was given. */
module SmvConvolution {
  import opened Results
  import opened NnetFwdDefs

  /** Only the NHWC ordering is accepted by this operator; every other layout
      is represented by an opaque tag. */
  datatype DataLayout = NHWC | OtherLayout(tag: nat)

  /** The tile grid of a tiled tensor: the number of tiles along each of its
      four NHWC dimensions (what `getShape()` returns on a tiled tensor). */
  datatype TileGrid = TileGrid(shape: seq<nat>)

  /** A tile coordinate in NHWC order. */
  datatype TileCoord = TileCoord(n: int, h: int, w: int, c: int)

  /** One invocation of the convolution kernel: which input, weight and output
      tiles it reads and writes, the weight-group and input-channel-tile
      indices passed to it, and whether it initializes the output tile. */
  datatype KernelCall = KernelCall(
    input: TileCoord,
    weights: TileCoord,
    output: TileCoord,
    weightGroup: int,
    inputChanTile: int,
    initialize: bool)

  /* ----------------------------------------------------------------------
     The two-cursor channel matching at one (N, H, W) position.
     ---------------------------------------------------------------------- */

  /** The loop guard of the channel loop. */
  predicate InLoop(inputChanTiles: nat, weightChanTiles: nat, cursor: (nat, nat)) {
    cursor.0 < inputChanTiles && cursor.1 < weightChanTiles
  }

  /** The cursor advance after each kernel call: lock-step when the counts are
      equal, only the weight cursor when the input has a single channel tile,
      and only the input cursor otherwise. */
  function Step(inputChanTiles: nat, weightChanTiles: nat, cursor: (nat, nat)): (nat, nat) {
    if inputChanTiles == weightChanTiles then (cursor.0 + 1, cursor.1 + 1)
    else if inputChanTiles == 1 then (cursor.0, cursor.1 + 1)
    else (cursor.0 + 1, cursor.1)
  }

  /** The cursor pair after k advances from (0, 0). */
  function CursorAt(inputChanTiles: nat, weightChanTiles: nat, k: nat): (nat, nat) {
    if inputChanTiles == weightChanTiles then (k, k)
    else if inputChanTiles == 1 then (0, k)
    else (k, 0)
  }

  /** How many kernel calls one (N, H, W) position makes. */
  function PairCount(inputChanTiles: nat, weightChanTiles: nat): nat {
    if inputChanTiles == 0 || weightChanTiles == 0 then 0
    else if inputChanTiles == 1 && weightChanTiles != 1 then weightChanTiles
    else inputChanTiles
  }

  /** Closed form of the (iC, wC) pairs the channel loop visits, in order. */
  function ChannelPairs(inputChanTiles: nat, weightChanTiles: nat): seq<(nat, nat)> {
    seq(PairCount(inputChanTiles, weightChanTiles),
        k requires 0 <= k => CursorAt(inputChanTiles, weightChanTiles, k))
  }

  /** The cursors stay inside the loop exactly for the first PairCount steps. */
  lemma CursorLeavesLoopAtPairCount(inputChanTiles: nat, weightChanTiles: nat, k: nat)
    requires k <= PairCount(inputChanTiles, weightChanTiles)
    ensures InLoop(inputChanTiles, weightChanTiles, CursorAt(inputChanTiles, weightChanTiles, k))
            <==> k < PairCount(inputChanTiles, weightChanTiles)
  {
  }

  /** ChannelPairs is the run of the cursor machine: it starts at (0, 0), each
      pair satisfies the loop guard, each next pair is the Step of the previous
      one, and the Step after the last pair leaves the loop. */
  lemma ChannelPairsIsCursorRun(inputChanTiles: nat, weightChanTiles: nat)
    ensures var ps := ChannelPairs(inputChanTiles, weightChanTiles);
            && (|ps| > 0 ==> ps[0] == (0, 0))
            && (forall k :: 0 <= k < |ps| ==> InLoop(inputChanTiles, weightChanTiles, ps[k]))
            && (forall k :: 0 <= k < |ps| - 1 ==>
                  ps[k + 1] == Step(inputChanTiles, weightChanTiles, ps[k]))
            && (|ps| == 0 ==> !InLoop(inputChanTiles, weightChanTiles, (0, 0)))
            && (|ps| > 0 ==>
                  !InLoop(inputChanTiles, weightChanTiles,
                          Step(inputChanTiles, weightChanTiles, ps[|ps| - 1])))
  {
    var ps := ChannelPairs(inputChanTiles, weightChanTiles);
    forall k | 0 <= k < |ps|
      ensures InLoop(inputChanTiles, weightChanTiles, ps[k])
    {
      CursorLeavesLoopAtPairCount(inputChanTiles, weightChanTiles, k);
    }
    if |ps| > 0 {
      assert Step(inputChanTiles, weightChanTiles, ps[|ps| - 1])
             == CursorAt(inputChanTiles, weightChanTiles, |ps|);
      CursorLeavesLoopAtPairCount(inputChanTiles, weightChanTiles, |ps|);
    }
  }

  /** Equal counts n: the pairs (0,0), (1,1), ..., (n-1,n-1). */
  lemma ChannelPairsLockStep(n: nat)
    ensures |ChannelPairs(n, n)| == n
    ensures forall k :: 0 <= k < n ==> ChannelPairs(n, n)[k] == (k, k)
  {
  }

  /** A single input tile against many weight tiles: (0,0), (0,1), ...,
      (0, weightChanTiles-1), so the input tile is reused. */
  lemma ChannelPairsBroadcastInput(weightChanTiles: nat)
    requires weightChanTiles != 1
    ensures |ChannelPairs(1, weightChanTiles)| == weightChanTiles
    ensures forall k :: 0 <= k < weightChanTiles ==> ChannelPairs(1, weightChanTiles)[k] == (0, k)
  {
  }

  /** Every other mismatch, including two different counts neither of which is
      one: only the input cursor moves, (0,0), (1,0), ..., and no fault is
      raised. */
  lemma ChannelPairsAdvanceInputOnly(inputChanTiles: nat, weightChanTiles: nat)
    requires inputChanTiles != weightChanTiles && inputChanTiles != 1 && weightChanTiles > 0
    ensures |ChannelPairs(inputChanTiles, weightChanTiles)| == inputChanTiles
    ensures forall k :: 0 <= k < inputChanTiles ==>
              ChannelPairs(inputChanTiles, weightChanTiles)[k] == (k, 0)
  {
  }

  /** The number of calls per position: zero if either count is zero, and
      otherwise the larger count when the counts agree or one of them is one,
      but the input count when they differ and neither is one. */
  lemma ChannelPairsCount(inputChanTiles: nat, weightChanTiles: nat)
    ensures var count := |ChannelPairs(inputChanTiles, weightChanTiles)|;
            && (inputChanTiles == 0 || weightChanTiles == 0 ==> count == 0)
            && (inputChanTiles > 0 && weightChanTiles > 0
                && (inputChanTiles == weightChanTiles || inputChanTiles == 1 || weightChanTiles == 1)
                ==> count == Max2(inputChanTiles, weightChanTiles))
            && (inputChanTiles > 0 && weightChanTiles > 0 && inputChanTiles != weightChanTiles
                && inputChanTiles != 1 && weightChanTiles != 1
                ==> count == inputChanTiles)
  {
  }

  /** The initialize flag iC == wC holds on every call in lock-step, and only
      on the first call of the position when the counts differ. */
  lemma ChannelPairsInitializeFlag(inputChanTiles: nat, weightChanTiles: nat)
    ensures var ps := ChannelPairs(inputChanTiles, weightChanTiles);
            forall k :: 0 <= k < |ps| ==>
              (ps[k].0 == ps[k].1 <==> inputChanTiles == weightChanTiles || k == 0)
  {
  }

  /** Input channel tile i takes part in some call of the position. */
  predicate UsesInputTile(ps: seq<(nat, nat)>, i: nat) {
    exists k :: 0 <= k < |ps| && ps[k].0 == i
  }

  /** Weight channel tile j takes part in some call of the position. */
  predicate UsesWeightTile(ps: seq<(nat, nat)>, j: nat) {
    exists k :: 0 <= k < |ps| && ps[k].1 == j
  }

  /** When both counts are positive and they agree or one of them is one, every
      input channel tile and every weight channel tile takes part in the
      reduction. */
  lemma ChannelPairsCoverAllTiles(inputChanTiles: nat, weightChanTiles: nat)
    requires inputChanTiles > 0 && weightChanTiles > 0
    requires inputChanTiles == weightChanTiles || inputChanTiles == 1 || weightChanTiles == 1
    ensures forall i: nat :: i < inputChanTiles ==>
              UsesInputTile(ChannelPairs(inputChanTiles, weightChanTiles), i)
    ensures forall j: nat :: j < weightChanTiles ==>
              UsesWeightTile(ChannelPairs(inputChanTiles, weightChanTiles), j)
  {
    var ps := ChannelPairs(inputChanTiles, weightChanTiles);
    forall i: nat | i < inputChanTiles
      ensures UsesInputTile(ps, i)
    {
      var k := if inputChanTiles == 1 then 0 else i;
      assert ps[k].0 == i;
    }
    forall j: nat | j < weightChanTiles
      ensures UsesWeightTile(ps, j)
    {
      var k := if weightChanTiles == 1 then 0 else j;
      assert ps[k].1 == j;
    }
  }

  /** When the counts differ and neither is one, weight channel tiles other
      than the first are never used. */
  lemma ChannelPairsSkipWeightTiles(inputChanTiles: nat, weightChanTiles: nat, j: nat)
    requires inputChanTiles != weightChanTiles && inputChanTiles != 1 && weightChanTiles != 1
    requires 0 < j < weightChanTiles
    ensures !UsesWeightTile(ChannelPairs(inputChanTiles, weightChanTiles), j)
  {
  }

  /** Two input channel tiles against one weight channel tile: the pairs
      (0,0) and (1,0); the first call initializes, the second accumulates. */
  lemma TwoInputTilesOneWeightTile()
    ensures ChannelPairs(2, 1) == [(0, 0), (1, 0)]
    ensures MakeCall(0, 0, 0, (0, 0)).initialize && !MakeCall(0, 0, 0, (1, 0)).initialize
  {
    assert ChannelPairs(2, 1)[1] == (1, 0);
  }

  /** Two input channel tiles against three weight channel tiles: two calls,
      and weight tiles 1 and 2 are never read. */
  lemma TwoInputTilesThreeWeightTiles()
    ensures ChannelPairs(2, 3) == [(0, 0), (1, 0)]
  {
    assert ChannelPairs(2, 3)[1] == (1, 0);
  }

  /* ----------------------------------------------------------------------
     The schedule of kernel calls over all (N, H, W) positions.
     ---------------------------------------------------------------------- */

  /** The kernel call for position (n, h, w) and channel cursors p: the input
      tile (n, h, 0, iC), the weight tile (w, 0, 0, wC) and the output tile
      (n, h, 0, w), flagged as initializing when iC == wC. */
  function MakeCall(n: int, h: int, w: int, p: (nat, nat)): KernelCall {
    KernelCall(TileCoord(n, h, 0, p.0), TileCoord(w, 0, 0, p.1), TileCoord(n, h, 0, w),
               w, p.0, p.0 == p.1)
  }

  /** The calls made at one (n, h, w) position for the given channel pairs:
      one call per pair, all writing the position's output tile (n, h, 0, w)
      with weight group w, each reading the input and weight channel tiles of
      its pair and initializing exactly when the two cursors agree. */
  function PositionCalls(n: int, h: int, w: int, ps: seq<(nat, nat)>): (cs: seq<KernelCall>)
    ensures |cs| == |ps|
    ensures forall k :: 0 <= k < |cs| ==>
              && cs[k].output == TileCoord(n, h, 0, w)
              && cs[k].weightGroup == w
              && (cs[k].input.c, cs[k].weights.c) == ps[k]
              && cs[k].inputChanTile == cs[k].input.c
              && (cs[k].initialize <==> cs[k].input.c == cs[k].weights.c)
  {
    seq(|ps|, k requires 0 <= k < |ps| => MakeCall(n, h, w, ps[k]))
  }

  /** The calls for positions (n, h, 0) .. (n, h, wCount - 1). */
  function RowCalls(n: int, h: int, wCount: nat, ps: seq<(nat, nat)>): (cs: seq<KernelCall>)
    ensures |cs| == wCount * |ps|
  {
    if wCount == 0 then []
    else RowCalls(n, h, wCount - 1, ps) + PositionCalls(n, h, wCount - 1, ps)
  }

  /** The calls for rows h = 0 .. hCount - 1 of image n. */
  function ImageCalls(n: int, hCount: nat, wCount: nat, ps: seq<(nat, nat)>): (cs: seq<KernelCall>)
    ensures |cs| == hCount * (wCount * |ps|)
  {
    if hCount == 0 then []
    else ImageCalls(n, hCount - 1, wCount, ps) + RowCalls(n, hCount - 1, wCount, ps)
  }

  /** The calls for images n = 0 .. nCount - 1, in nested (N, H, W) order. */
  function Schedule(nCount: nat, hCount: nat, wCount: nat, ps: seq<(nat, nat)>): (cs: seq<KernelCall>)
    ensures |cs| == nCount * (hCount * (wCount * |ps|))
  {
    if nCount == 0 then []
    else Schedule(nCount - 1, hCount, wCount, ps) + ImageCalls(nCount - 1, hCount, wCount, ps)
  }

  lemma {:induction false} RowCallsAt(n: int, h: int, wCount: nat, ps: seq<(nat, nat)>, w: int,
                                      k: int)
    requires 0 <= w < wCount && 0 <= k < |ps|
    ensures 0 <= Sub2Ind(w, k, |ps|) < |RowCalls(n, h, wCount, ps)|
    ensures RowCalls(n, h, wCount, ps)[Sub2Ind(w, k, |ps|)] == MakeCall(n, h, w, ps[k])
  {
    Sub2IndBounds(w, k, wCount, |ps|);
    var front := RowCalls(n, h, wCount - 1, ps);
    if w < wCount - 1 {
      RowCallsAt(n, h, wCount - 1, ps, w, k);
    } else {
      assert |front| + k == Sub2Ind(w, k, |ps|);
    }
  }

  lemma {:induction false} ImageCallsAt(n: int, hCount: nat, wCount: nat, ps: seq<(nat, nat)>,
                                        h: int, w: int, k: int)
    requires 0 <= h < hCount && 0 <= w < wCount && 0 <= k < |ps|
    ensures 0 <= Sub3Ind(h, w, k, wCount, |ps|) < |ImageCalls(n, hCount, wCount, ps)|
    ensures ImageCalls(n, hCount, wCount, ps)[Sub3Ind(h, w, k, wCount, |ps|)]
            == MakeCall(n, h, w, ps[k])
  {
    Sub3IndBounds(h, w, k, hCount, wCount, |ps|);
    assert hCount * wCount * |ps| == hCount * (wCount * |ps|);
    var front := ImageCalls(n, hCount - 1, wCount, ps);
    if h < hCount - 1 {
      ImageCallsAt(n, hCount - 1, wCount, ps, h, w, k);
    } else {
      RowCallsAt(n, h, wCount, ps, w, k);
      assert |front| + Sub2Ind(w, k, |ps|) == Sub3Ind(h, w, k, wCount, |ps|);
    }
  }

  /** The call for position (n, h, w) and channel pair k sits at offset
      sub4ind(n, h, w, k) of the schedule: positions are visited in
      lexicographic (N, H, W) order, channel pairs in order within each. */
  lemma {:induction false} ScheduleAt(nCount: nat, hCount: nat, wCount: nat,
                                      ps: seq<(nat, nat)>, n: int, h: int, w: int, k: int)
    requires 0 <= n < nCount && 0 <= h < hCount && 0 <= w < wCount && 0 <= k < |ps|
    ensures 0 <= Sub4Ind(n, h, w, k, hCount, wCount, |ps|) < |Schedule(nCount, hCount, wCount, ps)|
    ensures Schedule(nCount, hCount, wCount, ps)[Sub4Ind(n, h, w, k, hCount, wCount, |ps|)]
            == MakeCall(n, h, w, ps[k])
  {
    Sub4IndBounds(n, h, w, k, nCount, hCount, wCount, |ps|);
    assert nCount * hCount * wCount * |ps| == nCount * (hCount * (wCount * |ps|));
    var front := Schedule(nCount - 1, hCount, wCount, ps);
    if n < nCount - 1 {
      ScheduleAt(nCount - 1, hCount, wCount, ps, n, h, w, k);
    } else {
      ImageCallsAt(n, hCount, wCount, ps, h, w, k);
      assert |front| == n * (wCount * |ps| * hCount);
      assert |front| + Sub3Ind(h, w, k, wCount, |ps|) == Sub4Ind(n, h, w, k, hCount, wCount, |ps|);
    }
  }

  /** Every entry of the schedule is the call of exactly one in-range
      (position, channel pair), and earlier entries belong to lexicographically
      earlier positions. */
  lemma ScheduleInLexOrder(nCount: nat, hCount: nat, wCount: nat, ps: seq<(nat, nat)>,
                           i: int, j: int)
    requires |ps| > 0
    requires 0 <= i < j < |Schedule(nCount, hCount, wCount, ps)|
    ensures var (n1, h1, w1, k1) := Ind4Sub(i, hCount, wCount, |ps|);
            var (n2, h2, w2, k2) := Ind4Sub(j, hCount, wCount, |ps|);
            && Schedule(nCount, hCount, wCount, ps)[i] == MakeCall(n1, h1, w1, ps[k1])
            && Schedule(nCount, hCount, wCount, ps)[j] == MakeCall(n2, h2, w2, ps[k2])
            && 0 <= n1 < nCount && 0 <= h1 < hCount && 0 <= w1 < wCount && 0 <= k1 < |ps|
            && 0 <= n2 < nCount && 0 <= h2 < hCount && 0 <= w2 < wCount && 0 <= k2 < |ps|
            && (n1 < n2 || (n1 == n2 && (h1 < h2 || (h1 == h2 &&
                 (w1 < w2 || (w1 == w2 && k1 < k2))))))
  {
    assert hCount > 0 && wCount > 0;
    assert nCount * (hCount * (wCount * |ps|)) == nCount * hCount * wCount * |ps|;
    Sub4IndRoundTrip(i, nCount, hCount, wCount, |ps|);
    Sub4IndRoundTrip(j, nCount, hCount, wCount, |ps|);
    var (n1, h1, w1, k1) := Ind4Sub(i, hCount, wCount, |ps|);
    var (n2, h2, w2, k2) := Ind4Sub(j, hCount, wCount, |ps|);
    ScheduleAt(nCount, hCount, wCount, ps, n1, h1, w1, k1);
    ScheduleAt(nCount, hCount, wCount, ps, n2, h2, w2, k2);
    Sub4IndLexOrder(n1, h1, w1, k1, n2, h2, w2, k2, hCount, wCount, |ps|);
  }

  /* ----------------------------------------------------------------------
     runNHWC and run.
     ---------------------------------------------------------------------- */

  /** What every kernel call of runNHWC looks like: all tile coordinates lie in
      their grids, the input tile is (N, H, 0, iC), the weight tile is
      (W, 0, 0, wC), the output tile is (N, H, 0, W), the weight group is W,
      the input-channel index is iC and the flag is iC == wC. */
  predicate WellShaped(c: KernelCall, inputs: TileGrid, weights: TileGrid)
    requires |inputs.shape| == 4 && |weights.shape| == 4
  {
    && 0 <= c.input.n < inputs.shape[0]
    && 0 <= c.input.h < inputs.shape[1]
    && 0 <= c.weights.n < weights.shape[0]
    && 0 <= c.input.c < inputs.shape[3]
    && 0 <= c.weights.c < weights.shape[3]
    && c.input.w == 0
    && c.weights.h == 0 && c.weights.w == 0
    && c.output == TileCoord(c.input.n, c.input.h, 0, c.weights.n)
    && c.weightGroup == c.weights.n
    && c.inputChanTile == c.input.c
    && c.initialize == (c.input.c == c.weights.c)
  }

  /** The channel loop of runNHWC at position (N, H, W): starting from
      iC = wC = 0, call the kernel while both cursors are in range, then
      advance the cursors by the matching rule. */
  method ChannelLoop(N: int, H: int, W: int, inputChanTiles: nat, weightChanTiles: nat)
    returns (calls: seq<KernelCall>)
    ensures calls == PositionCalls(N, H, W, ChannelPairs(inputChanTiles, weightChanTiles))
  {
    ghost var ps := ChannelPairs(inputChanTiles, weightChanTiles);
    calls := [];
    var iC, wC := 0, 0;
    ghost var k := 0;
    while iC < inputChanTiles && wC < weightChanTiles
      invariant 0 <= k <= |ps|
      invariant (iC, wC) == CursorAt(inputChanTiles, weightChanTiles, k)
      invariant calls == PositionCalls(N, H, W, ps[..k])
      decreases |ps| - k
    {
      CursorLeavesLoopAtPairCount(inputChanTiles, weightChanTiles, k);
      calls := calls + [KernelCall(TileCoord(N, H, 0, iC), TileCoord(W, 0, 0, wC),
                                   TileCoord(N, H, 0, W), W, iC, iC == wC)];
      assert PositionCalls(N, H, W, ps[..k + 1])
             == PositionCalls(N, H, W, ps[..k]) + [MakeCall(N, H, W, ps[k])];
      if inputChanTiles == weightChanTiles {
        iC := iC + 1;
        wC := wC + 1;
      } else if inputChanTiles == 1 {
        wC := wC + 1;
      } else {
        iC := iC + 1;
      }
      k := k + 1;
    }
    CursorLeavesLoopAtPairCount(inputChanTiles, weightChanTiles, k);
    assert ps[..k] == ps;
  }

  /** Every call of the schedule for the grids' own counts is well shaped. */
  lemma ScheduleWellShaped(inputs: TileGrid, weights: TileGrid)
    requires |inputs.shape| == 4 && |weights.shape| == 4
    ensures var cs := Schedule(inputs.shape[0], inputs.shape[1], weights.shape[0],
                               ChannelPairs(inputs.shape[3], weights.shape[3]));
            forall i :: 0 <= i < |cs| ==> WellShaped(cs[i], inputs, weights)
  {
    var ps := ChannelPairs(inputs.shape[3], weights.shape[3]);
    var nCount, hCount, wCount := inputs.shape[0], inputs.shape[1], weights.shape[0];
    var cs := Schedule(nCount, hCount, wCount, ps);
    if |cs| > 0 {
      ProductFactors(nCount, hCount, wCount, |ps|);
    }
    forall i | 0 <= i < |cs|
      ensures WellShaped(cs[i], inputs, weights)
    {
      Sub4IndRoundTrip(i, nCount, hCount, wCount, |ps|);
      var (n, h, w, k) := Ind4Sub(i, hCount, wCount, |ps|);
      ScheduleAt(nCount, hCount, wCount, ps, n, h, w, k);
      CursorLeavesLoopAtPairCount(inputs.shape[3], weights.shape[3], k);
    }
  }

  /** The innermost position loop of runNHWC: W = 0 .. wCount - 1 at (N, H). */
  method RowLoop(N: int, H: int, wCount: nat, inputChanTiles: nat, weightChanTiles: nat)
    returns (calls: seq<KernelCall>)
    ensures calls == RowCalls(N, H, wCount, ChannelPairs(inputChanTiles, weightChanTiles))
  {
    ghost var ps := ChannelPairs(inputChanTiles, weightChanTiles);
    calls := [];
    var W := 0;
    while W < wCount
      invariant 0 <= W <= wCount
      invariant calls == RowCalls(N, H, W, ps)
    {
      var position := ChannelLoop(N, H, W, inputChanTiles, weightChanTiles);
      calls := calls + position;
      W := W + 1;
    }
  }

  /** The row loop of runNHWC: H = 0 .. hCount - 1 of image N. */
  method ImageLoop(N: int, hCount: nat, wCount: nat, inputChanTiles: nat, weightChanTiles: nat)
    returns (calls: seq<KernelCall>)
    ensures calls == ImageCalls(N, hCount, wCount, ChannelPairs(inputChanTiles, weightChanTiles))
  {
    ghost var ps := ChannelPairs(inputChanTiles, weightChanTiles);
    calls := [];
    var H := 0;
    while H < hCount
      invariant 0 <= H <= hCount
      invariant calls == ImageCalls(N, H, wCount, ps)
    {
      var row := RowLoop(N, H, wCount, inputChanTiles, weightChanTiles);
      calls := calls + row;
      H := H + 1;
    }
  }

  /** runNHWC: for each N < inputs[0], H < inputs[1], W < weights[0] (nested
      in that order) run the two-cursor channel loop and call the kernel once
      per matched pair. */
  method RunNHWC(inputs: TileGrid, weights: TileGrid) returns (calls: seq<KernelCall>)
    requires |inputs.shape| == 4 && |weights.shape| == 4
    ensures calls == Schedule(inputs.shape[0], inputs.shape[1], weights.shape[0],
                              ChannelPairs(inputs.shape[3], weights.shape[3]))
    ensures forall i :: 0 <= i < |calls| ==> WellShaped(calls[i], inputs, weights)
  {
    ghost var ps := ChannelPairs(inputs.shape[3], weights.shape[3]);
    calls := [];
    var N := 0;
    while N < inputs.shape[0]
      invariant 0 <= N <= inputs.shape[0]
      invariant calls == Schedule(N, inputs.shape[1], weights.shape[0], ps)
    {
      var image := ImageLoop(N, inputs.shape[1], weights.shape[0], inputs.shape[3], weights.shape[3]);
      calls := calls + image;
      N := N + 1;
    }
    ScheduleWellShaped(inputs, weights);
  }

  /** The operands of the convolution, as named in the fault it may report. */
  datatype Operand = Inputs | Kernels | Outputs

  datatype ConvFault = LayoutNotNHWC(operand: Operand)

  /** The attributes of a convolution operator that `run` reads. */
  datatype ConvOp = ConvOp(
    inputLayout: DataLayout,
    kernelLayout: DataLayout,
    outputLayout: DataLayout,
    weightRows: nat,
    weightCols: nat)

  /** What `run` produces: the halo vectors handed to the tiling of each
      operand, and the kernel calls of the execution loop. */
  datatype ConvRun = ConvRun(
    inputHalos: seq<int>,
    weightHalos: seq<int>,
    outputHalos: seq<int>,
    calls: seq<KernelCall>)

  /** run: reject any operand that is not NHWC (inputs, then kernels, then
      outputs) before any tiling, then set up the halos and run the execution
      loop over the tile grids the tiling optimizer produced. */
  method Run(op: ConvOp, tiledInputs: TileGrid, tiledWeights: TileGrid)
    returns (r: Result<ConvRun, ConvFault>)
    requires |tiledInputs.shape| == 4 && |tiledWeights.shape| == 4
    ensures r.Failure? <==>
              op.inputLayout != NHWC || op.kernelLayout != NHWC || op.outputLayout != NHWC
    ensures r.Failure? ==>
              r.error.operand == (if op.inputLayout != NHWC then Inputs
                                  else if op.kernelLayout != NHWC then Kernels
                                  else Outputs)
    ensures r.Success? ==>
              && |r.value.inputHalos| == 4
              && r.value.inputHalos[0] == 0 && r.value.inputHalos[3] == 0
              && 2 * r.value.inputHalos[1] <= op.weightRows <= 2 * r.value.inputHalos[1] + 1
              && 2 * r.value.inputHalos[2] <= op.weightCols <= 2 * r.value.inputHalos[2] + 1
              && r.value.weightHalos == [0, 0, 0, 0]
              && r.value.outputHalos == [0, 0, 0, 0]
    ensures r.Success? ==>
              r.value.calls == Schedule(tiledInputs.shape[0], tiledInputs.shape[1],
                                        tiledWeights.shape[0],
                                        ChannelPairs(tiledInputs.shape[3], tiledWeights.shape[3]))
  {
    if op.inputLayout != NHWC {
      return Failure(LayoutNotNHWC(Inputs));
    }
    if op.kernelLayout != NHWC {
      return Failure(LayoutNotNHWC(Kernels));
    }
    if op.outputLayout != NHWC {
      return Failure(LayoutNotNHWC(Outputs));
    }
    var inputHalos := [0, op.weightRows / 2, op.weightCols / 2, 0];
    var calls := RunNHWC(tiledInputs, tiledWeights);
    r := Success(ConvRun(inputHalos, [0, 0, 0, 0], [0, 0, 0, 0], calls));
  }
}
