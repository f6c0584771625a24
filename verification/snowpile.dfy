/**
 * Accumulated snow along one region (SnowDOMPile): a row of sub-particles,
 * one per unit of the region's width, each with a random lateral offset from
 * the centre and a random radius that also sets its height.
 */
module Snowpile {
  import opened Basics

  /** One sub-particle of a pile. */
  datatype PileFlake = PileFlake(x: real, y: real, size: real)

  /** The two Math.random() results one loop iteration draws, in order. */
  datatype PileDraw = PileDraw(random: real, random2: real)

  predicate PileDrawInUnit(d: PileDraw) {
    Unit(d.random) && Unit(d.random2)
  }

  /** The base radius a pile sub-particle is scaled from. */
  const FlakeSize: real := 10.0

  function Abs(r: real): real {
    if r < 0.0 then -r else r
  }

  /** The horizontal centre of the region. */
  function Center(box: Rect): real {
    box.left + box.width * 0.5
  }

  /** The largest lateral offset from the centre. */
  function Half(box: Rect): real {
    box.width * 0.45
  }

  /** A factor in [-1, 1) scales a positive half-width into [-half, half). */
  lemma OffsetWithinHalf(r: real, half: real)
    requires -1.0 <= r < 1.0
    ensures 0.0 < half ==> -half <= r * half < half
  {
    if 0.0 < half {
      assert (1.0 - r) * half > 0.0;
      assert (r + 1.0) * half >= 0.0;
    }
  }

  /**
   * The sub-particle one loop iteration pushes. Its radius lies in
   * [6.2, 10.5); it sits above the region top, the higher the larger it is;
   * on a region of positive width it lies within 45% of the width of the centre.
   */
  function Entry(box: Rect, d: PileDraw): (e: PileFlake)
    requires PileDrawInUnit(d)
    ensures 6.2 <= e.size < 10.5
    ensures box.top - 8.25 < e.y <= box.top - 1.8
    ensures e.y == box.top + FlakeSize * 0.75 - e.size * 1.5
    ensures 0.0 < box.width ==> Center(box) - Half(box) <= e.x < Center(box) + Half(box)
  {
    var random := d.random * 2.0 - 1.0;
    var random2 := d.random2 * 1.0 - 0.5;
    var distanceFromCenter := random * Half(box);
    var size := FlakeSize - Abs(random) * FlakeSize * 0.33 + random2;
    OffsetWithinHalf(random, Half(box));
    PileFlake(Center(box) + distanceFromCenter, box.top + FlakeSize * 0.75 - size * 1.5, size)
  }

  /** A larger sub-particle sits strictly higher (smaller y) than a smaller one. */
  lemma LargerIsHigher(box: Rect, a: PileDraw, b: PileDraw)
    requires PileDrawInUnit(a) && PileDrawInUnit(b)
    requires Entry(box, a).size < Entry(box, b).size
    ensures Entry(box, b).y < Entry(box, a).y
  {
  }

  /** The entries the loop pushes for a run of draws, in push order. */
  function PileOf(box: Rect, ds: seq<PileDraw>): (p: seq<PileFlake>)
    requires forall k :: 0 <= k < |ds| ==> PileDrawInUnit(ds[k])
    ensures |p| == |ds|
    decreases |ds|
  {
    if ds == [] then [] else PileOf(box, ds[..|ds| - 1]) + [Entry(box, ds[|ds| - 1])]
  }

  /** The k-th pushed entry is built from the k-th draw and nothing else. */
  lemma {:induction false} PileOfAt(box: Rect, ds: seq<PileDraw>, k: nat)
    requires forall j :: 0 <= j < |ds| ==> PileDrawInUnit(ds[j])
    requires k < |ds|
    ensures PileOf(box, ds)[k] == Entry(box, ds[k])
    decreases |ds|
  {
    if k < |ds| - 1 {
      PileOfAt(box, ds[..|ds| - 1], k);
    }
  }

  /**
   * Every entry of a pile the loop builds lies within 45% of the width of the
   * centre, has a radius in [6.2, 10.5) and sits above the region top.
   */
  lemma PileWithinRegion(box: Rect, ds: seq<PileDraw>)
    requires forall k :: 0 <= k < |ds| ==> PileDrawInUnit(ds[k])
    requires |ds| <= LoopCount(box.width)
    ensures forall k :: 0 <= k < |ds| ==>
      && Center(box) - Half(box) <= PileOf(box, ds)[k].x < Center(box) + Half(box)
      && 6.2 <= PileOf(box, ds)[k].size < 10.5
      && box.top - 8.25 < PileOf(box, ds)[k].y <= box.top - 1.8
  {
    forall k | 0 <= k < |ds|
      ensures && Center(box) - Half(box) <= PileOf(box, ds)[k].x < Center(box) + Half(box)
              && 6.2 <= PileOf(box, ds)[k].size < 10.5
              && box.top - 8.25 < PileOf(box, ds)[k].y <= box.top - 1.8
    {
      PileOfAt(box, ds, k);
    }
  }

  /** The pile depends on the region's left, top and width only, never on its height. */
  lemma {:induction false} PileIgnoresHeight(a: Rect, b: Rect, ds: seq<PileDraw>)
    requires forall k :: 0 <= k < |ds| ==> PileDrawInUnit(ds[k])
    requires a.left == b.left && a.top == b.top && a.width == b.width
    ensures PileOf(a, ds) == PileOf(b, ds)
    decreases |ds|
  {
    if ds != [] {
      PileIgnoresHeight(a, b, ds[..|ds| - 1]);
      assert Center(a) == Center(b) && Half(a) == Half(b);
      assert Entry(a, ds[|ds| - 1]) == Entry(b, ds[|ds| - 1]);
    }
  }

  /** SnowDOMPile: the region is fixed at construction, the pile grows by pushes. */
  class Pile {
    const pileBox: Rect
    var pile: seq<PileFlake>

    /** Builds the pile exactly once: a fresh pile holds one entry per loop iteration. */
    constructor (pileBox: Rect, draws: seq<PileDraw>)
      requires LoopCount(pileBox.width) <= |draws|
      requires forall k :: 0 <= k < |draws| ==> PileDrawInUnit(draws[k])
      ensures this.pileBox == pileBox
      ensures pile == PileOf(pileBox, draws[..LoopCount(pileBox.width)])
      ensures |pile| == LoopCount(pileBox.width)
    {
      this.pileBox := pileBox;
      pile := [];
      new;
      CreatePile(draws);
    }

    /** `createPile`: appends one entry per index below the width, in loop order, keeping what was there. */
    method CreatePile(draws: seq<PileDraw>)
      requires LoopCount(pileBox.width) <= |draws|
      requires forall k :: 0 <= k < |draws| ==> PileDrawInUnit(draws[k])
      modifies this`pile
      ensures pile == old(pile) + PileOf(pileBox, draws[..LoopCount(pileBox.width)])
    {
      var i: nat := 0;
      while (i as real) < pileBox.width
        invariant i <= LoopCount(pileBox.width)
        invariant pile == old(pile) + PileOf(pileBox, draws[..i])
        decreases LoopCount(pileBox.width) - i
      {
        LoopCountCounts(pileBox.width, i);
        var entry := Entry(pileBox, draws[i]);
        assert draws[..i + 1][..i] == draws[..i];
        pile := pile + [entry];
        i := i + 1;
      }
      LoopCountCounts(pileBox.width, i);
    }
  }
}
