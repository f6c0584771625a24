/**
 * One snow particle (SnowDOMFlake): six random parameters fixed at creation,
 * three accumulators advanced every frame, and an absolute position derived
 * from the current stage box on every read.
 */
module Snowflake {
  import opened Basics

  /** The six Math.random() results a new flake draws, in initialiser order. */
  datatype Draws = Draws(fillStyle: real, x: real, y: real, size: real, velocityX: real, velocityY: real)

  predicate DrawsInUnit(d: Draws) {
    Unit(d.fillStyle) && Unit(d.x) && Unit(d.y) && Unit(d.size) && Unit(d.velocityX) && Unit(d.velocityY)
  }

  /** The flake's `randoms` record. */
  datatype Randoms = Randoms(fillStyle: real, x: real, y: real, size: real, velocityX: real, velocityY: real)

  /** The range each random parameter is sampled from. */
  predicate RandomsInRange(r: Randoms) {
    && 0.2 <= r.fillStyle < 0.8
    && -0.15 <= r.x < 1.15
    && 0.0 <= r.y < 1.0
    && 3.0 <= r.size < 5.0
    && 0.0 <= r.velocityX < 0.8
    && 0.5 <= r.velocityY < 1.0
  }

  /** Scales the raw draws into the flake's parameter ranges. */
  function Sample(d: Draws): (r: Randoms)
    requires DrawsInUnit(d)
    ensures RandomsInRange(r)
  {
    Randoms(
      d.fillStyle * 0.6 + 0.2,
      d.x * 1.3 - 0.15,
      d.y,
      d.size * 2.0 + 3.0,
      d.velocityX * 0.8,
      d.velocityY * 0.5 + 0.5)
  }

  /** The draws that Sample maps onto a given parameter record. */
  function Unsample(r: Randoms): Draws {
    Draws(
      (r.fillStyle - 0.2) / 0.6,
      (r.x + 0.15) / 1.3,
      r.y,
      (r.size - 3.0) / 2.0,
      r.velocityX / 0.8,
      (r.velocityY - 0.5) / 0.5)
  }

  /** Every record in range is sampled by some draws: the ranges are exact, not just bounds. */
  lemma SampleCoversRange(r: Randoms)
    requires RandomsInRange(r)
    ensures DrawsInUnit(Unsample(r)) && Sample(Unsample(r)) == r
  {
  }

  /** The parameters a flake fixes at construction. */
  datatype FlakeParams = FlakeParams(randoms: Randoms, size: real, velocityY: real, velocityXFactor: real)

  /** The three accumulators a frame advances. */
  datatype Motion = Motion(offsetX: real, offsetY: real, xCosinus: real)

  /** One frame's foreign inputs: the Math.random() phase step and Math.cos of the advanced phase. */
  datatype FrameDraw = FrameDraw(phaseStep: real, cosine: real)

  predicate FrameDrawInRange(f: FrameDraw) {
    Unit(f.phaseStep) && -1.0 <= f.cosine <= 1.0
  }

  /** Absolute horizontal position against the given stage box. */
  function PosX(r: Randoms, box: Rect, m: Motion): real {
    r.x * box.width + m.offsetX
  }

  /** Absolute vertical position against the given stage box. */
  function PosY(r: Randoms, box: Rect, m: Motion): real {
    r.y * box.height + m.offsetY
  }

  /** The horizontal velocity read through the phase-advancing getter. */
  function Drift(p: FlakeParams, f: FrameDraw): real {
    (f.cosine * 0.25 + p.randoms.velocityX) * p.velocityXFactor
  }

  /** The accumulators after one frame's advance, before the bottom test. */
  function Moved(p: FlakeParams, m: Motion, f: FrameDraw): Motion {
    Motion(m.offsetX + Drift(p, f), m.offsetY + p.velocityY, m.xCosinus + f.phaseStep / 50.0)
  }

  /** The accumulators after a reset: back to the left slot, just above the top edge. */
  function Recycled(p: FlakeParams, box: Rect, m: Motion): Motion {
    Motion(0.0, -(p.randoms.y * box.height + p.size), m.xCosinus)
  }

  /**
   * One frame of the flake: advance, then recycle once the bottom is reached.
   * The phase always takes one step; the flake has either fallen by exactly
   * its fall speed or been put back at x-offset 0 with its top edge at -size.
   */
  function Advance(p: FlakeParams, box: Rect, m: Motion, f: FrameDraw): (n: Motion)
    ensures n.xCosinus == m.xCosinus + f.phaseStep / 50.0
    ensures || PosY(p.randoms, box, n) == PosY(p.randoms, box, m) + p.velocityY
            || (n.offsetX == 0.0 && PosY(p.randoms, box, n) == -p.size)
  {
    var moved := Moved(p, m, f);
    if PosY(p.randoms, box, moved) >= box.height then Recycled(p, box, moved) else moved
  }

  /** The phase grows by exactly one step in [0, 1/50) each frame, reset or not. */
  lemma PhaseStep(p: FlakeParams, box: Rect, m: Motion, f: FrameDraw)
    requires FrameDrawInRange(f)
    ensures Advance(p, box, m, f).xCosinus == m.xCosinus + f.phaseStep / 50.0
    ensures m.xCosinus <= Advance(p, box, m, f).xCosinus < m.xCosinus + 1.0 / 50.0
  {
  }

  /** Below the bottom the frame only adds the drift and the fall speed. */
  lemma FallStep(p: FlakeParams, box: Rect, m: Motion, f: FrameDraw)
    requires PosY(p.randoms, box, m) + p.velocityY < box.height
    ensures Advance(p, box, m, f).offsetX == m.offsetX + (f.cosine * 0.25 + p.randoms.velocityX) * p.velocityXFactor
    ensures Advance(p, box, m, f).offsetY == m.offsetY + p.velocityY
    ensures PosY(p.randoms, box, Advance(p, box, m, f)) == PosY(p.randoms, box, m) + p.velocityY
  {
  }

  /**
   * The flake is recycled exactly when its advanced position reaches the stage
   * bottom; a recycled flake sits at x-offset 0 with its top edge at -size,
   * and keeps its phase.
   */
  lemma RecycleAtBottom(p: FlakeParams, box: Rect, m: Motion, f: FrameDraw)
    ensures var n := Advance(p, box, m, f);
      PosY(p.randoms, box, m) + p.velocityY >= box.height ==>
        n.offsetX == 0.0 && PosY(p.randoms, box, n) == -p.size && n.xCosinus == m.xCosinus + f.phaseStep / 50.0
    ensures var n := Advance(p, box, m, f);
      PosY(p.randoms, box, m) + p.velocityY < box.height ==> n == Moved(p, m, f)
  {
  }

  /** After any frame a flake of positive size is above the bottom of a non-negative stage. */
  lemma StaysAboveBottom(p: FlakeParams, box: Rect, m: Motion, f: FrameDraw)
    requires 0.0 < p.size && 0.0 <= box.height
    ensures PosY(p.randoms, box, Advance(p, box, m, f)) < box.height
  {
  }

  /** Both factors non-negative: the product is non-negative. */
  lemma NonNegProduct(a: real, b: real)
    requires 0.0 <= a && 0.0 <= b
    ensures 0.0 <= a * b
  {
  }

  /**
   * With in-range parameters the horizontal drift lies between -0.25 and 1.05
   * times the factor: in [-0.25*f, 1.05*f] for a non-negative factor f, and in
   * [1.05*f, -0.25*f] for a negative one.
   */
  lemma DriftBounded(p: FlakeParams, f: FrameDraw)
    requires RandomsInRange(p.randoms) && FrameDrawInRange(f)
    ensures 0.0 <= p.velocityXFactor ==> -0.25 * p.velocityXFactor <= Drift(p, f) <= 1.05 * p.velocityXFactor
    ensures p.velocityXFactor < 0.0 ==> 1.05 * p.velocityXFactor <= Drift(p, f) <= -0.25 * p.velocityXFactor
  {
    var base := f.cosine * 0.25 + p.randoms.velocityX;
    var factor := p.velocityXFactor;
    assert -0.25 <= base <= 1.05;
    assert Drift(p, f) == base * factor;
    if 0.0 <= factor {
      NonNegProduct(base + 0.25, factor);
      NonNegProduct(1.05 - base, factor);
    } else {
      NonNegProduct(base + 0.25, -factor);
      NonNegProduct(1.05 - base, -factor);
    }
  }

  /** A run of frames, oldest first, against one fixed stage box. */
  function Frames(p: FlakeParams, box: Rect, m: Motion, fs: seq<FrameDraw>): Motion
    decreases |fs|
  {
    if fs == [] then m else Frames(p, box, Advance(p, box, m, fs[0]), fs[1..])
  }

  /** The total of the phase steps of a run of frames; at most one per frame. */
  function PhaseTotal(fs: seq<FrameDraw>): (t: real)
    requires forall k :: 0 <= k < |fs| ==> FrameDrawInRange(fs[k])
    ensures 0.0 <= t <= |fs| as real
    ensures fs != [] ==> t < |fs| as real
    decreases |fs|
  {
    if fs == [] then 0.0
    else
      assert FrameDrawInRange(fs[0]);
      var rest := PhaseTotal(fs[1..]);
      assert (|fs[1..]| as real) + 1.0 == |fs| as real;
      fs[0].phaseStep + rest
  }

  /** The phase is never reset: after a run of frames it has grown by the sum of the steps over 50. */
  lemma {:induction false} PhaseAfterFrames(p: FlakeParams, box: Rect, m: Motion, fs: seq<FrameDraw>)
    requires forall k :: 0 <= k < |fs| ==> FrameDrawInRange(fs[k])
    ensures Frames(p, box, m, fs).xCosinus == m.xCosinus + PhaseTotal(fs) / 50.0
    decreases |fs|
  {
    if fs != [] {
      var n := Advance(p, box, m, fs[0]);
      PhaseStep(p, box, m, fs[0]);
      PhaseAfterFrames(p, box, n, fs[1..]);
    }
  }

  /**
   * With a fixed stage box and a positive fall speed, a flake that does not
   * reach the bottom within `|fs|` frames falls exactly `velocityY` per frame.
   */
  lemma {:induction false} FallsSteadily(p: FlakeParams, box: Rect, m: Motion, fs: seq<FrameDraw>)
    requires 0.0 < p.velocityY
    requires PosY(p.randoms, box, m) + (|fs| as real) * p.velocityY < box.height
    ensures PosY(p.randoms, box, Frames(p, box, m, fs)) == PosY(p.randoms, box, m) + (|fs| as real) * p.velocityY
    decreases |fs|
  {
    if fs != [] {
      var rest := (|fs| - 1) as real;
      assert rest * p.velocityY >= 0.0;
      assert (|fs| as real) * p.velocityY == p.velocityY + rest * p.velocityY;
      FallStep(p, box, m, fs[0]);
      FallsSteadily(p, box, Advance(p, box, m, fs[0]), fs[1..]);
    }
  }

  /** SnowDOMFlake: fixed parameters as constants, accumulators and stage box as fields. */
  class Flake {
    var stageBox: Rect
    const randoms: Randoms
    const size: real
    var offsetX: real
    var offsetY: real
    var xCosinus: real
    const velocityY: real
    const velocityXFactor: real

    function Params(): FlakeParams {
      FlakeParams(randoms, size, velocityY, velocityXFactor)
    }

    function State(): Motion
      reads this
    {
      Motion(offsetX, offsetY, xCosinus)
    }

    /** The `x` getter: relative fraction times the current box width, plus the offset. */
    function X(): (x: real)
      reads this
      ensures x == randoms.x * stageBox.width + offsetX
    {
      PosX(randoms, stageBox, State())
    }

    /** The `y` getter: relative fraction times the current box height, plus the offset. */
    function Y(): (y: real)
      reads this
      ensures y == randoms.y * stageBox.height + offsetY
    {
      PosY(randoms, stageBox, State())
    }

    constructor (stageBox: Rect, sizeFactor: real, velocityXFactor: real, velocityYFactor: real, draws: Draws)
      requires DrawsInUnit(draws)
      ensures this.stageBox == stageBox
      ensures randoms == Sample(draws) && RandomsInRange(randoms)
      ensures size == randoms.size * sizeFactor
      ensures velocityY == randoms.velocityY * velocityYFactor
      ensures this.velocityXFactor == velocityXFactor
      ensures State() == Motion(0.0, 0.0, 0.0)
    {
      randoms := Sample(draws);
      offsetX, offsetY, xCosinus := 0.0, 0.0, 0.0;
      this.stageBox := stageBox;
      size := Sample(draws).size * sizeFactor;
      this.velocityXFactor := velocityXFactor;
      velocityY := Sample(draws).velocityY * velocityYFactor;
    }

    /** The `updateStageBox` setter: the position is recomputed against the new box at once. */
    method UpdateStageBox(box: Rect)
      modifies this`stageBox
      ensures stageBox == box
      ensures X() - old(X()) == randoms.x * (box.width - old(stageBox.width))
      ensures Y() - old(Y()) == randoms.y * (box.height - old(stageBox.height))
    {
      stageBox := box;
    }

    /** The `velocityX` getter, which advances the phase as a side effect. */
    method VelocityX(f: FrameDraw) returns (v: real)
      requires FrameDrawInRange(f)
      modifies this`xCosinus
      ensures xCosinus == old(xCosinus) + f.phaseStep / 50.0
      ensures v == Drift(Params(), f)
    {
      xCosinus := xCosinus + f.phaseStep / 50.0;
      v := (f.cosine * 0.25 + randoms.velocityX) * velocityXFactor;
    }

    /** The state update of `render`: one Advance against the current stage box. */
    method Render(f: FrameDraw)
      requires FrameDrawInRange(f)
      modifies this`offsetX, this`offsetY, this`xCosinus
      ensures State() == Advance(Params(), stageBox, old(State()), f)
      ensures 0.0 < size && 0.0 <= stageBox.height ==> Y() < stageBox.height
    {
      var v := VelocityX(f);
      offsetX := offsetX + v;
      offsetY := offsetY + velocityY;
      if Y() >= stageBox.height {
        Reset();
      }
    }

    /** `reset`: back to x-offset 0, top edge just above the stage. */
    method Reset()
      modifies this`offsetX, this`offsetY
      ensures offsetX == 0.0 && Y() == -size
      ensures State() == Recycled(Params(), stageBox, old(State()))
    {
      offsetX := 0.0;
      offsetY := (randoms.y * stageBox.height + size) * -1.0;
    }
  }
}
