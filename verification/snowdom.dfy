/**
 * The stage controller (SnowDOM): merges the options with their defaults,
 * mounts the canvas when the selector matches, creates the flakes, pushes
 * every newly measured stage box to them, paints the roof rectangles, and
 * advances every flake once per frame in creation order.
 */
module SnowDom {
  import opened Basics
  import Snowflake

  /** The complete option record (DefaultOptions); `debug` may be absent. */
  datatype Options = Options(
    flakeCount: real,
    flakeSize: real,
    velocityX: real,
    velocityY: real,
    roofSelector: string,
    debug: Option<bool>)

  /** The options a caller may pass (SnowDOMOptions): every field may be absent. */
  datatype PartialOptions = PartialOptions(
    flakeCount: Option<real>,
    flakeSize: Option<real>,
    velocityX: Option<real>,
    velocityY: Option<real>,
    roofSelector: Option<string>,
    debug: Option<bool>)

  /** The option record the controller starts from. */
  const Defaults: Options := Options(1000.0, 1.0, 1.0, 1.0, ".snowdom-roof", None)

  function OrElse<T>(given: Option<T>, fallback: T): T {
    match given
    case Some(v) => v
    case None => fallback
  }

  /**
   * `{ ...base, ...supplied }`: each supplied field replaces the base one,
   * every absent field keeps the base value; no options at all keeps the base.
   */
  function Merge(base: Options, supplied: Option<PartialOptions>): (r: Options)
    ensures supplied.None? ==> r == base
    ensures supplied.Some? ==>
      var s := supplied.value;
      && (s.flakeCount.Some? ==> r.flakeCount == s.flakeCount.value)
      && (s.flakeCount.None? ==> r.flakeCount == base.flakeCount)
      && (s.flakeSize.Some? ==> r.flakeSize == s.flakeSize.value)
      && (s.flakeSize.None? ==> r.flakeSize == base.flakeSize)
      && (s.velocityX.Some? ==> r.velocityX == s.velocityX.value)
      && (s.velocityX.None? ==> r.velocityX == base.velocityX)
      && (s.velocityY.Some? ==> r.velocityY == s.velocityY.value)
      && (s.velocityY.None? ==> r.velocityY == base.velocityY)
      && (s.roofSelector.Some? ==> r.roofSelector == s.roofSelector.value)
      && (s.roofSelector.None? ==> r.roofSelector == base.roofSelector)
      && (s.debug.Some? ==> r.debug == s.debug)
      && (s.debug.None? ==> r.debug == base.debug)
  {
    match supplied
    case None => base
    case Some(s) =>
      Options(
        OrElse(s.flakeCount, base.flakeCount),
        OrElse(s.flakeSize, base.flakeSize),
        OrElse(s.velocityX, base.velocityX),
        OrElse(s.velocityY, base.velocityY),
        OrElse(s.roofSelector, base.roofSelector),
        if s.debug.Some? then s.debug else base.debug)
  }

  /** Merging the same supplied options a second time changes nothing. */
  lemma MergeIdempotent(base: Options, supplied: Option<PartialOptions>)
    ensures Merge(Merge(base, supplied), supplied) == Merge(base, supplied)
  {
  }

  /** Without supplied options the controller runs with 1000 flakes, unit factors, `.snowdom-roof` and no debug flag. */
  lemma DefaultsWhenNothingSupplied()
    ensures var o := Merge(Defaults, None);
      o.flakeCount == 1000.0 && o.flakeSize == 1.0 && o.velocityX == 1.0 && o.velocityY == 1.0
      && o.roofSelector == ".snowdom-roof" && o.debug.None?
  {
  }

  /** One `fillRect` issued for a roof, with the fill style set just before it. */
  datatype FillRect = FillRect(colour: string, x: real, y: real, width: real, height: real)

  /** The roof fill style: red exactly when `debug` is truthy, transparent otherwise. */
  function RoofColour(debug: Option<bool>): (c: string)
    ensures c == "red" <==> debug == Some(true)
    ensures c == "transparent" <==> debug != Some(true)
  {
    if debug == Some(true) then "red" else "transparent"
  }

  /**
   * The rectangle painted for one roof: the roof's page position translated
   * into canvas coordinates, the roof's width, a fixed height of 10.
   */
  function RoofFill(debug: Option<bool>, stage: Rect, roof: Rect): (f: FillRect)
    ensures stage.left + f.x == roof.left && stage.top + f.y == roof.top
    ensures f.width == roof.width && f.height == 10.0
    ensures f.colour == RoofColour(debug)
  {
    FillRect(RoofColour(debug), roof.left - stage.left, roof.top - stage.top, roof.width, 10.0)
  }

  /** The fills for every matched roof, in document order. */
  function RoofFills(debug: Option<bool>, stage: Rect, roofs: seq<Rect>): (fs: seq<FillRect>)
    ensures |fs| == |roofs|
    ensures forall i :: 0 <= i < |roofs| ==> fs[i] == RoofFill(debug, stage, roofs[i])
  {
    seq(|roofs|, i requires 0 <= i < |roofs| => RoofFill(debug, stage, roofs[i]))
  }

  const TwoToThe32: int := 0x1_0000_0000

  /** The largest value a reflected unsigned long attribute keeps. */
  const MaxReflected: int := 0x7FFF_FFFF

  /** The sizes a new canvas has, and falls back to. */
  const DefaultCanvasWidth: nat := 300
  const DefaultCanvasHeight: nat := 150

  /**
   * The value a canvas `width` or `height` takes when a number is assigned:
   * truncated toward zero and wrapped modulo 2^32 (an unsigned long), then
   * kept only if at most 2^31 - 1, otherwise replaced by the default.
   */
  function CanvasDimension(w: real, default: nat): (n: nat)
    ensures n <= MaxReflected || n == default
    ensures 0.0 <= w <= MaxReflected as real ==> n == w.Floor
    ensures MaxReflected as real + 1.0 <= w < TwoToThe32 as real ==> n == default
  {
    var whole := if 0.0 <= w then w.Floor else -((-w).Floor);
    var wrapped := whole % TwoToThe32;
    if wrapped <= MaxReflected then wrapped else default
  }

  /** A box whose side is a whole number of pixels up to 2^31 - 1 sizes the canvas exactly. */
  lemma CanvasMatchesWholeBox(w: real, default: nat)
    requires 0.0 <= w <= MaxReflected as real && w == w.Floor as real
    ensures CanvasDimension(w, default) as real == w
  {
  }

  /**
   * A flake built by `setupFlakes` from the given draws: the option factors
   * scale its sampled size and fall speed, and become its drift factor.
   */
  predicate BuiltWith(f: Snowflake.Flake, o: Options, d: Snowflake.Draws)
    requires Snowflake.DrawsInUnit(d)
  {
    && f.randoms == Snowflake.Sample(d)
    && f.size == f.randoms.size * o.flakeSize
    && f.velocityXFactor == o.velocityX
    && f.velocityY == f.randoms.velocityY * o.velocityY
  }

  /** The element the controller draws into. */
  datatype Container = DocumentBody | Element(id: nat)

  /** SnowDOM. */
  class Stage {
    var options: Options
    var container: Container
    var canvasAttached: bool
    var warned: bool
    var stageBox: Rect
    var canvasWidth: nat
    var canvasHeight: nat
    /** The roof rectangles currently painted on the canvas. */
    var roofPaint: seq<FillRect>
    var flakes: seq<Snowflake.Flake>

    /** The flakes are distinct objects and none of them holds a stale stage box. */
    ghost predicate Valid()
      reads this, flakes
    {
      && (forall i, j :: 0 <= i < j < |flakes| ==> flakes[i] != flakes[j])
      && (forall i :: 0 <= i < |flakes| ==> flakes[i].stageBox == stageBox)
    }

    /**
     * The constructor: merge the options, mount the canvas if the selector
     * matched, create the flakes against the body's box, measure the stage,
     * and run the first frame.
     */
    constructor (
      found: Option<nat>, supplied: Option<PartialOptions>, bodyBox: Rect, measured: Rect,
      roofs: seq<Rect>, flakeDraws: seq<Snowflake.Draws>, frames: seq<Snowflake.FrameDraw>)
      requires LoopCount(Merge(Defaults, supplied).flakeCount) <= |flakeDraws|
      requires forall k :: 0 <= k < |flakeDraws| ==> Snowflake.DrawsInUnit(flakeDraws[k])
      requires LoopCount(Merge(Defaults, supplied).flakeCount) <= |frames|
      requires forall k :: 0 <= k < |frames| ==> Snowflake.FrameDrawInRange(frames[k])
      ensures Valid()
      ensures options == Merge(Defaults, supplied)
      ensures found.None? ==> container == DocumentBody && !canvasAttached && warned
      ensures found.Some? ==> container == Element(found.value) && canvasAttached && !warned
      ensures stageBox == measured
      ensures canvasWidth == CanvasDimension(measured.width, DefaultCanvasWidth)
        && canvasHeight == CanvasDimension(measured.height, DefaultCanvasHeight)
      ensures roofPaint == []
      ensures |flakes| == LoopCount(options.flakeCount)
      ensures forall i :: 0 <= i < |flakes| ==> fresh(flakes[i]) && BuiltWith(flakes[i], options, flakeDraws[i])
      ensures forall i :: 0 <= i < |flakes| ==>
        flakes[i].State() == Snowflake.Advance(flakes[i].Params(), measured, Snowflake.Motion(0.0, 0.0, 0.0), frames[i])
    {
      options := Merge(Defaults, supplied);
      container := DocumentBody;
      canvasAttached, warned := false, false;
      stageBox := bodyBox;
      canvasWidth, canvasHeight := DefaultCanvasWidth, DefaultCanvasHeight;
      roofPaint := [];
      flakes := [];
      new;
      SetupDOM(found);
      SetupFlakes(flakeDraws);
      ghost var created := flakes;
      assert forall i :: 0 <= i < |created| ==> created[i].State() == Snowflake.Motion(0.0, 0.0, 0.0);
      UpdateStage(measured, roofs);
      assert flakes == created;
      assert forall i :: 0 <= i < |created| ==> created[i].State() == Snowflake.Motion(0.0, 0.0, 0.0);
      Render(frames);
    }

    /**
     * `setupDOM`: a selector that matches nothing only logs a warning and
     * leaves the container and the canvas as they were.
     */
    method SetupDOM(found: Option<nat>)
      modifies this`container, this`canvasAttached, this`warned
      ensures found.None? ==> container == old(container) && canvasAttached == old(canvasAttached) && warned
      ensures found.Some? ==> container == Element(found.value) && canvasAttached && warned == old(warned)
    {
      if found.None? {
        warned := true;
        return;
      }
      container := Element(found.value);
      canvasAttached := true;
    }

    /**
     * `setupFlakes`: appends one flake per index below `flakeCount`, each
     * built with the option factors and the current stage box.
     */
    method SetupFlakes(draws: seq<Snowflake.Draws>)
      requires Valid()
      requires LoopCount(options.flakeCount) <= |draws|
      requires forall k :: 0 <= k < |draws| ==> Snowflake.DrawsInUnit(draws[k])
      modifies this`flakes
      ensures Valid()
      ensures |flakes| == |old(flakes)| + LoopCount(options.flakeCount)
      ensures flakes[..|old(flakes)|] == old(flakes)
      ensures forall i :: |old(flakes)| <= i < |flakes| ==>
        && fresh(flakes[i])
        && BuiltWith(flakes[i], options, draws[i - |old(flakes)|])
        && flakes[i].stageBox == stageBox
        && flakes[i].State() == Snowflake.Motion(0.0, 0.0, 0.0)
    {
      var i: nat := 0;
      while (i as real) < options.flakeCount
        invariant i <= LoopCount(options.flakeCount)
        invariant Valid()
        invariant |flakes| == |old(flakes)| + i
        invariant flakes[..|old(flakes)|] == old(flakes)
        invariant forall k :: |old(flakes)| <= k < |flakes| ==>
          && fresh(flakes[k])
          && BuiltWith(flakes[k], options, draws[k - |old(flakes)|])
          && flakes[k].stageBox == stageBox
          && flakes[k].State() == Snowflake.Motion(0.0, 0.0, 0.0)
        decreases LoopCount(options.flakeCount) - i
      {
        LoopCountCounts(options.flakeCount, i);
        var flake := new Snowflake.Flake(stageBox, options.flakeSize, options.velocityX, options.velocityY, draws[i]);
        flakes := flakes + [flake];
        i := i + 1;
      }
      LoopCountCounts(options.flakeCount, i);
    }

    /**
     * `updateStage` (also the resize handler): takes the newly measured box,
     * sizes the canvas to it, paints the roofs, and gives every flake the new
     * box; the flakes and their accumulators are otherwise untouched.
     */
    method UpdateStage(measured: Rect, roofs: seq<Rect>)
      requires Valid()
      modifies this`stageBox, this`canvasWidth, this`canvasHeight, this`roofPaint, flakes
      ensures Valid()
      ensures stageBox == measured
      ensures canvasWidth == CanvasDimension(measured.width, DefaultCanvasWidth)
        && canvasHeight == CanvasDimension(measured.height, DefaultCanvasHeight)
      ensures roofPaint == RoofFills(options.debug, measured, roofs)
      ensures flakes == old(flakes)
      ensures forall i :: 0 <= i < |flakes| ==> flakes[i].State() == old(flakes[i].State())
    {
      stageBox := measured;
      canvasWidth := CanvasDimension(stageBox.width, DefaultCanvasWidth);
      canvasHeight := CanvasDimension(stageBox.height, DefaultCanvasHeight);
      roofPaint := RoofFills(options.debug, stageBox, roofs);
      var i := 0;
      while i < |flakes|
        invariant 0 <= i <= |flakes|
        invariant forall k :: 0 <= k < i ==> flakes[k].stageBox == stageBox
        invariant forall k :: 0 <= k < |flakes| ==> flakes[k].State() == old(flakes[k].State())
        modifies flakes
      {
        flakes[i].UpdateStageBox(stageBox);
        i := i + 1;
      }
    }

    /**
     * `render` (one frame): clears the canvas, then advances every flake once,
     * in creation order, the i-th flake taking the i-th frame draw.
     */
    method Render(frames: seq<Snowflake.FrameDraw>)
      requires Valid()
      requires |flakes| <= |frames|
      requires forall k :: 0 <= k < |frames| ==> Snowflake.FrameDrawInRange(frames[k])
      modifies this`roofPaint, flakes
      ensures Valid()
      ensures roofPaint == []
      ensures forall i :: 0 <= i < |flakes| ==>
        flakes[i].State() == Snowflake.Advance(flakes[i].Params(), stageBox, old(flakes[i].State()), frames[i])
    {
      roofPaint := [];
      var i := 0;
      while i < |flakes|
        invariant 0 <= i <= |flakes|
        invariant Valid()
        invariant forall k :: 0 <= k < i ==>
          flakes[k].State() == Snowflake.Advance(flakes[k].Params(), stageBox, old(flakes[k].State()), frames[k])
        invariant forall k :: i <= k < |flakes| ==> flakes[k].State() == old(flakes[k].State())
        modifies flakes
      {
        flakes[i].Render(frames[i]);
        i := i + 1;
      }
    }
  }
}
