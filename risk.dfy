/** The one-dimensional risk figure (vis/js/figures/1d-risk/main.js): its own
    `Plot` class with affine maps between plot and canvas coordinates, the
    draggable hypothesis marker, the risk curve `R(h) = Σ |h - x|`, and the
    defaulting of the figure's options. */
module RiskFigure {
  import opened Wrappers
  import opened Drawing

  type Pair = (real, real)

  // ---------------------------------------------------------------------
  // Coordinates

  /** What the conversions read: the canvas box and the two ranges. */
  datatype View = View(topLeft: Pair, size: Pair, xRange: Pair, yRange: Pair)

  predicate Proper(v: View)
  {
    v.xRange.0 != v.xRange.1 && v.yRange.0 != v.yRange.1
  }

  /** `cx`: the fraction of the x range, stretched over the box width. */
  function Cx(v: View, x: real): real
    requires Proper(v)
  {
    v.topLeft.0 + (x - v.xRange.0) / (v.xRange.1 - v.xRange.0) * v.size.0
  }

  /** `cy`: as `cx`, but measured from the bottom of the box (y is flipped). */
  function Cy(v: View, y: real): real
    requires Proper(v)
  {
    v.topLeft.1 + (1.0 - (y - v.yRange.0) / (v.yRange.1 - v.yRange.0)) * v.size.1
  }

  /** `px`: canvas x back to plot x. */
  function Px(v: View, u: real): real
    requires v.size.0 != 0.0
  {
    v.xRange.0 + (u - v.topLeft.0) / v.size.0 * (v.xRange.1 - v.xRange.0)
  }

  /** `py` as written: the fraction of the box height from its top, applied
      to the y range from its bottom, with no flip. */
  function Py(v: View, w: real): real
    requires v.size.1 != 0.0
  {
    v.yRange.0 + (w - v.topLeft.1) / v.size.1 * (v.yRange.1 - v.yRange.0)
  }

  /** `py` as its comment describes it: the inverse of `cy`. */
  function PyFlipped(v: View, w: real): real
    requires v.size.1 != 0.0
  {
    v.yRange.1 - (w - v.topLeft.1) / v.size.1 * (v.yRange.1 - v.yRange.0)
  }

  /** `px` and `cx` are inverse to each other. */
  lemma XRoundTrip(v: View, x: real, u: real)
    requires Proper(v) && v.size.0 != 0.0
    ensures Px(v, Cx(v, x)) == x
    ensures Cx(v, Px(v, u)) == u
  {
    var w, s := v.xRange.1 - v.xRange.0, v.size.0;
    var a := (x - v.xRange.0) / w;
    assert a * w == x - v.xRange.0;
    DivideProduct(a * s, a, s);
    var b := (u - v.topLeft.0) / s;
    assert b * s == u - v.topLeft.0;
    DivideProduct(b * w, b, w);
  }

  /** `cy` maps the top of the y range to the top of the box and the bottom
      of the range to the bottom of the box. */
  lemma YFlipped(v: View)
    requires Proper(v)
    ensures Cy(v, v.yRange.1) == v.topLeft.1
    ensures Cy(v, v.yRange.0) == v.topLeft.1 + v.size.1
  {
    assert (v.yRange.1 - v.yRange.0) / (v.yRange.1 - v.yRange.0) == 1.0;
  }

  /** `py` as written does not undo `cy`: it reflects y about the middle of
      the range. */
  lemma PyDoesNotInvertCy(v: View, y: real)
    requires Proper(v) && v.size.1 != 0.0
    ensures Py(v, Cy(v, y)) == v.yRange.0 + v.yRange.1 - y
  {
    var w, s := v.yRange.1 - v.yRange.0, v.size.1;
    var t := (y - v.yRange.0) / w;
    assert Cy(v, y) - v.topLeft.1 == (1.0 - t) * s;
    DivideProduct((1.0 - t) * s, 1.0 - t, s);
    assert t * w == y - v.yRange.0;
  }

  /** With y range [-1, 1], `py(cy(0.5))` is -0.5. */
  lemma PyCounterexample()
    ensures var v := View((5.0, 0.0), (490.0, 390.0), (0.0, 90.0), (-1.0, 1.0));
      Py(v, Cy(v, 0.5)) == -0.5
  {
    var v := View((5.0, 0.0), (490.0, 390.0), (0.0, 90.0), (-1.0, 1.0));
    PyDoesNotInvertCy(v, 0.5);
  }

  /** The corrected `py` and `cy` are inverse to each other. */
  lemma YRoundTrip(v: View, y: real, w: real)
    requires Proper(v) && v.size.1 != 0.0
    ensures PyFlipped(v, Cy(v, y)) == y
    ensures Cy(v, PyFlipped(v, w)) == w
  {
    var r, s := v.yRange.1 - v.yRange.0, v.size.1;
    var t := (y - v.yRange.0) / r;
    assert Cy(v, y) - v.topLeft.1 == (1.0 - t) * s;
    DivideProduct((1.0 - t) * s, 1.0 - t, s);
    assert t * r == y - v.yRange.0;
    assert PyFlipped(v, Cy(v, y)) == v.yRange.1 - (1.0 - t) * r;
    assert (1.0 - t) * r == r - t * r;
    var q := (w - v.topLeft.1) / s;
    assert PyFlipped(v, w) - v.yRange.0 == (1.0 - q) * r;
    DivideProduct((1.0 - q) * r, 1.0 - q, r);
    assert q * s == w - v.topLeft.1;
  }

  // ---------------------------------------------------------------------
  // The hypothesis marker

  /** `_is_mouse_near_hypothesis_marker`: the mouse is less than 15 pixels
      from the marker at (cx(h), cy(0) + 40); compared on squares, as
      `dist(...) < 15` is for non-negative distances. */
  predicate NearMarker(v: View, h: real, mouseX: real, mouseY: real)
    requires Proper(v)
  {
    var dx, dy := mouseX - Cx(v, h), mouseY - (Cy(v, 0.0) + 40.0);
    dx * dx + dy * dy < 225.0
  }

  /** Where `drag` puts the hypothesis: `px(mouseX)`, raised to `x_range[0]`
      if below it, then lowered to `x_range[1]` if above it. */
  function DragTarget(v: View, mouseX: real): real
    requires v.size.0 != 0.0
  {
    var h := Px(v, mouseX);
    var h1 := if h < v.xRange.0 then v.xRange.0 else h;
    if h1 > v.xRange.1 then v.xRange.1 else h1
  }

  /** On an increasing x range the dragged hypothesis stays on the axis, and
      it follows the mouse exactly while the mouse is over the axis. */
  lemma DragClamped(v: View, mouseX: real)
    requires v.size.0 != 0.0 && v.xRange.0 <= v.xRange.1
    ensures v.xRange.0 <= DragTarget(v, mouseX) <= v.xRange.1
    ensures v.xRange.0 <= Px(v, mouseX) <= v.xRange.1 ==> DragTarget(v, mouseX) == Px(v, mouseX)
    ensures Px(v, mouseX) < v.xRange.0 ==> DragTarget(v, mouseX) == v.xRange.0
    ensures Px(v, mouseX) > v.xRange.1 ==> DragTarget(v, mouseX) == v.xRange.1
  {
  }

  // ---------------------------------------------------------------------
  // Risk

  /** `risk(h)`: the total absolute error of `h` over the data, summed in
      order. */
  function Risk(data: seq<real>, h: real): real
    decreases |data|
  {
    if data == [] then 0.0 else Risk(data[..|data| - 1], h) + Abs(h - data[|data| - 1])
  }

  /** The risk is never negative, and it is zero exactly when every data
      point equals the hypothesis. */
  lemma {:induction false} RiskZeroIff(data: seq<real>, h: real)
    ensures Risk(data, h) >= 0.0
    ensures Risk(data, h) == 0.0 <==> forall k :: 0 <= k < |data| ==> data[k] == h
    decreases |data|
  {
    if data != [] {
      var init := data[..|data| - 1];
      RiskZeroIff(init, h);
      assert forall k :: 0 <= k < |init| ==> init[k] == data[k];
      if Risk(data, h) == 0.0 {
        forall k | 0 <= k < |data| ensures data[k] == h {
          if k < |data| - 1 { assert data[k] == init[k]; }
        }
      }
    }
  }

  lemma ReverseTriangle(a: real, b: real, x: real)
    ensures Abs(Abs(a - x) - Abs(b - x)) <= Abs(a - b)
  {
  }

  lemma LipschitzStep(a: real, b: real, v1: real, v2: real, m: real, d: real)
    requires Abs(a - b) <= m && Abs(v1 - v2) <= d
    ensures Abs((a + v1) - (b + v2)) <= m + d
  {
  }

  /** `n` copies of `d`, added up. */
  function Times(n: nat, d: real): real
  {
    if n == 0 then 0.0 else Times(n - 1, d) + d
  }

  lemma {:induction false} TimesProduct(n: nat, d: real)
    ensures Times(n, d) == n as real * d
  {
    if n > 0 {
      TimesProduct(n - 1, d);
      assert n as real * d == (n - 1) as real * d + d;
    }
  }

  lemma {:induction false} RiskSumBound(data: seq<real>, h1: real, h2: real)
    ensures Abs(Risk(data, h1) - Risk(data, h2)) <= Times(|data|, Abs(h1 - h2))
    decreases |data|
  {
    if data != [] {
      var init := data[..|data| - 1];
      RiskSumBound(init, h1, h2);
      var x := data[|data| - 1];
      ReverseTriangle(h1, h2, x);
      LipschitzStep(Risk(init, h1), Risk(init, h2), Abs(h1 - x), Abs(h2 - x), Times(|init|, Abs(h1 - h2)), Abs(h1 - h2));
    }
  }

  /** Moving the hypothesis by d changes the risk by at most d per data
      point. */
  lemma RiskLipschitz(data: seq<real>, h1: real, h2: real)
    ensures Abs(Risk(data, h1) - Risk(data, h2)) <= |data| as real * Abs(h1 - h2)
  {
    RiskSumBound(data, h1, h2);
    TimesProduct(|data|, Abs(h1 - h2));
  }

  /** The loop inside `risk`: accumulates `|h - x|` over the data. */
  method RiskAt(data: seq<real>, h: real) returns (total: real)
    ensures total == Risk(data, h)
  {
    total := 0.0;
    for i := 0 to |data|
      invariant total == Risk(data[..i], h)
    {
      assert data[..i + 1][..i] == data[..i];
      total := total + Abs(h - data[i]);
    }
    assert data[..|data|] == data;
  }

  /** The points `draw_risk` plots at the sampled hypotheses `hs`. */
  function RiskPoints(v: View, data: seq<real>, hs: seq<real>): seq<Cmd>
    requires Proper(v)
    decreases |hs|
  {
    if hs == [] then []
    else
      var h := hs[|hs| - 1];
      RiskPoints(v, data, hs[..|hs| - 1]) + [Point(Cx(v, h), Cy(v, Risk(data, h) * 0.004) + 5.0)]
  }

  /** One point per sample, the k-th at hypothesis `hs[k]` and height
      proportional to its risk. */
  lemma {:induction false} RiskPointsSpec(v: View, data: seq<real>, hs: seq<real>)
    requires Proper(v)
    ensures |RiskPoints(v, data, hs)| == |hs|
    ensures forall k :: 0 <= k < |hs| ==>
      RiskPoints(v, data, hs)[k] == Point(Cx(v, hs[k]), Cy(v, Risk(data, hs[k]) * 0.004) + 5.0)
    decreases |hs|
  {
    if hs != [] {
      var init := hs[..|hs| - 1];
      RiskPointsSpec(v, data, init);
      forall k | 0 <= k < |hs| - 1
        ensures RiskPoints(v, data, hs)[k] == Point(Cx(v, hs[k]), Cy(v, Risk(data, hs[k]) * 0.004) + 5.0)
      {
        assert init[k] == hs[k];
        assert RiskPoints(v, data, hs)[k] == RiskPoints(v, data, init)[k];
      }
    }
  }

  lemma RiskPointsSnoc(v: View, data: seq<real>, hs: seq<real>, h: real)
    requires Proper(v)
    ensures RiskPoints(v, data, hs + [h]) == RiskPoints(v, data, hs) + [Point(Cx(v, h), Cy(v, Risk(data, h) * 0.004) + 5.0)]
  {
    assert (hs + [h])[..|hs|] == hs;
  }

  /** The sampling loop of `draw_risk`: from `x_range[0]` in steps of 0.1
      while below `x_range[1]`. */
  method DrawRiskCurve(c: Canvas, v: View, data: seq<real>)
    requires Proper(v)
    modifies c
    ensures c.log == old(c.log) + RiskPoints(v, data, Steps(v.xRange.0, v.xRange.1, 0.1, false))
  {
    var x := v.xRange.0;
    ghost var done: seq<real> := [];
    while x < v.xRange.1
      invariant Steps(v.xRange.0, v.xRange.1, 0.1, false) == done + Steps(x, v.xRange.1, 0.1, false)
      invariant c.log == old(c.log) + RiskPoints(v, data, done)
      decreases Remaining(x, v.xRange.1, 0.1)
    {
      var y := RiskAt(data, x);
      c.Emit(Point(Cx(v, x), Cy(v, y * 0.004) + 5.0));
      RemainingDecreases(x, v.xRange.1, 0.1);
      StepsUnfold(x, v.xRange.1, 0.1, false);
      RiskPointsSnoc(v, data, done, x);
      done := done + [x];
      x := x + 0.1;
    }
    StepsEnd(x, v.xRange.1, 0.1, false);
    assert done == Steps(v.xRange.0, v.xRange.1, 0.1, false);
  }

  /** `canvasSize`: 95% of the window width, at most 500, by 400. */
  function CanvasSize(windowWidth: real): (r: Pair)
    ensures r.0 <= 500.0 && r.0 <= 0.95 * windowWidth && r.1 == 400.0
    ensures r.0 == 500.0 || r.0 == 0.95 * windowWidth
  {
    (if 0.95 * windowWidth < 500.0 then 0.95 * windowWidth else 500.0, 400.0)
  }

  /** The view `setup` gives the plot: the canvas less 10 pixels each way,
      shifted 5 pixels right, over [x_min, x_max] × [-1, 1]. */
  function SetupView(windowWidth: real, xMin: real, xMax: real): View
  {
    var c := CanvasSize(windowWidth);
    View((5.0, 0.0), (c.0 - 10.0, c.1 - 10.0), (xMin, xMax), (-1.0, 1.0))
  }

  /** In the view of `setup`, the x range spans the plot box and the y axis
      is flipped over the box's full height. */
  lemma SetupViewSpans(windowWidth: real, xMin: real, xMax: real)
    requires xMin != xMax
    ensures var v := SetupView(windowWidth, xMin, xMax);
      Proper(v) && Cx(v, xMin) == 5.0 && Cx(v, xMax) == 5.0 + v.size.0
      && Cy(v, 1.0) == 0.0 && Cy(v, -1.0) == 390.0 && Cy(v, 0.0) == 195.0
  {
    var v := SetupView(windowWidth, xMin, xMax);
    YFlipped(v);
    assert (xMax - xMin) / (xMax - xMin) == 1.0;
    assert Cx(v, xMax) == 5.0 + 1.0 * v.size.0;
    assert (xMin - xMin) / (xMax - xMin) == 0.0;
  }

  // ---------------------------------------------------------------------
  // The figure's Plot class

  class RiskPlot {
    const p: Canvas
    const data: seq<real>
    var hypothesis: real
    var size: Pair
    const topLeft: Pair
    const xRange: Pair
    const yRange: Pair
    var hIsBeingDragged: bool

    function CurrentView(): View
      reads this
    {
      View(topLeft, size, xRange, yRange)
    }

    constructor (p: Canvas, data: seq<real>, hypothesis: real, size: Pair, topLeft: Pair,
                 xRange: Pair, yRange: Pair)
      ensures this.p == p && this.data == data && this.hypothesis == hypothesis
      ensures CurrentView() == View(topLeft, size, xRange, yRange)
      ensures !hIsBeingDragged
    {
      this.p := p;
      this.data := data;
      this.hypothesis := hypothesis;
      this.size := size;
      this.topLeft := topLeft;
      this.xRange := xRange;
      this.yRange := yRange;
      this.hIsBeingDragged := false;
    }

    /** `drag`: while the marker is being dragged the hypothesis follows the
        mouse, clipped to the x axis; otherwise nothing changes. */
    method Drag(mouseX: real)
      requires size.0 != 0.0
      modifies this`hypothesis
      ensures hypothesis == if hIsBeingDragged then DragTarget(CurrentView(), mouseX) else old(hypothesis)
    {
      if hIsBeingDragged {
        hypothesis := Px(CurrentView(), mouseX);
        if hypothesis < xRange.0 {
          hypothesis := xRange.0;
        }
        if hypothesis > xRange.1 {
          hypothesis := xRange.1;
        }
      }
    }

    /** `mouseDragged`: starts a drag when the mouse is near the marker (at
        its position before this event), then drags. */
    method MouseDragged(mouseX: real, mouseY: real)
      requires Proper(CurrentView()) && size.0 != 0.0
      modifies this`hypothesis, this`hIsBeingDragged
      ensures hIsBeingDragged == (old(hIsBeingDragged) || NearMarker(CurrentView(), old(hypothesis), mouseX, mouseY))
      ensures hypothesis == if hIsBeingDragged then DragTarget(CurrentView(), mouseX) else old(hypothesis)
    {
      if NearMarker(CurrentView(), hypothesis, mouseX, mouseY) {
        hIsBeingDragged := true;
      }
      Drag(mouseX);
    }

    /** The end of each `draw` frame: a released mouse ends any drag. */
    method EndFrame(mouseIsPressed: bool)
      modifies this`hIsBeingDragged
      ensures hIsBeingDragged == (old(hIsBeingDragged) && mouseIsPressed)
    {
      if !mouseIsPressed {
        hIsBeingDragged := false;
      }
    }

    /** `windowResized`: the plot box follows the canvas, 10 pixels smaller
        each way; nothing else changes. */
    method Resize(width: real, height: real)
      modifies this`size
      ensures CurrentView() == View(topLeft, (width - 10.0, height - 10.0), xRange, yRange)
    {
      size := (width - 10.0, height - 10.0);
    }

    /** `draw_risk`: one point per sampled hypothesis. */
    method DrawRisk()
      requires Proper(CurrentView())
      modifies p
      ensures p.log == old(p.log) + RiskPoints(CurrentView(), data, Steps(xRange.0, xRange.1, 0.1, false))
    {
      DrawRiskCurve(p, CurrentView(), data);
    }
  }

  // ---------------------------------------------------------------------
  // Options

  /** A JavaScript number option as `configure_sketch` can see it. */
  datatype JsNum = Undefined | Num(v: real) | PosInf | NegInf | NaN

  /** `x || y` keeps `x` unless it is undefined, zero or NaN. */
  predicate Truthy(n: JsNum)
  {
    (n.Num? && n.v != 0.0) || n.PosInf? || n.NegInf?
  }

  /** `a + b` on the values that can reach it. */
  function JsAdd(a: JsNum, b: JsNum): JsNum
  {
    match (a, b)
    case (Num(x), Num(y)) => Num(x + y)
    case (PosInf, NegInf) => NaN
    case (NegInf, PosInf) => NaN
    case (PosInf, Num(_)) => PosInf
    case (Num(_), PosInf) => PosInf
    case (PosInf, PosInf) => PosInf
    case (NegInf, Num(_)) => NegInf
    case (Num(_), NegInf) => NegInf
    case (NegInf, NegInf) => NegInf
    case _ => NaN
  }

  function Half(a: JsNum): JsNum
  {
    if a.Num? then Num(a.v / 2.0) else a
  }

  function SeqMin(d: seq<real>): (m: real)
    requires |d| > 0
    ensures m in d && forall k :: 0 <= k < |d| ==> m <= d[k]
    decreases |d|
  {
    if |d| == 1 then d[0]
    else
      var rest := SeqMin(d[1..]);
      assert forall k :: 1 <= k < |d| ==> d[k] == d[1..][k - 1];
      if d[0] <= rest then d[0] else rest
  }

  function SeqMax(d: seq<real>): (m: real)
    requires |d| > 0
    ensures m in d && forall k :: 0 <= k < |d| ==> d[k] <= m
    decreases |d|
  {
    if |d| == 1 then d[0]
    else
      var rest := SeqMax(d[1..]);
      assert forall k :: 1 <= k < |d| ==> d[k] == d[1..][k - 1];
      if d[0] >= rest then d[0] else rest
  }

  /** The figure's options; `None` and `Undefined` stand for an absent key. */
  datatype OptionValues = OptionValues(data: Option<seq<real>>, xMin: JsNum, xMax: JsNum, w0: JsNum)

  const DefaultData: seq<real> := [35.0, 42.0, 55.0, 63.0, 82.0]

  /** The x bounds `configure_sketch` derives from the data: the data's span
      widened by a tenth on each side. With no data `Math.min()` is +∞ and
      `Math.max()` is -∞, so the bounds are +∞ and -∞. */
  function DataBounds(d: seq<real>): (JsNum, JsNum)
  {
    if |d| == 0 then (PosInf, NegInf)
    else
      var lo, hi := SeqMin(d), SeqMax(d);
      var range := hi - lo;
      (Num(lo - 0.1 * range), Num(hi + 0.1 * range))
  }

  /** The options after `configure_sketch`. */
  function Configured(o: OptionValues): OptionValues
  {
    var o1 := if o.data.None? then o.(data := Some(DefaultData), xMin := Num(0.0), xMax := Num(90.0)) else o;
    var o2 := if o1.xMin.Undefined? || o1.xMax.Undefined? then
        var b := DataBounds(o1.data.value); o1.(xMin := b.0, xMax := b.1)
      else o1;
    o2.(w0 := if Truthy(o2.w0) then o2.w0 else Half(JsAdd(o2.xMin, o2.xMax)))
  }

  /** Without data the figure uses the five default points on [0, 90], even
      if bounds were given, and starts the hypothesis at 45 unless `w_0` is
      set to a truthy value. */
  lemma ConfiguredDefaults(o: OptionValues)
    requires o.data.None?
    ensures var r := Configured(o);
      r.data == Some(DefaultData) && r.xMin == Num(0.0) && r.xMax == Num(90.0)
      && r.w0 == if Truthy(o.w0) then o.w0 else Num(45.0)
  {
  }

  /** Given data is kept; given bounds are kept when both are present; when
      either is missing both are derived and enclose every data point. */
  lemma ConfiguredBounds(o: OptionValues)
    requires o.data.Some?
    ensures var r := Configured(o);
      r.data == o.data
      && (!o.xMin.Undefined? && !o.xMax.Undefined? ==> r.xMin == o.xMin && r.xMax == o.xMax)
      && ((o.xMin.Undefined? || o.xMax.Undefined?) && |o.data.value| > 0 ==>
            r.xMin.Num? && r.xMax.Num?
            && forall k :: 0 <= k < |o.data.value| ==> r.xMin.v <= o.data.value[k] <= r.xMax.v)
  {
    var d := o.data.value;
    if (o.xMin.Undefined? || o.xMax.Undefined?) && |d| > 0 {
      var lo, hi := SeqMin(d), SeqMax(d);
      assert lo <= hi by { assert lo <= d[0] <= hi; }
    }
  }

  /** After configuration every option is present; a falsy `w_0` (absent,
      zero or NaN) becomes the midpoint of the bounds, and a truthy one is
      kept. */
  lemma ConfiguredW0(o: OptionValues)
    ensures var r := Configured(o);
      r.data.Some? && !r.xMin.Undefined? && !r.xMax.Undefined? && !r.w0.Undefined?
      && (Truthy(o.w0) ==> r.w0 == o.w0)
      && (!Truthy(o.w0) && r.xMin.Num? && r.xMax.Num? ==> r.w0 == Num((r.xMin.v + r.xMax.v) / 2.0))
  {
  }

  /** The options object `configure_sketch` fills in, in place. */
  class SketchOptions {
    var data: Option<seq<real>>
    var xMin: JsNum
    var xMax: JsNum
    var w0: JsNum

    function Values(): OptionValues
      reads this
    {
      OptionValues(data, xMin, xMax, w0)
    }

    constructor (data: Option<seq<real>>, xMin: JsNum, xMax: JsNum, w0: JsNum)
      ensures Values() == OptionValues(data, xMin, xMax, w0)
    {
      this.data := data;
      this.xMin := xMin;
      this.xMax := xMax;
      this.w0 := w0;
    }

    /** The option handling of `configure_sketch`. */
    method Configure()
      modifies this
      ensures Values() == Configured(old(Values()))
    {
      if data.None? {
        data := Some(DefaultData);
        xMin := Num(0.0);
        xMax := Num(90.0);
      }
      if xMin.Undefined? || xMax.Undefined? {
        var b := DataBounds(data.value);
        xMin := b.0;
        xMax := b.1;
      }
      if !Truthy(w0) {
        w0 := Half(JsAdd(xMin, xMax));
      }
    }
  }
}
