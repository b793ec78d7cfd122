/** The plotting half of the library (vis/js/lib/mlbook/main.js): the `Plot`
    class, an affine map between plot space and canvas pixels with padding
    and a flipped y axis, its drawing loops, `linspace`, and `PlotTeX`, which
    places HTML labels next to plot points. */
module Plotting {
  import opened Wrappers
  import opened Text
  import opened Drawing

  type Pair = (real, real)

  // ---------------------------------------------------------------------
  // The coordinate frame

  /** What the conversions of a `Plot` read: the current ranges and the inner
      box fixed at construction. */
  datatype Frame = Frame(xRange: Pair, yRange: Pair, innerTopLeft: Pair, innerSize: Pair)

  /** Neither range is degenerate, so both scales are defined. */
  predicate Proper(f: Frame)
  {
    f.xRange.0 != f.xRange.1 && f.yRange.0 != f.yRange.1
  }

  /** Both scales are also nonzero, so `px` and `py` are defined. */
  predicate Invertible(f: Frame)
  {
    Proper(f) && f.innerSize.0 != 0.0 && f.innerSize.1 != 0.0
  }

  /** The frame the constructor sets up: the inner box is the outer box
      shrunk by `padding` on every side. */
  function InitialFrame(size: Pair, topLeft: Pair, padding: real, xRange: Pair, yRange: Pair): Frame
  {
    Frame(xRange, yRange, (topLeft.0 + padding, topLeft.1 + padding),
          (size.0 - 2.0 * padding, size.1 - 2.0 * padding))
  }

  /** `x_scale`: pixels per unit along x. */
  function XScale(f: Frame): real
    requires Proper(f)
  {
    f.innerSize.0 / (f.xRange.1 - f.xRange.0)
  }

  /** `y_scale`: pixels per unit along y. */
  function YScale(f: Frame): real
    requires Proper(f)
  {
    f.innerSize.1 / (f.yRange.1 - f.yRange.0)
  }

  /** `cx`: plot x to canvas x. */
  function Cx(f: Frame, x: real): real
    requires Proper(f)
  {
    (x - f.xRange.0) * XScale(f) + f.innerTopLeft.0
  }

  /** `cy`: plot y to canvas y, measured downwards from the inner top. */
  function Cy(f: Frame, y: real): real
    requires Proper(f)
  {
    f.innerSize.1 - (y - f.yRange.0) * YScale(f) + f.innerTopLeft.1
  }

  /** `px`: canvas x to plot x. */
  function Px(f: Frame, u: real): real
    requires Invertible(f)
  {
    (u - f.innerTopLeft.0) / XScale(f) + f.xRange.0
  }

  /** `py`: canvas y to plot y. */
  function Py(f: Frame, v: real): real
    requires Invertible(f)
  {
    (f.innerSize.1 - v + f.innerTopLeft.1) / YScale(f) + f.yRange.0
  }

  lemma ScalesNonzero(f: Frame)
    requires Invertible(f)
    ensures XScale(f) != 0.0 && YScale(f) != 0.0
  {
  }

  /** `px` and `cx` are inverse to each other. */
  lemma XRoundTrip(f: Frame, x: real, u: real)
    requires Invertible(f)
    ensures Px(f, Cx(f, x)) == x
    ensures Cx(f, Px(f, u)) == u
  {
    var k := XScale(f);
    ScalesNonzero(f);
    assert (x - f.xRange.0) * k / k == x - f.xRange.0;
    assert (u - f.innerTopLeft.0) / k * k == u - f.innerTopLeft.0;
  }

  /** `py` and `cy` are inverse to each other. */
  lemma YRoundTrip(f: Frame, y: real, v: real)
    requires Invertible(f)
    ensures Py(f, Cy(f, y)) == y
    ensures Cy(f, Py(f, v)) == v
  {
    var k := YScale(f);
    ScalesNonzero(f);
    assert (y - f.yRange.0) * k / k == y - f.yRange.0;
    assert (f.innerSize.1 - v + f.innerTopLeft.1) / k * k == f.innerSize.1 - v + f.innerTopLeft.1;
  }

  /** The ends of the ranges land on the inner box: `x_range[0]` on its left
      edge, `x_range[1]` on its right edge, `y_range[1]` on its top edge and
      `y_range[0]` on its bottom edge (the y axis is flipped). */
  lemma InnerCorners(f: Frame)
    requires Proper(f)
    ensures Cx(f, f.xRange.0) == f.innerTopLeft.0
    ensures Cx(f, f.xRange.1) == f.innerTopLeft.0 + f.innerSize.0
    ensures Cy(f, f.yRange.1) == f.innerTopLeft.1
    ensures Cy(f, f.yRange.0) == f.innerTopLeft.1 + f.innerSize.1
  {
    assert (f.xRange.1 - f.xRange.0) * XScale(f) == f.innerSize.0;
    assert (f.yRange.1 - f.yRange.0) * YScale(f) == f.innerSize.1;
  }

  /** With increasing ranges and a positive inner size both scales are
      positive, `cx` is increasing and `cy` is decreasing. */
  lemma Orientation(f: Frame, a: real, b: real)
    requires f.xRange.0 < f.xRange.1 && f.yRange.0 < f.yRange.1
    requires f.innerSize.0 > 0.0 && f.innerSize.1 > 0.0
    requires a < b
    ensures XScale(f) > 0.0 && YScale(f) > 0.0
    ensures Cx(f, a) < Cx(f, b)
    ensures Cy(f, a) > Cy(f, b)
  {
    var kx, ky := XScale(f), YScale(f);
    assert kx * (f.xRange.1 - f.xRange.0) == f.innerSize.0;
    assert ky * (f.yRange.1 - f.yRange.0) == f.innerSize.1;
    assert kx > 0.0 && ky > 0.0;
    assert (b - f.xRange.0) * kx - (a - f.xRange.0) * kx == (b - a) * kx;
    assert (b - f.yRange.0) * ky - (a - f.yRange.0) * ky == (b - a) * ky;
    assert (b - a) * kx > 0.0 && (b - a) * ky > 0.0;
    assert Cy(f, a) - Cy(f, b) == (b - a) * ky;
  }

  /** A 400 by 300 plot with padding 10 and both ranges [-1, 1] puts the
      origin at (200, 150) and the corners of the ranges on the inner box. */
  lemma CenterScenario()
    ensures var f := InitialFrame((400.0, 300.0), (0.0, 0.0), 10.0, (-1.0, 1.0), (-1.0, 1.0));
      Cx(f, 0.0) == 200.0 && Cy(f, 0.0) == 150.0
      && Cx(f, -1.0) == 10.0 && Cy(f, 1.0) == 10.0
      && Cx(f, 1.0) == 390.0 && Cy(f, -1.0) == 290.0
  {
    var f := InitialFrame((400.0, 300.0), (0.0, 0.0), 10.0, (-1.0, 1.0), (-1.0, 1.0));
    assert XScale(f) == 190.0 && YScale(f) == 140.0;
  }

  // ---------------------------------------------------------------------
  // What the drawing methods emit

  /** `draw_line` in canvas terms. */
  function LineCmd(f: Frame, x1: real, y1: real, x2: real, y2: real): Cmd
    requires Proper(f)
  {
    Line(Cx(f, x1), Cy(f, y1), Cx(f, x2), Cy(f, y2))
  }

  /** The lines `plot(xs, ys)` draws for the first `|xs|` points. */
  function Segments(f: Frame, xs: seq<real>, ys: seq<real>): seq<Cmd>
    requires Proper(f) && |xs| <= |ys|
    decreases |xs|
  {
    if |xs| <= 1 then []
    else Segments(f, xs[..|xs| - 1], ys) + [LineCmd(f, xs[|xs| - 2], ys[|xs| - 2], xs[|xs| - 1], ys[|xs| - 1])]
  }

  /** `plot` draws `max(0, n - 1)` lines, the k-th joining points k and k + 1. */
  lemma {:induction false} SegmentsSpec(f: Frame, xs: seq<real>, ys: seq<real>)
    requires Proper(f) && |xs| <= |ys|
    ensures |Segments(f, xs, ys)| == if |xs| == 0 then 0 else |xs| - 1
    ensures forall k :: 0 <= k < |Segments(f, xs, ys)| ==>
      Segments(f, xs, ys)[k] == LineCmd(f, xs[k], ys[k], xs[k + 1], ys[k + 1])
    decreases |xs|
  {
    if |xs| > 1 {
      var init := xs[..|xs| - 1];
      SegmentsSpec(f, init, ys);
      var s := Segments(f, xs, ys);
      assert s == Segments(f, init, ys) + [LineCmd(f, xs[|xs| - 2], ys[|xs| - 2], xs[|xs| - 1], ys[|xs| - 1])];
      forall k | 0 <= k < |s|
        ensures s[k] == LineCmd(f, xs[k], ys[k], xs[k + 1], ys[k + 1])
      {
        if k < |s| - 1 {
          assert s[k] == Segments(f, init, ys)[k];
          assert init[k] == xs[k] && init[k + 1] == xs[k + 1];
        }
      }
    }
  }

  /** The circles `scatter(xs, ys)` draws for the first `|xs|` points. */
  function Dots(f: Frame, xs: seq<real>, ys: seq<real>, radius: real): seq<Cmd>
    requires Proper(f) && |xs| <= |ys|
    decreases |xs|
  {
    if xs == [] then []
    else Dots(f, xs[..|xs| - 1], ys, radius) + [Circle(Cx(f, xs[|xs| - 1]), Cy(f, ys[|xs| - 1]), radius)]
  }

  /** `scatter` draws exactly one circle per point, in order. */
  lemma {:induction false} DotsSpec(f: Frame, xs: seq<real>, ys: seq<real>, radius: real)
    requires Proper(f) && |xs| <= |ys|
    ensures |Dots(f, xs, ys, radius)| == |xs|
    ensures forall k :: 0 <= k < |xs| ==> Dots(f, xs, ys, radius)[k] == Circle(Cx(f, xs[k]), Cy(f, ys[k]), radius)
    decreases |xs|
  {
    if xs != [] {
      var init := xs[..|xs| - 1];
      DotsSpec(f, init, ys, radius);
      var d := Dots(f, xs, ys, radius);
      forall k | 0 <= k < |xs|
        ensures d[k] == Circle(Cx(f, xs[k]), Cy(f, ys[k]), radius)
      {
        if k < |xs| - 1 {
          assert d[k] == Dots(f, init, ys, radius)[k];
          assert init[k] == xs[k];
        }
      }
    }
  }

  /** The four angles the axes pass to `_draw_arrowhead`: 0, π, π/2, -π/2. */
  datatype Angle = Zero | Pi | HalfPi | MinusHalfPi

  function Cos(a: Angle): real
  {
    match a
    case Zero => 1.0
    case Pi => -1.0
    case _ => 0.0
  }

  function Sin(a: Angle): real
  {
    match a
    case HalfPi => 1.0
    case MinusHalfPi => -1.0
    case _ => 0.0
  }

  /** A tail of an arrowhead with tip (xc, yc): the point `length` behind and
      `side · width` below the tip, rotated by `a` about the tip. */
  function Tail(xc: real, yc: real, a: Angle, width: real, length: real, side: real): Pair
  {
    var dx, dy := -length, side * width;
    (dx * Cos(a) + dy * Sin(a) + xc, -dx * Sin(a) + dy * Cos(a) + yc)
  }

  /** The two lines `_draw_arrowhead` draws, in canvas coordinates. */
  function ArrowheadLines(xc: real, yc: real, a: Angle, width: real, length: real): seq<Cmd>
  {
    var t1, t2 := Tail(xc, yc, a, width, length, 1.0), Tail(xc, yc, a, width, length, -1.0);
    [Line(xc, yc, t1.0, t1.1), Line(xc, yc, t2.0, t2.1)]
  }

  /** The tails sit symmetrically `width` on either side of the point `length`
      back from the tip along the arrow's direction (canvas y grows
      downwards, so the direction of angle `a` is (cos a, -sin a)). */
  lemma ArrowheadShape(xc: real, yc: real, a: Angle, width: real, length: real)
    ensures var t1, t2 := Tail(xc, yc, a, width, length, 1.0), Tail(xc, yc, a, width, length, -1.0);
      (t1.0 + t2.0) / 2.0 == xc - length * Cos(a) && (t1.1 + t2.1) / 2.0 == yc + length * Sin(a)
      && t1.0 - t2.0 == 2.0 * width * Sin(a) && t1.1 - t2.1 == 2.0 * width * Cos(a)
  {
  }

  /** What one iteration of a tick, label or grid loop emits for the loop
      value `v`; the fields are the options of the drawing call. */
  datatype Mark =
    | XTick(y: real, length: real)
    | XTickLabel(y: real, labels: string, noLabelNear: Option<real>)
    | YTick(x: real, length: real)
    | YTickLabel(x: real, labels: string, noLabelNear: Option<real>)
    | GridColumn(yInterval: Pair)
    | GridRow(xInterval: Pair)

  /** A label at `v` is kept unless `no_label_near` is set and `v` is at most
      20 pixels from it. */
  predicate ShowLabel(scale: real, v: real, noLabelNear: Option<real>)
  {
    noLabelNear.None? || Abs(v - noLabelNear.value) * scale > 20.0
  }

  /** The tick mark drawn at `v` (every tick is drawn). */
  function TickLine(f: Frame, m: Mark, v: real): Cmd
    requires Proper(f) && (m.XTick? || m.YTick?)
  {
    if m.XTick? then Line(Cx(f, v), Cy(f, m.y) - m.length / 2.0, Cx(f, v), Cy(f, m.y) + m.length / 2.0)
    else Line(Cx(f, m.x) - m.length / 2.0, Cy(f, v), Cx(f, m.x) + m.length / 2.0, Cy(f, v))
  }

  /** The text call a label loop makes at `v` when it draws a label there. */
  function LabelText(f: Frame, m: Mark, v: real): Cmd
    requires Proper(f) && (m.XTickLabel? || m.YTickLabel?)
  {
    if m.XTickLabel? then Label(v, Cx(f, v), if m.labels == "below" then Cy(f, m.y) + 5.0 else Cy(f, m.y) - 5.0)
    else Label(v, if m.labels == "left" then Cx(f, m.x) - 5.0 else Cx(f, m.x) + 5.0, Cy(f, v))
  }

  /** The label placements the loops know: below/above for x, left/right for y. */
  predicate LabelsDrawn(m: Mark)
    requires m.XTickLabel? || m.YTickLabel?
  {
    if m.XTickLabel? then m.labels == "below" || m.labels == "above"
    else m.labels == "left" || m.labels == "right"
  }

  /** Whether the label at `v` passes the `no_label_near` test. */
  predicate Shown(f: Frame, m: Mark, v: real)
    requires Proper(f) && (m.XTickLabel? || m.YTickLabel?)
  {
    ShowLabel(if m.XTickLabel? then XScale(f) else YScale(f), v, m.noLabelNear)
  }

  function MarkAt(f: Frame, m: Mark, v: real): seq<Cmd>
    requires Proper(f)
  {
    match m
    case XTick(_, _) => [TickStyle(v), TickLine(f, m, v)]
    case YTick(_, _) => [TickStyle(v), TickLine(f, m, v)]
    case XTickLabel(_, labels, _) =>
      if !Shown(f, m, v) || !LabelsDrawn(m) then []
      else [LabelStyle(v), TextAlign(Center, if labels == "below" then Top else Bottom), LabelText(f, m, v)]
    case YTickLabel(_, labels, _) =>
      if !Shown(f, m, v) || !LabelsDrawn(m) then []
      else [LabelStyle(v), TextAlign(if labels == "left" then Right else Left, Center), LabelText(f, m, v)]
    case GridColumn(yi) => [LineCmd(f, v, yi.0, v, yi.1)]
    case GridRow(xi) => [LineCmd(f, xi.0, v, xi.1, v)]
  }

  /** What a loop emits over the values `vs`, in order. */
  function Marks(f: Frame, m: Mark, vs: seq<real>): seq<Cmd>
    requires Proper(f)
    decreases |vs|
  {
    if vs == [] then [] else Marks(f, m, vs[..|vs| - 1]) + MarkAt(f, m, vs[|vs| - 1])
  }

  lemma MarksSnoc(f: Frame, m: Mark, vs: seq<real>, v: real)
    requires Proper(f)
    ensures Marks(f, m, vs + [v]) == Marks(f, m, vs) + MarkAt(f, m, v)
  {
    assert (vs + [v])[..|vs|] == vs;
  }

  /** One iteration of `DrawMarks`: the visited values and the emitted
      commands both grow by the current value. */
  lemma LoopStep(f: Frame, m: Mark, start: real, hi: real, s: real, inclusive: bool, done: seq<real>, v: real)
    requires Proper(f) && s > 0.0 && Below(v, hi, inclusive)
    requires Steps(start, hi, s, inclusive) == done + Steps(v, hi, s, inclusive)
    ensures Steps(start, hi, s, inclusive) == (done + [v]) + Steps(v + s, hi, s, inclusive)
    ensures Marks(f, m, done + [v]) == Marks(f, m, done) + MarkAt(f, m, v)
    ensures Remaining(v + s, hi, s) < Remaining(v, hi, s)
  {
    RemainingDecreases(v, hi, s);
    StepsUnfold(v, hi, s, inclusive);
    var rest := Steps(v + s, hi, s, inclusive);
    assert done + ([v] + rest) == (done + [v]) + rest;
    MarksSnoc(f, m, done, v);
  }

  /** A tick loop draws a mark at every value, preceded by the styler call. */
  lemma {:induction false} TicksDrawn(f: Frame, m: Mark, vs: seq<real>)
    requires Proper(f) && (m.XTick? || m.YTick?)
    ensures |Marks(f, m, vs)| == 2 * |vs|
    ensures forall k :: 0 <= k < |vs| ==>
      Marks(f, m, vs)[2 * k] == TickStyle(vs[k]) && Marks(f, m, vs)[2 * k + 1] == TickLine(f, m, vs[k])
    decreases |vs|
  {
    if vs != [] {
      var init := vs[..|vs| - 1];
      TicksDrawn(f, m, init);
      var r := Marks(f, m, vs);
      assert r == Marks(f, m, init) + [TickStyle(vs[|vs| - 1]), TickLine(f, m, vs[|vs| - 1])];
      forall k | 0 <= k < |vs|
        ensures r[2 * k] == TickStyle(vs[k]) && r[2 * k + 1] == TickLine(f, m, vs[k])
      {
        if k < |vs| - 1 {
          assert init[k] == vs[k];
          assert r[2 * k] == Marks(f, m, init)[2 * k];
          assert r[2 * k + 1] == Marks(f, m, init)[2 * k + 1];
        }
      }
    }
  }

  /** A grid loop draws exactly one line per value. */
  lemma {:induction false} GridDrawn(f: Frame, m: Mark, vs: seq<real>)
    requires Proper(f) && (m.GridColumn? || m.GridRow?)
    ensures |Marks(f, m, vs)| == |vs|
    ensures forall k :: 0 <= k < |vs| ==> Marks(f, m, vs)[k] == MarkAt(f, m, vs[k])[0]
    decreases |vs|
  {
    if vs != [] {
      var init := vs[..|vs| - 1];
      GridDrawn(f, m, init);
      var r := Marks(f, m, vs);
      forall k | 0 <= k < |vs| ensures r[k] == MarkAt(f, m, vs[k])[0] {
        if k < |vs| - 1 {
          assert init[k] == vs[k];
          assert r[k] == Marks(f, m, init)[k];
        }
      }
    }
  }

  /** A label loop draws the label of `v` exactly when `v` is one of its
      values, the placement is one it knows, and `v` passes the
      `no_label_near` test. */
  lemma {:induction false} LabelShown(f: Frame, m: Mark, vs: seq<real>, v: real)
    requires Proper(f) && (m.XTickLabel? || m.YTickLabel?)
    ensures LabelText(f, m, v) in Marks(f, m, vs) <==> v in vs && Shown(f, m, v) && LabelsDrawn(m)
    decreases |vs|
  {
    if vs != [] {
      var init := vs[..|vs| - 1];
      var w := vs[|vs| - 1];
      LabelShown(f, m, init, v);
      assert vs == init + [w];
      assert Marks(f, m, vs) == Marks(f, m, init) + MarkAt(f, m, w);
      if LabelText(f, m, v) in MarkAt(f, m, w) {
        assert LabelText(f, m, v) == LabelText(f, m, w);
        assert v == w;
      }
    }
  }

  /** `options.interval`-style arguments: the given pair, or the default. */
  function OrDefault(given: Option<Pair>, default: Pair): Pair
  {
    if given.Some? then given.value else default
  }

  /** One `while` loop of the tick, label and grid methods: from `start`,
      while the loop test holds, emit the mark for the current value and
      advance by `spacing`. */
  method DrawMarks(c: Canvas, f: Frame, m: Mark, start: real, hi: real, spacing: real, inclusive: bool)
    requires Proper(f) && spacing > 0.0
    modifies c
    ensures c.log == old(c.log) + Marks(f, m, Steps(start, hi, spacing, inclusive))
  {
    var v := start;
    ghost var done: seq<real> := [];
    while Below(v, hi, inclusive)
      invariant Steps(start, hi, spacing, inclusive) == done + Steps(v, hi, spacing, inclusive)
      invariant c.log == old(c.log) + Marks(f, m, done)
      decreases Remaining(v, hi, spacing)
    {
      LoopStep(f, m, start, hi, spacing, inclusive, done, v);
      c.EmitAll(MarkAt(f, m, v));
      done := done + [v];
      v := v + spacing;
    }
    LoopEnd(start, hi, spacing, inclusive, done, v);
  }

  /** When the loop stops, it has visited exactly the positions `Steps`
      lists. */
  lemma LoopEnd(start: real, hi: real, s: real, inclusive: bool, done: seq<real>, v: real)
    requires s > 0.0 && !Below(v, hi, inclusive)
    requires Steps(start, hi, s, inclusive) == done + Steps(v, hi, s, inclusive)
    ensures done == Steps(start, hi, s, inclusive)
  {
    StepsEnd(v, hi, s, inclusive);
    assert done + [] == done;
  }

  // ---------------------------------------------------------------------
  // The Plot class

  class Plot {
    const p: Canvas
    const size: Pair
    const topLeft: Pair
    const padding: real
    var xRange: Pair
    var yRange: Pair
    const innerTopLeft: Pair
    const innerSize: Pair

    /** The frame the conversions read; the ranges are read afresh on every
        call, so reassigning them changes later conversions. */
    function Coords(): Frame
      reads this
    {
      Frame(xRange, yRange, innerTopLeft, innerSize)
    }

    constructor (p: Canvas, size: Pair, xRange: Pair := (-1.0, 1.0), yRange: Pair := (-1.0, 1.0),
                 topLeft: Pair := (0.0, 0.0), padding: real := 2.0)
      ensures this.p == p && this.size == size && this.topLeft == topLeft && this.padding == padding
      ensures Coords() == InitialFrame(size, topLeft, padding, xRange, yRange)
    {
      this.p := p;
      this.size := size;
      this.topLeft := topLeft;
      this.padding := padding;
      this.xRange := xRange;
      this.yRange := yRange;
      this.innerTopLeft := (topLeft.0 + padding, topLeft.1 + padding);
      this.innerSize := (size.0 - 2.0 * padding, size.1 - 2.0 * padding);
    }

    /** `draw_point`: one circle at the point's canvas position. */
    method DrawPoint(x: real, y: real, radius: real := 10.0)
      requires Proper(Coords())
      modifies p
      ensures p.log == old(p.log) + [Circle(Cx(Coords(), x), Cy(Coords(), y), radius)]
    {
      p.Emit(Circle(Cx(Coords(), x), Cy(Coords(), y), radius));
    }

    /** `draw_line`: one line between the points' canvas positions. */
    method DrawLine(x1: real, y1: real, x2: real, y2: real)
      requires Proper(Coords())
      modifies p
      ensures p.log == old(p.log) + [LineCmd(Coords(), x1, y1, x2, y2)]
    {
      p.Emit(Line(Cx(Coords(), x1), Cy(Coords(), y1), Cx(Coords(), x2), Cy(Coords(), y2)));
    }

    /** `plot(x_arr, y_arr)`: joins consecutive points. */
    method LinePlot(xs: seq<real>, ys: seq<real>)
      requires Proper(Coords()) && |xs| <= |ys|
      modifies p
      ensures p.log == old(p.log) + Segments(Coords(), xs, ys)
    {
      var i := 1;
      while i < |xs|
        invariant 1 <= i && (|xs| == 0 || i <= |xs|)
        invariant p.log == old(p.log) + Segments(Coords(), xs[..if |xs| == 0 then 0 else i], ys)
      {
        DrawLine(xs[i - 1], ys[i - 1], xs[i], ys[i]);
        assert xs[..i + 1][..i] == xs[..i];
        i := i + 1;
      }
      assert xs[..if |xs| == 0 then 0 else i] == xs;
    }

    /** `scatter(x_arr, y_arr)`: one point per entry. */
    method Scatter(xs: seq<real>, ys: seq<real>, radius: real := 10.0)
      requires Proper(Coords()) && |xs| <= |ys|
      modifies p
      ensures p.log == old(p.log) + Dots(Coords(), xs, ys, radius)
    {
      for i := 0 to |xs|
        invariant p.log == old(p.log) + Dots(Coords(), xs[..i], ys, radius)
      {
        DrawPoint(xs[i], ys[i], radius);
        assert xs[..i + 1][..i] == xs[..i];
      }
      assert xs[..|xs|] == xs;
    }

    /** `_draw_arrowhead`: works in canvas coordinates and converts back to
        plot coordinates with `px`/`py` before drawing, which is lossless. */
    method DrawArrowhead(x: real, y: real, a: Angle, width: real := 10.0, length: real := 10.0)
      requires Invertible(Coords())
      modifies p
      ensures p.log == old(p.log) + ArrowheadLines(Cx(Coords(), x), Cy(Coords(), y), a, width, length)
    {
      var f := Coords();
      var xc, yc := Cx(f, x), Cy(f, y);
      var t1x, t1y := xc - length, yc + width;
      var t2x, t2y := xc - length, yc - width;
      var t1xRot := (t1x - xc) * Cos(a) + (t1y - yc) * Sin(a) + xc;
      var t1yRot := -(t1x - xc) * Sin(a) + (t1y - yc) * Cos(a) + yc;
      var t2xRot := (t2x - xc) * Cos(a) + (t2y - yc) * Sin(a) + xc;
      var t2yRot := -(t2x - xc) * Sin(a) + (t2y - yc) * Cos(a) + yc;
      XRoundTrip(f, 0.0, xc);
      XRoundTrip(f, 0.0, t1xRot);
      XRoundTrip(f, 0.0, t2xRot);
      YRoundTrip(f, 0.0, yc);
      YRoundTrip(f, 0.0, t1yRot);
      YRoundTrip(f, 0.0, t2yRot);
      DrawLine(Px(f, xc), Py(f, yc), Px(f, t1xRot), Py(f, t1yRot));
      DrawLine(Px(f, xc), Py(f, yc), Px(f, t2xRot), Py(f, t2yRot));
    }

    /** `draw_x_axis`: the axis line, then the end arrow, then the start arrow. */
    method DrawXAxis(range: Option<Pair> := None, startArrow: bool := true, endArrow: bool := true,
                     y: real := 0.0, arrowWidth: real := 5.0, arrowLength: real := 10.0)
      requires Proper(Coords())
      requires startArrow || endArrow ==> Invertible(Coords())
      modifies p
      ensures var f, r := Coords(), OrDefault(range, xRange);
        p.log == old(p.log) + [LineCmd(f, r.0, y, r.1, y)]
          + (if endArrow then ArrowheadLines(Cx(f, r.1), Cy(f, y), Zero, arrowWidth, arrowLength) else [])
          + (if startArrow then ArrowheadLines(Cx(f, r.0), Cy(f, y), Pi, arrowWidth, arrowLength) else [])
      ensures |p.log| == |old(p.log)| + 1 + (if endArrow then 2 else 0) + (if startArrow then 2 else 0)
    {
      var r := OrDefault(range, xRange);
      DrawLine(r.0, y, r.1, y);
      if endArrow {
        DrawArrowhead(r.1, y, Zero, arrowWidth, arrowLength);
      }
      if startArrow {
        DrawArrowhead(r.0, y, Pi, arrowWidth, arrowLength);
      }
    }

    /** `draw_y_axis`: the axis line, then the end arrow, then the start arrow. */
    method DrawYAxis(range: Option<Pair> := None, startArrow: bool := true, endArrow: bool := true,
                     x: real := 0.0, arrowWidth: real := 5.0, arrowLength: real := 10.0)
      requires Proper(Coords())
      requires startArrow || endArrow ==> Invertible(Coords())
      modifies p
      ensures var f, r := Coords(), OrDefault(range, yRange);
        p.log == old(p.log) + [LineCmd(f, x, r.0, x, r.1)]
          + (if endArrow then ArrowheadLines(Cx(f, x), Cy(f, r.1), HalfPi, arrowWidth, arrowLength) else [])
          + (if startArrow then ArrowheadLines(Cx(f, x), Cy(f, r.0), MinusHalfPi, arrowWidth, arrowLength) else [])
      ensures |p.log| == |old(p.log)| + 1 + (if endArrow then 2 else 0) + (if startArrow then 2 else 0)
    {
      var r := OrDefault(range, yRange);
      DrawLine(x, r.0, x, r.1);
      if endArrow {
        DrawArrowhead(x, r.1, HalfPi, arrowWidth, arrowLength);
      }
      if startArrow {
        DrawArrowhead(x, r.0, MinusHalfPi, arrowWidth, arrowLength);
      }
    }

    /** `draw_xticks`: a loop drawing every tick mark, then a loop drawing
        the labels, both over `interval[0] + k·spacing` for k >= 1 while
        below `interval[1]`. */
    method DrawXTicks(spacing: real := 0.1, y: real := 0.0, length: real := 8.0,
                      interval: Option<Pair> := None, labels: string := "below",
                      noLabelNear: Option<real> := None)
      requires Proper(Coords()) && spacing > 0.0
      modifies p
      ensures var iv := OrDefault(interval, xRange);
        var vs := Steps(iv.0 + spacing, iv.1, spacing, false);
        p.log == old(p.log) + Marks(Coords(), XTick(y, length), vs)
          + Marks(Coords(), XTickLabel(y, labels, noLabelNear), vs)
    {
      var iv := OrDefault(interval, xRange);
      DrawMarks(p, Coords(), XTick(y, length), iv.0 + spacing, iv.1, spacing, false);
      DrawMarks(p, Coords(), XTickLabel(y, labels, noLabelNear), iv.0 + spacing, iv.1, spacing, false);
    }

    /** `draw_yticks`: as `draw_xticks`, along the y axis. */
    method DrawYTicks(spacing: real := 0.1, x: real := 0.0, length: real := 8.0,
                      interval: Option<Pair> := None, labels: string := "left",
                      noLabelNear: Option<real> := None)
      requires Proper(Coords()) && spacing > 0.0
      modifies p
      ensures var iv := OrDefault(interval, yRange);
        var vs := Steps(iv.0 + spacing, iv.1, spacing, false);
        p.log == old(p.log) + Marks(Coords(), YTick(x, length), vs)
          + Marks(Coords(), YTickLabel(x, labels, noLabelNear), vs)
    {
      var iv := OrDefault(interval, yRange);
      DrawMarks(p, Coords(), YTick(x, length), iv.0 + spacing, iv.1, spacing, false);
      DrawMarks(p, Coords(), YTickLabel(x, labels, noLabelNear), iv.0 + spacing, iv.1, spacing, false);
    }

    /** `draw_grid`: vertical lines from `x_interval[0]` up to and including
        `x_interval[1]`, then horizontal lines likewise. */
    method DrawGrid(xInterval: Option<Pair> := None, yInterval: Option<Pair> := None,
                    xSpacing: real := 0.1, ySpacing: real := 0.1)
      requires Proper(Coords()) && xSpacing > 0.0 && ySpacing > 0.0
      modifies p
      ensures var xi, yi := OrDefault(xInterval, xRange), OrDefault(yInterval, yRange);
        p.log == old(p.log) + Marks(Coords(), GridColumn(yi), Steps(xi.0, xi.1, xSpacing, true))
          + Marks(Coords(), GridRow(xi), Steps(yi.0, yi.1, ySpacing, true))
    {
      var xi, yi := OrDefault(xInterval, xRange), OrDefault(yInterval, yRange);
      DrawMarks(p, Coords(), GridColumn(yi), xi.0, xi.1, xSpacing, true);
      DrawMarks(p, Coords(), GridRow(xi), yi.0, yi.1, ySpacing, true);
    }
  }

  // ---------------------------------------------------------------------
  // linspace

  /** `linspace(start, stop, num)`: `num` evenly spaced values. With
      `num == 1` the step divides by zero and the single value is NaN, which
      is `None` here. */
  function Linspace(start: real, stop: real, num: nat): Option<seq<real>>
  {
    if num == 1 then None
    else
      var step := (stop - start) / (num - 1) as real;
      Some(seq(num, i => start + step * i as real))
  }

  /** For at least two values the sequence starts at `start`, ends exactly at
      `stop`, and consecutive values are equally spaced; zero values give an
      empty array. */
  lemma LinspaceSpec(start: real, stop: real, num: nat)
    ensures Linspace(start, stop, num).Some? <==> num != 1
    ensures num != 1 ==> |Linspace(start, stop, num).value| == num
    ensures num >= 2 ==> var v := Linspace(start, stop, num).value;
      v[0] == start && v[num - 1] == stop
      && forall k :: 0 <= k < num - 1 ==> v[k + 1] - v[k] == (stop - start) / (num - 1) as real
  {
    if num >= 2 {
      LinspaceEnds(start, stop, num);
      LinspaceSpacing(start, stop, num);
    }
  }

  lemma LinspaceEnds(start: real, stop: real, num: nat)
    requires num >= 2
    ensures Linspace(start, stop, num).Some?
    ensures var v := Linspace(start, stop, num).value; |v| == num && v[0] == start && v[num - 1] == stop
  {
    var step := (stop - start) / (num - 1) as real;
    var v := seq(num, i => start + step * i as real);
    assert Linspace(start, stop, num) == Some(v);
    LinspaceLast(start, stop, num);
    assert v[num - 1] == start + step * (num - 1) as real;
    assert v[0] == start + step * 0 as real;
  }

  lemma LinspaceSpacing(start: real, stop: real, num: nat)
    requires num >= 2
    ensures Linspace(start, stop, num).Some?
    ensures var v := Linspace(start, stop, num).value;
      |v| == num && forall k :: 0 <= k < num - 1 ==> v[k + 1] - v[k] == (stop - start) / (num - 1) as real
  {
    var step := (stop - start) / (num - 1) as real;
    var v := seq(num, i => start + step * i as real);
    assert Linspace(start, stop, num) == Some(v);
    forall k | 0 <= k < num - 1 ensures v[k + 1] - v[k] == step {
      LinspaceStep(start, step, k);
    }
  }

  /** The last value: `num - 1` steps of `(stop - start) / (num - 1)`. */
  lemma LinspaceLast(start: real, stop: real, num: nat)
    requires num >= 2
    ensures start + (stop - start) / (num - 1) as real * (num - 1) as real == stop
  {
    var n := (num - 1) as real;
    assert (stop - start) / n * n == stop - start;
  }

  lemma LinspaceStep(start: real, step: real, k: nat)
    ensures (start + step * (k + 1) as real) - (start + step * k as real) == step
  {
    assert (k + 1) as real == k as real + 1.0;
    assert step * (k as real + 1.0) == step * k as real + step;
  }

  // ---------------------------------------------------------------------
  // PlotTeX

  /** The offset `setPosition` adds so that the point named by `anchor` of an
      element of the given size lands on the target; an unknown anchor
      leaves the offset at zero (top-left). */
  function AnchorOffset(anchor: string, width: real, height: real): Pair
  {
    if anchor == "center" then (-width / 2.0, -height / 2.0)
    else if anchor == "top-left" then (0.0, 0.0)
    else if anchor == "top-right" then (-width, 0.0)
    else if anchor == "bottom-left" then (0.0, -height)
    else if anchor == "bottom-right" then (-width, -height)
    else if anchor == "top" then (-width / 2.0, 0.0)
    else if anchor == "bottom" then (-width / 2.0, -height)
    else if anchor == "left" then (0.0, -height / 2.0)
    else if anchor == "right" then (-width, -height / 2.0)
    else (0.0, 0.0)
  }

  predicate KnownAnchor(anchor: string)
  {
    anchor in ["center", "top-left", "top-right", "bottom-left", "bottom-right", "top", "bottom", "left", "right"]
  }

  /** Horizontal position of the anchor inside the element, read off the
      anchor's name: 0 at the left edge, 1 at the right edge, 1/2 otherwise. */
  function HFraction(anchor: string): real
  {
    if EndsWith(anchor, "right") then 1.0 else if EndsWith(anchor, "left") then 0.0 else 0.5
  }

  /** Vertical position of the anchor, read off the anchor's name. */
  function VFraction(anchor: string): real
  {
    if "top" <= anchor then 0.0 else if "bottom" <= anchor then 1.0 else 0.5
  }

  /** For each of the nine anchors, the offset moves the named point of the
      element (by its name's words) onto the target; any other anchor
      places the element's top-left corner there. */
  lemma AnchorSpec(anchor: string, width: real, height: real)
    ensures KnownAnchor(anchor) ==>
      AnchorOffset(anchor, width, height) == (-HFraction(anchor) * width, -VFraction(anchor) * height)
    ensures !KnownAnchor(anchor) ==> AnchorOffset(anchor, width, height) == (0.0, 0.0)
  {
    if KnownAnchor(anchor) {
      AnchorFractions(anchor, width, height);
    }
  }

  lemma AnchorFractions(anchor: string, width: real, height: real)
    requires KnownAnchor(anchor)
    ensures AnchorOffset(anchor, width, height) == (-HFraction(anchor) * width, -VFraction(anchor) * height)
  {
    AnchorHorizontal(anchor, width, height);
    AnchorVertical(anchor, width, height);
  }

  /** The horizontal half of AnchorFractions: the name's ending decides. */
  lemma AnchorHorizontal(anchor: string, width: real, height: real)
    requires KnownAnchor(anchor)
    ensures AnchorOffset(anchor, width, height).0 == -HFraction(anchor) * width
  {
    if anchor == "center" || anchor == "top" || anchor == "bottom" {
      LastCharDiffers(anchor, "right");
      LastCharDiffers(anchor, "left");
    } else if anchor == "top-left" {
      assert anchor[3..] == "-left" && anchor[3] != 'r';
      assert anchor[4..] == "left";
    } else if anchor == "top-right" {
      assert anchor[4..] == "right";
    } else if anchor == "bottom-left" {
      assert anchor[6..] == "-left" && anchor[6] != 'r';
      assert anchor[7..] == "left";
    } else if anchor == "bottom-right" {
      assert anchor[7..] == "right";
    }
  }

  /** The vertical half of AnchorFractions: the name's beginning decides. */
  lemma AnchorVertical(anchor: string, width: real, height: real)
    requires KnownAnchor(anchor)
    ensures AnchorOffset(anchor, width, height).1 == -VFraction(anchor) * height
  {
    if anchor == "top-left" || anchor == "top-right" {
      assert anchor[..3] == "top";
    } else if anchor == "bottom-left" || anchor == "bottom-right" {
      assert anchor[0] != 't' && anchor[..6] == "bottom";
    } else if anchor == "bottom" {
      assert anchor[0] != 't';
    } else if anchor != "top" {
      assert anchor[0] != 't' && anchor[0] != 'b';
    }
  }

  lemma LastCharDiffers(s: string, suffix: string)
    requires |s| > 0 && |suffix| > 0 && s[|s| - 1] != suffix[|suffix| - 1]
    ensures !EndsWith(s, suffix)
  {
    if |suffix| <= |s| {
      assert s[|s| - |suffix|..][|suffix| - 1] == s[|s| - 1];
    }
  }

  /** The page position `setPosition` gives an element: the point's canvas
      position (`page_x`, `page_y`) plus the canvas's page offset plus the
      anchor offset. */
  function Placement(f: Frame, x: real, y: real, anchor: string, width: real, height: real,
                     canvasLeft: real, canvasTop: real): Pair
    requires Proper(f)
  {
    var d := AnchorOffset(anchor, width, height);
    (Cx(f, x) + canvasLeft + d.0, Cy(f, y) + canvasTop + d.1)
  }

  /** A label anchored at its centre at the plot origin sits at the origin's
      pixel position plus the page offset minus half its measured size. */
  lemma CenteredLabel(f: Frame, width: real, height: real, canvasLeft: real, canvasTop: real)
    requires Proper(f)
    ensures Placement(f, 0.0, 0.0, "center", width, height, canvasLeft, canvasTop)
      == (Cx(f, 0.0) + canvasLeft - width / 2.0, Cy(f, 0.0) + canvasTop - height / 2.0)
  {
  }

  /** `PlotTeX`: one absolutely positioned element per text; `positions[i]`
      is where element i was last placed. The element sizes and the canvas's
      page offset are measurements of the page, passed in. */
  class PlotTeX {
    const plot: Plot
    var positions: seq<Option<Pair>>

    constructor (plot: Plot, count: nat)
      ensures this.plot == plot && |positions| == count
      ensures forall k :: 0 <= k < count ==> positions[k] == None
    {
      this.plot := plot;
      positions := seq(count, _ => None);
    }

    /** `setPosition(i, x, y, anchor)`: fails (the lookup of a missing
        element throws) when there is no element i, and otherwise moves only
        element i. */
    method SetPosition(i: int, x: real, y: real, width: real, height: real,
                       canvasLeft: real, canvasTop: real, anchor: string := "center") returns (ok: bool)
      requires Proper(plot.Coords())
      modifies this
      ensures ok <==> 0 <= i < |old(positions)|
      ensures ok ==> positions == old(positions)[i := Some(Placement(plot.Coords(), x, y, anchor, width, height, canvasLeft, canvasTop))]
      ensures !ok ==> positions == old(positions)
    {
      if !(0 <= i < |positions|) {
        return false;
      }
      var d := AnchorOffset(anchor, width, height);
      var f := plot.Coords();
      positions := positions[i := Some((Cx(f, x) + canvasLeft + d.0, Cy(f, y) + canvasTop + d.1))];
      ok := true;
    }
  }
}
