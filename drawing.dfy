/** The drawing surface the plotting code talks to (a p5 sketch), reduced to
    the log of primitive calls it receives, and the sequence of positions a
    `while (x < hi) { ...; x += s; }` loop visits. */
module Drawing {

  /** Text alignment constants of p5 (`CENTER`, `TOP`, ...). */
  datatype Align = Left | Center | Right | Top | Bottom

  /** One call into p5. Styling callbacks (`tickStyler`, `labelStyler`) are
      opaque: only the position they are called with is recorded. A label
      records the plot-space value that `labelFormatter` is given. */
  datatype Cmd =
    | Line(x1: real, y1: real, x2: real, y2: real)
    | Circle(cx: real, cy: real, d: real)
    | Point(px: real, py: real)
    | TextAlign(h: Align, v: Align)
    | Label(value: real, x: real, y: real)
    | TickStyle(at: real)
    | LabelStyle(at: real)

  /** The p5 instance a plot draws on: every drawing call is appended to `log`. */
  class Canvas {
    var log: seq<Cmd>

    constructor ()
      ensures log == []
    {
      log := [];
    }

    method Emit(c: Cmd)
      modifies this
      ensures log == old(log) + [c]
    {
      log := log + [c];
    }

    /** Several calls in a row. */
    method EmitAll(cs: seq<Cmd>)
      modifies this
      ensures log == old(log) + cs
    {
      log := log + cs;
    }
  }

  function Abs(v: real): real
  {
    if v < 0.0 then -v else v
  }

  /** The loop test: `x < hi`, or `x <= hi` for the grid loops. */
  predicate Below(x: real, hi: real, inclusive: bool)
  {
    if inclusive then x <= hi else x < hi
  }

  /** An upper bound on the iterations left to a loop at `x` stepping by `s`. */
  function Remaining(x: real, hi: real, s: real): nat
    requires s > 0.0
  {
    if x <= hi then ((hi - x) / s).Floor + 1 else 0
  }

  lemma DivideProduct(a: real, b: real, s: real)
    requires s != 0.0 && a == b * s
    ensures a / s == b
  {
  }

  lemma RemainingDecreases(x: real, hi: real, s: real)
    requires s > 0.0 && x <= hi
    ensures Remaining(x + s, hi, s) < Remaining(x, hi, s)
  {
    if x + s <= hi {
      var q := (hi - x) / s;
      assert q * s == hi - x;
      assert (q - 1.0) * s == hi - (x + s);
      DivideProduct(hi - (x + s), q - 1.0, s);
    }
  }

  /** The values a loop variable takes from `x` while `Below(_, hi, inclusive)`,
      adding `s` after each iteration. */
  function Steps(x: real, hi: real, s: real, inclusive: bool): seq<real>
    requires s > 0.0
    decreases Remaining(x, hi, s)
  {
    if Below(x, hi, inclusive) then
      RemainingDecreases(x, hi, s);
      [x] + Steps(x + s, hi, s, inclusive)
    else []
  }

  lemma StepsUnfold(x: real, hi: real, s: real, inclusive: bool)
    requires s > 0.0 && Below(x, hi, inclusive)
    ensures Steps(x, hi, s, inclusive) == [x] + Steps(x + s, hi, s, inclusive)
  {
  }

  lemma StepsLength(x: real, hi: real, s: real, inclusive: bool)
    requires s > 0.0 && Below(x, hi, inclusive)
    ensures |Steps(x, hi, s, inclusive)| == |Steps(x + s, hi, s, inclusive)| + 1
  {
    StepsUnfold(x, hi, s, inclusive);
  }

  lemma StepsEnd(x: real, hi: real, s: real, inclusive: bool)
    requires s > 0.0 && !Below(x, hi, inclusive)
    ensures Steps(x, hi, s, inclusive) == []
  {
  }

  lemma ShiftStep(x: real, s: real, k: nat)
    requires k > 0
    ensures (x + s) + (k - 1) as real * s == x + k as real * s
  {
  }

  /** The k-th visited value is `x + k·s`, and every visited value passes
      the loop test. */
  lemma {:induction false} StepsValues(x: real, hi: real, s: real, inclusive: bool)
    requires s > 0.0
    ensures forall k :: 0 <= k < |Steps(x, hi, s, inclusive)| ==>
      Steps(x, hi, s, inclusive)[k] == x + k as real * s && Below(Steps(x, hi, s, inclusive)[k], hi, inclusive)
    decreases Remaining(x, hi, s)
  {
    if Below(x, hi, inclusive) {
      RemainingDecreases(x, hi, s);
      StepsValues(x + s, hi, s, inclusive);
      StepsUnfold(x, hi, s, inclusive);
      var r, rest := Steps(x, hi, s, inclusive), Steps(x + s, hi, s, inclusive);
      forall k | 0 <= k < |r|
        ensures r[k] == x + k as real * s && Below(r[k], hi, inclusive)
      {
        if k > 0 {
          assert r[k] == rest[k - 1];
          ShiftStep(x, s, k);
        }
      }
    } else {
      StepsEnd(x, hi, s, inclusive);
    }
  }

  /** `x` advanced by `k` steps of `s`, one addition at a time. */
  function Advance(x: real, s: real, k: nat): real
    decreases k
  {
    if k == 0 then x else Advance(x + s, s, k - 1)
  }

  lemma {:induction false} AdvanceProduct(x: real, s: real, k: nat)
    ensures Advance(x, s, k) == x + k as real * s
    decreases k
  {
    if k > 0 {
      AdvanceProduct(x + s, s, k - 1);
      ShiftStep(x, s, k);
    }
  }

  /** StepsStop with the stop position reached by repeated addition. */
  lemma {:induction false} StepsStopAdvance(x: real, hi: real, s: real, inclusive: bool)
    requires s > 0.0
    ensures !Below(Advance(x, s, |Steps(x, hi, s, inclusive)|), hi, inclusive)
    decreases |Steps(x, hi, s, inclusive)|
  {
    if Below(x, hi, inclusive) {
      StepsLength(x, hi, s, inclusive);
      StepsStopAdvance(x + s, hi, s, inclusive);
    } else {
      StepsEnd(x, hi, s, inclusive);
    }
  }

  /** The first value not visited fails the loop test. */
  lemma {:induction false} StepsStop(x: real, hi: real, s: real, inclusive: bool)
    requires s > 0.0
    ensures !Below(x + |Steps(x, hi, s, inclusive)| as real * s, hi, inclusive)
  {
    StepsStopAdvance(x, hi, s, inclusive);
    AdvanceProduct(x, s, |Steps(x, hi, s, inclusive)|);
  }

  /** The loop visits exactly the values `x + k·s` that pass its test, in
      order, and stops at the first that fails it. */
  lemma StepsSpec(x: real, hi: real, s: real, inclusive: bool)
    requires s > 0.0
    ensures forall k :: 0 <= k < |Steps(x, hi, s, inclusive)| ==>
      Steps(x, hi, s, inclusive)[k] == x + k as real * s && Below(Steps(x, hi, s, inclusive)[k], hi, inclusive)
    ensures !Below(x + |Steps(x, hi, s, inclusive)| as real * s, hi, inclusive)
  {
    StepsValues(x, hi, s, inclusive);
    StepsStop(x, hi, s, inclusive);
  }
}
