/** What the theme scripts share: setting one property on every element a
    selector found, the fold icon's two images, and its rotation. */
module Dom {
  /** `elements.forEach(e => e.property = v)` over the elements' values of
      that property. */
  method SetAll<T>(a: array<T>, v: T)
    modifies a
    ensures forall k :: 0 <= k < a.Length ==> a[k] == v
  {
    for i := 0 to a.Length
      invariant forall k :: 0 <= k < i ==> a[k] == v
    {
      a[i] := v;
    }
  }

  /** An image source as the scripts see it: the fold icon, an SVG chevron
      in a data URL drawn with the given stroke colour, or any other URL
      the page was written with. */
  datatype Src = Chevron(stroke: string) | Url(url: string)

  /** The data URL's text before and after the stroke colour. */
  const ChevronHead: string := "data:image/svg+xml,%3csvg xmlns='http://www.w3.org/2000/svg' width='16' height='16' viewBox='0 0 16 16'%3e%3cpath fill='none' stroke='"
  const ChevronTail: string := "' stroke-linecap='round' stroke-linejoin='round' stroke-width='2' d='M5 14l6-6-6-6'/%3e%3c/svg%3e"

  /** The text of the source. */
  function SrcText(s: Src): string
  {
    match s
    case Chevron(stroke) => ChevronHead + stroke + ChevronTail
    case Url(url) => url
  }

  const WhiteStroke: string := "rgba%28255,255,255,.5%29"
  const BlackStroke: string := "rgba%280,0,0,.5%29"

  /** The fold icon's source: a white chevron on the dark theme, a black one
      on the light theme. */
  function IconSrc(dark: bool): Src
  {
    if dark then Chevron(WhiteStroke) else Chevron(BlackStroke)
  }

  /** The two icons' texts differ, so the icon tells which theme it was
      drawn for. */
  lemma IconSrcInjective(d1: bool, d2: bool)
    ensures SrcText(IconSrc(d1)) == SrcText(IconSrc(d2)) <==> d1 == d2
  {
    if d1 != d2 {
      StrokeAt(WhiteStroke);
      StrokeAt(BlackStroke);
      assert WhiteStroke[7] != BlackStroke[7];
    }
  }

  /** Character 7 of a chevron's stroke is character `|ChevronHead| + 7`
      of its text. */
  lemma StrokeAt(stroke: string)
    requires |stroke| > 7
    ensures SrcText(Chevron(stroke))[|ChevronHead| + 7] == stroke[7]
  {
    assert SrcText(Chevron(stroke)) == ChevronHead + stroke + ChevronTail;
  }

  /** The fold icon's rotation: 90 degrees exactly when the button's
      `aria-expanded` attribute is the text `true`. */
  function Angle(ariaExpanded: Attr): (angle: int)
    ensures angle == 90 || angle == 0
  {
    if ariaExpanded == Present("true") then 90 else 0
  }

  /** `rotate(${angle}deg)` for the two angles used. */
  function Rotate(angle: int): string
    requires angle == 90 || angle == 0
  {
    "rotate(" + (if angle == 90 then "90" else "0") + "deg)"
  }

  /** A DOM attribute, which `getAttribute` reads as `null` when absent. */
  datatype Attr = Absent | Present(text: string)

  const Animated: string := "transform 0.35s ease"
  const NoTransition: string := "none"

  /** The style properties the scripts set on a fold icon. */
  datatype IconStyle = IconStyle(transform: string, transition: string)

  lemma RotateSpec(ariaExpanded: Attr)
    ensures Rotate(Angle(ariaExpanded)) == "rotate(90deg)" <==> ariaExpanded == Present("true")
    ensures Rotate(Angle(ariaExpanded)) == "rotate(0deg)" <==> ariaExpanded != Present("true")
  {
    if ariaExpanded == Present("true") {
      assert Rotate(90) == "rotate(90deg)";
      assert "rotate(90deg)" != "rotate(0deg)" by { assert "rotate(90deg)"[7] != "rotate(0deg)"[7]; }
    } else {
      assert Rotate(0) == "rotate(0deg)";
      assert "rotate(90deg)" != "rotate(0deg)" by { assert "rotate(90deg)"[7] != "rotate(0deg)"[7]; }
    }
  }
}
