/** The ml4p theme's page script (ext/ml4p/html_theme/static/js/ml4p.js):
    the `data-bs-theme` attribute of the root element is the theme, and the
    dark-mode toggles, the sidebar's fold icons and the generated figure
    images follow it. */
module Ml4pTheme {
  import opened Text
  import opened Dom

  /** The `localStorage` key the chosen theme is kept under. */
  const StorageKey: string := "ml4p-theme"

  /** `getTheme`: the attribute, or `light` when it is missing or empty. */
  function GetTheme(attribute: Attr): (theme: string)
    ensures theme != ""
    ensures theme == "light" <==> attribute == Absent || attribute == Present("") || attribute == Present("light")
    ensures attribute.Present? && attribute.text != "" ==> theme == attribute.text
  {
    if attribute.Present? && attribute.text != "" then attribute.text else "light"
  }

  // ---------------------------------------------------------------------
  // Generated images: `-light.png` / `-dark.png`

  /** The source ends in one of the two theme suffixes the regular
      expression `-(light|dark)\.png$` matches. */
  predicate Themed(src: string)
  {
    EndsWith(src, "-light.png") || EndsWith(src, "-dark.png")
  }

  /** The source without its theme suffix. */
  function Stem(src: string): string
    requires Themed(src)
  {
    if EndsWith(src, "-light.png") then src[..|src| - 10] else src[..|src| - 9]
  }

  /** The new source `updateGeneratedImageColor` computes: the theme suffix
      replaced by `-<theme>.png`. */
  function NewSrc(src: string, theme: string): string
  {
    if Themed(src) then Stem(src) + "-" + theme + ".png" else src
  }

  /** A theme word longer than `w` puts one of its own letters where the
      hyphen of `-<w>.png` would have to be. */
  lemma LongerWordMismatch(stem: string, t: string, w: string)
    requires '-' !in t && |t| > |w|
    ensures !EndsWith(stem + "-" + t + ".png", "-" + w + ".png")
  {
    var r := stem + "-" + t + ".png";
    var l := "-" + w + ".png";
    var base := |r| - |l|;
    assert r[base] == (stem + "-" + t)[base] == t[base - |stem| - 1];
    assert r[base..][0] != l[0];
  }

  /** A theme word shorter than `w` puts the hyphen before it where one of
      the letters of `w` would have to be. */
  lemma ShorterWordMismatch(stem: string, t: string, w: string)
    requires '-' !in w && |t| < |w|
    ensures !EndsWith(stem + "-" + t + ".png", "-" + w + ".png")
  {
    var r := stem + "-" + t + ".png";
    var l := "-" + w + ".png";
    if |l| <= |r| {
      var base := |r| - |l|;
      var k := |stem| - base;
      assert r[|stem|] == (stem + "-")[|stem|] == '-';
      assert l[k] == w[k - 1];
      assert r[base..][k] != l[k];
    }
  }

  /** Two theme words of the same length agree where the suffixes do. */
  lemma SameLengthWordMismatch(stem: string, t: string, w: string)
    requires |t| == |w| && t != w
    ensures !EndsWith(stem + "-" + t + ".png", "-" + w + ".png")
  {
    var r := stem + "-" + t + ".png";
    var l := "-" + w + ".png";
    var j :| 0 <= j < |t| && t[j] != w[j];
    assert r[|stem|..] == "-" + t + ".png";
    assert r[|stem|..][1 + j] != l[1 + j];
  }

  /** Whether `stem-<t>.png` ends with `-<w>.png` is decided by `t == w`
      alone, as long as neither word holds a hyphen. */
  lemma SuffixDecides(stem: string, t: string, w: string)
    requires '-' !in t && '-' !in w
    ensures EndsWith(stem + "-" + t + ".png", "-" + w + ".png") <==> t == w
  {
    var r := stem + "-" + t + ".png";
    var l := "-" + w + ".png";
    if t == w {
      assert r == stem + l;
      assert r[|r| - |l|..] == l;
    } else if |t| > |w| {
      LongerWordMismatch(stem, t, w);
    } else if |t| < |w| {
      ShorterWordMismatch(stem, t, w);
    } else {
      SameLengthWordMismatch(stem, t, w);
    }
  }

  /** A source without a theme suffix is left alone. */
  lemma NewSrcUnthemed(src: string, theme: string)
    requires !Themed(src)
    ensures NewSrc(src, theme) == src
  {
  }

  /** A themed source keeps its stem and gets the theme's suffix. */
  lemma NewSrcThemed(src: string, theme: string)
    requires Themed(src)
    ensures EndsWith(NewSrc(src, theme), "-" + theme + ".png")
    ensures NewSrc(src, theme)[..|Stem(src)|] == Stem(src)
    ensures src == Stem(src) + (if EndsWith(src, "-light.png") then "-light.png" else "-dark.png")
  {
    var r := NewSrc(src, theme);
    var l := "-" + theme + ".png";
    assert r == Stem(src) + l;
    assert r[|r| - |l|..] == l;
    if EndsWith(src, "-light.png") {
      assert src == src[..|src| - 10] + src[|src| - 10..];
    } else {
      assert src == src[..|src| - 9] + src[|src| - 9..];
    }
  }

  /** The stem of a source the update produced is the stem it started from,
      when the theme is one of the two the suffix names. */
  lemma StemOfNewSrc(src: string, theme: string)
    requires Themed(src) && (theme == "light" || theme == "dark")
    ensures Themed(NewSrc(src, theme)) && Stem(NewSrc(src, theme)) == Stem(src)
  {
    var s := Stem(src);
    assert NewSrc(src, theme) == s + "-" + theme + ".png";
    if theme == "light" {
      assert s + "-" + theme + ".png" == s + "-light.png";
      StemOfLight(s);
    } else {
      assert s + "-" + theme + ".png" == s + "-dark.png";
      StemOfDark(s);
    }
  }

  lemma StemOfLight(s: string)
    ensures Themed(s + "-light.png") && Stem(s + "-light.png") == s
  {
    var r := s + "-light.png";
    assert r[|r| - 10..] == "-light.png";
    assert r[..|r| - 10] == s;
  }

  lemma StemOfDark(s: string)
    ensures Themed(s + "-dark.png") && Stem(s + "-dark.png") == s
  {
    var r := s + "-dark.png";
    assert r == s + "-" + "dark" + ".png";
    SuffixDecides(s, "dark", "light");
    assert "-" + "light" + ".png" == "-light.png";
    assert !EndsWith(r, "-light.png");
    assert r[|r| - 9..] == "-dark.png";
    assert r[..|r| - 9] == s;
  }

  /** Switching a themed image to one theme and then to another is the same
      as switching it to the second directly; in particular switching to
      dark and back to light restores a `-light.png` source. */
  lemma NewSrcSwitch(src: string, t1: string, t2: string)
    requires Themed(src) && (t1 == "light" || t1 == "dark")
    ensures NewSrc(NewSrc(src, t1), t2) == NewSrc(src, t2)
  {
    StemOfNewSrc(src, t1);
  }

  lemma LightDarkLight(src: string)
    requires EndsWith(src, "-light.png")
    ensures NewSrc(NewSrc(src, "dark"), "light") == src
  {
    var s := src[..|src| - 10];
    assert src == s + "-light.png" by {
      assert src == s + src[|src| - 10..];
    }
    StemOfLight(s);
    var d := NewSrc(src, "dark");
    assert d == s + "-" + "dark" + ".png";
    assert d == s + "-dark.png";
    StemOfDark(s);
    assert NewSrc(d, "light") == s + "-" + "light" + ".png";
  }

  /** Updating twice with the same theme is updating once, for every theme
      without a hyphen in it. */
  lemma NewSrcIdempotent(src: string, theme: string)
    requires '-' !in theme
    ensures NewSrc(NewSrc(src, theme), theme) == NewSrc(src, theme)
  {
    if Themed(src) {
      if theme == "light" || theme == "dark" {
        NewSrcSwitch(src, theme, theme);
      } else {
        OtherThemeUnthemed(src, theme);
      }
    }
  }

  /** With any other theme the result no longer carries a theme suffix. */
  lemma OtherThemeUnthemed(src: string, theme: string)
    requires Themed(src) && '-' !in theme && theme != "light" && theme != "dark"
    ensures !Themed(NewSrc(src, theme))
  {
    assert NewSrc(src, theme) == Stem(src) + "-" + theme + ".png";
    ThemedIff(Stem(src), theme);
  }

  /** `<stem>-<t>.png` carries a theme suffix exactly when `t` is one of the
      two theme names, as long as `t` holds no hyphen. */
  lemma ThemedIff(stem: string, t: string)
    requires '-' !in t
    ensures Themed(stem + "-" + t + ".png") <==> t == "light" || t == "dark"
  {
    SuffixDecides(stem, t, "light");
    assert "-" + "light" + ".png" == "-light.png";
    SuffixDecides(stem, t, "dark");
    assert "-" + "dark" + ".png" == "-dark.png";
  }

  // ---------------------------------------------------------------------
  // The page

  /** The parts of the document the script reads and writes. The fold icon
      inside each sidebar button is described by that button's entry in
      `iconStyles`; `foldIcons` holds the sources of all fold icons, and
      `expanded` the buttons' `aria-expanded` attributes as the page was
      loaded. */
  class Page {
    var themeAttribute: Attr
    var storage: map<string, string>
    const toggles: array<bool>
    const foldIcons: array<Src>
    const expanded: seq<Attr>
    const iconStyles: array<IconStyle>
    const images: array<string>
    const headerLinks: array<string>

    /** The two string arrays are distinct elements' properties, and there
        is one icon style per sidebar button. */
    predicate Valid()
      reads this
    {
      iconStyles.Length == |expanded|
      && images != headerLinks
    }

    constructor (themeAttribute: Attr, storage: map<string, string>, toggles: array<bool>,
                 foldIcons: array<Src>, expanded: seq<Attr>, iconStyles: array<IconStyle>,
                 images: array<string>, headerLinks: array<string>)
      requires iconStyles.Length == |expanded|
      requires images != headerLinks
      ensures Valid()
      ensures this.themeAttribute == themeAttribute && this.storage == storage
      ensures this.toggles == toggles && this.foldIcons == foldIcons && this.expanded == expanded
      ensures this.iconStyles == iconStyles && this.images == images && this.headerLinks == headerLinks
    {
      this.themeAttribute := themeAttribute;
      this.storage := storage;
      this.toggles := toggles;
      this.foldIcons := foldIcons;
      this.expanded := expanded;
      this.iconStyles := iconStyles;
      this.images := images;
      this.headerLinks := headerLinks;
    }

    function Theme(): string
      reads this
    {
      GetTheme(themeAttribute)
    }

    /** Toggles, fold icons and images all show the current theme. */
    predicate InSync()
      reads this, toggles, foldIcons, images
    {
      (forall k :: 0 <= k < toggles.Length ==> toggles[k] == (Theme() == "dark"))
      && (forall k :: 0 <= k < foldIcons.Length ==> foldIcons[k] == IconSrc(Theme() == "dark"))
      && (forall k :: 0 <= k < images.Length ==> NewSrc(images[k], Theme()) == images[k])
    }

    /** `setTheme`: the attribute and the stored preference both become the
        given theme. */
    method SetTheme(theme: string)
      modifies this`themeAttribute, this`storage
      ensures themeAttribute == Present(theme)
      ensures storage == old(storage)[StorageKey := theme]
      ensures theme != "" ==> Theme() == theme
    {
      themeAttribute := Present(theme);
      storage := storage[StorageKey := theme];
    }

    /** `updateThemeModeToggles`: a toggle is on exactly on the dark theme. */
    method UpdateThemeModeToggles()
      modifies toggles
      ensures forall k :: 0 <= k < toggles.Length ==> toggles[k] == (Theme() == "dark")
    {
      SetAll(toggles, Theme() == "dark");
    }

    /** The change handler of toggle `i`. */
    method ToggleChanged(i: nat)
      requires i < toggles.Length
      modifies this`themeAttribute, this`storage, toggles
      ensures Theme() == (if old(toggles[i]) then "dark" else "light")
      ensures themeAttribute == Present(Theme())
      ensures storage == old(storage)[StorageKey := Theme()]
      ensures forall k :: 0 <= k < toggles.Length ==> toggles[k] == old(toggles[i])
    {
      var theme := if toggles[i] then "dark" else "light";
      SetTheme(theme);
      UpdateThemeModeToggles();
    }

    /** `updateFoldIconColors`. */
    method UpdateFoldIconColors()
      modifies foldIcons
      ensures forall k :: 0 <= k < foldIcons.Length ==> foldIcons[k] == IconSrc(Theme() == "dark")
    {
      SetAll(foldIcons, IconSrc(Theme() == "dark"));
    }

    /** `updateFoldIconRotation` for sidebar button `b`, whose
        `aria-expanded` attribute reads `ariaExpanded` at the time of the
        call. */
    method UpdateFoldIconRotation(b: nat, ariaExpanded: Attr, animate: bool)
      requires Valid() && b < |expanded|
      modifies iconStyles
      ensures iconStyles[b] == IconStyle(Rotate(Angle(ariaExpanded)), if animate then Animated else NoTransition)
      ensures forall k :: 0 <= k < iconStyles.Length && k != b ==> iconStyles[k] == old(iconStyles[k])
    {
      var angle := Angle(ariaExpanded);
      iconStyles[b] := IconStyle(Rotate(angle), if animate then Animated else NoTransition);
    }

    /** The click handler of sidebar button `b`. The collapse toggle changes
        the button's `aria-expanded` from click to click, and the handler
        reads it afresh: `ariaExpanded` is its value at the click. */
    method SidebarButtonClicked(b: nat, ariaExpanded: Attr)
      requires Valid() && b < |expanded|
      modifies iconStyles
      ensures iconStyles[b] == IconStyle(Rotate(Angle(ariaExpanded)), Animated)
      ensures forall k :: 0 <= k < iconStyles.Length && k != b ==> iconStyles[k] == old(iconStyles[k])
    {
      UpdateFoldIconRotation(b, ariaExpanded, true);
    }

    /** `setupFoldIcons`: every icon gets the theme's colour and every
        button's icon its rotation, without animation. */
    method SetupFoldIcons()
      requires Valid()
      modifies foldIcons, iconStyles
      ensures forall k :: 0 <= k < foldIcons.Length ==> foldIcons[k] == IconSrc(Theme() == "dark")
      ensures forall b :: 0 <= b < iconStyles.Length ==> iconStyles[b] == IconStyle(Rotate(Angle(expanded[b])), NoTransition)
    {
      UpdateFoldIconColors();
      ghost var src := IconSrc(Theme() == "dark");
      for b := 0 to |expanded|
        invariant forall k :: 0 <= k < foldIcons.Length ==> foldIcons[k] == src
        invariant forall k :: 0 <= k < b ==> iconStyles[k] == IconStyle(Rotate(Angle(expanded[k])), NoTransition)
      {
        UpdateFoldIconRotation(b, expanded[b], false);
      }
    }

    /** `updateGeneratedImageColor` for image `i`; the source is assigned
        only when it changes, which `reassigned` reports. */
    method UpdateGeneratedImageColor(i: nat, theme: string) returns (reassigned: bool)
      requires i < images.Length
      modifies images
      ensures images[i] == NewSrc(old(images[i]), theme)
      ensures forall k :: 0 <= k < images.Length && k != i ==> images[k] == old(images[k])
      ensures reassigned <==> NewSrc(old(images[i]), theme) != old(images[i])
    {
      var newSrc := NewSrc(images[i], theme);
      reassigned := newSrc != images[i];
      if reassigned {
        images[i] := newSrc;
      }
    }

    /** `initializeGeneratedImage`, the image's load handler. */
    method InitializeGeneratedImage(i: nat)
      requires i < images.Length
      modifies images
      ensures images[i] == NewSrc(old(images[i]), Theme())
      ensures forall k :: 0 <= k < images.Length && k != i ==> images[k] == old(images[k])
      ensures '-' !in Theme() ==> NewSrc(images[i], Theme()) == images[i]
    {
      var _ := UpdateGeneratedImageColor(i, Theme());
      if '-' !in Theme() {
        NewSrcIdempotent(old(images[i]), Theme());
      }
    }

    /** The listeners of `ml4p-theme-changed`, in the order they were
        installed: fold icon colours, toggles, generated images. Afterwards
        everything shows the theme. */
    method ThemeChanged()
      requires Valid() && '-' !in Theme()
      modifies foldIcons, toggles, images
      ensures InSync()
      ensures forall k :: 0 <= k < images.Length ==> images[k] == NewSrc(old(images[k]), Theme())
    {
      UpdateFoldIconColors();
      UpdateThemeModeToggles();
      var theme := Theme();
      ghost var src := IconSrc(theme == "dark");
      for i := 0 to images.Length
        invariant forall k :: 0 <= k < foldIcons.Length ==> foldIcons[k] == src
        invariant forall k :: 0 <= k < toggles.Length ==> toggles[k] == (theme == "dark")
        invariant forall k :: 0 <= k < i ==> images[k] == NewSrc(old(images[k]), theme)
        invariant forall k :: i <= k < images.Length ==> images[k] == old(images[k])
      {
        var _ := UpdateGeneratedImageColor(i, theme);
      }
      forall k | 0 <= k < images.Length ensures NewSrc(images[k], theme) == images[k] {
        NewSrcIdempotent(old(images[k]), theme);
      }
    }

    /** `changeAllHeaderLinkCharacters`. */
    method ChangeAllHeaderLinkCharacters()
      modifies headerLinks
      ensures forall k :: 0 <= k < headerLinks.Length ==> headerLinks[k] == "#"
    {
      SetAll(headerLinks, "#");
    }

    /** The `DOMContentLoaded` handler; installing the listeners is the
        methods above. */
    method Load()
      requires Valid()
      modifies headerLinks, foldIcons, iconStyles, toggles
      ensures forall k :: 0 <= k < headerLinks.Length ==> headerLinks[k] == "#"
      ensures forall k :: 0 <= k < foldIcons.Length ==> foldIcons[k] == IconSrc(Theme() == "dark")
      ensures forall b :: 0 <= b < iconStyles.Length ==> iconStyles[b] == IconStyle(Rotate(Angle(expanded[b])), NoTransition)
      ensures forall k :: 0 <= k < toggles.Length ==> toggles[k] == (Theme() == "dark")
    {
      ChangeAllHeaderLinkCharacters();
      SetupFoldIcons();
      UpdateThemeModeToggles();
    }
  }

  /** A toggle change followed by the theme-changed event leaves everything
      showing the theme the toggle chose, and remembers it. */
  method ToggleScenario(page: Page, i: nat)
    requires page.Valid() && i < page.toggles.Length
    modifies page, page.toggles, page.foldIcons, page.images
    ensures page.Theme() == (if old(page.toggles[i]) then "dark" else "light")
    ensures StorageKey in page.storage && page.storage[StorageKey] == page.Theme()
    ensures page.InSync()
  {
    page.ToggleChanged(i);
    page.ThemeChanged();
  }
}
