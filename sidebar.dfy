/** The mlbook theme's sidebar script (theme/mlbook/static/mlbook-sidebar.js):
    fold icons found from their buttons' ids, and a dark-mode preference kept
    in the body's `data-bs-theme` attribute, the toggles and `localStorage`. */
module MlbookSidebar {
  import opened Text
  import opened Dom

  const ButtonPrefix: string := "sb-btn"
  const IconPrefix: string := "sb-fold-icon"

  /** The `localStorage` key the chosen theme is kept under. */
  const StorageKey: string := "theme"

  /** `"sb-fold-icon" + button.id.slice(6)`. */
  function FoldIconId(buttonId: string): string
  {
    IconPrefix + Slice(buttonId, 6, |buttonId|)
  }

  /** The fold icon's id is the button's with the `sb-btn` prefix replaced
      by `sb-fold-icon`. */
  lemma FoldIconIdSpec(rest: string)
    ensures FoldIconId(ButtonPrefix + rest) == IconPrefix + rest
  {
    assert (ButtonPrefix + rest)[6..] == rest;
  }

  /** Buttons whose ids carry the prefix have distinct fold icons. */
  lemma FoldIconIdInjective(a: string, b: string)
    requires |a| >= 6 && a[..6] == ButtonPrefix && |b| >= 6 && b[..6] == ButtonPrefix
    ensures FoldIconId(a) == FoldIconId(b) <==> a == b
  {
    if FoldIconId(a) == FoldIconId(b) {
      assert a[6..] == FoldIconId(a)[|IconPrefix|..] == FoldIconId(b)[|IconPrefix|..] == b[6..];
      assert a == a[..6] + a[6..] && b == b[..6] + b[6..];
    }
  }

  /** `getPreferredTheme`: a stored theme that is not empty wins; otherwise
      the system's colour-scheme preference decides. */
  function PreferredTheme(stored: Attr, prefersDark: bool): string
  {
    if stored.Present? && stored.text != "" then stored.text
    else if prefersDark then "dark" else "light"
  }

  /** The preference is the stored text when there is one, and otherwise
      `dark` exactly when the system prefers dark. */
  lemma PreferredThemeSpec(stored: Attr, prefersDark: bool)
    ensures PreferredTheme(stored, prefersDark) != ""
    ensures stored.Present? && stored.text != "" ==> PreferredTheme(stored, prefersDark) == stored.text
    ensures (stored == Absent || stored == Present("")) ==>
      (PreferredTheme(stored, prefersDark) == "dark" <==> prefersDark)
  {
  }

  /** The name the handlers write for a toggle position. */
  function ThemeName(dark: bool): string
  {
    if dark then "dark" else "light"
  }

  /** `localStorage.getItem`. */
  function Stored(storage: map<string, string>, key: string): Attr
  {
    if key in storage then Present(storage[key]) else Absent
  }

  /** What a toggle change stores is read back on the next load as the same
      position, whatever the system prefers. */
  lemma PreferenceRoundTrip(storage: map<string, string>, dark: bool, prefersDark: bool)
    ensures (PreferredTheme(Stored(storage[StorageKey := ThemeName(dark)], StorageKey), prefersDark) == "dark") == dark
  {
  }

  /** A sidebar button, with its `aria-expanded` attribute as the page was
      loaded. */
  datatype Button = Button(id: string, ariaExpanded: Attr)

  /** What the script sets on a fold icon. */
  datatype Icon = Icon(src: Src, style: IconStyle)

  /** The icons of the given buttons. */
  function IconIds(buttons: seq<Button>): set<string>
  {
    set b | b in buttons :: FoldIconId(b.id)
  }

  /** Every icon of `ids` drawn with `src`, the others as they were. */
  function Painted(icons: map<string, Icon>, ids: set<string>, src: Src): (r: map<string, Icon>)
    ensures r.Keys == icons.Keys
    ensures forall id :: id in icons && id in ids ==> r[id] == icons[id].(src := src)
    ensures forall id :: id in icons && id !in ids ==> r[id] == icons[id]
  {
    map id | id in icons :: if id in ids then icons[id].(src := src) else icons[id]
  }

  /** Painting one more button's icon extends the painted set by it. */
  lemma PaintedStep(icons0: map<string, Icon>, done: seq<Button>, b: Button, src: Src, icons: map<string, Icon>)
    requires icons == Painted(icons0, IconIds(done), src) && FoldIconId(b.id) in icons0
    ensures var id := FoldIconId(b.id);
      icons[id := icons[id].(src := src)] == Painted(icons0, IconIds(done + [b]), src)
  {
    var id := FoldIconId(b.id);
    assert IconIds(done + [b]) == IconIds(done) + {id} by {
      forall x | x in done + [b] ensures x in done || x == b {}
    }
  }

  /** The icons of the buttons that are expanded. */
  function ExpandedIds(buttons: seq<Button>): set<string>
  {
    set b | b in buttons && b.ariaExpanded == Present("true") :: FoldIconId(b.id)
  }

  /** An icon turned to 90 degrees, everything else about it kept. */
  function Turned(icon: Icon): Icon
  {
    icon.(style := icon.style.(transform := "rotate(90deg)"))
  }

  /** Every icon of `ids` turned; the others as they were. */
  function Rotated(icons: map<string, Icon>, ids: set<string>): (r: map<string, Icon>)
    ensures r.Keys == icons.Keys
    ensures forall id :: id in icons && id in ids ==> r[id] == Turned(icons[id])
    ensures forall id :: id in icons && id !in ids ==> r[id] == icons[id]
  {
    map id | id in icons :: if id in ids then Turned(icons[id]) else icons[id]
  }

  /** Turning one more icon extends the turned set by it; turning an icon
      twice is turning it once. */
  lemma RotatedStep(icons0: map<string, Icon>, ids: set<string>, id: string, icons: map<string, Icon>)
    requires icons == Rotated(icons0, ids) && id in icons0
    ensures icons[id := Turned(icons[id])] == Rotated(icons0, ids + {id})
  {
    assert Turned(Turned(icons0[id])) == Turned(icons0[id]);
  }

  /** One more button adds its icon exactly when it is expanded. */
  lemma ExpandedStep(done: seq<Button>, b: Button)
    ensures ExpandedIds(done + [b]) ==
      ExpandedIds(done) + (if b.ariaExpanded == Present("true") then {FoldIconId(b.id)} else {})
  {
    forall x | x in done + [b] ensures x in done || x == b {}
  }

  class Sidebar {
    var bodyTheme: Attr
    var storage: map<string, string>
    const prefersDark: bool
    const buttons: seq<Button>
    var icons: map<string, Icon>
    const toggles: array<bool>

    /** Every button is an `sb-btn` button with its fold icon on the page. */
    predicate Valid()
      reads this
    {
      forall b :: b in buttons ==> |b.id| >= 6 && b.id[..6] == ButtonPrefix && FoldIconId(b.id) in icons
    }

    constructor (bodyTheme: Attr, storage: map<string, string>, prefersDark: bool,
                 buttons: seq<Button>, icons: map<string, Icon>, toggles: array<bool>)
      requires forall b :: b in buttons ==> |b.id| >= 6 && b.id[..6] == ButtonPrefix && FoldIconId(b.id) in icons
      ensures Valid()
      ensures this.bodyTheme == bodyTheme && this.storage == storage && this.prefersDark == prefersDark
      ensures this.buttons == buttons && this.icons == icons && this.toggles == toggles
    {
      this.bodyTheme := bodyTheme;
      this.storage := storage;
      this.prefersDark := prefersDark;
      this.buttons := buttons;
      this.icons := icons;
      this.toggles := toggles;
    }

    /** `setAllDarkModeToggles`. */
    method SetAllDarkModeToggles(setting: bool)
      modifies toggles
      ensures forall k :: 0 <= k < toggles.Length ==> toggles[k] == setting
    {
      SetAll(toggles, setting);
    }

    /** `setFoldIconColor`: the icon of every button gets the theme's
        chevron; no other icon changes. */
    method SetFoldIconColor(dark: bool)
      requires Valid()
      modifies this`icons
      ensures Valid()
      ensures icons == Painted(old(icons), IconIds(buttons), IconSrc(dark))
    {
      var i := 0;
      while i < |buttons|
        invariant 0 <= i <= |buttons|
        invariant Valid()
        invariant icons == Painted(old(icons), IconIds(buttons[..i]), IconSrc(dark))
      {
        var id := FoldIconId(buttons[i].id);
        PaintedStep(old(icons), buttons[..i], buttons[i], IconSrc(dark), icons);
        assert buttons[..i + 1] == buttons[..i] + [buttons[i]];
        icons := icons[id := icons[id].(src := IconSrc(dark))];
        i := i + 1;
      }
      assert buttons[..i] == buttons;
    }

    /** The click handler of button `b`: its icon turns to 90 degrees
        exactly when the button is expanded, with an animation. The collapse
        toggle changes `aria-expanded` from click to click and the handler
        reads it afresh: `ariaExpanded` is its value at the click. */
    method ButtonClicked(b: nat, ariaExpanded: Attr)
      requires Valid() && b < |buttons|
      modifies this`icons
      ensures Valid()
      ensures var id := FoldIconId(buttons[b].id);
        icons == old(icons)[id := old(icons)[id].(style := IconStyle(Rotate(Angle(ariaExpanded)), Animated))]
    {
      var id := FoldIconId(buttons[b].id);
      var angle := Angle(ariaExpanded);
      icons := icons[id := icons[id].(style := IconStyle(Rotate(angle), Animated))];
    }

    /** The first loop of the load handler: the icon of every expanded
        button is turned to 90 degrees; every other icon is left as it is. */
    method RotateExpanded()
      requires Valid()
      modifies this`icons
      ensures Valid()
      ensures icons == Rotated(old(icons), ExpandedIds(buttons))
    {
      var i := 0;
      while i < |buttons|
        invariant 0 <= i <= |buttons|
        invariant Valid()
        invariant icons == Rotated(old(icons), ExpandedIds(buttons[..i]))
      {
        ExpandedStep(buttons[..i], buttons[i]);
        assert buttons[..i + 1] == buttons[..i] + [buttons[i]];
        if buttons[i].ariaExpanded == Present("true") {
          var id := FoldIconId(buttons[i].id);
          RotatedStep(old(icons), ExpandedIds(buttons[..i]), id, icons);
          icons := icons[id := Turned(icons[id])];
        }
        i := i + 1;
      }
      assert buttons[..i] == buttons;
    }

    /** Applying a theme, as the load handler and the toggles do: body
        attribute, toggles and fold icon colour. */
    method ApplyTheme(dark: bool)
      requires Valid()
      modifies this`bodyTheme, this`icons, toggles
      ensures Valid()
      ensures bodyTheme == Present(ThemeName(dark))
      ensures forall k :: 0 <= k < toggles.Length ==> toggles[k] == dark
      ensures icons == Painted(old(icons), IconIds(buttons), IconSrc(dark))
    {
      bodyTheme := Present(ThemeName(dark));
      SetAllDarkModeToggles(dark);
      SetFoldIconColor(dark);
    }

    /** The load handler's theme step: dark exactly when the preference is
        the text `dark`; any other preference gives light. */
    method LoadTheme()
      requires Valid()
      modifies this`bodyTheme, this`icons, toggles
      ensures Valid()
      ensures var dark := PreferredTheme(Stored(storage, StorageKey), prefersDark) == "dark";
        bodyTheme == Present(ThemeName(dark))
        && (forall k :: 0 <= k < toggles.Length ==> toggles[k] == dark)
        && icons == Painted(old(icons), IconIds(buttons), IconSrc(dark))
    {
      if PreferredTheme(Stored(storage, StorageKey), prefersDark) == "dark" {
        ApplyTheme(true);
      } else {
        ApplyTheme(false);
      }
    }

    /** The change handler of toggle `i`: everything follows the toggle, and
        the choice is stored. */
    method ToggleChanged(i: nat)
      requires Valid() && i < toggles.Length
      modifies this`bodyTheme, this`icons, this`storage, toggles
      ensures Valid()
      ensures bodyTheme == Present(ThemeName(old(toggles[i])))
      ensures forall k :: 0 <= k < toggles.Length ==> toggles[k] == old(toggles[i])
      ensures icons == Painted(old(icons), IconIds(buttons), IconSrc(old(toggles[i])))
      ensures storage == old(storage)[StorageKey := ThemeName(old(toggles[i]))]
    {
      var dark := toggles[i];
      ApplyTheme(dark);
      storage := storage[StorageKey := ThemeName(dark)];
    }

    /** The load handler: expanded buttons' icons turned, then the preferred
        theme applied everywhere. */
    method Load()
      requires Valid()
      modifies this`bodyTheme, this`icons, toggles
      ensures Valid()
      ensures var dark := PreferredTheme(Stored(storage, StorageKey), prefersDark) == "dark";
        icons == Painted(Rotated(old(icons), ExpandedIds(buttons)), IconIds(buttons), IconSrc(dark))
      ensures var dark := PreferredTheme(Stored(storage, StorageKey), prefersDark) == "dark";
        bodyTheme == Present(ThemeName(dark))
        && (forall k :: 0 <= k < toggles.Length ==> toggles[k] == dark)
        && (forall b :: b in buttons ==> icons[FoldIconId(b.id)].src == IconSrc(dark))
        && (forall b :: b in buttons && b.ariaExpanded == Present("true") ==>
              icons[FoldIconId(b.id)].style.transform == "rotate(90deg)")
    {
      RotateExpanded();
      LoadTheme();
      forall b | b in buttons ensures FoldIconId(b.id) in IconIds(buttons) {
      }
      forall b | b in buttons && b.ariaExpanded == Present("true") ensures FoldIconId(b.id) in ExpandedIds(buttons) {
      }
    }
  }
}
