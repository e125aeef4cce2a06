/** The extension's content script: derive a CSS patch from the stored
    settings and append it to the page's head as a `<style>` element. The
    page head is modelled as the sequence of style elements it holds. */
module Content {
  import opened Js

  const StyleId := "accessflow-styles"

  const DarkModeCss :=
    "\n      html {\n        filter: invert(1) hue-rotate(180deg);\n      }\n      img, video, iframe {\n        filter: invert(1) hue-rotate(180deg);\n      }\n    "
  const HighContrastCss := "\n      html {\n        filter: contrast(175%);\n      }\n    "
  const LargeFontCss := "\n      body {\n        font-size: 20px !important;\n      }\n    "
  const MediumFontCss := "\n      body {\n        font-size: 18px !important;\n      }\n    "

  datatype StyleElement = StyleElement(id: string, innerHTML: string)

  /** The recognised values of `settings.contrast` and `settings.fontSize`;
      anything else is `NoContrast` / `DefaultFont`. */
  datatype ContrastMode = NoContrast | DarkMode | HighContrast
  datatype FontMode = DefaultFont | MediumFont | LargeFont

  function ContrastOf(settings: Json): (m: ContrastMode)
    ensures m == DarkMode <==> Prop(settings, "contrast") == Str("Dark Mode")
    ensures m == HighContrast <==> Prop(settings, "contrast") == Str("High Contrast")
  {
    if Prop(settings, "contrast") == Str("Dark Mode") then DarkMode
    else if Prop(settings, "contrast") == Str("High Contrast") then HighContrast
    else NoContrast
  }

  function FontOf(settings: Json): (m: FontMode)
    ensures m == LargeFont <==> Prop(settings, "fontSize") == Str("Large")
    ensures m == MediumFont <==> Prop(settings, "fontSize") == Str("Medium")
  {
    if Prop(settings, "fontSize") == Str("Large") then LargeFont
    else if Prop(settings, "fontSize") == Str("Medium") then MediumFont
    else DefaultFont
  }

  function ContrastCss(m: ContrastMode): string {
    match m
    case NoContrast => ""
    case DarkMode => DarkModeCss
    case HighContrast => HighContrastCss
  }

  function FontCss(m: FontMode): string {
    match m
    case DefaultFont => ""
    case MediumFont => MediumFontCss
    case LargeFont => LargeFontCss
  }

  /** The patch for a settings document: the fragment of its contrast mode
      followed by the fragment of its font mode. */
  function CssFor(settings: Json): (css: string)
    ensures css == "" <==> ContrastOf(settings) == NoContrast && FontOf(settings) == DefaultFont
    ensures StartsWith(css, ContrastCss(ContrastOf(settings)))
    ensures css[|ContrastCss(ContrastOf(settings))|..] == FontCss(FontOf(settings))
  {
    var c := ContrastCss(ContrastOf(settings));
    var css := c + FontCss(FontOf(settings));
    assert css[..|c|] == c && css[|c|..] == FontCss(FontOf(settings));
    css
  }

  /** Reads the modes back from a patch. */
  function ModesOf(css: string): (ContrastMode, FontMode) {
    var c := if StartsWith(css, DarkModeCss) then DarkMode
             else if StartsWith(css, HighContrastCss) then HighContrast
             else NoContrast;
    var rest := css[|ContrastCss(c)|..];
    var f := if rest == LargeFontCss then LargeFont
             else if rest == MediumFontCss then MediumFont
             else DefaultFont;
    (c, f)
  }

  /** The patch determines the recognised modes: different modes never give
      the same CSS. */
  lemma ModesRoundTrip(settings: Json)
    ensures ModesOf(CssFor(settings)) == (ContrastOf(settings), FontOf(settings))
  {
    var f := FontOf(settings);
    match ContrastOf(settings)
    case DarkMode => DarkModeFirst(f);
    case HighContrast => HighContrastFirst(f);
    case NoContrast => FontOnly(f);
  }

  /** The two font fragments are different texts. */
  lemma FontsDiffer()
    ensures LargeFontCss != MediumFontCss
  {
    assert LargeFontCss[33] != MediumFontCss[33];
  }

  /** A dark-mode patch reads back as dark mode and its font mode. */
  lemma DarkModeFirst(f: FontMode)
    ensures ModesOf(DarkModeCss + FontCss(f)) == (DarkMode, f)
  {
    var css := DarkModeCss + FontCss(f);
    assert css[..|DarkModeCss|] == DarkModeCss;
    assert css[|DarkModeCss|..] == FontCss(f);
    FontsDiffer();
  }

  /** A high-contrast patch is shorter than the dark-mode fragment, so it
      reads back as high contrast and its font mode. */
  lemma HighContrastFirst(f: FontMode)
    ensures ModesOf(HighContrastCss + FontCss(f)) == (HighContrast, f)
  {
    var css := HighContrastCss + FontCss(f);
    assert |css| < |DarkModeCss|;
    assert css[..|HighContrastCss|] == HighContrastCss;
    assert css[|HighContrastCss|..] == FontCss(f);
    FontsDiffer();
  }

  /** A patch with no contrast fragment reads back as no contrast mode. */
  lemma FontOnly(f: FontMode)
    ensures ModesOf(FontCss(f)) == (NoContrast, f)
  {
    var css := FontCss(f);
    assert |css| < |DarkModeCss|;
    assert !StartsWith(css, HighContrastCss) by {
      if f != DefaultFont {
        assert css[..|HighContrastCss|][57] == css[57] != HighContrastCss[57];
      }
    }
    assert css[0..] == css;
    FontsDiffer();
  }

  /** The head after one more style element carrying the patch. */
  function Appended(head: seq<StyleElement>, settings: Json): seq<StyleElement> {
    head + [StyleElement(StyleId, CssFor(settings))]
  }

  /** How many elements of `head` carry the id `id`. */
  function CountId(head: seq<StyleElement>, id: string): nat
  {
    if head == [] then 0
    else CountId(head[..|head| - 1], id) + (if head[|head| - 1].id == id then 1 else 0)
  }

  /** Applying the patch is not idempotent: each application adds one more
      element with the same id, never replacing the previous one. */
  lemma ReapplyDuplicates(head: seq<StyleElement>, settings: Json)
    ensures CountId(Appended(Appended(head, settings), settings), StyleId) == CountId(head, StyleId) + 2
    ensures Appended(Appended(head, settings), settings) != Appended(head, settings)
  {
    var once := Appended(head, settings);
    var twice := Appended(once, settings);
    assert twice[..|twice| - 1] == once;
    assert once[..|once| - 1] == head;
  }

  class Page {
    /** The style elements of `document.head`, in document order. */
    var head: seq<StyleElement>

    constructor (head0: seq<StyleElement>)
      ensures head == head0
    {
      head := head0;
    }

    /** Builds the patch in `applyFixes` by successive appends. */
    static method BuildCss(settings: Json) returns (css: string)
      ensures css == CssFor(settings)
    {
      css := "";
      if Prop(settings, "contrast") == Str("Dark Mode") {
        css := css + DarkModeCss;
      }
      if Prop(settings, "contrast") == Str("High Contrast") {
        css := css + HighContrastCss;
      }
      assert css == ContrastCss(ContrastOf(settings));
      ghost var contrast := css;
      if Prop(settings, "fontSize") == Str("Large") {
        css := css + LargeFontCss;
      }
      if Prop(settings, "fontSize") == Str("Medium") {
        css := css + MediumFontCss;
      }
      assert css == contrast + FontCss(FontOf(settings));
    }

    /** `applyFixes`: create a style element with the patch and append it. */
    method ApplyFixes(settings: Json)
      modifies this
      ensures head == Appended(old(head), settings)
    {
      var css := BuildCss(settings);
      head := head + [StyleElement(StyleId, css)];
    }

    /** The storage callback: apply the stored settings only when present
        and truthy. */
    method OnStoredSettings(stored: Json)
      modifies this
      ensures head == if Truthy(stored) then Appended(old(head), stored) else old(head)
    {
      if Truthy(stored) {
        ApplyFixes(stored);
      }
    }
  }
}
