/** The asset loader: the front-end styles and scripts, the inline CSS built
    from the appearance settings, and the admin script, which is loaded on the
    plugin's own settings page only.

    WordPress's asset queue is an `Assets` object; `esc_attr` is a parameter. */
module Loader {
  import opened Text

  /** The four appearance settings, in the order their CSS blocks are written. */
  datatype CssSetting = Width | BorderColor | DialCodeColor | FlagBackground

  const Settings: seq<CssSetting> := [Width, BorderColor, DialCodeColor, FlagBackground]

  /** The key of each setting in the `ddi_phone_field_settings` option. */
  function OptionKey(o: CssSetting): string {
    match o
    case Width => "ddi_phone_field_width"
    case BorderColor => "ddi_phone_border_color"
    case DialCodeColor => "ddi_phone_ddi_color"
    case FlagBackground => "ddi_phone_bg_color"
  }

  /** The stored value of a setting; a missing key reads as empty. */
  function OptionValue(options: map<string, string>, o: CssSetting): string {
    if OptionKey(o) in options then options[OptionKey(o)] else ""
  }

  const Indent12: string := "            "
  const Indent16: string := Indent12 + "    "
  const Indent20: string := Indent16 + "    "

  /** The selector and property each setting styles. */
  function Selector(o: CssSetting): string {
    match o
    case Width => ".iti, .iti--allow-dropdown"
    case BorderColor => ".iti, .iti--allow-dropdown"
    case DialCodeColor => ".iti__selected-dial-code"
    case FlagBackground => ".iti__selected-flag"
  }

  function Property(o: CssSetting): string {
    match o
    case Width => "width"
    case BorderColor => "border-color"
    case DialCodeColor => "color"
    case FlagBackground => "background-color"
  }

  /** The CSS block of a setting whose escaped value is `escaped`. */
  function Block(o: CssSetting, escaped: string): (b: string)
    ensures |b| > |escaped|
  {
    "\n" + Indent16 + Selector(o) + " {\n" + Indent20 + Property(o) + ": " + escaped + " !important;\n"
    + Indent16 + "}\n" + Indent12
  }

  /** The block a setting contributes: nothing when its value is empty in PHP's
      sense (`""` or `"0"`), else its block with the value passed through
      `escAttr`. */
  function Part(options: map<string, string>, escAttr: string -> string, o: CssSetting): string {
    var v := OptionValue(options, o);
    if PhpEmpty(v) then "" else Block(o, escAttr(v))
  }

  /** The CSS accumulated over the settings `os`, in order. */
  function CssOver(options: map<string, string>, escAttr: string -> string, os: seq<CssSetting>): string
    decreases |os|
  {
    if os == [] then "" else CssOver(options, escAttr, os[..|os| - 1]) + Part(options, escAttr, os[|os| - 1])
  }

  /** The inline CSS `add_dynamic_css` builds. */
  function DynamicCss(options: map<string, string>, escAttr: string -> string): string {
    CssOver(options, escAttr, Settings)
  }

  /** The CSS is the width block, the border block, the dial-code block and the
      flag-background block, each present exactly when its setting is not
      empty, in that order. */
  lemma DynamicCssParts(options: map<string, string>, escAttr: string -> string)
    ensures DynamicCss(options, escAttr)
            == Part(options, escAttr, Width) + Part(options, escAttr, BorderColor)
               + Part(options, escAttr, DialCodeColor) + Part(options, escAttr, FlagBackground)
  {
    var s3 := Settings[..3];
    var s2 := s3[..2];
    var s1 := s2[..1];
    assert s3 == [Width, BorderColor, DialCodeColor] && s2 == [Width, BorderColor] && s1 == [Width];
    assert s1[..0] == [];
    assert CssOver(options, escAttr, s1) == Part(options, escAttr, Width);
    assert CssOver(options, escAttr, s2) == Part(options, escAttr, Width) + Part(options, escAttr, BorderColor);
  }

  /** No CSS is built exactly when all four settings are empty; otherwise the
      inline style is added. */
  lemma DynamicCssEmptyIff(options: map<string, string>, escAttr: string -> string)
    ensures DynamicCss(options, escAttr) == "" <==>
              forall o: CssSetting :: PhpEmpty(OptionValue(options, o))
  {
    DynamicCssParts(options, escAttr);
    if DynamicCss(options, escAttr) == "" {
      forall o: CssSetting ensures PhpEmpty(OptionValue(options, o)) {
        assert |Part(options, escAttr, o)| == 0;
      }
    }
  }

  /** The CSS built over a prefix of the settings is a prefix of the CSS built
      over all of them: a later block never comes before an earlier one. */
  lemma {:induction false} CssOverPrefix(options: map<string, string>, escAttr: string -> string,
                                         os: seq<CssSetting>, k: nat)
    requires k <= |os|
    ensures StartsWith(CssOver(options, escAttr, os), CssOver(options, escAttr, os[..k]))
    decreases |os|
  {
    if k < |os| {
      var init := os[..|os| - 1];
      assert init[..k] == os[..k];
      CssOverPrefix(options, escAttr, init, k);
      var p := CssOver(options, escAttr, os[..k]);
      var c := CssOver(options, escAttr, init);
      assert (c + Part(options, escAttr, os[|os| - 1]))[..|p|] == c[..|p|];
    } else {
      assert os[..k] == os;
    }
  }

  /** The CSS begins with the blocks of the settings listed before `Settings[k]`,
      immediately followed by the block of `Settings[k]` when it is not empty:
      the blocks come in the order width, border, dial code, flag background. */
  lemma BlocksInOrder(options: map<string, string>, escAttr: string -> string, k: nat)
    requires k < |Settings|
    ensures StartsWith(DynamicCss(options, escAttr),
                       CssOver(options, escAttr, Settings[..k]) + Part(options, escAttr, Settings[k]))
  {
    CssOverPrefix(options, escAttr, Settings, k + 1);
    assert Settings[..k + 1][..k] == Settings[..k];
  }

  /** Stored values reach the CSS only through `escAttr`: two option sets whose
      values agree on emptiness and on their escaped form give the same CSS. */
  lemma {:induction false} OnlyEscapedValues(a: map<string, string>, b: map<string, string>,
                                             escAttr: string -> string, os: seq<CssSetting>)
    requires forall o: CssSetting :: PhpEmpty(OptionValue(a, o)) == PhpEmpty(OptionValue(b, o))
    requires forall o: CssSetting :: escAttr(OptionValue(a, o)) == escAttr(OptionValue(b, o))
    ensures CssOver(a, escAttr, os) == CssOver(b, escAttr, os)
    decreases |os|
  {
    if os != [] {
      OnlyEscapedValues(a, b, escAttr, os[..|os| - 1]);
      var o := os[|os| - 1];
      assert Part(a, escAttr, o) == Part(b, escAttr, o);
    }
  }

  /** The accumulation in `add_dynamic_css()`: append each non-empty
      setting's block, in the fixed order. */
  method BuildDynamicCss(options: map<string, string>, escAttr: string -> string) returns (css: string)
    ensures css == DynamicCss(options, escAttr)
  {
    css := "";
    var width := OptionValue(options, Width);
    if !PhpEmpty(width) {
      css := css + Block(Width, escAttr(width));
    }
    assert css == Part(options, escAttr, Width);
    var border := OptionValue(options, BorderColor);
    if !PhpEmpty(border) {
      css := css + Block(BorderColor, escAttr(border));
    }
    ghost var two := Part(options, escAttr, Width) + Part(options, escAttr, BorderColor);
    assert css == two;
    var ddi := OptionValue(options, DialCodeColor);
    if !PhpEmpty(ddi) {
      css := css + Block(DialCodeColor, escAttr(ddi));
    }
    ghost var three := two + Part(options, escAttr, DialCodeColor);
    assert css == three;
    var bg := OptionValue(options, FlagBackground);
    if !PhpEmpty(bg) {
      css := css + Block(FlagBackground, escAttr(bg));
    }
    DynamicCssParts(options, escAttr);
  }

  /** The style handle the inline CSS is attached to, and the admin page's hook. */
  const MainStyle: string := "ddi-phone-field-css"
  const SettingsPageHook: string := "toplevel_page_ddi_phone_field_settings"

  /** The styles and scripts enqueued so far, and the inline CSS attached to
      enqueued styles, as (handle, css) pairs. */
  class Assets {
    var styles: seq<string>
    var scripts: seq<string>
    var inlineStyles: seq<(string, string)>

    /** Inline CSS is only ever attached to a style that was enqueued. */
    predicate Valid()
      reads this
    {
      forall i :: 0 <= i < |inlineStyles| ==> inlineStyles[i].0 in styles
    }

    constructor ()
      ensures styles == [] && scripts == [] && inlineStyles == [] && Valid()
    {
      styles := [];
      scripts := [];
      inlineStyles := [];
    }

    /** `enqueue_frontend_scripts()`: the widget's and the plugin's styles and
        scripts, then the inline CSS. */
    method EnqueueFrontendScripts(options: map<string, string>, escAttr: string -> string)
      requires Valid()
      modifies this
      ensures Valid()
      ensures styles == old(styles) + ["intl-tel-input-css", MainStyle]
      ensures scripts == old(scripts) + ["jquery", "intl-tel-input-js", "jquery-mask-js", "ddi-phone-field-js"]
      ensures inlineStyles == old(inlineStyles)
                              + if DynamicCss(options, escAttr) == "" then [] else [(MainStyle, DynamicCss(options, escAttr))]
    {
      styles := styles + ["intl-tel-input-css"];
      styles := styles + [MainStyle];
      scripts := scripts + ["jquery"];
      scripts := scripts + ["intl-tel-input-js"];
      scripts := scripts + ["jquery-mask-js"];
      scripts := scripts + ["ddi-phone-field-js"];
      AddDynamicCss(options, escAttr);
    }

    /** `add_dynamic_css()`: attach the CSS built from the settings to the
        plugin's style when it is not empty. */
    method AddDynamicCss(options: map<string, string>, escAttr: string -> string)
      requires Valid() && MainStyle in styles
      modifies this`inlineStyles
      ensures Valid()
      ensures inlineStyles == old(inlineStyles)
                              + if DynamicCss(options, escAttr) == "" then [] else [(MainStyle, DynamicCss(options, escAttr))]
    {
      var css := BuildDynamicCss(options, escAttr);
      if css != "" {
        inlineStyles := inlineStyles + [(MainStyle, css)];
      }
    }

    /** `enqueue_admin_scripts($hook_suffix)`: the colour picker's style and the
        admin script, on the settings page only. */
    method EnqueueAdminScripts(hookSuffix: string)
      requires Valid()
      modifies this`styles, this`scripts
      ensures Valid()
      ensures hookSuffix == SettingsPageHook ==>
                styles == old(styles) + ["wp-color-picker"] && scripts == old(scripts) + ["ddi-phone-field-admin-js"]
      ensures hookSuffix != SettingsPageHook ==> styles == old(styles) && scripts == old(scripts)
    {
      if hookSuffix == SettingsPageHook {
        styles := styles + ["wp-color-picker"];
        scripts := scripts + ["ddi-phone-field-admin-js"];
      }
    }
  }
}
