/**
 * The configuration editor's field mapping: how `load_settings` fills the
 * widgets from the configuration, how `save_settings` reads them back
 * (language and notation through combo indices, country lists through
 * comma-separated text), and the validate-then-save and reset sequences.
 * The widgets are one `Form` value; a spin box clamps what it is given.
 */
module ConfigGui {
  import opened Wrappers
  import Text
  import Config

  // ------------------------------------------------------- widgets

  /** What a spin box holds after `setValue(v)`: `v` clamped to its range. */
  function Clamp(v: int, lo: int, hi: int): (r: int)
    requires lo <= hi
    ensures lo <= r <= hi
    ensures lo <= v <= hi ==> r == v
    ensures v < lo ==> r == lo
    ensures v > hi ==> r == hi
  {
    if v < lo then lo else if v > hi then hi else v
  }

  /** The same for a `QDoubleSpinBox`. */
  function ClampReal(v: real, lo: real, hi: real): (r: real)
    requires lo <= hi
    ensures lo <= r <= hi
    ensures lo <= v <= hi ==> r == v
    ensures v < lo ==> r == lo
    ensures v > hi ==> r == hi
  {
    if v < lo then lo else if v > hi then hi else v
  }

  /** The values of the editor's widgets, field by field. */
  datatype Form = Form(
    iconSize: int,
    fontSize: int,
    width: int,
    height: int,
    opacity: real,
    themeIndex: int,
    blur: bool,
    positionX: int,
    positionY: int,
    lockPosition: bool,
    alwaysOnTop: bool,
    showBestMove: bool,
    showOpponentBest: bool,
    showEvaluation: bool,
    autoHideDelay: int,
    animationSpeed: real,
    languageIndex: int,
    notationIndex: int,
    allowedText: string,
    blockedText: string,
    showFlags: bool,
    enableSound: bool)

  /** What the widgets can hold: each spin box within its range, each combo on one of its items. */
  predicate WidgetsValid(f: Form) {
    && 16 <= f.iconSize <= 64
    && 10 <= f.fontSize <= 32
    && 300 <= f.width <= 800
    && 200 <= f.height <= 600
    && 0.0 <= f.opacity <= 1.0
    && 0 <= f.themeIndex < |Config.Themes|
    && 0 <= f.positionX <= 9999
    && 0 <= f.positionY <= 9999
    && 0 <= f.autoHideDelay <= 30000
    && 0.5 <= f.animationSpeed <= 2.0
    && 0 <= f.languageIndex < |Config.Languages|
    && 0 <= f.notationIndex < 2
  }

  // ------------------------------------------------- combo mappings

  /** The language combo's index for a language code; an unknown code shows the first item. */
  function LanguageIndex(language: string): (i: int)
    ensures 0 <= i < |Config.Languages|
    ensures language in Config.Languages ==> Config.Languages[i] == language
    ensures language !in Config.Languages ==> i == 0
  {
    if language == "en" then 0
    else if language == "vi" then 1
    else if language == "es" then 2
    else if language == "fr" then 3
    else if language == "de" then 4
    else if language == "ru" then 5
    else if language == "zh" then 6
    else 0
  }

  /** Every combo index maps back to itself: the language codes are distinct. */
  lemma LanguageIndexInverse(i: int)
    requires 0 <= i < |Config.Languages|
    ensures LanguageIndex(Config.Languages[i]) == i
  {
  }

  /** A known language survives load then save; any other is saved as "en". */
  lemma LanguageRoundTrip(language: string)
    ensures language in Config.Languages ==> Config.Languages[LanguageIndex(language)] == language
    ensures language !in Config.Languages ==> Config.Languages[LanguageIndex(language)] == "en"
  {
  }

  /** The notation combo's index: 0 for "san", 1 for anything else. */
  function NotationIndex(notation: string): (i: int)
    ensures 0 <= i < 2
    ensures i == 0 <==> notation == "san"
  {
    if notation == "san" then 0 else 1
  }

  /** The notation saved for a combo index: "san" for index 0, "uci" otherwise. */
  function NotationAt(index: int): (notation: string)
    ensures notation in Config.Notations
    ensures notation == "san" <==> index == 0
  {
    if index == 0 then "san" else "uci"
  }

  /** "san" and "uci" survive load then save; any other notation is saved as "uci". */
  lemma NotationRoundTrip(notation: string)
    ensures notation in Config.Notations ==> NotationAt(NotationIndex(notation)) == notation
    ensures notation !in Config.Notations ==> NotationAt(NotationIndex(notation)) == "uci"
  {
  }

  /**
   * The theme combo after `setCurrentText(theme)`: the theme's item, or
   * the current item unchanged when no item has that text.
   */
  function ThemeIndex(current: int, theme: string): (i: int)
    ensures theme in Config.Themes ==> 0 <= i < |Config.Themes| && Config.Themes[i] == theme
    ensures theme !in Config.Themes ==> i == current
  {
    if theme == "dark" then 0
    else if theme == "light" then 1
    else if theme == "transparent" then 2
    else current
  }

  // ------------------------------------------------- country lists

  /** The stripped, non-empty pieces, in order. */
  function Clean(pieces: seq<string>): (codes: seq<string>)
    ensures |codes| <= |pieces|
    ensures forall c :: c in codes ==> c != "" && Text.Trimmed(c)
  {
    if pieces == [] then []
    else
      var code := Text.Strip(pieces[0]);
      if code != "" then [code] + Clean(pieces[1..]) else Clean(pieces[1..])
  }

  /**
   * The codes are exactly the pieces' stripped texts that are not blank:
   * no such text is lost, and nothing else appears.
   */
  lemma {:induction false} CleanIsStrippedPieces(pieces: seq<string>)
    ensures forall p :: p in pieces && Text.Strip(p) != "" ==> Text.Strip(p) in Clean(pieces)
    ensures forall c :: c in Clean(pieces) ==> exists p :: p in pieces && Text.Strip(p) == c
    decreases |pieces|
  {
    if pieces != [] {
      CleanIsStrippedPieces(pieces[1..]);
      CleanStep(pieces, Text.Strip(pieces[0]), Clean(pieces[1..]));
    }
  }

  /** The first piece's stripped text, if not blank, goes in front of the codes of the rest. */
  lemma CleanStep(pieces: seq<string>, code: string, rest: seq<string>)
    requires pieces != [] && code == Text.Strip(pieces[0])
    requires forall p :: p in pieces[1..] && Text.Strip(p) != "" ==> Text.Strip(p) in rest
    requires forall c :: c in rest ==> exists p :: p in pieces[1..] && Text.Strip(p) == c
    ensures var codes := if code != "" then [code] + rest else rest;
      && (forall p :: p in pieces && Text.Strip(p) != "" ==> Text.Strip(p) in codes)
      && (forall c :: c in codes ==> exists p :: p in pieces && Text.Strip(p) == c)
  {
    assert forall p :: p in pieces <==> p == pieces[0] || p in pieces[1..];
  }

  /** A code that can be written in the country field and read back. */
  predicate CleanCode(code: string) {
    code != "" && ',' !in code && Text.Trimmed(code)
  }

  /** Stripping keeps a piece inside the text it came from. */
  lemma StripInside(s: string, c: char)
    requires c !in s
    ensures c !in Text.Strip(s)
  {
    var i, j :| Text.StrippedAt(s, Text.Strip(s), i, j);
    forall k | 0 <= k < j - i
      ensures s[i..j][k] != c
    {
      assert s[i..j][k] == s[i + k];
    }
  }

  lemma {:induction false} CleanCodesAreClean(pieces: seq<string>)
    requires forall p :: p in pieces ==> ',' !in p
    ensures forall c :: c in Clean(pieces) ==> CleanCode(c)
    decreases |pieces|
  {
    if pieces != [] {
      StripInside(pieces[0], ',');
      CleanCodesAreClean(pieces[1..]);
    }
  }

  /**
   * The list a country field parses to: the text split on ",", each piece
   * stripped, empty pieces dropped.
   */
  function ParseCountries(text: string): (codes: seq<string>)
    ensures forall c :: c in codes ==> CleanCode(c)
  {
    var pieces := Text.Split(text, ',');
    CleanCodesAreClean(pieces);
    Clean(pieces)
  }

  /** The text a country field shows: the codes joined with ", ". */
  function FormatCountries(codes: seq<string>): string {
    Text.Join(codes, ", ")
  }

  /** Each code after the first, with the space `", "` leaves in front of it. */
  function Spaced(codes: seq<string>): seq<string> {
    if codes == [] then [] else [[' '] + codes[0]] + Spaced(codes[1..])
  }

  /** Splitting a ", "-joined list gives the first code, then each later code behind one space. */
  lemma {:induction false} SplitFormatted(codes: seq<string>)
    requires |codes| >= 1
    requires forall c :: c in codes ==> ',' !in c
    ensures Text.Split(FormatCountries(codes), ',') == [codes[0]] + Spaced(codes[1..])
    decreases |codes|
  {
    if |codes| == 1 {
      Text.SplitNoSeparator(codes[0], ',');
    } else {
      var rest := codes[1..];
      var tail := Text.Join(rest, ", ");
      assert FormatCountries(codes) == codes[0] + [','] + ([' '] + tail);
      Text.SplitAfterPiece(codes[0], ',', [' '] + tail);
      SplitFormatted(rest);
      Text.SplitCons(' ', ',', tail);
      assert rest[1..] == codes[2..];
    }
  }

  lemma {:induction false} CleanSpaced(codes: seq<string>)
    requires forall c :: c in codes ==> CleanCode(c)
    ensures Clean(Spaced(codes)) == codes
    decreases |codes|
  {
    if codes != [] {
      assert codes[0] in codes;
      Text.StripSpaceThenTrimmed(codes[0]);
      var spaced := Spaced(codes);
      assert spaced[0] == [' '] + codes[0] && spaced[1..] == Spaced(codes[1..]);
      CleanSpaced(codes[1..]);
      CleanKeeps(spaced, codes[0]);
    }
  }

  /** A first piece that strips to a non-empty code is kept at the front. */
  lemma CleanKeeps(pieces: seq<string>, code: string)
    requires pieces != [] && code != "" && Text.Strip(pieces[0]) == code
    ensures Clean(pieces) == [code] + Clean(pieces[1..])
  {
  }

  /**
   * Formatting a list for the country field and parsing it back gives the
   * same list, for codes that are non-empty, comma-free and have no
   * surrounding whitespace.
   */
  lemma ParseFormatRoundTrip(codes: seq<string>)
    requires forall c :: c in codes ==> CleanCode(c)
    ensures ParseCountries(FormatCountries(codes)) == codes
  {
    if codes == [] {
      Text.SplitNoSeparator("", ',');
      assert Text.Strip("") == "";
    } else {
      SplitFormatted(codes);
      assert codes[0] in codes;
      Text.StripTrimmed(codes[0]);
      CleanSpaced(codes[1..]);
      var pieces := [codes[0]] + Spaced(codes[1..]);
      assert pieces[0] == codes[0] && pieces[1..] == Spaced(codes[1..]);
    }
  }

  /** Parsing twice changes nothing: a parsed list formats and parses to itself. */
  lemma ParseIdempotent(text: string)
    ensures ParseCountries(FormatCountries(ParseCountries(text))) == ParseCountries(text)
  {
    ParseFormatRoundTrip(ParseCountries(text));
  }

  // ------------------------------------------------ load and save

  /**
   * `load_settings`: the widgets after loading `s`, the theme combo having
   * been on item `theme` before.
   */
  function FormOf(theme: int, s: Config.Settings): Form
    requires s.allowedCountries.Some? && s.blockedCountries.Some?
  {
    Form(
      Clamp(s.iconSize, 16, 64), Clamp(s.fontSize, 10, 32),
      Clamp(s.overlayWidth, 300, 800), Clamp(s.overlayHeight, 200, 600),
      ClampReal(s.opacity, 0.0, 1.0), ThemeIndex(theme, s.theme), s.blurBackground,
      Clamp(s.positionX, 0, 9999), Clamp(s.positionY, 0, 9999), s.lockPosition, s.alwaysOnTop,
      s.showBestMove, s.showOpponentBest, s.showEvaluation,
      Clamp(s.autoHideDelay, 0, 30000), ClampReal(s.animationSpeed, 0.5, 2.0),
      LanguageIndex(s.language), NotationIndex(s.moveNotation),
      FormatCountries(s.allowedCountries.value), FormatCountries(s.blockedCountries.value),
      s.showCountryFlags, s.enableSound)
  }

  /** Loading always leaves every widget on a value it can hold. */
  lemma LoadedFormValid(theme: int, s: Config.Settings)
    requires 0 <= theme < |Config.Themes|
    requires s.allowedCountries.Some? && s.blockedCountries.Some?
    ensures WidgetsValid(FormOf(theme, s))
  {
  }

  /**
   * `save_settings` up to validation: every field is overwritten from the
   * widgets; the labels become the selected language's default table, so
   * custom labels are discarded.
   */
  function Apply(s: Config.Settings, f: Form): (r: Config.Settings)
    requires 0 <= f.themeIndex < |Config.Themes|
    requires 0 <= f.languageIndex < |Config.Languages|
    ensures r.language == Config.Languages[f.languageIndex]
    ensures r.labels == Some(Config.DefaultLabels(r.language))
    ensures r.theme == Config.Themes[f.themeIndex]
    ensures r.moveNotation == NotationAt(f.notationIndex)
    ensures r.allowedCountries == Some(ParseCountries(f.allowedText))
    ensures r.blockedCountries == Some(ParseCountries(f.blockedText))
  {
    var language := Config.Languages[f.languageIndex];
    Config.Settings(
      f.iconSize, f.fontSize, f.width, f.height, f.opacity, f.animationSpeed,
      f.positionX, f.positionY, f.lockPosition, f.alwaysOnTop,
      f.showBestMove, f.showOpponentBest, f.showEvaluation, f.autoHideDelay,
      language, NotationAt(f.notationIndex),
      Some(Config.DefaultLabels(language)),
      Some(ParseCountries(f.allowedText)), Some(ParseCountries(f.blockedText)),
      f.showFlags, Config.Themes[f.themeIndex], f.blur, f.enableSound)
  }
  /**
   * Every other setting is the value its widget holds; nothing of the
   * previous settings survives a save.
   */
  lemma ApplyTakesWidgets(s: Config.Settings, f: Form)
    requires 0 <= f.themeIndex < |Config.Themes|
    requires 0 <= f.languageIndex < |Config.Languages|
    ensures var r := Apply(s, f);
      && r.iconSize == f.iconSize && r.fontSize == f.fontSize
      && r.overlayWidth == f.width && r.overlayHeight == f.height
      && r.opacity == f.opacity && r.animationSpeed == f.animationSpeed
      && r.positionX == f.positionX && r.positionY == f.positionY
      && r.lockPosition == f.lockPosition && r.alwaysOnTop == f.alwaysOnTop
      && r.showBestMove == f.showBestMove && r.showOpponentBest == f.showOpponentBest
      && r.showEvaluation == f.showEvaluation && r.autoHideDelay == f.autoHideDelay
      && r.showCountryFlags == f.showFlags && r.blurBackground == f.blur
      && r.enableSound == f.enableSound
    ensures forall s' :: Apply(s', f) == Apply(s, f)
  {
  }


  /**
   * Whatever the widgets hold passes `validate`: their ranges and items are
   * exactly the bounds and choices `validate` checks, so the warning branch
   * of `save_settings` cannot be reached from the editor.
   */
  lemma EditorOutputAlwaysValid(s: Config.Settings, f: Form)
    requires WidgetsValid(f)
    ensures Config.AllPass(Apply(s, f))
    ensures Config.Validate(Apply(s, f)) == (true, None)
  {
    var r := Apply(s, f);
    forall c: Config.Check
      ensures Config.Passes(c, r)
    {
      match c
      case Theme => assert r.theme == Config.Themes[f.themeIndex];
      case Notation => assert r.moveNotation in Config.Notations;
      case _ =>
    }
  }

  /** Settings the editor can show without losing anything. */
  predicate Representable(s: Config.Settings) {
    && Config.AllPass(s)
    && 0 <= s.positionX <= 9999
    && 0 <= s.positionY <= 9999
    && 0 <= s.autoHideDelay <= 30000
    && s.language in Config.Languages
    && s.labels == Some(Config.DefaultLabels(s.language))
    && s.allowedCountries.Some? && (forall c :: c in s.allowedCountries.value ==> CleanCode(c))
    && s.blockedCountries.Some? && (forall c :: c in s.blockedCountries.value ==> CleanCode(c))
  }

  /** Every widget loaded from representable settings reads back as the setting it shows. */
  lemma LoadedFormShowsSettings(theme: int, s: Config.Settings)
    requires 0 <= theme < |Config.Themes|
    requires Representable(s)
    ensures var f := FormOf(theme, s);
      && f.iconSize == s.iconSize && f.fontSize == s.fontSize
      && f.width == s.overlayWidth && f.height == s.overlayHeight
      && f.opacity == s.opacity && f.animationSpeed == s.animationSpeed
      && f.positionX == s.positionX && f.positionY == s.positionY && f.autoHideDelay == s.autoHideDelay
      && Config.Themes[f.themeIndex] == s.theme
      && Config.Languages[f.languageIndex] == s.language
      && NotationAt(f.notationIndex) == s.moveNotation
      && ParseCountries(f.allowedText) == s.allowedCountries.value
      && ParseCountries(f.blockedText) == s.blockedCountries.value
  {
    assert Config.AllPass(s);
    LoadedWidgetsShowValues(theme, s);
    ParseFormatRoundTrip(s.allowedCountries.value);
    ParseFormatRoundTrip(s.blockedCountries.value);
  }

  /** The spin boxes and combos loaded from valid settings show their values unclamped. */
  lemma LoadedWidgetsShowValues(theme: int, s: Config.Settings)
    requires 0 <= theme < |Config.Themes|
    requires Config.AllPass(s)
    requires 0 <= s.positionX <= 9999 && 0 <= s.positionY <= 9999 && 0 <= s.autoHideDelay <= 30000
    requires s.language in Config.Languages
    requires s.allowedCountries.Some? && s.blockedCountries.Some?
    ensures var f := FormOf(theme, s);
      && f.iconSize == s.iconSize && f.fontSize == s.fontSize
      && f.width == s.overlayWidth && f.height == s.overlayHeight
      && f.opacity == s.opacity && f.animationSpeed == s.animationSpeed
      && f.positionX == s.positionX && f.positionY == s.positionY && f.autoHideDelay == s.autoHideDelay
      && Config.Themes[f.themeIndex] == s.theme
      && Config.Languages[f.languageIndex] == s.language
      && NotationAt(f.notationIndex) == s.moveNotation
  {
    assert Config.Passes(Config.IconSize, s) && Config.Passes(Config.FontSize, s);
    assert Config.Passes(Config.OverlayWidth, s) && Config.Passes(Config.OverlayHeight, s);
    assert Config.Passes(Config.Opacity, s) && Config.Passes(Config.AnimationSpeed, s);
    assert Config.Passes(Config.Theme, s) && Config.Passes(Config.Notation, s);
  }

  /**
   * Loading settings into the editor and saving them straight back changes
   * nothing, whatever the editor showed before, for settings it can
   * represent.
   */
  lemma LoadThenSaveKeepsSettings(theme: int, s: Config.Settings)
    requires 0 <= theme < |Config.Themes|
    requires Representable(s)
    ensures Apply(s, FormOf(theme, s)) == s
  {
    LoadedFormShowsSettings(theme, s);
  }

  /** The defaults are representable: a reset shows them and saves them back unchanged. */
  lemma DefaultsRepresentable()
    ensures Representable(Config.Defaults())
  {
    Config.DefaultsValid();
  }

  /** The editor's result of `save_settings`. */
  datatype SaveOutcome = Saved | Rejected(message: string)

  /** `ConfigEditor`: the settings window, editing the shared configuration. */
  class ConfigEditor {
    /** `self.config`, taken from `get_config()` when the editor opens. */
    const config: Config.OverlayConfig
    /** The configuration store `save_config()` writes. */
    const store: Config.ConfigStore
    var form: Form

    /** The theme combo always sits on an item; the configuration's lists are filled in. */
    predicate Valid()
      reads this, config
    {
      0 <= form.themeIndex < |Config.Themes| &&
      config.settings.allowedCountries.Some? && config.settings.blockedCountries.Some?
    }

    /** `ConfigEditor()`: builds the widgets (the theme combo on its first item), then loads. */
    constructor (store: Config.ConfigStore)
      requires store.config.settings.allowedCountries.Some? && store.config.settings.blockedCountries.Some?
      ensures this.store == store && config == store.config
      ensures Valid() && WidgetsValid(form)
      ensures form == FormOf(0, config.settings)
    {
      this.store := store;
      config := store.config;
      new;
      form := FormOf(0, config.settings);
      LoadedFormValid(0, config.settings);
    }

    /** `load_settings`: every widget shows the configuration's value. */
    method LoadSettings()
      requires Valid()
      modifies this`form
      ensures Valid() && WidgetsValid(form)
      ensures form == FormOf(old(form.themeIndex), config.settings)
    {
      LoadedFormValid(form.themeIndex, config.settings);
      form := FormOf(form.themeIndex, config.settings);
    }

    /**
     * `save_settings`: the configuration takes the widgets' values; only
     * when it then passes `validate` is it written out, otherwise the first
     * failing check's message is reported and nothing is written.
     */
    method SaveSettings() returns (outcome: SaveOutcome)
      requires Valid() && WidgetsValid(form)
      modifies config, store`file
      ensures Valid()
      ensures config.settings == Apply(old(config.settings), form)
      ensures Config.Validate(config.settings).0 ==> outcome == Saved && store.file == Config.Stored(store.config.settings)
      ensures !Config.Validate(config.settings).0 ==>
                outcome == Rejected(Config.Validate(config.settings).1.value) && store.file == old(store.file)
    {
      config.settings := Apply(config.settings, form);
      outcome := SaveIfValid();
    }

    /** The second half of `save_settings`: write the configuration out only if it validates. */
    method SaveIfValid() returns (outcome: SaveOutcome)
      modifies store`file
      ensures Config.Validate(config.settings).0 ==> outcome == Saved && store.file == Config.Stored(store.config.settings)
      ensures !Config.Validate(config.settings).0 ==>
                outcome == Rejected(Config.Validate(config.settings).1.value) && store.file == old(store.file)
    {
      var verdict := Config.Validate(config.settings);
      if verdict.0 {
        store.SaveConfig();
        outcome := Saved;
      } else {
        outcome := Rejected(verdict.1.value);
      }
    }

    /**
     * `reset_settings`: on confirmation the configuration returns to the
     * defaults, is saved, and the widgets are reloaded; otherwise nothing
     * changes.
     */
    method ResetSettings(confirmed: bool)
      requires Valid()
      modifies config, store`file, this`form
      ensures Valid()
      ensures confirmed ==> config.settings == Config.Defaults() &&
                            store.file == Config.Stored(store.config.settings) &&
                            form == FormOf(old(form.themeIndex), Config.Defaults())
      ensures !confirmed ==> config.settings == old(config.settings) && store.file == old(store.file) && form == old(form)
    {
      if confirmed {
        config.ResetToDefaults();
        store.SaveConfig();
        LoadSettings();
      }
    }
  }
}
