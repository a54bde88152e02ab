/**
 * The overlay's configuration: the dataclass and its defaults, the default
 * label tables per language, the country filter, the ordered validation
 * chain, the choice `load` makes between the file's contents and the
 * defaults, and the module-level `CONFIG` instance with its file.
 */
module Config {
  import opened Wrappers

  /**
   * The dataclass fields as values, in declaration order. `labels` and the
   * two country lists are optional, as in Python before `__post_init__`;
   * opacity and animation speed are compared only, so they are `real`.
   */
  datatype Settings = Settings(
    iconSize: int,
    fontSize: int,
    overlayWidth: int,
    overlayHeight: int,
    opacity: real,
    animationSpeed: real,
    positionX: int,
    positionY: int,
    lockPosition: bool,
    alwaysOnTop: bool,
    showBestMove: bool,
    showOpponentBest: bool,
    showEvaluation: bool,
    autoHideDelay: int,
    language: string,
    moveNotation: string,
    labels: Option<map<string, string>>,
    allowedCountries: Option<seq<string>>,
    blockedCountries: Option<seq<string>>,
    showCountryFlags: bool,
    theme: string,
    blurBackground: bool,
    enableSound: bool)

  /** The field defaults as declared, before `__post_init__` fills the optional ones. */
  const DeclaredDefaults: Settings := Settings(
    32, 16, 400, 250, 0.95, 1.0,
    100, 100, false, true,
    true, true, true, 5000,
    "en", "san",
    None, None, None, true,
    "dark", true, false)

  // ---------------------------------------------------------------- labels

  /** The ten keys every label table has. */
  const LabelKeys: set<string> := {
    "brilliant", "best", "excellent", "good", "inaccuracy", "mistake", "blunder", "forced",
    "engine_suggests", "opponent_best"}

  const EnglishLabels: map<string, string> := map[
    "brilliant" := "BRILLIANT!!", "best" := "BEST MOVE", "excellent" := "EXCELLENT",
    "good" := "GOOD", "inaccuracy" := "INACCURACY", "mistake" := "MISTAKE",
    "blunder" := "BLUNDER!!", "forced" := "FORCED",
    "engine_suggests" := "ENGINE SUGGESTS", "opponent_best" := "OPPONENT'S BEST"]

  const VietnameseLabels: map<string, string> := map[
    "brilliant" := "XUẤT SẮC!!", "best" := "NƯỚC ĐI TỐT NHẤT", "excellent" := "RẤT TỐT",
    "good" := "TỐT", "inaccuracy" := "KHÔNG CHÍNH XÁC", "mistake" := "SAI LẦM",
    "blunder" := "SAI LẦM LỚN!!", "forced" := "BẮT BUỘC",
    "engine_suggests" := "ĐỘNG CƠ ĐỀ XUẤT", "opponent_best" := "ĐỐI THỦ TỐT NHẤT"]

  const SpanishLabels: map<string, string> := map[
    "brilliant" := "¡¡BRILLANTE!!", "best" := "MEJOR JUGADA", "excellent" := "EXCELENTE",
    "good" := "BUENA", "inaccuracy" := "IMPRECISIÓN", "mistake" := "ERROR",
    "blunder" := "¡¡GRAVE ERROR!!", "forced" := "FORZADA",
    "engine_suggests" := "EL MOTOR SUGIERE", "opponent_best" := "MEJOR DEL OPONENTE"]

  const FrenchLabels: map<string, string> := map[
    "brilliant" := "BRILLANT!!", "best" := "MEILLEUR COUP", "excellent" := "EXCELLENT",
    "good" := "BON", "inaccuracy" := "IMPRÉCISION", "mistake" := "ERREUR",
    "blunder" := "GAFFE!!", "forced" := "FORCÉ",
    "engine_suggests" := "LE MOTEUR SUGGÈRE", "opponent_best" := "MEILLEUR DE L'ADVERSAIRE"]

  const GermanLabels: map<string, string> := map[
    "brilliant" := "BRILLANT!!", "best" := "BESTER ZUG", "excellent" := "AUSGEZEICHNET",
    "good" := "GUT", "inaccuracy" := "UNGENAUIGKEIT", "mistake" := "FEHLER",
    "blunder" := "GROBER FEHLER!!", "forced" := "ERZWUNGEN",
    "engine_suggests" := "ENGINE SCHLÄGT VOR", "opponent_best" := "GEGNERS BESTE"]

  const RussianLabels: map<string, string> := map[
    "brilliant" := "БЛЕСТЯЩЕ!!", "best" := "ЛУЧШИЙ ХОД", "excellent" := "ОТЛИЧНО",
    "good" := "ХОРОШО", "inaccuracy" := "НЕТОЧНОСТЬ", "mistake" := "ОШИБКА",
    "blunder" := "ГРУБАЯ ОШИБКА!!", "forced" := "ВЫНУЖДЕННЫЙ",
    "engine_suggests" := "ДВИЖОК ПРЕДЛАГАЕТ", "opponent_best" := "ЛУЧШИЙ ХОД ПРОТИВНИКА"]

  const ChineseLabels: map<string, string> := map[
    "brilliant" := "精彩!!", "best" := "最佳着法", "excellent" := "优秀",
    "good" := "良好", "inaccuracy" := "不精确", "mistake" := "失误",
    "blunder" := "大错!!", "forced" := "被迫",
    "engine_suggests" := "引擎建议", "opponent_best" := "对手最佳"]

  /** The language codes that have a label table of their own. */
  const Languages: seq<string> := ["en", "vi", "es", "fr", "de", "ru", "zh"]

  lemma EnglishKeys()
    ensures EnglishLabels.Keys == LabelKeys
  {
  }

  lemma VietnameseKeys()
    ensures VietnameseLabels.Keys == LabelKeys
  {
  }

  lemma SpanishKeys()
    ensures SpanishLabels.Keys == LabelKeys
  {
  }

  lemma FrenchKeys()
    ensures FrenchLabels.Keys == LabelKeys
  {
  }

  lemma GermanKeys()
    ensures GermanLabels.Keys == LabelKeys
  {
  }

  lemma RussianKeys()
    ensures RussianLabels.Keys == LabelKeys
  {
  }

  lemma ChineseKeys()
    ensures ChineseLabels.Keys == LabelKeys
  {
  }

  /**
   * `_get_default_labels`: the table of the language, or the English one
   * for a language without a table. Every table has the same ten keys.
   */
  function DefaultLabels(language: string): (r: map<string, string>)
    ensures r.Keys == LabelKeys
    ensures language !in Languages ==> r == EnglishLabels
    ensures language == "en" ==> r == EnglishLabels
    ensures language == "vi" ==> r == VietnameseLabels
    ensures language == "es" ==> r == SpanishLabels
    ensures language == "fr" ==> r == FrenchLabels
    ensures language == "de" ==> r == GermanLabels
    ensures language == "ru" ==> r == RussianLabels
    ensures language == "zh" ==> r == ChineseLabels
  {
    if language == "en" then EnglishKeys(); EnglishLabels
    else if language == "vi" then VietnameseKeys(); VietnameseLabels
    else if language == "es" then SpanishKeys(); SpanishLabels
    else if language == "fr" then FrenchKeys(); FrenchLabels
    else if language == "de" then GermanKeys(); GermanLabels
    else if language == "ru" then RussianKeys(); RussianLabels
    else if language == "zh" then ChineseKeys(); ChineseLabels
    else EnglishKeys(); EnglishLabels
  }

  // ------------------------------------------------------------ post-init

  /** All three optional fields hold a value, as after `__post_init__`. */
  predicate Initialized(s: Settings) {
    s.labels.Some? && s.allowedCountries.Some? && s.blockedCountries.Some?
  }

  /**
   * `__post_init__`: a missing label table becomes the language's default
   * table and missing country lists become empty; present values and every
   * other field are kept.
   */
  function PostInit(s: Settings): (r: Settings)
    ensures Initialized(r)
    ensures s.labels.Some? ==> r.labels == s.labels
    ensures s.labels.None? ==> r.labels == Some(DefaultLabels(s.language))
    ensures r.allowedCountries == Some(s.allowedCountries.GetOr([]))
    ensures r.blockedCountries == Some(s.blockedCountries.GetOr([]))
    ensures r == s.(labels := r.labels, allowedCountries := r.allowedCountries,
                    blockedCountries := r.blockedCountries)
    ensures Initialized(s) ==> r == s
  {
    s.(labels := if s.labels.None? then Some(DefaultLabels(s.language)) else s.labels,
       allowedCountries := if s.allowedCountries.None? then Some([]) else s.allowedCountries,
       blockedCountries := if s.blockedCountries.None? then Some([]) else s.blockedCountries)
  }

  /** `OverlayConfig()`: the declared defaults after `__post_init__`. */
  function Defaults(): (r: Settings)
    ensures Initialized(r) && r.labels == Some(EnglishLabels)
    ensures r.allowedCountries == Some([]) && r.blockedCountries == Some([])
  {
    PostInit(DeclaredDefaults)
  }

  // -------------------------------------------------------- country filter

  /**
   * `is_country_allowed`: a blocked code is always refused; otherwise an
   * empty (or missing) allow list admits everything and a non-empty one
   * admits exactly its members.
   */
  function IsCountryAllowed(s: Settings, code: string): (r: bool)
    ensures code in s.blockedCountries.GetOr([]) ==> !r
    ensures code !in s.blockedCountries.GetOr([]) && s.allowedCountries.GetOr([]) == [] ==> r
    ensures s.allowedCountries.GetOr([]) != [] ==> (r <==> code !in s.blockedCountries.GetOr([]) && code in s.allowedCountries.GetOr([]))
  {
    if s.blockedCountries.Some? && s.blockedCountries.value != [] && code in s.blockedCountries.value then false
    else if s.allowedCountries.None? || s.allowedCountries.value == [] then true
    else code in s.allowedCountries.value
  }

  // ------------------------------------------------------------ validation

  /** The eight checks of `validate`. */
  datatype Check = IconSize | FontSize | OverlayWidth | OverlayHeight | Opacity | AnimationSpeed | Theme | Notation

  /** The order in which `validate` runs its checks. */
  const CheckOrder: seq<Check> :=
    [IconSize, FontSize, OverlayWidth, OverlayHeight, Opacity, AnimationSpeed, Theme, Notation]

  /** What each check accepts: inclusive ranges and closed sets. */
  predicate Passes(c: Check, s: Settings) {
    match c
    case IconSize => 16 <= s.iconSize <= 64
    case FontSize => 10 <= s.fontSize <= 32
    case OverlayWidth => 300 <= s.overlayWidth <= 800
    case OverlayHeight => 200 <= s.overlayHeight <= 600
    case Opacity => 0.0 <= s.opacity <= 1.0
    case AnimationSpeed => 0.5 <= s.animationSpeed <= 2.0
    case Theme => s.theme in Themes
    case Notation => s.moveNotation in Notations
  }

  /** The themes and move notations `validate` accepts. */
  const Themes: seq<string> := ["dark", "light", "transparent"]
  const Notations: seq<string> := ["san", "uci"]

  /** The message `validate` returns for a failing check. */
  function Message(c: Check): string {
    match c
    case IconSize => "icon_size must be between 16 and 64"
    case FontSize => "font_size must be between 10 and 32"
    case OverlayWidth => "overlay_width must be between 300 and 800"
    case OverlayHeight => "overlay_height must be between 200 and 600"
    case Opacity => "opacity must be between 0.0 and 1.0"
    case AnimationSpeed => "animation_speed must be between 0.5 and 2.0"
    case Theme => "theme must be 'dark', 'light', or 'transparent'"
    case Notation => "move_notation must be 'san' or 'uci'"
  }

  /** Check `i` of the order is the first one that fails. */
  predicate FirstFailure(s: Settings, i: int) {
    0 <= i < |CheckOrder| && !Passes(CheckOrder[i], s) &&
    forall j :: 0 <= j < i ==> Passes(CheckOrder[j], s)
  }

  /** Every check passes. */
  predicate AllPass(s: Settings) {
    forall c :: Passes(c, s)
  }

  /** The order lists every check. */
  lemma CheckOrderComplete(c: Check)
    ensures c in CheckOrder
  {
    match c
    case IconSize => assert CheckOrder[0] == c;
    case FontSize => assert CheckOrder[1] == c;
    case OverlayWidth => assert CheckOrder[2] == c;
    case OverlayHeight => assert CheckOrder[3] == c;
    case Opacity => assert CheckOrder[4] == c;
    case AnimationSpeed => assert CheckOrder[5] == c;
    case Theme => assert CheckOrder[6] == c;
    case Notation => assert CheckOrder[7] == c;
  }

  /**
   * `validate`: `(true, None)` exactly when every check passes, otherwise
   * `false` together with a message.
   */
  function Validate(s: Settings): (r: (bool, Option<string>))
    ensures r.0 <==> AllPass(s)
    ensures r.0 <==> r.1.None?
  {
    if !Passes(IconSize, s) then (false, Some(Message(IconSize)))
    else if !Passes(FontSize, s) then (false, Some(Message(FontSize)))
    else if !Passes(OverlayWidth, s) then (false, Some(Message(OverlayWidth)))
    else if !Passes(OverlayHeight, s) then (false, Some(Message(OverlayHeight)))
    else if !Passes(Opacity, s) then (false, Some(Message(Opacity)))
    else if !Passes(AnimationSpeed, s) then (false, Some(Message(AnimationSpeed)))
    else if !Passes(Theme, s) then (false, Some(Message(Theme)))
    else if !Passes(Notation, s) then (false, Some(Message(Notation)))
    else (true, None)
  }

  /** When validation fails, the message is that of the first failing check in the fixed order. */
  lemma ValidateReportsFirstFailure(s: Settings)
    requires !Validate(s).0
    ensures exists i :: FirstFailure(s, i) && Validate(s).1 == Some(Message(CheckOrder[i]))
  {
    if !Passes(IconSize, s) {
      assert FirstFailure(s, 0);
    } else if !Passes(FontSize, s) {
      assert FirstFailure(s, 1);
    } else if !Passes(OverlayWidth, s) {
      assert FirstFailure(s, 2);
    } else if !Passes(OverlayHeight, s) {
      assert FirstFailure(s, 3);
    } else if !Passes(Opacity, s) {
      assert FirstFailure(s, 4);
    } else if !Passes(AnimationSpeed, s) {
      assert FirstFailure(s, 5);
    } else if !Passes(Theme, s) {
      assert FirstFailure(s, 6);
    } else {
      assert FirstFailure(s, 7);
    }
  }

  /** The screen position is never validated. */
  lemma PositionNotValidated(s: Settings, x: int, y: int)
    ensures Validate(s.(positionX := x, positionY := y)) == Validate(s)
  {
  }

  /** The default configuration passes validation. */
  lemma DefaultsValid()
    ensures Validate(Defaults()) == (true, None)
  {
  }

  // ----------------------------------------------------------------- load

  /** What `load` finds at the configuration path; JSON reading is abstracted away. */
  datatype ConfigFile =
    | Missing                 // no file at the path
    | Unreadable              // reading, decoding or constructing raised an exception
    | Stored(data: Settings)  // the fields the file holds

  /** Which branch `load` took. */
  datatype LoadOutcome =
    | CreatedDefault               // no file: defaults, written back to the path
    | Loaded                       // the file's configuration, validated
    | InvalidFallback(error: string)  // validation failed: defaults
    | ErrorFallback                // an exception: defaults

  /**
   * The decision `load` makes: the stored configuration after
   * `__post_init__` when it validates, the defaults in the three other
   * cases. Whatever it returns is initialised and valid.
   */
  function LoadDecision(file: ConfigFile): (r: (Settings, LoadOutcome))
    ensures Initialized(r.0) && Validate(r.0).0
    ensures r.1.Loaded? <==> file.Stored? && Validate(PostInit(file.data)).0
    ensures r.1.Loaded? ==> r.0 == PostInit(file.data)
    ensures !r.1.Loaded? ==> r.0 == Defaults()
    ensures r.1.CreatedDefault? <==> file.Missing?
    ensures r.1.ErrorFallback? <==> file.Unreadable?
  {
    DefaultsValid();
    match file
    case Missing => (Defaults(), CreatedDefault)
    case Unreadable => (Defaults(), ErrorFallback)
    case Stored(data) =>
      var c := PostInit(data);
      var (ok, error) := Validate(c);
      if !ok then (Defaults(), InvalidFallback(error.value)) else (c, Loaded)
  }

  /** A valid, initialised configuration that was saved loads back unchanged. */
  lemma SaveThenLoad(s: Settings)
    requires Initialized(s) && Validate(s).0
    ensures LoadDecision(Stored(s)) == (s, Loaded)
  {
  }

  // --------------------------------------------------------------- objects

  /**
   * An `OverlayConfig` instance. Its dataclass fields are held together as
   * one `Settings` value, which the methods below and the window and editor
   * update in place, one field at a time.
   */
  class OverlayConfig {
    var settings: Settings

    /** `OverlayConfig(**raw)`: the given fields, then `__post_init__` in place. */
    constructor (raw: Settings)
      ensures settings == PostInit(raw)
    {
      settings := raw;
      new;
      var labels, allowed, blocked := settings.labels, settings.allowedCountries, settings.blockedCountries;
      if labels.None? {
        labels := Some(DefaultLabels(settings.language));
      }
      if allowed.None? {
        allowed := Some([]);  // empty: every country is allowed
      }
      if blocked.None? {
        blocked := Some([]);
      }
      settings := settings.(labels := labels, allowedCountries := allowed, blockedCountries := blocked);
    }

    /**
     * `reset_to_defaults`: every field takes the value it has in a fresh
     * default instance (the field-by-field copy is one assignment here).
     */
    method ResetToDefaults()
      modifies this
      ensures settings == Defaults()
    {
      var d := new OverlayConfig(DeclaredDefaults);
      settings := d.settings;
    }

    /**
     * `OverlayConfig.load`: a fresh instance holding what `LoadDecision`
     * chooses, and the file as it is afterwards (the defaults are written
     * when no file existed).
     */
    static method Load(file: ConfigFile) returns (c: OverlayConfig, file': ConfigFile, outcome: LoadOutcome)
      ensures fresh(c)
      ensures (c.settings, outcome) == LoadDecision(file)
      ensures file' == if file.Missing? then Stored(c.settings) else file
    {
      file' := file;
      match file {
        case Missing =>
          c := new OverlayConfig(DeclaredDefaults);
          file' := Stored(c.settings);
          outcome := CreatedDefault;
        case Unreadable =>
          c := new OverlayConfig(DeclaredDefaults);
          outcome := ErrorFallback;
        case Stored(data) =>
          c := new OverlayConfig(data);
          var (ok, error) := Validate(c.settings);
          if !ok {
            c := new OverlayConfig(DeclaredDefaults);
            outcome := InvalidFallback(error.value);
          } else {
            outcome := Loaded;
          }
      }
    }
  }

  /** The module-level `CONFIG` instance together with the file it is saved to. */
  class ConfigStore {
    var config: OverlayConfig
    var file: ConfigFile

    /** Importing the module: `CONFIG = OverlayConfig.load()`. */
    constructor (initial: ConfigFile)
      ensures fresh(config)
      ensures config.settings == LoadDecision(initial).0
      ensures file == if initial.Missing? then Stored(config.settings) else initial
    {
      var c, f, outcome := OverlayConfig.Load(initial);
      config, file := c, f;
    }

    /** `save_config`: the file now holds the current instance's fields. */
    method SaveConfig()
      modifies this`file
      ensures file == Stored(config.settings)
    {
      file := Stored(config.settings);
    }

    /** `reload_config`: `CONFIG` is rebound to a freshly loaded instance. */
    method ReloadConfig() returns (c: OverlayConfig)
      modifies this
      ensures fresh(c) && config == c
      ensures c.settings == LoadDecision(old(file)).0
      ensures file == if old(file).Missing? then Stored(c.settings) else old(file)
    {
      var f, outcome;
      c, f, outcome := OverlayConfig.Load(file);
      config, file := c, f;
    }
  }
}
