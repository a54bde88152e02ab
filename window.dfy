/**
 * The overlay window's decision logic with the toolkit abstracted away:
 * visibility and the auto-hide timer, which panels a move shows and with
 * which texts, the icon and gradient choice, dragging, and saving, loading
 * and centring the position.
 */
module Window {
  import opened Wrappers
  import Text
  import Models
  import Config

  /** A screen position in pixels. */
  datatype Point = Point(x: int, y: int) {
    function Minus(other: Point): Point {
      Point(x - other.x, y - other.y)
    }
  }

  datatype MouseButton = LeftButton | RightButton | MiddleButton | OtherButton

  /** `hide_timer`: stopped, or running with its interval; it is never single-shot. */
  datatype HideTimer = Stopped | Running(intervalMs: int)

  // ---------------------------------------------------------- lookups

  /** The icon file per label. */
  const IconFiles: map<string, string> := map[
    "brilliant" := "brilliant.png", "best" := "best.png", "excellent" := "excellent.png",
    "good" := "good.png", "inaccuracy" := "inaccuracy.png", "mistake" := "mistake.png",
    "blunder" := "blunder.png", "forced" := "forced.png"]

  lemma IconFilesNamedAfterLabels(quality: string)
    requires quality in Models.ValidLabels
    ensures quality in IconFiles && IconFiles[quality] == quality + ".png"
  {
    Models.ValidLabelsAre(quality);
  }

  lemma IconFilesCoverLabels(quality: string)
    requires quality in IconFiles
    ensures quality in Models.ValidLabels
  {
    Models.ValidLabelsAre(quality);
  }

  /**
   * The file name `_get_icon_path` picks: "<label>.png" for the eight
   * labels, "good.png" for anything else.
   */
  function IconFilename(quality: string): (file: string)
    ensures quality in Models.ValidLabels ==> file == quality + ".png"
    ensures quality !in Models.ValidLabels ==> file == "good.png"
  {
    if quality in IconFiles then
      IconFilesCoverLabels(quality);
      IconFilesNamedAfterLabels(quality);
      IconFiles[quality]
    else
      if quality in Models.ValidLabels then IconFilesNamedAfterLabels(quality); "good.png" else "good.png"
  }

  /** The heading gradient per label. */
  const Gradients: map<string, string> := map[
    "brilliant" := "qlineargradient(x1:0, y1:0, x2:1, y2:0, stop:0 #06b6d4, stop:0.5 #3b82f6, stop:1 #9333ea)",
    "best" := "qlineargradient(x1:0, y1:0, x2:1, y2:0, stop:0 #22c55e, stop:1 #10b981)",
    "excellent" := "qlineargradient(x1:0, y1:0, x2:1, y2:0, stop:0 #14b8a6, stop:1 #06b6d4)",
    "good" := "qlineargradient(x1:0, y1:0, x2:1, y2:0, stop:0 #84cc16, stop:1 #22c55e)",
    "inaccuracy" := "qlineargradient(x1:0, y1:0, x2:1, y2:0, stop:0 #facc15, stop:1 #f97316)",
    "mistake" := "qlineargradient(x1:0, y1:0, x2:1, y2:0, stop:0 #f97316, stop:1 #dc2626)",
    "blunder" := "qlineargradient(x1:0, y1:0, x2:1, y2:0, stop:0 #dc2626, stop:1 #9f1239)",
    "forced" := "qlineargradient(x1:0, y1:0, x2:1, y2:0, stop:0 #9ca3af, stop:1 #6b7280)"]

  lemma GradientsCoverLabels(quality: string)
    ensures quality in Gradients <==> quality in Models.ValidLabels
  {
    Models.ValidLabelsAre(quality);
  }

  /** `_get_color_gradient`: the label's own gradient, or the "good" one for any other label. */
  function ColorGradient(quality: string): (g: string)
    ensures quality in Models.ValidLabels ==> quality in Gradients && g == Gradients[quality]
    ensures quality !in Models.ValidLabels ==> g == Gradients["good"]
  {
    GradientsCoverLabels(quality);
    if quality in Gradients then Gradients[quality] else Gradients["good"]
  }

  /** An unknown label is drawn exactly like "good": same icon file, same gradient. */
  lemma UnknownLabelLooksGood(quality: string)
    requires quality !in Models.ValidLabels
    ensures IconFilename(quality) == IconFilename("good")
    ensures ColorGradient(quality) == ColorGradient("good")
  {
    Models.ValidLabelsAre("good");
  }

  /** `dict.get(key, fallback)`. */
  function Lookup(table: map<string, string>, key: string, fallback: string): (r: string)
    ensures key in table ==> r == table[key]
    ensures key !in table ==> r == fallback
  {
    if key in table then table[key] else fallback
  }

  /** The heading text: the configured label text, else the label upper-cased. */
  function HeadingText(labels: map<string, string>, quality: string): (r: string)
    ensures quality in labels ==> r == labels[quality]
    ensures quality !in labels ==> r == Text.Upper(quality)
  {
    Lookup(labels, quality, Text.Upper(quality))
  }

  /** With any language's default table, a valid label's heading comes from the table, never from the fallback. */
  lemma DefaultTablesNameEveryLabel(language: string, quality: string)
    requires quality in Models.ValidLabels
    ensures quality in Config.DefaultLabels(language)
    ensures HeadingText(Config.DefaultLabels(language), quality) == Config.DefaultLabels(language)[quality]
  {
    Models.ValidLabelsAre(quality);
  }

  /**
   * One coordinate of `reset_position`: `(screen - size) // 2`, the origin
   * that centres the window, rounding down when the slack is odd.
   */
  function CentreCoordinate(screen: int, size: int): (origin: int)
    ensures 2 * origin <= screen - size < 2 * origin + 2
    ensures origin + size + origin <= screen <= origin + size + origin + 1
  {
    (screen - size) / 2
  }

  // ----------------------------------------------------- auto-hide

  /** Whether the window is shown, and the hide timer. */
  datatype Visibility = Visibility(shown: bool, timer: HideTimer)

  /** A new overlay: hidden, timer stopped. */
  const Initial: Visibility := Visibility(false, Stopped)

  /** After `display_move`: shown; the timer re-armed with the delay when it is positive, else stopped. */
  function AfterDisplay(delay: int): (v: Visibility)
    ensures v.shown
    ensures v.timer.Running? <==> delay > 0
    ensures v.timer.Running? ==> v.timer.intervalMs == delay
  {
    Visibility(true, if delay > 0 then Running(delay) else Stopped)
  }

  /** After the timer fires: hidden, and the repeating timer is still running. */
  function AfterTimeout(v: Visibility): (w: Visibility)
    requires v.timer.Running?
    ensures !w.shown && w.timer == v.timer
  {
    Visibility(false, v.timer)
  }

  /** What can happen to the overlay's visibility. */
  datatype OverlayEvent = Display | Timeout

  /**
   * The visibility after a sequence of events. A stopped timer fires no
   * timeout, so a `Timeout` while it is stopped changes nothing.
   */
  function Replay(v: Visibility, events: seq<OverlayEvent>, delay: int): Visibility
    decreases |events|
  {
    if events == [] then v
    else
      var before := Replay(v, events[..|events| - 1], delay);
      match events[|events| - 1]
      case Display => AfterDisplay(delay)
      case Timeout => if before.timer.Running? then AfterTimeout(before) else before
  }

  /** The timer runs, with the configured delay, exactly when some update has been displayed. */
  lemma {:induction false} ReplayTimer(events: seq<OverlayEvent>, delay: int)
    requires delay > 0
    ensures Replay(Initial, events, delay).timer == if Display in events then Running(delay) else Stopped
    ensures Display !in events ==> !Replay(Initial, events, delay).shown
    decreases |events|
  {
    if events != [] {
      var prefix := events[..|events| - 1];
      ReplayTimer(prefix, delay);
      assert events == prefix + [events[|events| - 1]];
      assert Display in events <==> Display in prefix || events[|events| - 1] == Display;
    }
  }

  /**
   * With a positive delay the overlay, starting hidden, is shown exactly
   * when the latest event was an update: every timeout after an update
   * hides it, and nothing else does.
   */
  lemma AutoHideShownIffLastDisplay(events: seq<OverlayEvent>, delay: int)
    requires delay > 0
    ensures Replay(Initial, events, delay).shown <==> events != [] && events[|events| - 1] == Display
  {
    if events != [] {
      ReplayTimer(events[..|events| - 1], delay);
    }
  }

  /**
   * With a delay of 0 the overlay never hides by itself: starting hidden,
   * it is shown exactly when some update has been displayed.
   */
  lemma {:induction false} NoAutoHideWhenDisabled(events: seq<OverlayEvent>, delay: int)
    requires delay <= 0
    ensures Replay(Initial, events, delay).timer == Stopped
    ensures Replay(Initial, events, delay).shown <==> Display in events
    decreases |events|
  {
    if events != [] {
      var prefix := events[..|events| - 1];
      NoAutoHideWhenDisabled(prefix, delay);
      assert events == prefix + [events[|events| - 1]];
      assert Display in events <==> Display in prefix || events[|events| - 1] == Display;
    }
  }

  // ------------------------------------------------------- the window

  /** The heading row: icon file, label text and background gradient. */
  datatype Heading = Heading(iconFile: string, text: string, gradient: string)

  /** Everything `display_move` draws. */
  datatype View = View(heading: Heading, best: Panel, opponent: Panel)

  /**
   * The widgets after `display_move` draws `data`: the heading from the
   * label, the engine's move panel and the opponent's move panel, each shown
   * only when its move is present and the setting enables it.
   */
  function Render(s: Config.Settings, data: Models.MoveDisplayData, best: Panel, opponent: Panel): View
    requires s.labels.Some?
  {
    var labels := s.labels.value;
    var opponentMove := data.opponentBestMove.GetOr("");
    View(Heading(IconFilename(data.quality), HeadingText(labels, data.quality), ColorGradient(data.quality)),
         Refill(best, data.bestMove != "" && s.showBestMove, Lookup(labels, "engine_suggests", "ENGINE SUGGESTS"), data.bestMove),
         Refill(opponent, Models.HasOpponentMove(data) && s.showOpponentBest,
                Lookup(labels, "opponent_best", "OPPONENT'S BEST"), opponentMove))
  }

  /**
   * What `display_move` shows: a panel is visible exactly when its move is
   * present and enabled, then with that move and its configured title; a
   * hidden panel keeps its previous texts. The heading shows the label's
   * icon, text and gradient.
   */
  lemma RenderShowsPresentMoves(s: Config.Settings, data: Models.MoveDisplayData, best: Panel, opponent: Panel)
    requires s.labels.Some?
    ensures var v := Render(s, data, best, opponent);
      && v.heading.iconFile == IconFilename(data.quality)
      && v.heading.text == HeadingText(s.labels.value, data.quality)
      && v.heading.gradient == ColorGradient(data.quality)
      && (v.best.shown <==> data.bestMove != "" && s.showBestMove)
      && (v.best.shown ==> v.best.text == data.bestMove &&
                           v.best.title == Lookup(s.labels.value, "engine_suggests", "ENGINE SUGGESTS"))
      && (!v.best.shown ==> v.best.text == best.text && v.best.title == best.title)
      && (v.opponent.shown <==> Models.HasOpponentMove(data) && s.showOpponentBest)
      && (v.opponent.shown ==> Some(v.opponent.text) == data.opponentBestMove &&
                               v.opponent.title == Lookup(s.labels.value, "opponent_best", "OPPONENT'S BEST"))
      && (!v.opponent.shown ==> v.opponent.text == opponent.text && v.opponent.title == opponent.title)
  {
  }

  /** A move panel: whether it is visible, its title and its move text. */
  datatype Panel = Panel(shown: bool, title: string, text: string)

  /** A panel after an update: shown with new texts, or hidden keeping its old texts. */
  function Refill(panel: Panel, show: bool, title: string, text: string): (r: Panel)
    ensures r.shown == show
    ensures show ==> r.title == title && r.text == text
    ensures !show ==> r.title == panel.title && r.text == panel.text
  {
    if show then Panel(true, title, text) else panel.(shown := false)
  }

  /** `DraggableOverlay`: a frameless window showing one move at a time. */
  class DraggableOverlay {
    /** `self.config`: the shared configuration instance. */
    const config: Config.OverlayConfig
    /** Where `save_config()` writes. */
    const store: Config.ConfigStore
    /** The fixed size set at construction. */
    const width: int
    const height: int

    var shown: bool
    var position: Point
    var dragging: bool
    var dragPosition: Point
    var currentData: Option<Models.MoveDisplayData>
    var hideTimer: HideTimer

    var heading: Heading
    var bestPanel: Panel
    var opponentPanel: Panel

    /** The window's visibility and timer. */
    function State(): Visibility
      reads this
    {
      Visibility(shown, hideTimer)
    }

    /** `DraggableOverlay()`: sized from the configuration, placed at the saved position, hidden. */
    constructor (config: Config.OverlayConfig, store: Config.ConfigStore)
      ensures this.config == config && this.store == store
      ensures width == config.settings.overlayWidth && height == config.settings.overlayHeight
      ensures State() == Initial
      ensures !dragging && dragPosition == Point(0, 0) && currentData == None
      ensures position == Point(config.settings.positionX, config.settings.positionY)
    {
      this.config := config;
      this.store := store;
      width := config.settings.overlayWidth;
      height := config.settings.overlayHeight;
      dragging := false;
      dragPosition := Point(0, 0);
      currentData := None;
      hideTimer := Stopped;
      heading := Heading("", "", "");
      bestPanel := Panel(true, "", "");
      opponentPanel := Panel(true, "", "");
      shown := false;
      position := Point(config.settings.positionX, config.settings.positionY);
    }

    /**
     * `display_move`: stops the timer, renders the move, shows the window and
     * re-arms the timer when the delay is positive.
     */
    method DisplayMove(data: Models.MoveDisplayData)
      requires config.settings.labels.Some?
      modifies this`currentData, this`hideTimer, this`heading, this`bestPanel, this`opponentPanel, this`shown
      ensures currentData == Some(data)
      ensures State() == AfterDisplay(config.settings.autoHideDelay)
      ensures View(heading, bestPanel, opponentPanel) == Render(config.settings, data, old(bestPanel), old(opponentPanel))
    {
      var s := config.settings;
      var view := Render(s, data, bestPanel, opponentPanel);
      currentData, hideTimer := Some(data), Stopped;
      heading, bestPanel, opponentPanel := view.heading, view.best, view.opponent;
      AnimateShow();
      if s.autoHideDelay > 0 {
        hideTimer := Running(s.autoHideDelay);
      }
    }

    /** `_animate_show`, by its outcome: the window is shown where it was. */
    method AnimateShow()
      modifies this`shown
      ensures shown
    {
      shown := true;
    }

    /** `_animate_hide`, by its outcome: the window ends hidden. */
    method AnimateHide()
      modifies this`shown
      ensures !shown
    {
      shown := false;
    }

    /** `_auto_hide`, run when the running timer fires. */
    method AutoHide()
      requires hideTimer.Running?
      modifies this`shown
      ensures State() == AfterTimeout(old(State()))
    {
      AnimateHide();
    }

    /** `mousePressEvent`: a left press starts a drag unless the position is locked. */
    method MousePress(button: MouseButton, global: Point)
      modifies this`dragging, this`dragPosition
      ensures button == LeftButton && !config.settings.lockPosition ==>
                dragging && dragPosition == global.Minus(position)
      ensures !(button == LeftButton && !config.settings.lockPosition) ==>
                dragging == old(dragging) && dragPosition == old(dragPosition)
    {
      if button == LeftButton && !config.settings.lockPosition {
        dragging := true;
        dragPosition := global.Minus(position);
      }
    }

    /** `mouseMoveEvent`: while dragging and unlocked, the window follows the pointer. */
    method MouseMove(global: Point)
      modifies this`position
      ensures position == if dragging && !config.settings.lockPosition then global.Minus(dragPosition) else old(position)
    {
      if dragging && !config.settings.lockPosition {
        position := global.Minus(dragPosition);
      }
    }

    /** `mouseReleaseEvent`: a left release ends the drag and saves the position. */
    method MouseRelease(button: MouseButton)
      modifies this`dragging, config, store
      ensures button == LeftButton ==>
                !dragging &&
                config.settings == old(config.settings).(positionX := position.x, positionY := position.y) &&
                store.file == Config.Stored(store.config.settings)
      ensures button != LeftButton ==>
                dragging == old(dragging) && config.settings == old(config.settings) && store.file == old(store.file)
      ensures store.config == old(store.config)
    {
      if button == LeftButton {
        dragging := false;
        SavePosition();
      }
    }

    /** `_save_position`: the position goes into the configuration, which is then saved. */
    method SavePosition()
      modifies config, store
      ensures config.settings == old(config.settings).(positionX := position.x, positionY := position.y)
      ensures store.file == Config.Stored(store.config.settings)
      ensures store.config == old(store.config)
    {
      config.settings := config.settings.(positionX := position.x, positionY := position.y);
      store.SaveConfig();
    }

    /** `_load_position`: the window moves to the configured position. */
    method LoadPosition()
      modifies this`position
      ensures position == Point(config.settings.positionX, config.settings.positionY)
    {
      position := Point(config.settings.positionX, config.settings.positionY);
    }

    /** `reset_position`: the window is centred on the screen, then the position is saved. */
    method ResetPosition(screenWidth: int, screenHeight: int)
      modifies this`position, config, store
      ensures 2 * position.x <= screenWidth - width < 2 * position.x + 2
      ensures 2 * position.y <= screenHeight - height < 2 * position.y + 2
      ensures config.settings == old(config.settings).(positionX := position.x, positionY := position.y)
      ensures store.file == Config.Stored(store.config.settings)
      ensures store.config == old(store.config)
    {
      var x := CentreCoordinate(screenWidth, width);
      var y := CentreCoordinate(screenHeight, height);
      position := Point(x, y);
      SavePosition();
    }
  }

  /**
   * A whole drag: press at `from`, move to `to`, release. When the position
   * is not locked, the window moves by the pointer's displacement and the
   * new position is stored in the configuration.
   */
  method DragWindow(overlay: DraggableOverlay, from: Point, to: Point)
    requires !overlay.config.settings.lockPosition
    modifies overlay, overlay.config, overlay.store
    ensures overlay.position == Point(old(overlay.position).x + (to.x - from.x), old(overlay.position).y + (to.y - from.y))
    ensures !overlay.dragging
    ensures overlay.config.settings.positionX == overlay.position.x
    ensures overlay.config.settings.positionY == overlay.position.y
    ensures overlay.store.config == old(overlay.store.config)
    ensures overlay.store.file == Config.Stored(overlay.store.config.settings)
    ensures overlay.State() == old(overlay.State()) && overlay.currentData == old(overlay.currentData)
    ensures overlay.heading == old(overlay.heading)
    ensures overlay.bestPanel == old(overlay.bestPanel) && overlay.opponentPanel == old(overlay.opponentPanel)
  {
    overlay.MousePress(LeftButton, from);
    overlay.MouseMove(to);
    overlay.MouseRelease(LeftButton);
  }

  /** `_overlay_instance`: the module-level overlay, created on first use. */
  class OverlaySlot {
    var instance: DraggableOverlay?

    constructor ()
      ensures instance == null
    {
      instance := null;
    }

    /** `get_overlay`: creates the overlay once and returns that same instance on every call. */
    method GetOverlay(store: Config.ConfigStore) returns (overlay: DraggableOverlay)
      modifies this
      ensures old(instance) != null ==> overlay == old(instance)
      ensures old(instance) == null ==>
                fresh(overlay) && overlay.config == store.config &&
                overlay.store == store && overlay.State() == Initial
      ensures instance == overlay
    {
      if instance == null {
        instance := new DraggableOverlay(store.config, store);
      }
      overlay := instance;
    }
  }
}
