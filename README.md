# Chess move overlay — verified model

This project models the sequential core of a desktop overlay that shows a chess
engine's verdict on the move just played: a quality label (brilliant, best, …,
blunder), the engine's best move and the opponent's best reply. The pieces are:

- **Move record** (`Models`): a `MoveDisplayData` value. Construction accepts
  exactly eight labels and fails with the `ValueError` message otherwise.
  `Repr` gives the debugging rendering, with its optional opponent and signed
  evaluation parts.
- **Configuration** (`Config`): the 23 settings, the seven default label tables
  with their English fallback, and `__post_init__` defaulting. Also the country
  allow/block filter, the ordered eight-check `validate`, the choice `load`
  makes between the stored configuration and the defaults, `reset_to_defaults`,
  and the module-level `CONFIG` with `save_config` / `reload_config`.
  `OverlayConfig` is a class whose one field holds the settings record. The
  window and the editor update it in place.
- **Overlay window** (`Window`): the `DraggableOverlay` class keeps:
  - visibility and the auto-hide timer;
  - the heading (icon file, text, gradient);
  - the two move panels `display_move` shows or hides;
  - the drag state machine;
  - position save, load and centring.
  `get_overlay` is a singleton slot. Visibility is also given as a pure
  event-replay model (`Replay`), with lemmas over every event sequence.
- **Dispatcher** (`Dispatcher`): `OverlayDispatcher` drops updates until it is
  connected, then forwards each one. Forwarding is an append to its `delivered`
  log. It is proved against the pure `Step`/`Run` gateway, whose lemmas state
  that exactly the sends after the first connect are delivered, in order. The
  `_get_dispatcher` singleton, `dispatch_data` and `init_dispatcher` are methods
  of `DispatcherSlot`.
- **Configuration editor** (`ConfigGui`): the widgets form one `Form` value,
  and spin boxes clamp what they are given. It covers:
  - the language, notation and theme combo mappings;
  - comma-separated country lists, with a parse/format round trip;
  - `load_settings`, `save_settings` (save only when `validate` passes) and
    `reset_settings`.
  It proves that whatever the widgets hold passes `validate`. It also proves
  that loading then saving representable settings changes nothing.
- `Text` holds the ASCII string helpers these need: `upper`, `strip`,
  `split`, `join` and the `{:+d}` format. `Wrappers` holds `Option` and
  `Result`.

The environment becomes parameters:
- Mouse events are a button and a global point.
- The screen size is passed to `ResetPosition`.
- The configuration file is a `ConfigFile` value: `Missing`, `Unreadable`, or
  `Stored` settings.
- The reset confirmation dialog's answer is the `confirmed` argument.
- Timer expiry is the `AutoHide` call, or a `Timeout` event in `Replay`.

Points where the code's behaviour is easy to misread:
- The label set is the eight labels `models.py:29` checks. The test driver
  sends "great" and "theory" (`test_overlay.py:18-19`), which that check
  refuses; `Models.ExtraLabelsRejected` states that they are refused.
- The hide timer is never made single-shot (`window.py:27`), so after it fires
  it keeps running, and a later expiry hides an already hidden window again
  (`HideTimer` stays `Running`).
- `save_config` writes whatever instance `CONFIG` names when it is called. The
  overlay and the editor keep the instance they got when they were created
  (`const config`), and every save is stated about `store.config`.

## Model

| member | source | states |
|---|---|---|
| Text.Upper | window.py:205 | `str.upper()` on ASCII: same length, each lower-case letter mapped to its capital, no lower-case letter left |
| Text.Strip | config_gui.py:483-484 | `str.strip()`: the result is a slice of the input with no whitespace at either end, and everything removed around it is whitespace (space, \t to \r, U+001C to U+001F) |
| Text.StripUnique | config_gui.py:483-484 | the result is determined: any slice without whitespace at its ends and with only whitespace around it is what `strip()` returns |
| Text.Split | config_gui.py:483-484 | `str.split(",")`: at least one piece, and no piece contains the separator |
| Text.SplitNoSeparator | config_gui.py:483-484 | text without the separator splits into one piece, the text itself |
| Text.SplitAfterPiece | config_gui.py:483-484 | splitting `p + sep + rest` gives `p` followed by the pieces of `rest` |
| Text.SignedDecimal | models.py:36 | the `{:+d}` format: a sign that is `-` exactly for negatives and `+` otherwise, then decimal digits |
| Text.SignedRoundTrip | models.py:36 | the signed decimal of any integer parses back to that integer |
| Text.DecimalRoundTrip | models.py:36 | the decimal digits of any natural number parse back to it |
| Models.New | models.py:21-31 | construction succeeds exactly for the eight labels, then with the fields as given (the best move is not checked); otherwise it fails with "Invalid label: L. Must be one of [...]" |
| Models.NewWithDefaults | models.py:23-25 | the opponent move, evaluation and depth default to None |
| Models.ValidLabelsAre | models.py:29 | the accepted labels are exactly brilliant, best, excellent, good, inaccuracy, mistake, blunder, forced |
| Models.ExtraLabelsRejected | models.py:29-31 | "theory", "miss" and "great" are refused |
| Models.ReprParts | models.py:33-37 | the rendering opens with label and best move and ends with ")"; ", opp_best=M" appears exactly when the opponent move is non-empty, ", eval=…cp" exactly when an evaluation is present |
| Models.EvaluationReadsBack | models.py:36 | the evaluation part carries an explicit sign (`-` iff negative) and its number parses back to the evaluation |
| Models.ReprIgnoresDepth | models.py:33-37 | the depth never affects the rendering |
| Models.EvaluationSamples | models.py:36 | the evaluation -750 of the sample blunder renders as ", eval=-750cp", and 0 as ", eval=+0cp" with an explicit plus |
| Config.EnglishKeys | config.py:65-76 | the English table has the ten keys |
| Config.VietnameseKeys | config.py:77-88 | the Vietnamese table has the same ten keys |
| Config.SpanishKeys | config.py:89-100 | the Spanish table has the same ten keys |
| Config.FrenchKeys | config.py:101-112 | the French table has the same ten keys |
| Config.GermanKeys | config.py:113-124 | the German table has the same ten keys |
| Config.RussianKeys | config.py:125-136 | the Russian table has the same ten keys |
| Config.ChineseKeys | config.py:137-148 | the Chinese table has the same ten keys |
| Config.DefaultLabels | config.py:62-151 | every result has the ten label keys; each of en, vi, es, fr, de, ru and zh gets its own table, and any other language the English one |
| Config.PostInit | config.py:53-60 | afterwards all three optional fields are present; a missing label table becomes the language's default table and missing country lists become empty; present values and all other fields are kept; it is the identity on initialised settings |
| Config.Defaults | config.py:17-60 | the default instance is initialised, with the English labels and empty country lists |
| Config.IsCountryAllowed | config.py:153-164 | a blocked code is refused; with an empty allow list everything else is admitted; with a non-empty one exactly its unblocked members |
| Config.CheckOrderComplete | config.py:168-190 | the fixed check order contains every check |
| Config.Validate | config.py:166-192 | the verdict is true exactly when every check passes, and a message is returned exactly when it is false |
| Config.ValidateReportsFirstFailure | config.py:166-192 | a failing configuration is reported with the message of the first failing check in the order icon size, font size, width, height, opacity, animation speed, theme, notation |
| Config.PositionNotValidated | config.py:166-192 | the verdict never depends on the screen position |
| Config.DefaultsValid | config.py:166-192 | the default configuration passes validation |
| Config.LoadDecision | config.py:204-230 | the result is always initialised and valid; it is the stored configuration exactly when the file holds one that validates, and the defaults when the file is missing, unreadable or invalid |
| Config.SaveThenLoad | config.py:194-230 | a valid, initialised configuration that was saved loads back unchanged |
| Config.OverlayConfig.constructor | config.py:53-60 | a new instance holds the given fields after `__post_init__` |
| Config.OverlayConfig.ResetToDefaults | config.py:232-237 | afterwards every field equals the default instance's |
| Config.OverlayConfig.Load | config.py:204-230 | a fresh instance holding what `LoadDecision` chooses; a missing file is then written with the defaults, any other file is untouched |
| Config.ConfigStore.constructor | config.py:241 | `CONFIG` starts as the loaded configuration |
| Config.ConfigStore.SaveConfig | config.py:257-259 | the file then holds the current `CONFIG` instance's fields |
| Config.ConfigStore.ReloadConfig | config.py:250-254 | `CONFIG` is rebound to a fresh instance loaded from the file |
| Window.IconFilesNamedAfterLabels | window.py:154-163 | each of the eight labels maps to "<label>.png" |
| Window.IconFilesCoverLabels | window.py:154-163 | the icon map has no label outside the eight |
| Window.IconFilename | window.py:152-165 | the file name is "<label>.png" for the eight labels and "good.png" for any other |
| Window.GradientsCoverLabels | window.py:176-185 | the gradient map's keys are exactly the eight labels |
| Window.ColorGradient | window.py:174-186 | a label's own gradient, or the "good" gradient for any other label |
| Window.UnknownLabelLooksGood | window.py:152-186 | an unknown label gets the same icon file and gradient as "good" |
| Window.HeadingText | window.py:205 | the configured text for the label, else the label upper-cased |
| Window.DefaultTablesNameEveryLabel | window.py:205 | with any language's default table, every valid label's heading comes from the table, never from the upper-case fallback |
| Window.CentreCoordinate | window.py:332-333 | `(screen - size) // 2` centres the window: the slack on each side differs by at most one pixel |
| Window.AfterDisplay | window.py:188-239 | after showing a move the window is shown; the timer runs exactly when the delay is positive, with that delay |
| Window.AfterTimeout | window.py:275-277 | a timer expiry leaves the window hidden and the timer as it was |
| Window.ReplayTimer | window.py:188-277 | with a positive delay the timer runs, with that delay, exactly when some move has been shown, and the window stays hidden until then |
| Window.AutoHideShownIffLastDisplay | window.py:188-277 | with a positive delay, over any sequence of updates and expiries, the window is shown exactly when the latest event was an update |
| Window.NoAutoHideWhenDisabled | window.py:188-277 | with delay 0 the timer never runs and the window is shown exactly when some update has been displayed |
| Window.Refill | window.py:219-232 | a shown panel gets the new title and move; a hidden panel keeps its old texts |
| Window.RenderShowsPresentMoves | window.py:188-232 | icon, heading text and gradient come from the label; the best-move panel is shown exactly when the move is non-empty and enabled, the opponent panel exactly when the opponent move is present, non-empty and enabled, each then with its move and configured title |
| Window.DraggableOverlay.constructor | window.py:21-31 | a new overlay is hidden with the timer stopped, not dragging, with no data, sized from and placed at the configured size and position |
| Window.DraggableOverlay.DisplayMove | window.py:188-239 | records the data, shows the window, sets the timer per the delay, renders heading and panels as `Render` states; position and drag state are untouched |
| Window.DraggableOverlay.AnimateShow | window.py:241-243 | the window ends shown |
| Window.DraggableOverlay.AnimateHide | window.py:265-273 | the window ends hidden |
| Window.DraggableOverlay.AutoHide | window.py:275-277 | a timer expiry steps the visibility as `AfterTimeout` does |
| Window.DraggableOverlay.MousePress | window.py:281-289 | a left press on an unlocked window starts a drag with the pointer's offset from the window; anything else changes nothing |
| Window.DraggableOverlay.MouseMove | window.py:291-296 | while dragging and unlocked the window moves to pointer minus offset; otherwise it stays |
| Window.DraggableOverlay.MouseRelease | window.py:298-311 | a left release ends the drag and saves the position into the configuration and the file; other buttons change nothing |
| Window.DraggableOverlay.SavePosition | window.py:313-319 | the configuration's position becomes the window's, nothing else in it changes, and the configuration is saved |
| Window.DraggableOverlay.LoadPosition | window.py:321-324 | the window moves to the configured position |
| Window.DraggableOverlay.ResetPosition | window.py:326-337 | the window is centred on the screen (floor division), and the position is saved through the same `CONFIG` instance |
| Window.DragWindow | window.py:281-319 | press, move and release on an unlocked window move it by the pointer's displacement and store the new position in the configuration and the file; visibility, timer, heading, panels and data are unchanged |
| Window.OverlaySlot.constructor | window.py:341 | no overlay exists yet |
| Window.OverlaySlot.GetOverlay | window.py:343-348 | the first call creates a hidden overlay on the shared configuration; every later call returns that same instance |
| Dispatcher.Step | dispatcher.py:26-58 | connecting sets the flag; a send appends its data exactly once when connected and changes nothing otherwise |
| Dispatcher.ConnectedForwardsAll | dispatcher.py:44-58 | a connected dispatcher forwards every later send, in order, and stays connected |
| Dispatcher.DeliversExactlySendsAfterConnect | dispatcher.py:39-58 | from a fresh dispatcher the delivered log is exactly the data of the sends after the first connect, in call order; it is connected exactly when some call connected it |
| Dispatcher.DropsBeforeConnect | dispatcher.py:51-53 | before any connect, sends deliver nothing |
| Dispatcher.ConnectIdempotent | dispatcher.py:28-29 | connecting twice is connecting once |
| Dispatcher.ConnectedIsPermanent | dispatcher.py:24-35 | once connected, no call disconnects |
| Dispatcher.DeliveredOnlyGrows | dispatcher.py:56 | the delivered log only ever grows by appending |
| Dispatcher.OverlayDispatcher.constructor | dispatcher.py:20-24 | a new dispatcher is not connected, holds no overlay and has delivered nothing |
| Dispatcher.OverlayDispatcher.ConnectOverlay | dispatcher.py:26-37 | steps the gateway with `Connect`; the first call takes the shared overlay, a later call changes nothing |
| Dispatcher.OverlayDispatcher.Dispatch | dispatcher.py:39-58 | steps the gateway with `Send(data)`: dropped when not connected, appended once and unchanged when connected |
| Dispatcher.DispatcherSlot.constructor | dispatcher.py:62 | no dispatcher exists yet |
| Dispatcher.DispatcherSlot.GetDispatcher | dispatcher.py:66-75 | the first call creates a fresh unconnected dispatcher; every later call returns that same instance |
| Dispatcher.DispatcherSlot.DispatchData | dispatcher.py:78-84 | sends through the shared dispatcher; a dispatcher created by this call is unconnected and delivers nothing |
| Dispatcher.DispatcherSlot.InitDispatcher | dispatcher.py:87-93 | the shared dispatcher ends connected and its delivered log is unchanged |
| ConfigGui.Clamp | config_gui.py:421-437 | a spin box holds the given value when in range, else the nearer bound |
| ConfigGui.ClampReal | config_gui.py:425 | the same for the real-valued spin boxes |
| ConfigGui.LanguageIndex | config_gui.py:441-442 | a known language loads as the index of its item; any other as index 0 |
| ConfigGui.LanguageIndexInverse | config_gui.py:441-477 | each combo index saves as a language that loads back as that index |
| ConfigGui.LanguageRoundTrip | config_gui.py:441-477 | a known language survives load then save; any other is saved as "en" |
| ConfigGui.NotationIndex | config_gui.py:444-445 | "san" loads as index 0, anything else as 1 |
| ConfigGui.NotationAt | config_gui.py:480 | index 0 saves as "san", any other as "uci" |
| ConfigGui.NotationRoundTrip | config_gui.py:444-480 | "san" and "uci" survive load then save; anything else is saved as "uci" |
| ConfigGui.ThemeIndex | config_gui.py:426 | a known theme selects its item; an unknown one leaves the combo where it was |
| ConfigGui.Clean | config_gui.py:483-484 | the kept codes are at most as many as the pieces, each non-empty and without surrounding whitespace |
| ConfigGui.CleanIsStrippedPieces | config_gui.py:483-484 | every piece that is not blank contributes its stripped text, and every code is the stripped text of some piece |
| ConfigGui.CleanCodesAreClean | config_gui.py:483-484 | codes parsed from comma-split pieces contain no comma |
| ConfigGui.ParseCountries | config_gui.py:483-486 | every parsed code is non-empty, trimmed and comma-free |
| ConfigGui.SplitFormatted | config_gui.py:448-449 | splitting a ", "-joined list gives the first code, then each later code behind one space |
| ConfigGui.CleanSpaced | config_gui.py:483-484 | stripping the space-prefixed codes gives the codes back |
| ConfigGui.ParseFormatRoundTrip | config_gui.py:448-486 | parse(", ".join(codes)) == codes for non-empty, comma-free, trimmed codes |
| ConfigGui.ParseIdempotent | config_gui.py:483-486 | formatting a parsed list and parsing again gives the same list |
| ConfigGui.LoadedFormValid | config_gui.py:419-452 | loading leaves every widget on a value it can hold |
| ConfigGui.Apply | config_gui.py:454-489 | the language is the selected item's code and the labels become that language's default table (custom labels are discarded); the theme is the selected item; notation and country lists come through their mappings |
| ConfigGui.ApplyTakesWidgets | config_gui.py:456-489 | every other setting is the value its widget holds, so the previous settings do not influence the result |
| ConfigGui.EditorOutputAlwaysValid | config_gui.py:491-498 | whatever the widgets hold passes `validate`, so the warning branch cannot be reached from the editor |
| ConfigGui.LoadedWidgetsShowValues | config_gui.py:419-445 | widgets loaded from valid settings show the values unclamped, and the combos map back to the same theme, language and notation |
| ConfigGui.LoadedFormShowsSettings | config_gui.py:419-452 | every widget loaded from representable settings reads back as the setting it shows, country lists included |
| ConfigGui.LoadThenSaveKeepsSettings | config_gui.py:419-489 | loading representable settings into the editor and saving them straight back changes nothing |
| ConfigGui.DefaultsRepresentable | config_gui.py:509-512 | the defaults survive the reset's save and reload unchanged |
| ConfigGui.ConfigEditor.constructor | config_gui.py:22-26 | the editor edits the shared configuration and starts with the widgets loaded from it |
| ConfigGui.ConfigEditor.LoadSettings | config_gui.py:419-452 | the widgets show the configuration as `FormOf` maps it |
| ConfigGui.ConfigEditor.SaveIfValid | config_gui.py:491-498 | the configuration is written to the file exactly when it validates; otherwise the first failing check's message is reported and the file is untouched |
| ConfigGui.ConfigEditor.SaveSettings | config_gui.py:454-498 | the configuration takes the widgets' values; it is written to the file only when it validates, otherwise the first failing check's message is reported and the file is untouched |
| ConfigGui.ConfigEditor.ResetSettings | config_gui.py:500-514 | when confirmed, the configuration returns to the defaults, is saved, and the widgets are reloaded; otherwise nothing changes |

## Left out

- Text.Split: its own contract states only that there is at least one piece and
  that no piece contains the separator. The exact pieces are stated by
  `Text.SplitNoSeparator` and `Text.SplitAfterPiece`, which is what the
  country-list round trip uses.
- Qt widget construction, layouts, stylesheets, theme colours, fonts and pixmaps
  are not modelled. They carry no decision logic.
- The fade and slide animations and their float arithmetic are not modelled.
  Showing and hiding are modelled by their outcome (shown / hidden). The
  hide animation's duration (`int(400 / animation_speed)` ms) before the hide
  takes effect, and a hide animation finishing after a newer update, are not
  modelled.
- The icon file's existence check and `os.path.exists` in `display_move` are
  filesystem I/O. Only the file-name choice is modelled.
- JSON encoding, the reading and writing of the configuration file, and
  `os.makedirs` are not modelled. The file is a `ConfigFile` value; any
  exception while reading or constructing is the `Unreadable` case.
- The thread locks and the Qt signal/slot queueing are left out, because the
  model is sequential. `dispatch` is one atomic step, and emitting
  `move_received` is an append to `delivered`. Running `display_move` for each
  delivered item happens on the UI event loop, which is not modelled.
- `get_config()` is the read of `ConfigStore.config`; it has no member of its
  own.
- The `position_changed` signal, cursor shapes, message boxes, status-bar
  messages, `open_config_folder`, printing and the `__main__` demo blocks are
  not modelled.
- `Config.Settings.opacity` and `animationSpeed` are `real`, compared only.
  Float rounding is not modelled, and neither is `QDoubleSpinBox`'s rounding
  to two decimals.
- Text.Strip and Text.Upper: ASCII only. `strip()` removes the ASCII
  characters `str.isspace()` accepts, including U+001C to U+001F, but
  non-ASCII whitespace such as U+0085 and U+00A0 is kept, and Unicode
  upper-casing is not modelled.
- The `label` field of `MoveDisplayData` is called `quality`, because `label`
  is a Dafny keyword.
- The test drivers, `verify_setup.py`, `validator.py` and `__init__.py` are not
  part of this model.
