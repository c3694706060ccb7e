/** The application shell: the settings it passes to the answer panel, reloaded from
    `localStorage` whenever the settings dialog saves, the dialog's open flag, and the
    window-wide keyboard shortcuts. The elements a shortcut looks up in the document
    are given as a `Page` value. */
module AppShell {
  import opened Wrappers
  import opened BrowserStorage
  import opened SettingsPanel

  const ForceOpenAICall := "force-openai-call"
  const ResetOpenAI := "reset-openai"

  /** A `keydown` event: its key and the two modifier flags. */
  datatype KeyEvent = KeyEvent(key: string, meta: bool, ctrl: bool)

  /** What the document holds when the key arrives: the generate button and whether it
      is enabled, an image preview, and the two mode buttons. */
  datatype Page = Page(generateButton: bool, generateEnabled: bool, imagePreview: bool,
                       problemButton: bool, solutionButton: bool)

  /** What the handler does besides `preventDefault`. */
  datatype Action =
    | NoAction
    | ToggleSettings
    | ClickGenerate
    | DispatchEvent(name: string)
    | ClickProblemMode
    | ClickSolutionMode

  datatype Outcome = Outcome(prevented: bool, action: Action)

  predicate ModifierPressed(e: KeyEvent) {
    e.meta || e.ctrl
  }

  predicate IsToggleKey(key: string) {
    key == "," || key == "<"
  }

  /** The `handleKeyDown` chain, in its order. */
  function KeyOutcome(e: KeyEvent, settingsOpen: bool, page: Page): Outcome {
    var modifier := ModifierPressed(e);
    if modifier && IsToggleKey(e.key) then Outcome(true, ToggleSettings)
    else if modifier && (e.key == "s" || e.key == "S") then Outcome(false, NoAction)
    else if settingsOpen && e.key != "Escape" then Outcome(false, NoAction)
    else if !modifier then Outcome(false, NoAction)
    else if e.key == "Enter" then
      if page.generateButton && page.generateEnabled then Outcome(true, ClickGenerate)
      else if page.imagePreview then Outcome(true, DispatchEvent(ForceOpenAICall))
      else Outcome(true, NoAction)
    else if e.key == "r" || e.key == "R" then Outcome(true, DispatchEvent(ResetOpenAI))
    else if (e.key == "p" || e.key == "P") && page.problemButton then Outcome(true, ClickProblemMode)
    else if (e.key == "m" || e.key == "M") && page.solutionButton then Outcome(true, ClickSolutionMode)
    else Outcome(false, NoAction)
  }

  /** The settings toggle is checked first, so it works with the dialog open too, and it
      is the only way the handler toggles the dialog. */
  lemma ToggleChecksFirst(e: KeyEvent, settingsOpen: bool, page: Page)
    ensures KeyOutcome(e, settingsOpen, page).action == ToggleSettings <==> ModifierPressed(e) && IsToggleKey(e.key)
    ensures ModifierPressed(e) && IsToggleKey(e.key) ==> KeyOutcome(e, settingsOpen, page).prevented
  {
  }

  /** Modifier+S is left to the answer panel: no default prevented, no action. */
  lemma ScreenshotKeySkipped(e: KeyEvent, settingsOpen: bool, page: Page)
    requires ModifierPressed(e) && (e.key == "s" || e.key == "S")
    ensures KeyOutcome(e, settingsOpen, page) == Outcome(false, NoAction)
  {
  }

  /** With the dialog open every key other than the toggle and Escape is ignored, and
      Escape is left to the dialog's own listener. */
  lemma SettingsOpenIgnores(e: KeyEvent, page: Page)
    requires !(ModifierPressed(e) && IsToggleKey(e.key))
    ensures KeyOutcome(e, true, page) == Outcome(false, NoAction)
  {
  }

  /** Nothing happens without a modifier, and nothing is prevented without one. */
  lemma ModifierRequired(e: KeyEvent, settingsOpen: bool, page: Page)
    ensures KeyOutcome(e, settingsOpen, page).prevented ==> ModifierPressed(e)
    ensures KeyOutcome(e, settingsOpen, page).action != NoAction ==> ModifierPressed(e)
  {
  }

  /** Modifier+Enter with the dialog closed: the default is always prevented; the button
      is clicked when present and enabled, else the forced call is requested when an
      image is shown. */
  lemma GenerateShortcut(e: KeyEvent, page: Page)
    requires ModifierPressed(e) && e.key == "Enter"
    ensures KeyOutcome(e, false, page).prevented
    ensures KeyOutcome(e, false, page).action ==
      if page.generateButton && page.generateEnabled then ClickGenerate
      else if page.imagePreview then DispatchEvent(ForceOpenAICall)
      else NoAction
  {
  }

  /** Modifier+R with the dialog closed prevents the reload and asks for a reset. */
  lemma ResetShortcut(e: KeyEvent, page: Page)
    requires ModifierPressed(e) && (e.key == "r" || e.key == "R")
    ensures KeyOutcome(e, false, page) == Outcome(true, DispatchEvent(ResetOpenAI))
  {
  }

  /** Modifier+P / Modifier+M act, and prevent the default, only when their button
      exists. */
  lemma ModeShortcuts(e: KeyEvent, page: Page)
    requires ModifierPressed(e)
    ensures e.key == "p" || e.key == "P" ==>
      KeyOutcome(e, false, page) == if page.problemButton then Outcome(true, ClickProblemMode) else Outcome(false, NoAction)
    ensures e.key == "m" || e.key == "M" ==>
      KeyOutcome(e, false, page) == if page.solutionButton then Outcome(true, ClickSolutionMode) else Outcome(false, NoAction)
  {
  }

  /** A Gemini key or Cloudflare hash saved empty by the dialog leaves the shell's copy
      as it was, since the shell only takes non-empty stored values. */
  lemma EmptiedKeysKept(items: map<string, string>, p: Prefs, gemini: string, cloudflare: string)
    ensures p.geminiApiKey == "" ==> StoredOr(Lookup(Saved(items, p), GeminiItem), gemini) == gemini
    ensures p.cloudflareAccount == "" ==> StoredOr(Lookup(Saved(items, p), CloudflareItem), cloudflare) == cloudflare
    ensures p.geminiApiKey != "" ==> StoredOr(Lookup(Saved(items, p), GeminiItem), gemini) == p.geminiApiKey
    ensures p.cloudflareAccount != "" ==> StoredOr(Lookup(Saved(items, p), CloudflareItem), cloudflare) == p.cloudflareAccount
  {
    SavedItems(items, p);
  }

  class App {
    var isSettingsOpen: bool
    var apiKey: string
    var cloudflareAccount: string
    var geminiApiKey: string
    var heightPercentage: string
    var whisperDeviceId: string

    constructor ()
      ensures !isSettingsOpen && apiKey == "" && cloudflareAccount == "" && geminiApiKey == ""
      ensures heightPercentage == "100" && whisperDeviceId == ""
    {
      isSettingsOpen := false;
      apiKey := "";
      cloudflareAccount := "";
      geminiApiKey := "";
      heightPercentage := "100";
      whisperDeviceId := "";
    }

    /** `loadSettings`, run on mount and on every 'settings-updated' event: only a
        non-empty stored value replaces a setting. */
    method LoadSettings(b: Browser)
      modifies this
      ensures apiKey == StoredOr(Lookup(b.items, ApiKeyItem), old(apiKey))
      ensures cloudflareAccount == StoredOr(Lookup(b.items, CloudflareItem), old(cloudflareAccount))
      ensures geminiApiKey == StoredOr(Lookup(b.items, GeminiItem), old(geminiApiKey))
      ensures heightPercentage == StoredOr(Lookup(b.items, HeightItem), old(heightPercentage))
      ensures whisperDeviceId == StoredOr(Lookup(b.items, DeviceItem), old(whisperDeviceId))
      ensures isSettingsOpen == old(isSettingsOpen)
    {
      apiKey := StoredOr(b.GetItem(ApiKeyItem), apiKey);
      cloudflareAccount := StoredOr(b.GetItem(CloudflareItem), cloudflareAccount);
      geminiApiKey := StoredOr(b.GetItem(GeminiItem), geminiApiKey);
      heightPercentage := StoredOr(b.GetItem(HeightItem), heightPercentage);
      whisperDeviceId := StoredOr(b.GetItem(DeviceItem), whisperDeviceId);
    }

    method ToggleSettings()
      modifies this
      ensures isSettingsOpen == !old(isSettingsOpen)
      ensures apiKey == old(apiKey) && cloudflareAccount == old(cloudflareAccount) && geminiApiKey == old(geminiApiKey)
      ensures heightPercentage == old(heightPercentage) && whisperDeviceId == old(whisperDeviceId)
    {
      isSettingsOpen := !isSettingsOpen;
    }

    /** The dialog's close callback. */
    method CloseSettings()
      modifies this
      ensures !isSettingsOpen
      ensures apiKey == old(apiKey) && cloudflareAccount == old(cloudflareAccount) && geminiApiKey == old(geminiApiKey)
      ensures heightPercentage == old(heightPercentage) && whisperDeviceId == old(whisperDeviceId)
    {
      isSettingsOpen := false;
    }

    /** The window's `keydown` listener: the outcome of the chain, with the toggle
        applied and any requested event dispatched. */
    method HandleKeyDown(e: KeyEvent, page: Page, b: Browser) returns (o: Outcome)
      modifies this, b
      ensures o == KeyOutcome(e, old(isSettingsOpen), page)
      ensures isSettingsOpen == (if o.action.ToggleSettings? then !old(isSettingsOpen) else old(isSettingsOpen))
      ensures b.events == old(b.events) + (if o.action.DispatchEvent? then [o.action.name] else [])
      ensures b.items == old(b.items)
      ensures apiKey == old(apiKey) && cloudflareAccount == old(cloudflareAccount) && geminiApiKey == old(geminiApiKey)
      ensures heightPercentage == old(heightPercentage) && whisperDeviceId == old(whisperDeviceId)
    {
      o := KeyOutcome(e, isSettingsOpen, page);
      if o.action.ToggleSettings? {
        ToggleSettings();
      } else if o.action.DispatchEvent? {
        b.Dispatch(o.action.name);
      }
    }
  }

  /** A save in the dialog: the items are written, and the event it dispatches runs the
      shell's loader at once. The shell then holds every non-empty saved string and keeps
      its own value where the dialog saved an empty one. */
  method SaveFromDialog(settings: Settings, app: App, b: Browser)
    modifies settings, app, b
    ensures b.items == Saved(old(b.items), old(settings.Current()))
    ensures b.events == old(b.events) + [SettingsUpdated]
    ensures app.apiKey == (if old(settings.apiKey) != "" then old(settings.apiKey) else old(app.apiKey))
    ensures app.cloudflareAccount ==
      (if old(settings.cloudflareAccount) != "" then old(settings.cloudflareAccount) else old(app.cloudflareAccount))
    ensures app.geminiApiKey == (if old(settings.geminiApiKey) != "" then old(settings.geminiApiKey) else old(app.geminiApiKey))
    ensures app.heightPercentage ==
      (if old(settings.heightPercentage) != "" then old(settings.heightPercentage) else old(app.heightPercentage))
    ensures app.whisperDeviceId ==
      (if old(settings.selectedDeviceId) != "" then old(settings.selectedDeviceId) else old(app.whisperDeviceId))
    ensures app.isSettingsOpen == old(app.isSettingsOpen)
  {
    settings.Save(b);
    SavedItems(old(b.items), old(settings.Current()));
    app.LoadSettings(b);
  }
}
