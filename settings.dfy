/** The settings dialog: six preferences loaded from and saved to `localStorage`, the
    height field's validation, and the gating of the save action on the OpenAI key. */
module SettingsPanel {
  import opened Wrappers
  import opened JsString
  import opened BrowserStorage

  const ApiKeyItem := "openai_api_key"
  const CloudflareItem := "cloudflare_account"
  const GeminiItem := "gemini_api_key"
  const HeightItem := "height_percentage"
  const ClickThroughItem := "click_through"
  const DeviceItem := "whisper_device_id"

  /** The dialog's stored preferences. */
  datatype Prefs = Prefs(apiKey: string, cloudflareAccount: string, geminiApiKey: string,
                         heightPercentage: string, clickThrough: bool, deviceId: string)

  /** The initial state of the dialog. */
  const Defaults := Prefs("", "", "", "100", false, "")

  /** `String(b)`, as `setItem` stores a boolean. */
  function BoolString(b: bool): string {
    if b then "true" else "false"
  }

  /** The item map after `handleSave`'s six `setItem` calls. */
  function Saved(items: map<string, string>, p: Prefs): map<string, string> {
    items[ApiKeyItem := p.apiKey][CloudflareItem := p.cloudflareAccount][GeminiItem := p.geminiApiKey]
         [HeightItem := p.heightPercentage][ClickThroughItem := BoolString(p.clickThrough)]
         [DeviceItem := p.deviceId]
  }

  /** The preferences after the loading effect: each string item replaces the current
      value only when stored and non-empty; click-through is true exactly when the
      stored item is the string "true". */
  function Loaded(current: Prefs, items: map<string, string>): Prefs {
    Prefs(StoredOr(Lookup(items, ApiKeyItem), current.apiKey),
          StoredOr(Lookup(items, CloudflareItem), current.cloudflareAccount),
          StoredOr(Lookup(items, GeminiItem), current.geminiApiKey),
          StoredOr(Lookup(items, HeightItem), current.heightPercentage),
          Lookup(items, ClickThroughItem) == Some("true"),
          StoredOr(Lookup(items, DeviceItem), current.deviceId))
  }

  /** A save writes the six items and no other. */
  lemma SavedItems(items: map<string, string>, p: Prefs)
    ensures var m := Saved(items, p);
      && Lookup(m, ApiKeyItem) == Some(p.apiKey)
      && Lookup(m, CloudflareItem) == Some(p.cloudflareAccount)
      && Lookup(m, GeminiItem) == Some(p.geminiApiKey)
      && Lookup(m, HeightItem) == Some(p.heightPercentage)
      && Lookup(m, ClickThroughItem) == Some(BoolString(p.clickThrough))
      && Lookup(m, DeviceItem) == Some(p.deviceId)
    ensures forall key :: key !in {ApiKeyItem, CloudflareItem, GeminiItem, HeightItem, ClickThroughItem, DeviceItem} ==>
      Lookup(Saved(items, p), key) == Lookup(items, key)
  {
  }

  /** Loading what was saved gives back every non-empty string and the click-through
      flag; a string saved empty leaves the value the loader already had. */
  lemma LoadSavedRoundTrip(current: Prefs, items: map<string, string>, p: Prefs)
    ensures var q := Loaded(current, Saved(items, p));
      && q.apiKey == (if p.apiKey != "" then p.apiKey else current.apiKey)
      && q.cloudflareAccount == (if p.cloudflareAccount != "" then p.cloudflareAccount else current.cloudflareAccount)
      && q.geminiApiKey == (if p.geminiApiKey != "" then p.geminiApiKey else current.geminiApiKey)
      && q.heightPercentage == (if p.heightPercentage != "" then p.heightPercentage else current.heightPercentage)
      && q.clickThrough == p.clickThrough
      && q.deviceId == (if p.deviceId != "" then p.deviceId else current.deviceId)
  {
    SavedItems(items, p);
  }

  /** With every string non-empty the round trip is exact, whatever the loader held. */
  lemma LoadSavedExact(current: Prefs, items: map<string, string>, p: Prefs)
    requires p.apiKey != "" && p.cloudflareAccount != "" && p.geminiApiKey != ""
    requires p.heightPercentage != "" && p.deviceId != ""
    ensures Loaded(current, Saved(items, p)) == p
  {
    LoadSavedRoundTrip(current, items, p);
  }

  /** `newValue === '' || (parseInt(newValue) >= 1 && parseInt(newValue) <= 100)`;
      NaN fails both comparisons. */
  predicate HeightAccepted(v: string) {
    v == "" || (ParseInt(v).Some? && 1 <= ParseInt(v).value <= 100)
  }

  /** A decimal numeral followed by anything but a digit is accepted exactly when the
      numeral's value lies in [1, 100]: only the leading digits count. */
  lemma HeightOfDigits(d: string, rest: string)
    requires d != [] && forall i :: 0 <= i < |d| ==> '0' <= d[i] <= '9'
    requires rest == [] || !('0' <= rest[0] <= '9')
    requires !(d == "0" && rest != [] && (rest[0] == 'x' || rest[0] == 'X'))
    ensures HeightAccepted(d + rest) <==> 1 <= DigitsValue(d, 10) <= 100
  {
    ParseIntOfDigits(d, rest);
  }

  /** A trailing non-digit does not stop the height from being accepted. */
  lemma HeightTrailingText()
    ensures HeightAccepted("5x")
  {
    HeightOfDigits("5", "x");
    assert "5" + "x" == "5x";
  }

  /** Both bounds are inclusive: "1" is accepted ... */
  lemma HeightLowerBound()
    ensures HeightAccepted("1")
  {
    HeightOfDigits("1", "");
    assert "1" + "" == "1";
  }

  /** ... and so is "100". */
  lemma HeightUpperBound()
    ensures HeightAccepted("100")
  {
    assert "100"[..2] == "10" && "10"[..1] == "1" && "1"[..0] == "";
    assert DigitsValue("1", 10) == 1 && DigitsValue("10", 10) == 10;
    assert DigitsValue("100", 10) == 100;
    HeightOfDigits("100", "");
    assert "100" + "" == "100";
  }

  /** Just below the range: "0" is rejected. */
  lemma HeightBelowRange()
    ensures !HeightAccepted("0")
  {
    HeightOfDigits("0", "");
    assert "0" + "" == "0";
  }

  /** Just above the range: "101" is rejected. */
  lemma HeightAboveRange()
    ensures !HeightAccepted("101")
  {
    assert "101"[..2] == "10" && "10"[..1] == "1" && "1"[..0] == "";
    assert DigitsValue("1", 10) == 1 && DigitsValue("10", 10) == 10;
    assert DigitsValue("101", 10) == 101;
    HeightOfDigits("101", "");
    assert "101" + "" == "101";
  }

  /** A value that is not a number is rejected. */
  lemma HeightNotANumber()
    ensures !HeightAccepted("abc")
  {
    ParseIntNotANumber("abc");
  }

  /** The editable text fields other than the height. */
  datatype TextField = ApiKeyField | CloudflareField | GeminiField | DeviceField

  class Settings {
    var apiKey: string
    var cloudflareAccount: string
    var geminiApiKey: string
    var heightPercentage: string
    var clickThrough: bool
    var selectedDeviceId: string
    var isSaved: bool

    function Current(): Prefs
      reads this
    {
      Prefs(apiKey, cloudflareAccount, geminiApiKey, heightPercentage, clickThrough, selectedDeviceId)
    }

    constructor ()
      ensures Current() == Defaults && !isSaved
    {
      apiKey := "";
      cloudflareAccount := "";
      geminiApiKey := "";
      heightPercentage := "100";
      clickThrough := false;
      selectedDeviceId := "";
      isSaved := false;
    }

    /** The loading effect run on mount. */
    method Load(b: Browser)
      modifies this
      ensures Current() == Loaded(old(Current()), b.items) && isSaved == old(isSaved)
    {
      apiKey := StoredOr(b.GetItem(ApiKeyItem), apiKey);
      cloudflareAccount := StoredOr(b.GetItem(CloudflareItem), cloudflareAccount);
      geminiApiKey := StoredOr(b.GetItem(GeminiItem), geminiApiKey);
      heightPercentage := StoredOr(b.GetItem(HeightItem), heightPercentage);
      clickThrough := b.GetItem(ClickThroughItem) == Some("true");
      selectedDeviceId := StoredOr(b.GetItem(DeviceItem), selectedDeviceId);
    }

    /** A text input's `onChange`: the field takes the new value, unchecked. */
    method Edit(field: TextField, value: string)
      modifies this
      ensures Current() == match field
        case ApiKeyField => old(Current()).(apiKey := value)
        case CloudflareField => old(Current()).(cloudflareAccount := value)
        case GeminiField => old(Current()).(geminiApiKey := value)
        case DeviceField => old(Current()).(deviceId := value)
      ensures isSaved == old(isSaved)
    {
      match field
      case ApiKeyField => apiKey := value;
      case CloudflareField => cloudflareAccount := value;
      case GeminiField => geminiApiKey := value;
      case DeviceField => selectedDeviceId := value;
    }

    /** `handleHeightPercentageChange`: a rejected input leaves the previous value, so
        an accepted height stays accepted. */
    method ChangeHeight(v: string)
      modifies this
      ensures Current() == old(Current()).(heightPercentage := if HeightAccepted(v) then v else old(heightPercentage))
      ensures HeightAccepted(old(heightPercentage)) ==> HeightAccepted(heightPercentage)
      ensures isSaved == old(isSaved)
    {
      if HeightAccepted(v) {
        heightPercentage := v;
      }
    }

    /** `handleClickThroughChange`. */
    method ToggleClickThrough()
      modifies this
      ensures Current() == old(Current()).(clickThrough := !old(clickThrough)) && isSaved == old(isSaved)
    {
      clickThrough := !clickThrough;
    }

    /** The Save button is disabled exactly when no OpenAI key is entered. */
    predicate SaveDisabled()
      reads this
    {
      apiKey == ""
    }

    /** `handleSave`: the six items, then the 'settings-updated' event. */
    method Save(b: Browser)
      modifies this, b
      ensures b.items == Saved(old(b.items), old(Current()))
      ensures b.events == old(b.events) + [SettingsUpdated]
      ensures Current() == old(Current()) && isSaved
    {
      b.SetItem(ApiKeyItem, apiKey);
      b.SetItem(CloudflareItem, cloudflareAccount);
      b.SetItem(GeminiItem, geminiApiKey);
      b.SetItem(HeightItem, heightPercentage);
      b.SetItem(ClickThroughItem, BoolString(clickThrough));
      b.SetItem(DeviceItem, selectedDeviceId);
      isSaved := true;
      b.Dispatch(SettingsUpdated);
    }

    /** An input's `onKeyDown`: Enter saves only when an OpenAI key is entered, which is
        when the Save button is enabled too. */
    method KeyDown(key: string, b: Browser) returns (prevented: bool)
      modifies this, b
      ensures prevented <==> key == "Enter" && !old(SaveDisabled())
      ensures prevented ==> b.items == Saved(old(b.items), old(Current())) && b.events == old(b.events) + [SettingsUpdated]
      ensures !prevented ==> b.items == old(b.items) && b.events == old(b.events) && isSaved == old(isSaved)
      ensures Current() == old(Current())
    {
      prevented := false;
      if key == "Enter" && apiKey != "" {
        prevented := true;
        Save(b);
      }
    }
  }
}
