/**
 * The settings popup of popup.js: the size slider's index/percent mapping, the form the popup
 * fills from `chrome.storage.sync` and writes back, and which API-key fields it shows for an engine.
 */
module Popup {
  import opened Wrappers
  import opened Text
  import Content
  import Translator
  import Cache

  /** A JavaScript value that reaches `String(…)` or a property lookup: a number or a string. */
  datatype JsValue = Num(n: int) | Str(s: string)

  /** `String(v)` */
  function JsString(v: JsValue): string {
    match v
    case Num(n) => IntToString(n)
    case Str(s) => s
  }

  /** `sizeMap`: slider index to overlay size in percent. */
  const SizeMap: seq<string> := ["50", "75", "100", "150", "200", "250", "300"]

  /** The property keys of `sizeMap`'s elements. */
  const SliderKeys: seq<string> := ["0", "1", "2", "3", "4", "5", "6"]

  const DefaultPercent := "100"
  const DefaultSlider := 2

  /** `String(i)` of a slider position is its property key. */
  lemma KeyOf(i: int)
    requires 0 <= i < |SliderKeys|
    ensures IntToString(i) == SliderKeys[i]
  {
    assert IntToString(i) == DigitsOf(i) == ['0' + i as char];
  }

  /** `String(n)` of an integer is the key of an element of `sizeMap` exactly when `n` indexes one. */
  lemma KeyOfInt(n: int)
    ensures IntToString(n) in SliderKeys <==> 0 <= n < |SliderKeys|
  {
    if n < 0 {
      assert IntToString(n)[0] == '-';
    } else if n >= 10 {
      assert |IntToString(n)| == |DigitsOf(n / 10)| + 1 >= 2;
    } else {
      assert IntToString(n) == ['0' + n as char];
    }
  }

  lemma TablesDistinct()
    ensures Cache.Distinct(SizeMap) && Cache.Distinct(SliderKeys)
    ensures forall i :: 0 <= i < |SizeMap| ==> |SizeMap[i]| >= 2
  {
  }

  /** `table.indexOf(x)`: the first position of `x`, or -1. */
  function IndexOf(table: seq<string>, x: string): (r: int)
    ensures -1 <= r < |table|
    ensures r == -1 <==> x !in table
    ensures r >= 0 ==> table[r] == x && forall j :: 0 <= j < r ==> table[j] != x
  {
    if table == [] then -1
    else if table[0] == x then 0
    else
      var r := IndexOf(table[1..], x);
      if r == -1 then -1 else r + 1
  }

  /** In a table without repeats, `indexOf` inverts indexing. */
  lemma IndexOfDistinct(table: seq<string>, i: int)
    requires Cache.Distinct(table) && 0 <= i < |table|
    ensures IndexOf(table, table[i]) == i
  {
  }

  /** `sliderToPercent(index)`: `sizeMap[index] || '100'`. */
  function SliderToPercent(index: JsValue): (r: string)
    ensures r in SizeMap
    ensures forall i :: 0 <= i < |SliderKeys| && JsString(index) == SliderKeys[i] ==> r == SizeMap[i]
    ensures JsString(index) !in SliderKeys ==> r == DefaultPercent
  {
    TablesDistinct();
    var i := IndexOf(SliderKeys, JsString(index));
    if i >= 0 then SizeMap[i] else DefaultPercent
  }

  /** `percentToSlider(percent)`: the index of `String(percent)` in `sizeMap`, or 2. */
  function PercentToSlider(percent: JsValue): (r: nat)
    ensures r < |SizeMap|
    ensures JsString(percent) in SizeMap ==> SizeMap[r] == JsString(percent)
    ensures JsString(percent) !in SizeMap ==> r == DefaultSlider
  {
    var i := IndexOf(SizeMap, JsString(percent));
    if i != -1 then i else DefaultSlider
  }

  /** Every slider position survives the trip to a percent and back, given as a number or as the slider's string. */
  lemma SliderRoundTrip(i: nat)
    requires i < |SizeMap|
    ensures PercentToSlider(Str(SliderToPercent(Num(i)))) == i
    ensures PercentToSlider(Str(SliderToPercent(Str(IntToString(i))))) == i
  {
    KeyOf(i);
    TablesDistinct();
    assert SliderToPercent(Num(i)) == SizeMap[i] == SliderToPercent(Str(IntToString(i)));
    IndexOfDistinct(SizeMap, i);
  }

  /** Every size of `sizeMap` survives the trip to a slider position and back. */
  lemma PercentRoundTrip(p: string)
    requires p in SizeMap
    ensures SliderToPercent(Num(PercentToSlider(Str(p)))) == p
    ensures SliderToPercent(Str(IntToString(PercentToSlider(Str(p))))) == p
  {
    var i := PercentToSlider(Str(p));
    KeyOf(i);
    TablesDistinct();
    assert SliderToPercent(Num(i)) == SizeMap[i];
  }

  /** Out-of-range positions read as 100%, unknown sizes as position 2, and the two defaults agree. */
  lemma Defaults(n: int, p: JsValue)
    requires n < 0 || n >= |SizeMap|
    requires JsString(p) !in SizeMap
    ensures SliderToPercent(Num(n)) == DefaultPercent
    ensures PercentToSlider(p) == DefaultSlider
    ensures SliderToPercent(Num(DefaultSlider)) == DefaultPercent && PercentToSlider(Str(DefaultPercent)) == DefaultSlider
  {
    KeyOfInt(n);
    DefaultsAgree();
  }

  lemma DefaultsAgree()
    ensures IntToString(DefaultSlider) == "2"
    ensures SliderToPercent(Num(DefaultSlider)) == DefaultPercent && PercentToSlider(Str(DefaultPercent)) == DefaultSlider
  {
    KeyOf(DefaultSlider);
    TablesDistinct();
    IndexOfDistinct(SizeMap, DefaultSlider);
  }

  /** The number 150 and the string '150' select the same position. */
  lemma NumberOrString()
    ensures PercentToSlider(Num(150)) == PercentToSlider(Str("150")) == 3
  {
    assert DigitsOf(15) == DigitsOf(1) + "5" == "15";
    assert IntToString(150) == DigitsOf(15) + "0" == "150";
    TablesDistinct();
    IndexOfDistinct(SizeMap, 3);
  }

  /** The inline `style.display` of an API-key field group: unset (the stylesheet decides), `block` or `none`. */
  datatype StyleDisplay = Unset | Block | Hidden

  /** The popup's form controls. */
  datatype Form = Form(
    sourceLang: string,
    targetLang: string,
    translationEngine: string,
    apiKey: string,
    apiSecret: string,
    showOriginal: bool,
    overlayPosition: string,
    overlaySize: string,              // the slider's `value`
    sizeValue: string,                // the text beside the slider
    enableCache: bool,
    apiKeyGroup: StyleDisplay,
    apiSecretGroup: StyleDisplay)

  /** `updateAPIKeyVisibility()` */
  function ApiKeyVisibility(f: Form): (r: Form)
    ensures r == f.(apiKeyGroup := r.apiKeyGroup, apiSecretGroup := r.apiSecretGroup)
    ensures f.translationEngine == Translator.Google ==> r.apiKeyGroup == Hidden && r.apiSecretGroup == Hidden
    ensures f.translationEngine == Translator.Papago ==> r.apiKeyGroup == Block && r.apiSecretGroup == Block
    ensures f.translationEngine == Translator.DeepL ==> r.apiKeyGroup == Block && r.apiSecretGroup == Hidden
    ensures f.translationEngine !in {Translator.Google, Translator.Papago, Translator.DeepL} ==> r == f
  {
    var engine := f.translationEngine;
    if engine == Translator.Google then f.(apiKeyGroup := Hidden, apiSecretGroup := Hidden)
    else if engine == Translator.Papago then f.(apiKeyGroup := Block, apiSecretGroup := Block)
    else if engine == Translator.DeepL then f.(apiKeyGroup := Block, apiSecretGroup := Hidden)
    else f
  }

  /**
   * For Papago and DeepL the popup shows exactly the credentials the router reads: Papago needs both,
   * DeepL ignores the secret. For Google it hides the key, which the router still reads as an
   * Apps Script URL.
   */
  lemma ShownCredentialsAreRead(f: Form, key: string, secret: string, secret': string)
    ensures f.translationEngine == Translator.Papago && key != "" ==>
      ApiKeyVisibility(f).apiSecretGroup == Block
      && Translator.SelectProvider(Translator.Options(Translator.Papago, key, "")).Err?
      && (secret != "" ==> Translator.SelectProvider(Translator.Options(Translator.Papago, key, secret)).Ok?)
    ensures f.translationEngine == Translator.DeepL ==>
      ApiKeyVisibility(f).apiKeyGroup == Block && ApiKeyVisibility(f).apiSecretGroup == Hidden
      && Translator.SelectProvider(Translator.Options(Translator.DeepL, key, secret))
         == Translator.SelectProvider(Translator.Options(Translator.DeepL, key, secret'))
    ensures f.translationEngine == Translator.Google ==>
      ApiKeyVisibility(f).apiKeyGroup == Hidden
      && Translator.SelectProvider(Translator.Options(Translator.Google, ScriptUrl, secret)) == Ok(Translator.GoogleScript(ScriptUrl))
  {
    assert StartsWith(ScriptUrl[8..], "script.google.com");
    ContainsAt(ScriptUrl, "script.google.com", 8);
  }

  const ScriptUrl := "https://script.google.com/macros/s/x/exec"

  lemma {:induction false} ContainsAt(s: string, sub: string, k: nat)
    requires k <= |s| && StartsWith(s[k..], sub)
    ensures Contains(s, sub)
    decreases k
  {
    if k > 0 {
      assert s[1..][k - 1..] == s[k..];
      ContainsAt(s[1..], sub, k - 1);
    }
  }

  /** `loadSettings()`: the form shows the stored settings with the same defaults the content script applies. */
  function Loaded(f: Form, stored: Content.StoredSettings): Form {
    ApiKeyVisibility(Filled(f, stored))
  }

  /** The controls `loadSettings()` sets before it updates the API-key fields. */
  function Filled(f: Form, stored: Content.StoredSettings): Form {
    var sizePercent := Content.OrDefault(stored.overlaySize, "100");
    f.(sourceLang := Content.OrDefault(stored.sourceLang, "auto"),
       targetLang := Content.OrDefault(stored.targetLang, "ko"),
       translationEngine := Content.OrDefault(stored.translationEngine, "google"),
       apiKey := Content.OrDefault(stored.apiKey, ""),
       apiSecret := Content.OrDefault(stored.apiSecret, ""),
       showOriginal := stored.showOriginal != Some(false),
       overlayPosition := Content.OrDefault(stored.overlayPosition, "bottom"),
       overlaySize := IntToString(PercentToSlider(Str(sizePercent))),
       sizeValue := sizePercent + "%",
       enableCache := stored.enableCache != Some(false))
  }

  /** The loaded form shows the stored settings with the same defaults the content script applies. */
  lemma LoadedShows(f: Form, stored: Content.StoredSettings)
    ensures var r, s := Loaded(f, stored), Content.LoadedSettings(stored);
      && r.sourceLang == s.sourceLang && r.targetLang == s.targetLang && r.translationEngine == s.translationEngine
      && r.apiKey == s.apiKey && r.apiSecret == s.apiSecret && r.showOriginal == s.showOriginal
      && r.overlayPosition == s.overlayPosition && r.enableCache == s.enableCache
      && r.sizeValue == s.overlaySize + "%"
      && r.overlaySize in SliderKeys
      && (s.overlaySize in SizeMap ==> SliderToPercent(Str(r.overlaySize)) == s.overlaySize)
  {
    var sizePercent := Content.OrDefault(stored.overlaySize, "100");
    PercentRoundTrip(if sizePercent in SizeMap then sizePercent else "100");
    KeyOf(PercentToSlider(Str(sizePercent)));
  }

  /** The settings object `saveSettings()` stores. */
  function Saved(f: Form): Content.StoredSettings
  {
    Content.StoredSettings(
      Some(f.sourceLang), Some(f.targetLang), Some(f.translationEngine), Some(f.showOriginal),
      Some(f.overlayPosition), Some(SliderToPercent(Str(f.overlaySize))), Some(f.enableCache),
      Some(Trim(f.apiKey)), Some(Trim(f.apiSecret)))
  }

  /** What a save stores: the form's values, the credentials without surrounding whitespace, and only a size of `sizeMap`. */
  lemma SavedShape(f: Form)
    ensures var r := Saved(f);
      && r.sourceLang == Some(f.sourceLang) && r.targetLang == Some(f.targetLang)
      && r.translationEngine == Some(f.translationEngine) && r.overlayPosition == Some(f.overlayPosition)
      && r.showOriginal == Some(f.showOriginal) && r.enableCache == Some(f.enableCache)
      && r.overlaySize.Some? && r.overlaySize.value in SizeMap
      && r.apiKey == Some(Trim(f.apiKey)) && r.apiSecret == Some(Trim(f.apiSecret))
  {
  }

  /** Saving twice stores the same credentials: the stored ones carry no surrounding whitespace. */
  lemma SavedTrimmed(f: Form)
    ensures var r := Saved(f);
      Trim(r.apiKey.value) == r.apiKey.value && Trim(r.apiSecret.value) == r.apiSecret.value
  {
    TrimIdempotent(f.apiKey);
    TrimIdempotent(f.apiSecret);
  }

  /** Storing every field of loaded settings, with a size outside `sizeMap` read as 100%. */
  function Normalized(s: Content.Settings): Content.StoredSettings {
    StoredOf(s.(overlaySize := if s.overlaySize in SizeMap then s.overlaySize else DefaultPercent,
                apiKey := Trim(s.apiKey), apiSecret := Trim(s.apiSecret)))
  }

  /** Opening the popup and saving without changes stores what the content script was already using, normalised. */
  lemma LoadThenSave(f: Form, stored: Content.StoredSettings)
    ensures Saved(Loaded(f, stored)) == Normalized(Content.LoadedSettings(stored))
  {
    var size := Content.LoadedSettings(stored).overlaySize;
    var g := Loaded(f, stored);
    LoadedShows(f, stored);
    if size !in SizeMap {
      assert g.overlaySize == IntToString(DefaultSlider) == "2";
      assert SliderToPercent(Str(g.overlaySize)) == DefaultPercent;
    }
  }

  /** What the content script loads after a save is what the form showed, with trimmed credentials. */
  lemma SaveThenLoad(f: Form)
    requires f.sourceLang != "" && f.targetLang != "" && f.translationEngine != "" && f.overlayPosition != ""
    ensures Content.LoadedSettings(Saved(f)) == Content.Settings(
      f.sourceLang, f.targetLang, f.translationEngine, f.showOriginal, f.overlayPosition,
      SliderToPercent(Str(f.overlaySize)), f.enableCache, Trim(f.apiKey), Trim(f.apiSecret))
  {
    var size := SliderToPercent(Str(f.overlaySize));
    TablesDistinct();
    assert size != "";
    var settings := Content.Settings(f.sourceLang, f.targetLang, f.translationEngine, f.showOriginal, f.overlayPosition,
      size, f.enableCache, Trim(f.apiKey), Trim(f.apiSecret));
    assert Saved(f) == StoredOf(settings);
    StoredRoundTrip(settings);
  }

  /** Every field stored. */
  function StoredOf(s: Content.Settings): Content.StoredSettings {
    Content.StoredSettings(
      Some(s.sourceLang), Some(s.targetLang), Some(s.translationEngine), Some(s.showOriginal),
      Some(s.overlayPosition), Some(s.overlaySize), Some(s.enableCache), Some(s.apiKey), Some(s.apiSecret))
  }

  /** Settings whose strings with defaults are non-empty load back unchanged once every field is stored. */
  lemma StoredRoundTrip(s: Content.Settings)
    requires s.sourceLang != "" && s.targetLang != "" && s.translationEngine != "" && s.overlayPosition != "" && s.overlaySize != ""
    ensures Content.LoadedSettings(StoredOf(s)) == s
  {
  }

  /** The settings `resetSettings()` stores. */
  const ResetDefaults := Content.StoredSettings(
    Some("auto"), Some("ko"), Some("google"), Some(true), Some("bottom"), Some("100"), Some(true), Some(""), Some(""))

  /** The reset defaults are the content script's defaults. */
  lemma ResetIsDefault()
    ensures Content.LoadedSettings(ResetDefaults) == Content.LoadedSettings(Content.NothingStored)
    ensures Normalized(Content.LoadedSettings(ResetDefaults)) == ResetDefaults
  {
    var d := Content.Settings("auto", "ko", "google", true, "bottom", "100", true, "", "");
    Content.LoadedSettingsDefaults(Content.NothingStored);
    assert ResetDefaults == StoredOf(d);
    StoredRoundTrip(d);
    assert SizeMap[2] == d.overlaySize;
    assert Trim("") == "";
  }

  const SavedToast := "설정이 저장되었습니다."
  const ResetToast := "설정이 초기화되었습니다."

  /** The popup: its form, the synced settings, whether a translation cache is stored, and its outward effects. */
  datatype PopupState = PopupState(
    form: Form,
    storage: Content.StoredSettings,
    cacheStored: bool,
    notified: seq<int>,               // tabs sent `updateSettings`
    toasts: seq<string>)

  function Notified(notified: seq<int>, activeTab: Option<int>): seq<int> {
    if activeTab.Some? then notified + [activeTab.value] else notified
  }

  /** `saveSettings()`: the form's settings replace every synced key, and the active tab is told. */
  function SaveStep(s: PopupState, activeTab: Option<int>): (r: (Content.StoredSettings, PopupState))
    ensures r.0 == Saved(s.form) && r.1.storage == r.0
  {
    var saved := Saved(s.form);
    (saved, s.(storage := saved, notified := Notified(s.notified, activeTab), toasts := s.toasts + [SavedToast]))
  }

  /** `resetSettings()`: after confirmation, defaults are stored and shown, and the cache is dropped. */
  function ResetStep(s: PopupState, confirmed: bool, activeTab: Option<int>): (r: PopupState)
    ensures !confirmed ==> r == s
    ensures confirmed ==> r.storage == ResetDefaults && !r.cacheStored && r.form == Loaded(s.form, ResetDefaults)
  {
    if !confirmed then s
    else s.(storage := ResetDefaults, form := Loaded(s.form, ResetDefaults), cacheStored := false,
            notified := Notified(s.notified, activeTab), toasts := s.toasts + [ResetToast])
  }

  /** After a reset, the form shows the defaults: Google, no API-key fields, a 100% size at slider position 2. */
  lemma ResetShowsDefaults(s: PopupState, activeTab: Option<int>)
    ensures var r := ResetStep(s, true, activeTab);
      && r.form.translationEngine == Translator.Google && r.form.apiKeyGroup == Hidden && r.form.apiSecretGroup == Hidden
      && r.form.sizeValue == "100%" && r.form.overlaySize == "2"
  {
    var r := ResetStep(s, true, activeTab);
    FilledDefaults(s.form);
    assert r.form == ApiKeyVisibility(Filled(s.form, ResetDefaults));
  }

  lemma FilledDefaults(f: Form)
    ensures Filled(f, ResetDefaults).translationEngine == Translator.Google
    ensures Filled(f, ResetDefaults).sizeValue == DefaultPercent + "%"
    ensures Filled(f, ResetDefaults).overlaySize == "2"
  {
    var sizePercent := Content.OrDefault(ResetDefaults.overlaySize, "100");
    assert sizePercent == DefaultPercent;
    var g := Filled(f, ResetDefaults);
    assert g.overlaySize == IntToString(PercentToSlider(Str(sizePercent)));
    DefaultsAgree();
  }

  /** Saving right after a reset stores the defaults again. */
  lemma ResetThenSave(s: PopupState, activeTab: Option<int>, activeTab': Option<int>)
    ensures SaveStep(ResetStep(s, true, activeTab), activeTab').0 == ResetDefaults
  {
    LoadThenSave(s.form, ResetDefaults);
    ResetIsDefault();
  }

  /** The popup page: the values of its form controls (`elements`), the synced settings and the logs of its effects. */
  class PopupPage {
    var form: Form
    var storage: Content.StoredSettings
    var cacheStored: bool
    var notified: seq<int>
    var toasts: seq<string>

    function State(): PopupState
      reads this
    {
      PopupState(form, storage, cacheStored, notified, toasts)
    }

    constructor (initial: Form, storage: Content.StoredSettings, cacheStored: bool)
      ensures State() == PopupState(initial, storage, cacheStored, [], [])
    {
      form, this.storage, this.cacheStored := initial, storage, cacheStored;
      notified, toasts := [], [];
    }

    method UpdateApiKeyVisibility()
      modifies this
      ensures State() == old(State().(form := ApiKeyVisibility(form)))
    {
      var engine := form.translationEngine;
      if engine == "google" {
        form := form.(apiKeyGroup := Hidden, apiSecretGroup := Hidden);
      } else if engine == "papago" {
        form := form.(apiKeyGroup := Block, apiSecretGroup := Block);
      } else if engine == "deepl" {
        form := form.(apiKeyGroup := Block, apiSecretGroup := Hidden);
      }
    }

    /** `loadSettings()`, reading the synced settings. */
    method LoadSettings()
      modifies this
      ensures State() == old(State().(form := Loaded(form, storage)))
    {
      var settings := storage;
      var sizePercent := Content.OrDefault(settings.overlaySize, "100");
      form := form.(
        sourceLang := Content.OrDefault(settings.sourceLang, "auto"),
        targetLang := Content.OrDefault(settings.targetLang, "ko"),
        translationEngine := Content.OrDefault(settings.translationEngine, "google"),
        apiKey := Content.OrDefault(settings.apiKey, ""),
        apiSecret := Content.OrDefault(settings.apiSecret, ""),
        showOriginal := settings.showOriginal != Some(false),
        overlayPosition := Content.OrDefault(settings.overlayPosition, "bottom"),
        overlaySize := IntToString(PercentToSlider(Str(sizePercent))),
        sizeValue := sizePercent + "%",
        enableCache := settings.enableCache != Some(false));
      UpdateApiKeyVisibility();
    }

    /** The slider's `input` listener. */
    method OnSliderInput()
      modifies this
      ensures State() == old(State().(form := form.(sizeValue := SliderToPercent(Str(form.overlaySize)) + "%")))
    {
      var percent := SliderToPercent(Str(form.overlaySize));
      form := form.(sizeValue := percent + "%");
    }

    method SaveSettings(activeTab: Option<int>) returns (saved: Content.StoredSettings)
      modifies this
      ensures saved == SaveStep(old(State()), activeTab).0
      ensures State() == SaveStep(old(State()), activeTab).1
    {
      ghost var s0 := State();
      ghost var r := SaveStep(s0, activeTab);
      saved := Saved(form);
      assert saved == r.0;
      storage := saved;
      if activeTab.Some? {
        notified := notified + [activeTab.value];
      }
      assert notified == Notified(s0.notified, activeTab);
      toasts := toasts + [SavedToast];
      assert State() == PopupState(s0.form, r.0, s0.cacheStored, Notified(s0.notified, activeTab), s0.toasts + [SavedToast]);
    }

    method ResetSettings(confirmed: bool, activeTab: Option<int>)
      modifies this
      ensures State() == ResetStep(old(State()), confirmed, activeTab)
    {
      if !confirmed {
        return;
      }
      ghost var s0 := State();
      storage := ResetDefaults;
      LoadSettings();
      assert form == Loaded(s0.form, ResetDefaults);
      cacheStored := false;
      if activeTab.Some? {
        notified := notified + [activeTab.value];
      }
      toasts := toasts + [ResetToast];
    }
  }
}
