/**
 * `LiveStreamTranslator` of content.js and its copy in content-bundle.js: the content script
 * that starts and stops capture, feeds recognition results through the result handler, and
 * shows each caption in a single live subtitle slot.
 *
 * The DOM is a list of overlay containers (at most one in the document) and a list of
 * subtitle nodes, each knowing its container and whether it still has a parent; the two
 * `setTimeout` callbacks of a final subtitle are pending `Timer`s fired by explicit events.
 * The recognition engine, the result handler and the module-level translation cache are held
 * as the values of the Stt and Translator models. `bundled` selects the content-bundle.js
 * variants: Google-only `translate`, the 12-entry language table, no `data-size` attribute on
 * the overlay, and the extra `checkWebSpeech` message.
 */
module Content {
  import opened Wrappers
  import opened Cache
  import Seqs
  import Platform
  import Stt
  import Translator

  /** What `chrome.storage.sync.get(null)` returns: `None` is a missing key. */
  datatype StoredSettings = StoredSettings(
    sourceLang: Option<string>,
    targetLang: Option<string>,
    translationEngine: Option<string>,
    showOriginal: Option<bool>,
    overlayPosition: Option<string>,
    overlaySize: Option<string>,
    enableCache: Option<bool>,
    apiKey: Option<string>,
    apiSecret: Option<string>)

  datatype Settings = Settings(
    sourceLang: string,
    targetLang: string,
    translationEngine: string,
    showOriginal: bool,
    overlayPosition: string,
    overlaySize: string,
    enableCache: bool,
    apiKey: string,
    apiSecret: string)

  const NothingStored := StoredSettings(None, None, None, None, None, None, None, None, None)

  /** `value || fallback` for a stored string: a missing and an empty value both fall back. */
  function OrDefault(value: Option<string>, fallback: string): string {
    if value.Some? && value.value != "" then value.value else fallback
  }

  /** The settings object `loadSettings()` builds. */
  function LoadedSettings(stored: StoredSettings): Settings {
    Settings(
      OrDefault(stored.sourceLang, "auto"),
      OrDefault(stored.targetLang, "ko"),
      OrDefault(stored.translationEngine, "google"),
      stored.showOriginal != Some(false),
      OrDefault(stored.overlayPosition, "bottom"),
      OrDefault(stored.overlaySize, "100"),
      stored.enableCache != Some(false),
      OrDefault(stored.apiKey, ""),
      OrDefault(stored.apiSecret, ""))
  }

  /** Empty storage gives the defaults; a non-empty stored string is kept; the two flags are off only when stored as `false`. */
  lemma LoadedSettingsDefaults(stored: StoredSettings)
    ensures LoadedSettings(NothingStored) == Settings("auto", "ko", "google", true, "bottom", "100", true, "", "")
    ensures stored.sourceLang.Some? && stored.sourceLang.value != "" ==> LoadedSettings(stored).sourceLang == stored.sourceLang.value
    ensures stored.targetLang.Some? && stored.targetLang.value != "" ==> LoadedSettings(stored).targetLang == stored.targetLang.value
    ensures stored.translationEngine.Some? && stored.translationEngine.value != "" ==>
      LoadedSettings(stored).translationEngine == stored.translationEngine.value
    ensures stored.overlaySize.Some? && stored.overlaySize.value != "" ==> LoadedSettings(stored).overlaySize == stored.overlaySize.value
    ensures stored.apiKey.Some? ==> LoadedSettings(stored).apiKey == stored.apiKey.value
    ensures stored.apiSecret.Some? ==> LoadedSettings(stored).apiSecret == stored.apiSecret.value
    ensures !LoadedSettings(stored).showOriginal <==> stored.showOriginal == Some(false)
    ensures !LoadedSettings(stored).enableCache <==> stored.enableCache == Some(false)
  {
  }

  datatype Notification = Notification(message: string, kind: string)

  /** The messages sent to the background script. */
  datatype BackgroundMessage = CaptureStarted | CaptureStopped | CaptureError(error: string)

  datatype Overlay = Overlay(className: string, position: Platform.Position, dataSize: Option<string>, inDocument: bool)

  datatype Line = OriginalLine(text: string) | TranslatedLine(text: string) | TextLine(text: string)

  /** A subtitle `div`: the overlay it was appended to, its lines, and whether it still has a parent. */
  datatype SubtitleNode = SubtitleNode(container: nat, lines: seq<Line>, isFinal: bool, fadingOut: bool, attached: bool)

  datatype TimerKind = FadeOut | Removal

  /** A pending `setTimeout` callback of a final subtitle. */
  datatype Timer = Timer(kind: TimerKind, node: nat, delayMs: nat)

  const FadeDelayMs := 3000
  const RemovalDelayMs := 500

  const StartedMessage := "실시간 번역이 시작되었습니다."
  const StoppedMessage := "실시간 번역이 중지되었습니다."
  const UnsupportedBrowserMessage := "이 브라우저는 Web Speech API를 지원하지 않습니다."
  /** The `TypeError` V8 raises when `startSpeechRecognition` reads `this.settings.sourceLang` before `loadSettings` ran. */
  const NullSettingsMessage := "Cannot read properties of null (reading 'sourceLang')"
  const UnknownActionMessage := "Unknown action"

  function CaptureFailedMessage(m: string): string { "캡처 시작 실패: " + m }
  function RecognitionErrorMessage(m: string): string { "음성 인식 오류: " + m }
  function FailureMarker(m: string): string { "[번역 실패: " + m + "]" }

  /** The outcomes of the browser calls `startCapture` makes. */
  datatype CaptureEnv = CaptureEnv(
    mediaError: Option<string>,              // what `getUserMedia` rejects with, if it does
    speechSupported: bool,                   // whether a SpeechRecognition constructor exists
    recognitionStartError: Option<string>)   // what `recognition.start()` throws, if it does

  /** The fields of a `LiveStreamTranslator`, the DOM it builds, what it has sent out, and the translator module's state. */
  datatype Page = Page(
    platformId: string,
    hasConfig: bool,                          // `platformConfig` is non-null
    settings: Option<Settings>,
    isCapturing: bool,
    audioContext: bool,
    mediaStream: bool,
    sttEngine: Option<Stt.EngineState>,
    sttResultHandler: Option<Stt.HandlerState>,
    overlayContainer: Option<nat>,            // index into `overlays`
    currentSubtitle: Option<nat>,             // index into `nodes`
    overlays: seq<Overlay>,
    nodes: seq<SubtitleNode>,
    timers: seq<Timer>,
    notifications: seq<Notification>,
    sent: seq<BackgroundMessage>,
    retiredEngines: seq<Stt.EngineState>,     // engines `stopCapture` stopped and released
    router: Translator.RouterState)

  /** `new LiveStreamTranslator()` on a page whose translator module has just loaded. */
  function NewPage(): (r: Page)
    ensures PageInv(r) && !r.isCapturing && r.settings.None? && r.nodes == [] && r.overlays == []
  {
    Page("", false, None, false, false, false, None, None, None, None, [], [], [], [], [], [], Translator.RouterState(Empty(), []))
  }

  predicate TimerOk(nodes: seq<SubtitleNode>, t: Timer) {
    && t.node < |nodes|
    && nodes[t.node].isFinal
    && (t.kind == FadeOut ==> t.delayMs == FadeDelayMs)
    && (t.kind == Removal ==> t.delayMs == RemovalDelayMs && nodes[t.node].fadingOut)
  }

  /** A subtitle the user can see: still attached, to the overlay in the document. */
  predicate Visible(p: Page, i: nat)
    requires i < |p.nodes| && p.nodes[i].container < |p.overlays|
  {
    p.nodes[i].attached && p.overlays[p.nodes[i].container].inDocument
  }

  /** The overlay and the live subtitle slot: only the current overlay is in the document, and its only attached node is `currentSubtitle`. */
  predicate SlotInv(overlayContainer: Option<nat>, currentSubtitle: Option<nat>, overlays: seq<Overlay>, nodes: seq<SubtitleNode>) {
    && (overlayContainer.Some? ==> overlayContainer.value < |overlays| && overlays[overlayContainer.value].inDocument)
    && (forall c :: 0 <= c < |overlays| && overlays[c].inDocument ==> overlayContainer == Some(c))
    && (forall i :: 0 <= i < |nodes| ==> nodes[i].container < |overlays|)
    && (currentSubtitle.Some? ==> currentSubtitle.value < |nodes| && overlayContainer == Some(nodes[currentSubtitle.value].container))
    && (forall i :: 0 <= i < |nodes| && nodes[i].attached && overlayContainer == Some(nodes[i].container) ==> currentSubtitle == Some(i))
  }

  /** Only finals are scheduled, with the source's delays. */
  predicate TimersInv(nodes: seq<SubtitleNode>, timers: seq<Timer>) {
    forall k :: 0 <= k < |timers| ==> TimerOk(nodes, timers[k])
  }

  ghost predicate PageInv(p: Page) {
    && (p.sttResultHandler.Some? ==> p.settings.Some?)
    && (p.isCapturing ==> p.settings.Some?)
    && SlotInv(p.overlayContainer, p.currentSubtitle, p.overlays, p.nodes)
    && TimersInv(p.nodes, p.timers)
    && WellFormed(p.router.cache)
  }

  /** At most one subtitle is visible, and it is `currentSubtitle`. */
  lemma AtMostOneVisible(p: Page, i: nat, j: nat)
    requires PageInv(p) && i < |p.nodes| && j < |p.nodes|
    requires Visible(p, i) && Visible(p, j)
    ensures i == j && p.currentSubtitle == Some(i)
  {
  }

  // ---------------------------------------------------------------------------------------
  // Caption slot

  /** The lines of a new subtitle `div`. */
  function SubtitleLines(showOriginal: bool, original: string, translated: string): (r: seq<Line>)
    ensures |r| <= 2
    ensures OriginalLine(original) in r <==> showOriginal && original != ""
    ensures TranslatedLine(translated) in r <==> translated != ""
    ensures TextLine(original) in r <==> translated == "" && original != ""
    ensures forall l :: l in r ==> l in {OriginalLine(original), TranslatedLine(translated), TextLine(original)}
  {
    (if showOriginal && original != "" then [OriginalLine(original)] else [])
    + (if translated != "" then [TranslatedLine(translated)] else if original != "" then [TextLine(original)] else [])
  }

  /** `createOverlay()` */
  function CreateOverlayStep(p: Page, bundled: bool): (r: Page)
    requires PageInv(p) && p.settings.Some?
    ensures PageInv(r) && r.overlayContainer.Some?
    ensures p.overlayContainer.Some? ==> r == p
    ensures p.overlayContainer.None? ==>
      && r.overlayContainer == Some(|p.overlays|)
      && r.overlays == p.overlays + [Overlay("lst-overlay platform-" + p.platformId, Platform.SubtitlePosition(p.platformId),
                                             if bundled then None else Some(p.settings.value.overlaySize), true)]
      && r == p.(overlays := r.overlays, overlayContainer := r.overlayContainer)
  {
    if p.overlayContainer.Some? then p
    else
      var o := Overlay("lst-overlay platform-" + p.platformId, Platform.SubtitlePosition(p.platformId),
                       if bundled then None else Some(p.settings.value.overlaySize), true);
      p.(overlays := p.overlays + [o], overlayContainer := Some(|p.overlays|))
  }

  /** `removeOverlay()` */
  function RemoveOverlayStep(p: Page): (r: Page)
    requires PageInv(p)
    ensures PageInv(r) && r.overlayContainer.None? && r.currentSubtitle.None?
    ensures forall i :: 0 <= i < |r.nodes| ==> !Visible(r, i)
    ensures r.nodes == p.nodes && r.timers == p.timers && |r.overlays| == |p.overlays|
    ensures r == p.(overlays := r.overlays, overlayContainer := None, currentSubtitle := None)
  {
    match p.overlayContainer
    case None => p
    case Some(c) => p.(overlays := p.overlays[c := p.overlays[c].(inDocument := false)], overlayContainer := None, currentSubtitle := None)
  }

  /** The nodes after `currentSubtitle.remove()`. */
  function Detached(nodes: seq<SubtitleNode>, current: Option<nat>): (r: seq<SubtitleNode>)
    ensures |r| == |nodes|
    ensures forall i :: 0 <= i < |nodes| ==> r[i] == if current == Some(i) then nodes[i].(attached := false) else nodes[i]
  {
    if current.Some? && current.value < |nodes| then nodes[current.value := nodes[current.value].(attached := false)] else nodes
  }

  /** The current subtitle removed and `node` appended as the new one; a final is scheduled to fade out. */
  function Appended(q: Page, node: SubtitleNode): Page {
    var n := |q.nodes|;
    q.(nodes := Detached(q.nodes, q.currentSubtitle) + [node], currentSubtitle := Some(n),
       timers := q.timers + (if node.isFinal then [Timer(FadeOut, n, FadeDelayMs)] else []))
  }

  lemma AppendedInv(q: Page, node: SubtitleNode)
    requires PageInv(q) && q.overlayContainer == Some(node.container) && node.attached && !node.fadingOut
    ensures PageInv(Appended(q, node))
    ensures forall i :: 0 <= i < |q.nodes| ==> !Visible(Appended(q, node), i)
  {
    var r := Appended(q, node);
    var n := |q.nodes|;
    forall i | 0 <= i < |r.nodes| && r.nodes[i].attached && r.overlayContainer == Some(r.nodes[i].container)
      ensures r.currentSubtitle == Some(i)
    {
      if i < n {
        assert false;
      }
    }
    forall k | 0 <= k < |r.timers| ensures TimerOk(r.nodes, r.timers[k]) {
      if k < |q.timers| {
        assert TimerOk(q.nodes, q.timers[k]);
      }
    }
    forall i | 0 <= i < n ensures !Visible(r, i) {
      if r.nodes[i].attached {
        assert q.nodes[i].attached && q.currentSubtitle != Some(i);
      }
    }
  }

  /** `displaySubtitle(original, translated, isFinal)` */
  function DisplayStep(p: Page, original: string, translated: string, isFinal: bool, bundled: bool): (r: Page)
    requires PageInv(p) && p.settings.Some?
    ensures PageInv(r) && |r.nodes| == |p.nodes| + 1 && r.platformId == p.platformId
    ensures r.isCapturing == p.isCapturing && r.settings == p.settings && r.router == p.router
    ensures r.sttResultHandler == p.sttResultHandler && r.sttEngine == p.sttEngine
  {
    var q := CreateOverlayStep(p, bundled);
    var node := SubtitleNode(q.overlayContainer.value, SubtitleLines(q.settings.value.showOriginal, original, translated), isFinal, false, true);
    AppendedInv(q, node);
    Appended(q, node)
  }

  /** The node `displaySubtitle` appends, and that it becomes the current one. */
  lemma DisplayAppends(p: Page, original: string, translated: string, isFinal: bool, bundled: bool)
    requires PageInv(p) && p.settings.Some?
    ensures var r := DisplayStep(p, original, translated, isFinal, bundled);
      && r.currentSubtitle == Some(|p.nodes|)
      && r.nodes[|p.nodes|].lines == SubtitleLines(p.settings.value.showOriginal, original, translated)
      && r.nodes[|p.nodes|].isFinal == isFinal
  {
  }

  /** A caption replaces the live subtitle: the new node is the only one visible, and only a final is scheduled to fade out. */
  lemma DisplayReplacesSubtitle(p: Page, original: string, translated: string, isFinal: bool, bundled: bool)
    requires PageInv(p) && p.settings.Some?
    ensures var r := DisplayStep(p, original, translated, isFinal, bundled);
      && |r.nodes| == |p.nodes| + 1 && r.currentSubtitle == Some(|p.nodes|) && r.overlayContainer.Some?
      && r.nodes[|p.nodes|] == SubtitleNode(r.overlayContainer.value, SubtitleLines(p.settings.value.showOriginal, original, translated),
                                            isFinal, false, true)
      && Visible(r, |p.nodes|)
      && (forall i :: 0 <= i < |p.nodes| ==> !Visible(r, i))
      && r.timers == p.timers + (if isFinal then [Timer(FadeOut, |p.nodes|, FadeDelayMs)] else [])
      && r.notifications == p.notifications && r.sent == p.sent
  {
    var q := CreateOverlayStep(p, bundled);
    var node := SubtitleNode(q.overlayContainer.value, SubtitleLines(q.settings.value.showOriginal, original, translated), isFinal, false, true);
    AppendedInv(q, node);
  }

  /** The timers without the one at `k`. */
  function Without(timers: seq<Timer>, k: nat): (r: seq<Timer>)
    requires k < |timers|
    ensures |r| == |timers| - 1 && forall j :: 0 <= j < |r| ==> r[j] in timers
  {
    var r := timers[..k] + timers[k + 1..];
    assert forall j :: 0 <= j < |r| ==> r[j] == if j < k then timers[j] else timers[j + 1];
    r
  }

  /** What a timer does when it fires, without the bookkeeping of the pending list. */
  function Fired(p: Page, k: nat): Page
    requires k < |p.timers| && p.timers[k].node < |p.nodes|
  {
    var t := p.timers[k];
    var node := p.nodes[t.node];
    match t.kind
    case FadeOut => p.(nodes := p.nodes[t.node := node.(fadingOut := true)], timers := Without(p.timers, k) + [Timer(Removal, t.node, RemovalDelayMs)])
    case Removal => if node.attached then p.(nodes := p.nodes[t.node := node.(attached := false)], timers := Without(p.timers, k)) else p.(timers := Without(p.timers, k))
  }

  /** Node changes a timer may make: a node only starts fading out or loses its parent. */
  predicate Evolved(a: seq<SubtitleNode>, b: seq<SubtitleNode>) {
    && |a| == |b|
    && forall i :: 0 <= i < |a| ==>
         && b[i].container == a[i].container && b[i].isFinal == a[i].isFinal
         && (a[i].fadingOut ==> b[i].fadingOut) && (b[i].attached ==> a[i].attached)
  }

  lemma TimersEvolved(a: seq<SubtitleNode>, b: seq<SubtitleNode>, timers: seq<Timer>, kept: seq<Timer>)
    requires Evolved(a, b) && forall k :: 0 <= k < |timers| ==> TimerOk(a, timers[k])
    requires forall j :: 0 <= j < |kept| ==> kept[j] in timers
    ensures forall j :: 0 <= j < |kept| ==> TimerOk(b, kept[j])
  {
    forall j | 0 <= j < |kept| ensures TimerOk(b, kept[j]) {
      var m :| 0 <= m < |timers| && timers[m] == kept[j];
      assert TimerOk(a, timers[m]);
    }
  }

  /** Any evolution of the nodes with well-scheduled timers keeps the page invariant. */
  lemma EvolvedInv(p: Page, nodes: seq<SubtitleNode>, timers: seq<Timer>)
    requires PageInv(p) && Evolved(p.nodes, nodes)
    requires forall j :: 0 <= j < |timers| ==> TimerOk(nodes, timers[j])
    ensures PageInv(p.(nodes := nodes, timers := timers))
  {
    var r := p.(nodes := nodes, timers := timers);
    forall i | 0 <= i < |r.nodes| && r.nodes[i].attached && r.overlayContainer == Some(r.nodes[i].container)
      ensures r.currentSubtitle == Some(i)
    {
      assert p.nodes[i].attached;
    }
  }

  lemma FiredInv(p: Page, k: nat)
    requires PageInv(p) && k < |p.timers|
    ensures PageInv(Fired(p, k))
  {
    var t := p.timers[k];
    assert TimerOk(p.nodes, t);
    var node := p.nodes[t.node];
    var kept := Without(p.timers, k);
    var nodes := match t.kind
      case FadeOut => p.nodes[t.node := node.(fadingOut := true)]
      case Removal => if node.attached then p.nodes[t.node := node.(attached := false)] else p.nodes;
    var timers := if t.kind == FadeOut then kept + [Timer(Removal, t.node, RemovalDelayMs)] else kept;
    assert Evolved(p.nodes, nodes);
    TimersEvolved(p.nodes, nodes, p.timers, kept);
    assert forall j :: 0 <= j < |kept| ==> timers[j] == kept[j];
    EvolvedInv(p, nodes, timers);
    assert Fired(p, k) == p.(nodes := nodes, timers := timers);
  }

  /** The timer `k` fires: a fade-out marks the node and schedules its removal; a removal detaches the node if it still has a parent. */
  function FireTimerStep(p: Page, k: nat): (r: Page)
    requires PageInv(p) && k < |p.timers|
    ensures PageInv(r)
  {
    assert TimerOk(p.nodes, p.timers[k]);
    FiredInv(p, k);
    Fired(p, k)
  }

  /** A fade-out marks its node and schedules the removal 500 ms later; a removal detaches the node; no other node, and never an interim one, is touched. */
  lemma FireTimerEffect(p: Page, k: nat)
    requires PageInv(p) && k < |p.timers|
    ensures var t := p.timers[k]; var r := FireTimerStep(p, k);
      && t.node < |p.nodes| && |r.nodes| == |p.nodes|
      && (t.kind == FadeOut ==> r.timers == p.timers[..k] + p.timers[k + 1..] + [Timer(Removal, t.node, RemovalDelayMs)] && r.nodes[t.node].fadingOut)
      && (t.kind == Removal ==> r.timers == p.timers[..k] + p.timers[k + 1..] && !r.nodes[t.node].attached)
      && (t.kind == Removal && !p.nodes[t.node].attached ==> r.nodes == p.nodes)
      && (forall i :: 0 <= i < |p.nodes| && i != t.node ==> r.nodes[i] == p.nodes[i])
      && (forall i :: 0 <= i < |p.nodes| && !p.nodes[i].isFinal ==> r.nodes[i] == p.nodes[i])
      && r == p.(nodes := r.nodes, timers := r.timers)
  {
    assert TimerOk(p.nodes, p.timers[k]);
  }

  // ---------------------------------------------------------------------------------------
  // Capture

  function Notify(p: Page, message: string, kind: string): Page {
    p.(notifications := p.notifications + [Notification(message, kind)])
  }

  function RecognitionNotes(errors: seq<string>): (r: seq<Notification>)
    ensures |r| == |errors| && forall i :: 0 <= i < |errors| ==> r[i] == Notification(RecognitionErrorMessage(errors[i]), "error")
  {
    seq(|errors|, i requires 0 <= i < |errors| => Notification(RecognitionErrorMessage(errors[i]), "error"))
  }

  /** The `catch` of `startCapture`: one error notification, one `captureError` message, and the error rethrown. */
  function CaptureFailed(p: Page, m: string): (Outcome, Page) {
    (Fail(m), Notify(p, CaptureFailedMessage(m), "error").(sent := p.sent + [CaptureError(m)]))
  }

  /** The language `startSpeechRecognition` passes to the engine; `auto` becomes a missing language. */
  function EngineLang(sourceLang: string, bundled: bool): string {
    var lang := if bundled then Stt.BundleLanguageCode(sourceLang) else Stt.LanguageCode(sourceLang);
    if lang == "auto" then "" else lang
  }

  /** `startSpeechRecognition()`: a new engine started on the source language, or the error it throws. */
  function StartRecognitionStep(p: Page, env: CaptureEnv, bundled: bool): (r: (Outcome, Page))
    requires PageInv(p)
    ensures PageInv(r.1)
    ensures r.0.Pass? <==> p.settings.Some? && env.speechSupported
    ensures p.settings.None? ==> r == (Fail(NullSettingsMessage), p)
    ensures r.0.Pass? ==>
      && r.1.sttEngine.Some? && r.1.sttEngine.value.initialized && r.1.sttEngine.value.autoRestart
      && r.1.notifications == p.notifications + RecognitionNotes(r.1.sttEngine.value.errors)
    ensures r.0.Fail? ==> r.1.notifications == p.notifications
    ensures r.1 == p.(sttEngine := r.1.sttEngine, notifications := r.1.notifications)
  {
    if p.settings.None? then (Fail(NullSettingsMessage), p)
    else
      var e0 := Stt.NewEngine(EngineLang(p.settings.value.sourceLang, bundled), Some(true));
      match Stt.StartStep(e0, env.speechSupported, env.recognitionStartError)
      case Err(m) => (Fail(m), p.(sttEngine := Some(e0)))
      case Ok(e) => (Pass, p.(sttEngine := Some(e), notifications := p.notifications + RecognitionNotes(e.errors)))
  }

  /** The end of a successful `startCapture`: the overlay, the flag, the `captureStarted` message and the notification. */
  function CaptureOn(q: Page, bundled: bool): (r: Page)
    requires PageInv(q) && q.settings.Some?
    ensures PageInv(r)
  {
    var q := CreateOverlayStep(q, bundled);
    Notify(q.(isCapturing := true, sent := q.sent + [CaptureStarted]), StartedMessage, "success")
  }

  /** `startCapture(streamId)`: the outcome and the new page. */
  function StartCaptureStep(p: Page, env: CaptureEnv, bundled: bool): (r: (Outcome, Page))
    requires PageInv(p)
    ensures PageInv(r.1)
    ensures p.isCapturing ==> r == (Pass, p)
    // capture is on only once the stream, the recognition engine and the overlay all exist
    ensures !p.isCapturing && r.0.Pass? ==>
      && r.1.isCapturing && r.1.mediaStream && r.1.audioContext && r.1.overlayContainer.Some?
      && r.1.sttEngine.Some? && r.1.sttEngine.value.initialized && r.1.sttEngine.value.autoRestart
      && r.1.sent == p.sent + [CaptureStarted]
      && r.1.notifications == p.notifications + RecognitionNotes(r.1.sttEngine.value.errors) + [Notification(StartedMessage, "success")]
    ensures !p.isCapturing ==> (r.0.Pass? <==> env.mediaError.None? && p.settings.Some? && env.speechSupported)
    // a failure leaves capture off, notifies once and reports once
    ensures r.0.Fail? ==>
      && !r.1.isCapturing
      && r.1.sent == p.sent + [CaptureError(r.0.message)]
      && r.1.notifications == p.notifications + [Notification(CaptureFailedMessage(r.0.message), "error")]
      && r.1.nodes == p.nodes && r.1.overlays == p.overlays && r.1.router == p.router
    ensures env.mediaError.Some? && !p.isCapturing ==> r.0 == Fail(env.mediaError.value) && r.1.mediaStream == p.mediaStream
    ensures r.1.nodes == p.nodes && r.1.timers == p.timers && r.1.router == p.router
  {
    if p.isCapturing then (Pass, p)
    else if env.mediaError.Some? then CaptureFailed(p, env.mediaError.value)
    else
      var q := p.(mediaStream := true, audioContext := true);
      var (o, q) := StartRecognitionStep(q, env, bundled);
      if o.Fail? then CaptureFailed(q, o.message)
      else (Pass, CaptureOn(q, bundled))
  }

  /** The engine stopped and released, the audio graph and the stream closed. */
  function Released(p: Page): (r: Page)
    requires PageInv(p)
    ensures PageInv(r)
  {
    var q := if p.sttEngine.Some? then p.(retiredEngines := p.retiredEngines + [Stt.StopStep(p.sttEngine.value)], sttEngine := None) else p;
    q.(audioContext := false, mediaStream := false)
  }

  /** `stopCapture()` */
  function StopCaptureStep(p: Page): (r: Page)
    requires PageInv(p)
    ensures PageInv(r)
    ensures !r.isCapturing && r.sttEngine.None? && !r.audioContext && !r.mediaStream
    ensures r.overlayContainer.None? && r.currentSubtitle.None?
    ensures forall i :: 0 <= i < |r.nodes| ==> !Visible(r, i)
    ensures r.retiredEngines == p.retiredEngines + (if p.sttEngine.Some? then [Stt.StopStep(p.sttEngine.value)] else [])
    ensures r.sent == p.sent + [CaptureStopped]
    ensures r.notifications == p.notifications + [Notification(StoppedMessage, "info")]
    ensures r.nodes == p.nodes && r.timers == p.timers && r.router == p.router && r.settings == p.settings
  {
    var q := RemoveOverlayStep(Released(p));
    Notify(q.(isCapturing := false, sent := q.sent + [CaptureStopped]), StoppedMessage, "info")
  }

  /**
   * A call or callback of the page's recognition engine (`onstart`, `onend`, `onerror`, the
   * restart timer, `stop`, …): the engine steps, and each error it passes to `onError` becomes
   * an error notification, in order.
   */
  function EngineEventStep(p: Page, e: Stt.EngineEvent): (r: Page)
    requires PageInv(p) && p.sttEngine.Some?
    ensures PageInv(r) && r.sttEngine == Some(Stt.Step(p.sttEngine.value, e))
    ensures var before := p.sttEngine.value.errors;
      |before| <= |r.sttEngine.value.errors|
      && r.notifications == p.notifications + RecognitionNotes(r.sttEngine.value.errors[|before|..])
    ensures r == p.(sttEngine := r.sttEngine, notifications := r.notifications)
  {
    var t := Stt.Step(p.sttEngine.value, e);
    Stt.StepKeepsErrors(p.sttEngine.value, e);
    p.(sttEngine := Some(t), notifications := p.notifications + RecognitionNotes(t.errors[|p.sttEngine.value.errors|..]))
  }

  /**
   * `onerror` during a capture: exactly the message the engine classifies reaches the page, as
   * `음성 인식 오류: …`; `no-speech` and `aborted` stay silent, and only `not-allowed` ends
   * automatic restart.
   */
  lemma EngineErrorNotified(p: Page, code: string)
    requires PageInv(p) && p.sttEngine.Some?
    ensures var r := EngineEventStep(p, Stt.Errored(code));
      && r.notifications == p.notifications + (match Stt.ErrorReport(code)
                                               case Some(m) => [Notification(RecognitionErrorMessage(m), "error")]
                                               case None => [])
      && (r.sttEngine.value.autoRestart <==> p.sttEngine.value.autoRestart && code != "not-allowed")
  {
    var s := p.sttEngine.value;
    var t := Stt.OnError(s, code);
    if Stt.ErrorReport(code).Some? {
      assert t.errors[|s.errors|..] == [Stt.ErrorReport(code).value];
    } else {
      assert t.errors[|s.errors|..] == [];
    }
  }

  /**
   * Once the recognizer has signalled `onstart`, `stopCapture` really stops the engine: the
   * engine it releases has automatic restart off and has issued `recognition.stop()` after its start.
   */
  lemma {:induction false} StopAfterStartedStopsEngine(p: Page, env: CaptureEnv, bundled: bool)
    requires PageInv(p) && p.settings.Some? && !p.isCapturing
    requires env.mediaError.None? && env.speechSupported && env.recognitionStartError.None?
    ensures var q := StartCaptureStep(p, env, bundled).1;
      q.sttEngine.Some? &&
      var r := StopCaptureStep(EngineEventStep(q, Stt.Started));
      && r.retiredEngines == p.retiredEngines + [r.retiredEngines[|p.retiredEngines|]]
      && !r.retiredEngines[|p.retiredEngines|].autoRestart
      && r.retiredEngines[|p.retiredEngines|].commands == [Stt.RecognitionStart, Stt.RecognitionStop]
  {
    var q := StartCaptureStep(p, env, bundled).1;
    StartedEngine(p, env, bundled);
    var e := q.sttEngine.value;
    var started := Stt.OnStart(e);
    assert EngineEventStep(q, Stt.Started).sttEngine == Some(started);
    Stt.StopAndAbort(started);
  }

  /**
   * Before `onstart` arrives `stop()` is a no-op: the engine `stopCapture` releases keeps
   * automatic restart on and has issued only its `recognition.start()`.
   */
  lemma {:induction false} StopBeforeStartedLeavesEngine(p: Page, env: CaptureEnv, bundled: bool)
    requires PageInv(p) && p.settings.Some? && !p.isCapturing
    requires env.mediaError.None? && env.speechSupported && env.recognitionStartError.None?
    ensures var q := StartCaptureStep(p, env, bundled).1;
      var r := StopCaptureStep(q);
      && r.retiredEngines == p.retiredEngines + [r.retiredEngines[|p.retiredEngines|]]
      && r.retiredEngines[|p.retiredEngines|].autoRestart
      && r.retiredEngines[|p.retiredEngines|].commands == [Stt.RecognitionStart]
  {
    StartedEngine(p, env, bundled);
  }

  /** A start under good conditions leaves a fresh engine that has issued one `recognition.start()` and is waiting for `onstart`. */
  lemma StartedEngine(p: Page, env: CaptureEnv, bundled: bool)
    requires PageInv(p) && p.settings.Some? && !p.isCapturing
    requires env.mediaError.None? && env.speechSupported && env.recognitionStartError.None?
    ensures var q := StartCaptureStep(p, env, bundled).1;
      && q.sttEngine.Some? && q.retiredEngines == p.retiredEngines
      && var e := q.sttEngine.value;
      && e.initialized && !e.isRecognizing && e.autoRestart && e.commands == [Stt.RecognitionStart] && e.errors == []
  {
    var q := p.(mediaStream := true, audioContext := true);
    assert StartRecognitionStep(q, env, bundled).0 == Pass;
  }

  // ---------------------------------------------------------------------------------------
  // Caption pipeline

  function RequestFor(s: Settings, text: string): Translator.Request {
    Translator.Request(text, s.sourceLang, s.targetLang, Translator.Options(s.translationEngine, s.apiKey, s.apiSecret))
  }

  /** The provider calls of `after` begin with those of `before`: the log only grows at its end. */
  predicate Extends(before: seq<Translator.ProviderCall>, after: seq<Translator.ProviderCall>)
  {
    |before| <= |after| && after[..|before|] == before
  }

  function Routed(router: Translator.RouterState, req: Translator.Request, oracle: Translator.Oracle, bundled: bool): (r: Translator.Routed)
    requires WellFormed(router.cache)
    ensures WellFormed(r.state.cache) && Extends(router.calls, r.state.calls)
  {
    if bundled then Translator.RouteBundled(router, DefaultMaxSize, req, oracle)
    else Translator.Route(router, DefaultMaxSize, req, oracle)
  }

  /**
   * `translateAndDisplay(text, isFinal)`: the slang-rewritten text goes to `translate`; its
   * result is shown beside it, and a failure is shown beside the unrewritten text.
   */
  /** The `try`/`catch` of `translateAndDisplay` up to the display: the page with the translator's new state, and the two texts to show. */
  function Translated(p: Page, text: string, oracle: Translator.Oracle, bundled: bool): (r: (Page, string, string))
    requires PageInv(p) && p.settings.Some?
    ensures PageInv(r.0) && r.0 == p.(router := r.0.router)
  {
    var processed := Platform.TranslateSlang(text, p.platformId);
    var routed := Routed(p.router, RequestFor(p.settings.value, processed), oracle, bundled);
    var q := p.(router := routed.state);
    match routed.result
    case Ok(t) => (q, processed, t)
    case Err(m) => (q, text, FailureMarker(m))
  }

  function TranslateAndDisplayStep(p: Page, text: string, isFinal: bool, oracle: Translator.Oracle, bundled: bool): (r: Page)
    requires PageInv(p) && p.settings.Some?
    ensures PageInv(r) && |r.nodes| == |p.nodes| + 1
    ensures r.settings == p.settings && r.sttResultHandler == p.sttResultHandler && r.isCapturing == p.isCapturing
  {
    var t := Translated(p, text, oracle, bundled);
    DisplayStep(t.0, t.1, t.2, isFinal, bundled)
  }

  /** The `for … of processed.final` loop, one `await` at a time. */
  function TranslateAll(p: Page, finals: seq<Stt.SttResult>, oracle: Translator.Oracle, bundled: bool): (r: Page)
    requires PageInv(p) && p.settings.Some?
    ensures PageInv(r) && r.settings == p.settings
    ensures |r.nodes| == |p.nodes| + |finals|
    ensures r.sttResultHandler == p.sttResultHandler && r.isCapturing == p.isCapturing
    decreases |finals|
  {
    if finals == [] then p
    else TranslateAll(TranslateAndDisplayStep(p, finals[0].transcript, true, oracle, bundled), finals[1..], oracle, bundled)
  }

  /**
   * One caption of the reference: from translator state `router`, the lines the subtitle for `text`
   * gets and the translator's state after it. The slang-rewritten text is what is routed and shown
   * beside a translation; a failure is shown beside the text as heard.
   */
  function CaptionStep(router: Translator.RouterState, s: Settings, platformId: string, text: string,
                       oracle: Translator.Oracle, bundled: bool): (r: (seq<Line>, Translator.RouterState))
    requires WellFormed(router.cache)
    ensures WellFormed(r.1.cache) && Extends(router.calls, r.1.calls)
  {
    var processed := Platform.TranslateSlang(text, platformId);
    var routed := Routed(router, RequestFor(s, processed), oracle, bundled);
    match routed.result
    case Ok(t) => (SubtitleLines(s.showOriginal, processed, t), routed.state)
    case Err(m) => (SubtitleLines(s.showOriginal, text, FailureMarker(m)), routed.state)
  }

  /**
   * The reference for the loop over `processed.final`: the lines of the subtitle each final gets,
   * in order, each routed from the translator state the previous one left, and the final state.
   */
  function Captions(router: Translator.RouterState, s: Settings, platformId: string, finals: seq<Stt.SttResult>,
                    oracle: Translator.Oracle, bundled: bool): (r: (seq<seq<Line>>, Translator.RouterState))
    requires WellFormed(router.cache)
    ensures WellFormed(r.1.cache) && |r.0| == |finals| && Extends(router.calls, r.1.calls)
    decreases |finals|
  {
    if finals == [] then ([], router)
    else
      var first := CaptionStep(router, s, platformId, finals[0].transcript, oracle, bundled);
      var rest := Captions(first.1, s, platformId, finals[1..], oracle, bundled);
      ExtendsTransitive(router.calls, first.1.calls, rest.1.calls);
      ([first.0] + rest.0, rest.1)
  }

  lemma ExtendsTransitive(a: seq<Translator.ProviderCall>, b: seq<Translator.ProviderCall>, c: seq<Translator.ProviderCall>)
    requires Extends(a, b) && Extends(b, c)
    ensures Extends(a, c)
  {
    assert c[..|a|] == c[..|b|][..|a|];
  }

  lemma CaptionsCons(router: Translator.RouterState, s: Settings, platformId: string, finals: seq<Stt.SttResult>,
                      oracle: Translator.Oracle, bundled: bool)
    requires WellFormed(router.cache) && finals != []
    ensures var first := CaptionStep(router, s, platformId, finals[0].transcript, oracle, bundled);
      var rest := Captions(first.1, s, platformId, finals[1..], oracle, bundled);
      Captions(router, s, platformId, finals, oracle, bundled) == ([first.0] + rest.0, rest.1)
  {
  }

  /** Two batches captioned one after the other are one batch: the second starts from the translator state the first left. */
  lemma {:induction false} CaptionsAppend(router: Translator.RouterState, s: Settings, platformId: string,
                                          a: seq<Stt.SttResult>, b: seq<Stt.SttResult>, oracle: Translator.Oracle, bundled: bool)
    requires WellFormed(router.cache)
    ensures var ca := Captions(router, s, platformId, a, oracle, bundled);
      var cb := Captions(ca.1, s, platformId, b, oracle, bundled);
      Captions(router, s, platformId, a + b, oracle, bundled) == (ca.0 + cb.0, cb.1)
    decreases |a|
  {
    if a == [] {
      assert a + b == b;
      var cb := Captions(router, s, platformId, b, oracle, bundled);
      assert [] + cb.0 == cb.0;
    } else {
      var ab := a + b;
      assert ab[0] == a[0] && ab[1..] == a[1..] + b;
      var first := CaptionStep(router, s, platformId, a[0].transcript, oracle, bundled);
      CaptionsAppend(first.1, s, platformId, a[1..], b, oracle, bundled);
      var ca := Captions(first.1, s, platformId, a[1..], oracle, bundled);
      var cb := Captions(ca.1, s, platformId, b, oracle, bundled);
      CaptionsCons(router, s, platformId, a, oracle, bundled);
      CaptionsCons(router, s, platformId, ab, oracle, bundled);
      Seqs.ConsAppend(first.0, ca.0, cb.0);
    }
  }

  /** A subtitle keeps its lines once shown: displaying another only detaches it. */
  lemma DisplayKeepsLines(p: Page, original: string, translated: string, isFinal: bool, bundled: bool)
    requires PageInv(p) && p.settings.Some?
    ensures var r := DisplayStep(p, original, translated, isFinal, bundled);
      forall i :: 0 <= i < |p.nodes| ==> r.nodes[i].lines == p.nodes[i].lines && r.nodes[i].isFinal == p.nodes[i].isFinal
  {
  }

  /** Every subtitle of `before` is still in `after`, at its place, with its lines and finality. */
  predicate KeepsLines(before: seq<SubtitleNode>, after: seq<SubtitleNode>)
  {
    |before| <= |after| &&
    forall i :: 0 <= i < |before| ==> after[i].lines == before[i].lines && after[i].isFinal == before[i].isFinal
  }

  /** From index `from` on, `nodes` holds final subtitles showing `lines`, in order. */
  predicate ShowsFinals(nodes: seq<SubtitleNode>, from: nat, lines: seq<seq<Line>>)
  {
    from + |lines| <= |nodes| &&
    forall i :: 0 <= i < |lines| ==> nodes[from + i].lines == lines[i] && nodes[from + i].isFinal
  }

  /** One awaited `translateAndDisplay(transcript, true)` shows the caption `CaptionStep` gives. */
  lemma FirstCaption(p: Page, text: string, oracle: Translator.Oracle, bundled: bool)
    requires PageInv(p) && p.settings.Some?
    ensures var r := TranslateAndDisplayStep(p, text, true, oracle, bundled);
      var c := CaptionStep(p.router, p.settings.value, p.platformId, text, oracle, bundled);
      && r.router == c.1 && r.platformId == p.platformId && r.settings == p.settings
      && |r.nodes| == |p.nodes| + 1 && ShowsFinals(r.nodes, |p.nodes|, [c.0]) && KeepsLines(p.nodes, r.nodes)
  {
    var t := Translated(p, text, oracle, bundled);
    TranslatedCaption(p, text, oracle, bundled);
    DisplayAppends(t.0, t.1, t.2, true, bundled);
    DisplayKeepsLines(t.0, t.1, t.2, true, bundled);
  }

  /** The translation `translateAndDisplay` hands to `displaySubtitle` is the caption `CaptionStep` gives. */
  lemma TranslatedCaption(p: Page, text: string, oracle: Translator.Oracle, bundled: bool)
    requires PageInv(p) && p.settings.Some?
    ensures var t := Translated(p, text, oracle, bundled);
      var c := CaptionStep(p.router, p.settings.value, p.platformId, text, oracle, bundled);
      t.0.router == c.1 && SubtitleLines(p.settings.value.showOriginal, t.1, t.2) == c.0
  {
  }

  /**
   * The finals are shown one subtitle each, in their order, with the lines `Captions` gives; the
   * subtitles already on the page keep their lines, and the translator ends where `Captions` ends.
   */
  lemma {:induction false} TranslateAllCaptions(p: Page, finals: seq<Stt.SttResult>, oracle: Translator.Oracle, bundled: bool)
    requires PageInv(p) && p.settings.Some?
    ensures var r := TranslateAll(p, finals, oracle, bundled);
      var c := Captions(p.router, p.settings.value, p.platformId, finals, oracle, bundled);
      && r.router == c.1 && r.platformId == p.platformId
      && KeepsLines(p.nodes, r.nodes) && ShowsFinals(r.nodes, |p.nodes|, c.0)
    decreases |finals|
  {
    if finals != [] {
      var s, id := p.settings.value, p.platformId;
      var p1 := TranslateAndDisplayStep(p, finals[0].transcript, true, oracle, bundled);
      var first := CaptionStep(p.router, s, id, finals[0].transcript, oracle, bundled);
      FirstCaption(p, finals[0].transcript, oracle, bundled);
      TranslateAllCaptions(p1, finals[1..], oracle, bundled);
      var r := TranslateAll(p1, finals[1..], oracle, bundled);
      var c1 := Captions(first.1, s, id, finals[1..], oracle, bundled);
      assert r == TranslateAll(p, finals, oracle, bundled);
      CaptionsCons(p.router, s, id, finals, oracle, bundled);
      ShiftedCaptions(p.nodes, p1.nodes, r.nodes, first.0, c1.0);
    }
  }

  /** The bookkeeping of one step of `TranslateAllCaptions`, on the node sequences alone. */
  lemma ShiftedCaptions(before: seq<SubtitleNode>, mid: seq<SubtitleNode>, after: seq<SubtitleNode>, first: seq<Line>, rest: seq<seq<Line>>)
    requires |mid| == |before| + 1
    requires ShowsFinals(mid, |before|, [first]) && KeepsLines(before, mid)
    requires KeepsLines(mid, after) && ShowsFinals(after, |mid|, rest)
    ensures KeepsLines(before, after) && ShowsFinals(after, |before|, [first] + rest)
  {
    forall i | 0 <= i < 1 + |rest| ensures after[|before| + i].lines == ([first] + rest)[i] && after[|before| + i].isFinal {
      if i > 0 {
        assert after[|mid| + (i - 1)] == after[|before| + i];
      } else {
        assert mid[|before| + 0] == mid[|before|];
      }
    }
  }

  /** What `onResult` shows for a batch the handler has processed. */
  function ShowProcessed(q: Page, processed: Stt.Processed, oracle: Translator.Oracle, bundled: bool): (r: Page)
    requires PageInv(q) && q.settings.Some?
    ensures PageInv(r) && r.sttResultHandler == q.sttResultHandler
  {
    var q := ShownFinals(q, processed, oracle, bundled);
    if |processed.interims| > 0 then DisplayStep(q, processed.interims[|processed.interims| - 1].transcript, "", false, bundled)
    else q
  }

  /** The `onResult` callback installed by `startSpeechRecognition`. */
  function OnResultStep(p: Page, results: seq<Stt.SttResult>, oracle: Translator.Oracle, bundled: bool): (r: Page)
    requires PageInv(p)
    ensures PageInv(r)
  {
    match p.sttResultHandler
    case None => p
    case Some(h) =>
      var hp := Stt.HandleBatch(h, results);
      ShowProcessed(p.(sttResultHandler := Some(hp.0)), hp.1, oracle, bundled)
  }

  /** The finals of a batch are shown first, one subtitle each. */
  function ShownFinals(q: Page, processed: Stt.Processed, oracle: Translator.Oracle, bundled: bool): (r: Page)
    requires PageInv(q) && q.settings.Some?
    ensures PageInv(r) && r.settings == q.settings
    ensures |r.nodes| == |q.nodes| + (if processed.hasNew then |processed.finals| else 0)
  {
    if processed.hasNew && |processed.finals| > 0 then TranslateAll(q, processed.finals, oracle, bundled) else q
  }

  /** A batch adds one subtitle per new final, then one for the latest interim. */
  lemma ShowProcessedNodes(q: Page, processed: Stt.Processed, oracle: Translator.Oracle, bundled: bool)
    requires PageInv(q) && q.settings.Some?
    ensures var r := ShowProcessed(q, processed, oracle, bundled);
      |r.nodes| == |q.nodes| + (if processed.hasNew then |processed.finals| else 0) + (if |processed.interims| > 0 then 1 else 0)
  {
  }

  /** The latest interim of a batch is shown untranslated, as the live subtitle, after the finals. */
  lemma ShowProcessedLive(q: Page, processed: Stt.Processed, oracle: Translator.Oracle, bundled: bool)
    requires PageInv(q) && q.settings.Some? && |processed.interims| > 0
    ensures var r := ShowProcessed(q, processed, oracle, bundled);
      var t := processed.interims[|processed.interims| - 1].transcript;
      var n := |ShownFinals(q, processed, oracle, bundled).nodes|;
      && r.currentSubtitle == Some(n) && n < |r.nodes|
      && !r.nodes[n].isFinal
      && (t != "" ==> TextLine(t) in r.nodes[n].lines)
  {
    var q' := ShownFinals(q, processed, oracle, bundled);
    var t := processed.interims[|processed.interims| - 1].transcript;
    DisplayAppends(q', t, "", false, bundled);
  }

  /** A failed translation still shows a subtitle: the text as heard, beside the failure marker. */
  lemma TranslateFailureShown(p: Page, text: string, isFinal: bool, oracle: Translator.Oracle, bundled: bool)
    requires PageInv(p) && p.settings.Some?
    ensures var processed := Platform.TranslateSlang(text, p.platformId);
      var routed := Routed(p.router, RequestFor(p.settings.value, processed), oracle, bundled);
      var r := TranslateAndDisplayStep(p, text, isFinal, oracle, bundled);
      && r.currentSubtitle == Some(|p.nodes|) && |r.nodes| == |p.nodes| + 1
      && (routed.result.Err? ==>
            && TranslatedLine(FailureMarker(routed.result.message)) in r.nodes[|p.nodes|].lines
            && (p.settings.value.showOriginal && text != "" ==> OriginalLine(text) in r.nodes[|p.nodes|].lines))
      && (routed.result.Ok? && routed.result.value != "" ==> TranslatedLine(routed.result.value) in r.nodes[|p.nodes|].lines)
      // exactly: the rewritten text beside its translation, or the text as heard beside the marker
      && (routed.result.Ok? ==>
            r.nodes[|p.nodes|].lines == SubtitleLines(p.settings.value.showOriginal, processed, routed.result.value))
      && (routed.result.Err? ==>
            r.nodes[|p.nodes|].lines == SubtitleLines(p.settings.value.showOriginal, text, FailureMarker(routed.result.message)))
  {
    var processed := Platform.TranslateSlang(text, p.platformId);
    var routed := Routed(p.router, RequestFor(p.settings.value, processed), oracle, bundled);
    var q := p.(router := routed.state);
    if routed.result.Ok? {
      DisplayReplacesSubtitle(q, processed, routed.result.value, isFinal, bundled);
    } else {
      DisplayReplacesSubtitle(q, text, FailureMarker(routed.result.message), isFinal, bundled);
    }
  }

  // ---------------------------------------------------------------------------------------
  // Lifecycle and messages

  /** `loadSettings()` */
  function LoadSettingsStep(p: Page, stored: StoredSettings): (r: Page)
    requires PageInv(p)
    ensures PageInv(r) && r.settings == Some(LoadedSettings(stored))
  {
    p.(settings := Some(LoadedSettings(stored)))
  }

  /**
   * The first step of `init()`: the platform of the page, as `detectPlatform` computes it (so a
   * `youtube.com/live/` page is `unknown`), and whether it has a configuration.
   */
  function Identified(p: Page, url: string, liveBadge: bool): (r: Page)
    requires PageInv(p)
    ensures PageInv(r) && r == p.(platformId := r.platformId, hasConfig := r.hasConfig)
    ensures r.platformId == Platform.DetectPlatformAsWritten(url, liveBadge)
    ensures r.hasConfig <==> r.platformId != Platform.Unknown
  {
    var id := Platform.DetectPlatformAsWritten(url, liveBadge);
    Platform.DetectPlatformAsWrittenSound(url, liveBadge);
    p.(platformId := id, hasConfig := Platform.ConfigOf(id).Some?)
  }

  /** `init()` on the page at `url`: the boolean it resolves to, and the new page. */
  function InitStep(p: Page, url: string, liveBadge: bool, stored: StoredSettings, speechSupported: bool): (r: (bool, Page))
    requires PageInv(p)
    ensures PageInv(r.1) && r.1.platformId == Platform.DetectPlatformAsWritten(url, liveBadge)
    ensures r.1.hasConfig <==> r.1.platformId != Platform.Unknown
    ensures r.0 <==> r.1.hasConfig && speechSupported
    // settings are loaded exactly when the platform is known
    ensures r.1.settings == if r.1.hasConfig then Some(LoadedSettings(stored)) else p.settings
    ensures r.0 ==> r.1.sttResultHandler == Some(Stt.NewHandler())
    ensures !r.0 ==> r.1.sttResultHandler == p.sttResultHandler
    ensures r.1.notifications == p.notifications + if r.1.hasConfig && !speechSupported then [Notification(UnsupportedBrowserMessage, "error")] else []
  {
    var q := Identified(p, url, liveBadge);
    if !q.hasConfig then (false, q)
    else
      var q := LoadSettingsStep(q, stored);
      if !speechSupported then (false, Notify(q, UnsupportedBrowserMessage, "error"))
      else (true, q.(sttResultHandler := Some(Stt.NewHandler())))
  }

  /** A page the extension does not recognise never loads its settings, so a later `startCapture` fails on them. */
  lemma UnknownPlatformCannotStart(url: string, liveBadge: bool, stored: StoredSettings, speechSupported: bool, env: CaptureEnv, bundled: bool)
    requires Platform.DetectPlatformAsWritten(url, liveBadge) == Platform.Unknown && env.mediaError.None?
    ensures var q := InitStep(NewPage(), url, liveBadge, stored, speechSupported);
      && !q.0
      && StartCaptureStep(q.1, env, bundled).0 == Fail(NullSettingsMessage)
  {
  }

  /**
   * A `youtube.com/live/` page, which the `youtube_live` entry names, is disabled like an unknown
   * page: `init` resolves false without loading settings, and a later start fails.
   */
  lemma LivePageCannotStart(liveBadge: bool, stored: StoredSettings, speechSupported: bool, env: CaptureEnv, bundled: bool)
    requires env.mediaError.None?
    ensures var q := InitStep(NewPage(), Platform.LiveUrl, liveBadge, stored, speechSupported);
      && !q.0 && q.1.settings.None? && q.1.platformId == Platform.Unknown
      && StartCaptureStep(q.1, env, bundled).0 == Fail(NullSettingsMessage)
  {
    Platform.LiveUrlUndetected(liveBadge);
    UnknownPlatformCannotStart(Platform.LiveUrl, liveBadge, stored, speechSupported, env, bundled);
  }

  /** Messages from the background script and the popup. */
  datatype Message =
    | StartCaptureMessage(streamId: string)   // the empty string is a missing or empty `streamId`
    | StopCaptureMessage
    | UpdateSettingsMessage
    | CheckWebSpeechMessage
    | OtherMessage(action: string)

  datatype Response = Success | Failure(error: string) | Supported(supported: bool)

  /** The `chrome.runtime.onMessage` listener: the response it sends, if any, and the new page. */
  function HandleMessageStep(p: Page, msg: Message, env: CaptureEnv, stored: StoredSettings, bundled: bool): (r: (Option<Response>, Page))
    requires PageInv(p)
    ensures PageInv(r.1)
    // a startCapture without a stream id is ignored and never answered
    ensures msg == StartCaptureMessage("") ==> r == (None, p)
    ensures msg.StartCaptureMessage? && msg.streamId != "" ==>
      && r.1 == StartCaptureStep(p, env, bundled).1
      && r.0 == Some(if StartCaptureStep(p, env, bundled).0.Pass? then Success else Failure(StartCaptureStep(p, env, bundled).0.message))
    ensures msg.StopCaptureMessage? ==> r == (Some(Success), StopCaptureStep(p))
    ensures msg.UpdateSettingsMessage? ==> r == (Some(Success), LoadSettingsStep(p, stored))
    // only the bundled script answers checkWebSpeech
    ensures msg.CheckWebSpeechMessage? ==> r.1 == p && r.0 == Some(if bundled then Supported(env.speechSupported) else Failure(UnknownActionMessage))
    ensures msg.OtherMessage? && msg.action !in {"startCapture", "stopCapture", "updateSettings", "checkWebSpeech"} ==> r == (Some(Failure(UnknownActionMessage)), p)
  {
    match msg
    case StartCaptureMessage(streamId) =>
      if streamId == "" then (None, p)
      else
        var (o, q) := StartCaptureStep(p, env, bundled);
        (Some(if o.Pass? then Success else Failure(o.message)), q)
    case StopCaptureMessage => (Some(Success), StopCaptureStep(p))
    case UpdateSettingsMessage => (Some(Success), LoadSettingsStep(p, stored))
    case CheckWebSpeechMessage => (Some(if bundled then Supported(env.speechSupported) else Failure(UnknownActionMessage)), p)
    case OtherMessage(_) => (Some(Failure(UnknownActionMessage)), p)
  }

  /** The `beforeunload` listener. */
  function BeforeUnloadStep(p: Page): (r: Page)
    requires PageInv(p)
    ensures PageInv(r) && !r.isCapturing
    ensures p.isCapturing ==> r == StopCaptureStep(p) && r.sent == p.sent + [CaptureStopped]
    ensures !p.isCapturing ==> r == p
  {
    if p.isCapturing then StopCaptureStep(p) else p
  }

  /** Stopping and starting again: after `stopCapture`, a start under the same conditions as the first succeeds again. */
  lemma RestartAfterStop(p: Page, env: CaptureEnv, bundled: bool)
    requires PageInv(p) && p.settings.Some? && env.mediaError.None? && env.speechSupported
    ensures var r := StartCaptureStep(StopCaptureStep(p), env, bundled);
      && r.0 == Pass && r.1.isCapturing && r.1.overlayContainer == Some(|p.overlays|)
  {
  }

  // ---------------------------------------------------------------------------------------
  // The content-script object

  class LiveStreamTranslator {
    var platformId: string
    var hasConfig: bool
    var settings: Option<Settings>
    var isCapturing: bool
    var audioContext: bool
    var mediaStream: bool
    var sttEngine: Option<Stt.EngineState>
    var sttResultHandler: Option<Stt.HandlerState>
    var overlayContainer: Option<nat>
    var currentSubtitle: Option<nat>
    var overlays: seq<Overlay>
    var nodes: seq<SubtitleNode>
    var timers: seq<Timer>
    var notifications: seq<Notification>
    var sent: seq<BackgroundMessage>
    var retiredEngines: seq<Stt.EngineState>
    var router: Translator.RouterState
    const bundled: bool

    function State(): Page
      reads this
    {
      Page(platformId, hasConfig, settings, isCapturing, audioContext, mediaStream, sttEngine, sttResultHandler,
           overlayContainer, currentSubtitle, overlays, nodes, timers, notifications, sent, retiredEngines, router)
    }

    ghost predicate Valid()
      reads this
    {
      PageInv(State())
    }

    constructor (bundled: bool)
      ensures Valid() && State() == NewPage() && this.bundled == bundled
    {
      platformId, hasConfig, settings, isCapturing := "", false, None, false;
      audioContext, mediaStream, sttEngine, sttResultHandler := false, false, None, None;
      overlayContainer, currentSubtitle, overlays, nodes, timers := None, None, [], [], [];
      notifications, sent, retiredEngines := [], [], [];
      router := Translator.RouterState(Empty(), []);
      this.bundled := bundled;
    }

    method ShowNotification(message: string, kind: string)
      requires Valid()
      modifies this
      ensures Valid() && State() == Notify(old(State()), message, kind)
    {
      notifications := notifications + [Notification(message, kind)];
    }

    method LoadSettings(stored: StoredSettings)
      requires Valid()
      modifies this
      ensures Valid() && State() == LoadSettingsStep(old(State()), stored)
    {
      settings := Some(LoadedSettings(stored));
    }

    method Init(url: string, liveBadge: bool, stored: StoredSettings, speechSupported: bool) returns (ok: bool)
      requires Valid()
      modifies this
      ensures Valid() && (ok, State()) == InitStep(old(State()), url, liveBadge, stored, speechSupported)
    {
      Identify(url, liveBadge);
      if !hasConfig {
        return false;
      }
      LoadSettings(stored);
      if !speechSupported {
        ShowNotification(UnsupportedBrowserMessage, "error");
        return false;
      }
      sttResultHandler := Some(Stt.NewHandler());
      ok := true;
    }

    method Identify(url: string, liveBadge: bool)
      requires Valid()
      modifies this
      ensures Valid() && State() == Identified(old(State()), url, liveBadge)
    {
      platformId := Platform.DetectPlatformAsWritten(url, liveBadge);
      hasConfig := Platform.ConfigOf(platformId).Some?;
    }

    method CreateOverlay()
      requires Valid() && settings.Some?
      modifies this
      ensures Valid() && State() == CreateOverlayStep(old(State()), bundled)
    {
      if overlayContainer.Some? {
        return;
      }
      var o := Overlay("lst-overlay platform-" + platformId, Platform.SubtitlePosition(platformId),
                       if bundled then None else Some(settings.value.overlaySize), true);
      overlayContainer := Some(|overlays|);
      overlays := overlays + [o];
    }

    method RemoveOverlay()
      requires Valid()
      modifies this
      ensures Valid() && State() == RemoveOverlayStep(old(State()))
    {
      if overlayContainer.Some? {
        var c := overlayContainer.value;
        overlays := overlays[c := overlays[c].(inDocument := false)];
        overlayContainer := None;
        currentSubtitle := None;
      }
    }

    method DisplaySubtitle(original: string, translated: string, isFinal: bool)
      requires Valid() && settings.Some?
      modifies this
      ensures Valid() && State() == DisplayStep(old(State()), original, translated, isFinal, bundled)
    {
      CreateOverlay();
      var node := SubtitleNode(overlayContainer.value, SubtitleLines(settings.value.showOriginal, original, translated), isFinal, false, true);
      ReplaceSubtitle(node);
    }

    /** The second half of `displaySubtitle`: the current subtitle is removed and `node` appended in its place. */
    method ReplaceSubtitle(node: SubtitleNode)
      requires Valid() && overlayContainer == Some(node.container) && node.attached && !node.fadingOut
      modifies this
      ensures Valid() && State() == Appended(old(State()), node)
    {
      AppendedInv(State(), node);
      var n := |nodes|;
      nodes := Detached(nodes, currentSubtitle) + [node];
      currentSubtitle := Some(n);
      if node.isFinal {
        timers := timers + [Timer(FadeOut, n, FadeDelayMs)];
      }
    }

    /** The pending timer `k` fires. */
    method FireTimer(k: nat)
      requires Valid() && k < |timers|
      modifies this
      ensures Valid() && State() == FireTimerStep(old(State()), k)
    {
      var t := timers[k];
      assert TimerOk(nodes, t);
      var node := nodes[t.node];
      var rest := Without(timers, k);
      match t.kind
      case FadeOut =>
        nodes := nodes[t.node := node.(fadingOut := true)];
        timers := rest + [Timer(Removal, t.node, RemovalDelayMs)];
      case Removal =>
        if node.attached {
          nodes := nodes[t.node := node.(attached := false)];
        }
        timers := rest;
    }

    method StartSpeechRecognition(env: CaptureEnv) returns (o: Outcome)
      requires Valid()
      modifies this
      ensures Valid() && (o, State()) == StartRecognitionStep(old(State()), env, bundled)
    {
      if settings.None? {
        return Fail(NullSettingsMessage);
      }
      var engine := Stt.NewEngine(EngineLang(settings.value.sourceLang, bundled), Some(true));
      sttEngine := Some(engine);
      var started := Stt.StartStep(engine, env.speechSupported, env.recognitionStartError);
      match started
      case Err(m) =>
        o := Fail(m);
      case Ok(e) =>
        sttEngine := Some(e);
        notifications := notifications + RecognitionNotes(e.errors);
        o := Pass;
    }

    /** The `catch` block of `startCapture`. */
    method ReportCaptureFailure(m: string) returns (o: Outcome)
      requires Valid()
      modifies this
      ensures Valid() && (o, State()) == CaptureFailed(old(State()), m)
    {
      ShowNotification(CaptureFailedMessage(m), "error");
      sent := sent + [CaptureError(m)];
      o := Fail(m);
    }

    method StartCapture(env: CaptureEnv) returns (o: Outcome)
      requires Valid()
      modifies this
      ensures Valid() && (o, State()) == StartCaptureStep(old(State()), env, bundled)
    {
      if isCapturing {
        return Pass;
      }
      if env.mediaError.Some? {
        o := ReportCaptureFailure(env.mediaError.value);
        return;
      }
      mediaStream, audioContext := true, true;
      ghost var q0 := State();
      assert q0 == old(State()).(mediaStream := true, audioContext := true);
      o := StartSpeechRecognition(env);
      ghost var q1 := State();
      assert (o, q1) == StartRecognitionStep(q0, env, bundled);
      if o.Fail? {
        o := ReportCaptureFailure(o.message);
        return;
      }
      TurnOn();
      o := Pass;
    }

    /** The steps of `startCapture` after recognition has started. */
    method TurnOn()
      requires Valid() && settings.Some?
      modifies this
      ensures Valid() && State() == CaptureOn(old(State()), bundled)
    {
      CreateOverlay();
      ghost var q := State();
      isCapturing := true;
      sent := sent + [CaptureStarted];
      ShowNotification(StartedMessage, "success");
      assert State() == Notify(q.(isCapturing := true, sent := q.sent + [CaptureStarted]), StartedMessage, "success");
    }

    method StopCapture()
      requires Valid()
      modifies this
      ensures Valid() && State() == StopCaptureStep(old(State()))
    {
      ReleaseCapture();
      RemoveOverlay();
      ghost var q := State();
      isCapturing := false;
      sent := sent + [CaptureStopped];
      notifications := notifications + [Notification(StoppedMessage, "info")];
      assert State() == Notify(q.(isCapturing := false, sent := q.sent + [CaptureStopped]), StoppedMessage, "info");
    }

    /** A call or callback of the recognition engine, with `onError` showing each error it reports. */
    method HandleEngineEvent(e: Stt.EngineEvent)
      requires Valid() && sttEngine.Some?
      modifies this
      ensures Valid() && State() == EngineEventStep(old(State()), e)
    {
      var before := sttEngine.value.errors;
      var t := Stt.Step(sttEngine.value, e);
      Stt.StepKeepsErrors(sttEngine.value, e);
      notifications := notifications + RecognitionNotes(t.errors[|before|..]);
      sttEngine := Some(t);
    }

    /** The first steps of `stopCapture`: the engine is stopped and released, and the audio graph and stream are closed. */
    method ReleaseCapture()
      requires Valid()
      modifies this
      ensures Valid() && State() == Released(old(State()))
    {
      if sttEngine.Some? {
        retiredEngines := retiredEngines + [Stt.StopStep(sttEngine.value)];
        sttEngine := None;
      }
      audioContext, mediaStream := false, false;
    }

    method TranslateAndDisplay(text: string, isFinal: bool, oracle: Translator.Oracle)
      requires Valid() && settings.Some?
      modifies this
      ensures Valid() && State() == TranslateAndDisplayStep(old(State()), text, isFinal, oracle, bundled)
    {
      var original, translated := Translate(text, oracle);
      DisplaySubtitle(original, translated, isFinal);
    }

    /** The translation half of `translateAndDisplay`: the texts to show, with the translator's cache and calls updated. */
    method Translate(text: string, oracle: Translator.Oracle) returns (original: string, translated: string)
      requires Valid() && settings.Some?
      modifies this
      ensures Valid() && (State(), original, translated) == Translated(old(State()), text, oracle, bundled)
    {
      var processed := Platform.TranslateSlang(text, platformId);
      var routed := Routed(router, RequestFor(settings.value, processed), oracle, bundled);
      router := routed.state;
      match routed.result
      case Ok(t) =>
        original, translated := processed, t;
      case Err(m) =>
        original, translated := text, FailureMarker(m);
    }

    /** The engine's `onResult` callback: the new finals are translated one after another, then the latest interim is shown. */
    method OnResult(results: seq<Stt.SttResult>, oracle: Translator.Oracle)
      requires Valid()
      modifies this
      ensures Valid() && State() == OnResultStep(old(State()), results, oracle, bundled)
    {
      if sttResultHandler.None? {
        return;
      }
      var hp := Stt.HandleBatch(sttResultHandler.value, results);
      sttResultHandler := Some(hp.0);
      ShowResults(hp.1, oracle);
    }

    method ShowResults(processed: Stt.Processed, oracle: Translator.Oracle)
      requires Valid() && settings.Some?
      modifies this
      ensures Valid() && State() == ShowProcessed(old(State()), processed, oracle, bundled)
    {
      ghost var p0 := State();
      if processed.hasNew && |processed.finals| > 0 {
        TranslateFinals(processed.finals, oracle);
      }
      assert State() == ShownFinals(p0, processed, oracle, bundled);
      if |processed.interims| > 0 {
        DisplaySubtitle(processed.interims[|processed.interims| - 1].transcript, "", false);
      }
    }

    /** The `for … of processed.final` loop of `onResult`. */
    method TranslateFinals(finals: seq<Stt.SttResult>, oracle: Translator.Oracle)
      requires Valid() && settings.Some?
      modifies this
      ensures Valid() && State() == TranslateAll(old(State()), finals, oracle, bundled)
    {
      var i := 0;
      while i < |finals|
        invariant 0 <= i <= |finals|
        invariant Valid() && settings.Some?
        invariant TranslateAll(State(), finals[i..], oracle, bundled) == TranslateAll(old(State()), finals, oracle, bundled)
        decreases |finals| - i
      {
        assert finals[i..][0] == finals[i] && finals[i..][1..] == finals[i + 1..];
        TranslateAndDisplay(finals[i].transcript, true, oracle);
        i := i + 1;
      }
      assert finals[i..] == [];
    }

    method HandleMessage(msg: Message, env: CaptureEnv, stored: StoredSettings) returns (response: Option<Response>)
      requires Valid()
      modifies this
      ensures Valid() && (response, State()) == HandleMessageStep(old(State()), msg, env, stored, bundled)
    {
      match msg
      case StartCaptureMessage(streamId) =>
        if streamId == "" {
          return None;
        }
        var o := StartCapture(env);
        response := Some(if o.Pass? then Success else Failure(o.message));
      case StopCaptureMessage =>
        StopCapture();
        response := Some(Success);
      case UpdateSettingsMessage =>
        LoadSettings(stored);
        response := Some(Success);
      case CheckWebSpeechMessage =>
        response := Some(if bundled then Supported(env.speechSupported) else Failure(UnknownActionMessage));
      case OtherMessage(_) =>
        response := Some(Failure(UnknownActionMessage));
    }

    method BeforeUnload()
      requires Valid()
      modifies this
      ensures Valid() && State() == BeforeUnloadStep(old(State()))
    {
      if isCapturing {
        StopCapture();
      }
    }
  }
}
