/**
 * The background service worker of background.js: the per-tab capture registry `captureStates`
 * (a `Map` from tab id to `true`; a missing tab is idle), changed by the toolbar-icon click, tab
 * removal and the content script's messages. The Chrome calls it makes are inputs: whether
 * `tabCapture.getMediaStreamId` yields an id and whether `tabs.sendMessage` resolves; the icon
 * changes, notifications and messages it sends are kept as logs.
 */
module Background {
  import opened Wrappers
  import opened Text
  import Platform
  import Content

  /** The five patterns of `isSupportedPlatform`: `^https?://(hosts)/`. */
  const SupportedPatterns: seq<Platform.UrlPattern> := [
    Platform.UrlPattern(["youtube.com", "www.youtube.com"], ["/"], false),
    Platform.UrlPattern(["twitch.tv", "www.twitch.tv"], ["/"], false),
    Platform.UrlPattern(["play.sooplive.co.kr"], ["/"], false),
    Platform.UrlPattern(["chzzk.naver.com"], ["/"], false),
    Platform.UrlPattern(["nicovideo.jp", "www.nicovideo.jp", "live.nicovideo.jp"], ["/"], false)
  ]

  /** `isSupportedPlatform(url)` */
  predicate IsSupportedPlatform(url: string) {
    exists i :: 0 <= i < |SupportedPatterns| && Platform.Matches(SupportedPatterns[i], url)
  }

  lemma StartsWithTrans(s: string, mid: string, pre: string)
    requires StartsWith(s, mid) && StartsWith(mid, pre)
    ensures StartsWith(s, pre)
  {
    assert s[..|pre|] == s[..|mid|][..|pre|];
  }

  /** A pattern whose paths all start with `/` matches only where the same hosts followed by `/` match. */
  lemma Widen(p: Platform.UrlPattern, q: Platform.UrlPattern, url: string)
    requires p.hosts == q.hosts && q.paths == ["/"] && !q.needsWordChar
    requires forall k :: 0 <= k < |p.paths| ==> StartsWith(p.paths[k], "/")
    requires Platform.Matches(p, url)
    ensures Platform.Matches(q, url)
  {
    var s, h, k :| 0 <= s < |Platform.Schemes| && 0 <= h < |p.hosts| && 0 <= k < |p.paths| && Platform.MatchesAt(p, url, s, h, k);
    var long := Platform.PatternPrefix(p, s, h, k);
    var short := Platform.PatternPrefix(q, s, h, 0);
    var a := Platform.Schemes[s] + p.hosts[h];
    assert long == a + p.paths[k] && short == a + "/";
    assert long[..|short|] == short by {
      assert p.paths[k][..1] == "/";
      assert long[..|short|] == a + p.paths[k][..1];
    }
    StartsWithTrans(url, long, short);
    assert Platform.MatchesAt(q, url, s, h, 0);
  }

  /** Every page the corrected detection recognises, and so every page the content script recognises, is one the icon click accepts. */
  lemma DetectedIsSupported(url: string, liveBadge: bool)
    requires Platform.DetectPlatform(url, liveBadge) != Platform.Unknown
    ensures IsSupportedPlatform(url)
  {
    var id := Platform.DetectPlatform(url, liveBadge);
    Platform.DetectPlatformSound(url, liveBadge);
    Platform.ConfigCases(id);
    var p := Platform.ConfigOf(id).value.urlPattern;
    var j := if id == Platform.YouTube || id == Platform.YouTubeLive then 0
             else if id == Platform.Twitch then 1
             else if id == Platform.Soop then 2
             else if id == Platform.Chzzk then 3
             else 4;
    assert p.hosts == SupportedPatterns[j].hosts;
    assert forall k :: 0 <= k < |p.paths| ==> StartsWith(p.paths[k], "/");
    Widen(p, SupportedPatterns[j], url);
  }

  const YouTubeHome := "https://www.youtube.com/"

  /** The converse fails: the icon accepts the YouTube home page, which the content script does not recognise. */
  lemma HomePageAccepted(liveBadge: bool)
    ensures IsSupportedPlatform(YouTubeHome)
    ensures Platform.DetectPlatform(YouTubeHome, liveBadge) == Platform.Unknown
    ensures Platform.DetectPlatformAsWritten(YouTubeHome, liveBadge) == Platform.Unknown
  {
    assert Platform.MatchesAt(SupportedPatterns[0], YouTubeHome, 1, 1, 0);
    HomeNotYouTube();
    HomeNotOthers();
    Platform.FirstMatchCons(Platform.YouTubeLiveEntry, Platform.OtherEntries, YouTubeHome);
  }

  lemma HomeNotYouTube()
    ensures !Platform.Matches(Platform.YouTubeLivePattern, YouTubeHome) && !Platform.Matches(Platform.YouTubePattern, YouTubeHome)
  {
    var home := YouTubeHome;
    var live := Platform.YouTubeLivePattern;
    forall s, h, k | 0 <= s < |Platform.Schemes| && 0 <= h < 2 && 0 <= k < 2
      ensures !Platform.MatchesAt(live, home, s, h, k) && (k == 0 ==> !Platform.MatchesAt(Platform.YouTubePattern, home, s, h, k))
    {
      var pre := Platform.PatternPrefix(live, s, h, k);
      if s == 0 {
        assert pre[4] != home[4];
      } else if h == 0 {
        assert pre[8] != home[8];
      } else {
        assert |pre| > |home|;
      }
      assert k == 0 ==> Platform.PatternPrefix(Platform.YouTubePattern, s, h, k) == pre;
    }
  }

  /** A pattern none of whose hosts starts like `www.y` misses the home page. */
  lemma HomeNotPattern(p: Platform.UrlPattern)
    requires forall h :: 0 <= h < |p.hosts| ==> |p.hosts[h]| > 4 && (p.hosts[h][0] != 'w' || p.hosts[h][4] != 'y')
    ensures !Platform.Matches(p, YouTubeHome)
  {
    var home := YouTubeHome;
    forall s, h, k | 0 <= s < |Platform.Schemes| && 0 <= h < |p.hosts| && 0 <= k < |p.paths|
      ensures !Platform.MatchesAt(p, home, s, h, k)
    {
      var pre := Platform.PatternPrefix(p, s, h, k);
      if s == 0 {
        assert pre[4] != home[4];
      } else {
        assert pre[8] == p.hosts[h][0] && pre[12] == p.hosts[h][4];
        assert pre[8] != home[8] || pre[12] != home[12];
      }
    }
  }

  lemma HomeNotOthers()
    ensures Platform.FirstMatch(Platform.OtherEntries, YouTubeHome).None?
  {
    HomeNotPattern(Platform.TwitchPattern);
    HomeNotPattern(Platform.SoopPattern);
    HomeNotPattern(Platform.ChzzkPattern);
    HomeNotPattern(Platform.NiconicoPattern);
    var others := Platform.OtherEntries;
    var patterns := {Platform.TwitchPattern, Platform.SoopPattern, Platform.ChzzkPattern, Platform.NiconicoPattern};
    assert forall i :: 0 <= i < |others| ==> others[i].1.urlPattern in patterns;
  }

  const UnsupportedMessage := "지원하지 않는 플랫폼입니다. YouTube, Twitch, SOOP, 치지직, 니코니코를 지원합니다."

  function ErrorMessage(m: string): string { "오류가 발생했습니다: " + m }

  /** The messages `chrome.tabs.sendMessage` delivers to a tab's content script. */
  datatype TabMessage = StartCaptureRequest(streamId: string) | StopCaptureRequest

  /** The outcomes of the Chrome calls one click makes. */
  datatype ChromeEnv = ChromeEnv(streamId: Result<string>, sendResult: Outcome)

  datatype Tab = Tab(id: int, url: string)

  /** The worker's state: the registry and what it has done to the outside world. */
  datatype Registry = Registry(
    states: map<int, bool>,
    icons: seq<(int, bool)>,              // `updateIcon(tabId, isCapturing)` calls
    notifications: seq<string>,
    sent: seq<(int, TabMessage)>)

  /** The registry only ever stores `true`. */
  predicate AllTrue(states: map<int, bool>) {
    forall t :: t in states ==> states[t]
  }

  predicate Capturing(r: Registry, tabId: int) {
    tabId in r.states && r.states[tabId]
  }

  /** Tabs other than `tabId` keep their entries. */
  ghost predicate OthersKept(before: map<int, bool>, after: map<int, bool>, tabId: int) {
    forall t :: t != tabId ==> (t in after <==> t in before) && (t in after ==> after[t] == before[t])
  }

  /** `startCapture(tabId)`: the tab is marked only after the stream id and the message both succeed. */
  function StartCaptureStep(r: Registry, tabId: int, env: ChromeEnv): (o: (Outcome, Registry))
    requires AllTrue(r.states)
    ensures AllTrue(o.1.states) && OthersKept(r.states, o.1.states, tabId)
    ensures o.0.Pass? <==> env.streamId.Ok? && env.sendResult.Pass?
    ensures o.0.Pass? ==> Capturing(o.1, tabId) && o.1.icons == r.icons + [(tabId, true)]
    ensures o.0.Fail? ==> o.1.states == r.states && o.1.icons == r.icons
    ensures env.streamId.Err? ==> o == (Fail(env.streamId.message), r)
    ensures env.streamId.Ok? ==> o.1.sent == r.sent + [(tabId, StartCaptureRequest(env.streamId.value))]
    ensures o.1.notifications == r.notifications
  {
    match env.streamId
    case Err(m) => (Fail(m), r)
    case Ok(id) =>
      var r := r.(sent := r.sent + [(tabId, StartCaptureRequest(id))]);
      if env.sendResult.Fail? then (env.sendResult, r)
      else (Pass, r.(states := r.states[tabId := true], icons := r.icons + [(tabId, true)]))
  }

  /**
   * `startCapture(tabId)` up to `await chrome.tabs.sendMessage`: the stream id is obtained and the
   * request is on its way; nothing is marked yet.
   */
  function StartCaptureSend(r: Registry, tabId: int, env: ChromeEnv): (o: (Outcome, Registry))
    requires AllTrue(r.states)
    ensures AllTrue(o.1.states) && o.1.states == r.states && o.1.icons == r.icons && o.1.notifications == r.notifications
    ensures o.0.Pass? <==> env.streamId.Ok?
    ensures env.streamId.Ok? ==> o.1.sent == r.sent + [(tabId, StartCaptureRequest(env.streamId.value))]
    ensures env.streamId.Err? ==> o == (Fail(env.streamId.message), r)
  {
    match env.streamId
    case Err(m) => (Fail(m), r)
    case Ok(id) => (Pass, r.(sent := r.sent + [(tabId, StartCaptureRequest(id))]))
  }

  /**
   * `startCapture(tabId)` once the `await` resumes. Any reply resolves the promise, `{success: false}`
   * included, so only an undelivered message keeps the tab unmarked.
   */
  function StartCaptureResume(r: Registry, tabId: int, sendResult: Outcome): (o: (Outcome, Registry))
    requires AllTrue(r.states)
    ensures AllTrue(o.1.states) && OthersKept(r.states, o.1.states, tabId) && o.0 == sendResult
    ensures sendResult.Pass? ==> Capturing(o.1, tabId) && o.1.icons == r.icons + [(tabId, true)]
    ensures sendResult.Fail? ==> o.1 == r
  {
    if sendResult.Fail? then (sendResult, r)
    else (Pass, r.(states := r.states[tabId := true], icons := r.icons + [(tabId, true)]))
  }

  /** With nothing arriving in between, the two halves are the whole `startCapture`. */
  lemma StartCaptureHalves(r: Registry, tabId: int, env: ChromeEnv)
    requires AllTrue(r.states)
    ensures var first := StartCaptureSend(r, tabId, env);
      StartCaptureStep(r, tabId, env) == if first.0.Fail? then first else StartCaptureResume(first.1, tabId, env.sendResult)
  {
  }

  /**
   * The content script's start fails: it reports `captureError`, which the worker handles while
   * `startCapture` is still awaiting, and then replies `{success: false}`, which resolves the
   * await. The entry the error removed is put back, so the tab ends marked as capturing with the
   * last icon on, although the page does not capture.
   */
  lemma {:induction false} ErrorBeforeReplyMarksTab(r: Registry, tabId: int, streamId: string, error: string,
                                                    stored: Content.StoredSettings)
    requires AllTrue(r.states)
    ensures var env := ChromeEnv(Ok(streamId), Pass);
      var sent := StartCaptureSend(r, tabId, env).1;
      var errored := OnMessageStep(sent, tabId, CaptureErrorMessage(error), stored);
      var resumed := StartCaptureResume(errored.1, tabId, Pass);
      && errored.0 == Failed(None) && !Capturing(errored.1, tabId)
      && resumed.0 == Pass && Capturing(resumed.1, tabId)
      && resumed.1.icons == r.icons + [(tabId, false), (tabId, true)]
      && resumed.1 == StartCaptureStep(OnMessageStep(r, tabId, CaptureErrorMessage(error), stored).1, tabId, env).1
  {
  }

  /** `stopCapture(tabId)`: the entry goes only when the message is delivered; a failure is swallowed. */
  function StopCaptureStep(r: Registry, tabId: int, sendResult: Outcome): (o: Registry)
    requires AllTrue(r.states)
    ensures AllTrue(o.states) && OthersKept(r.states, o.states, tabId)
    ensures sendResult.Pass? ==> tabId !in o.states && o.icons == r.icons + [(tabId, false)]
    ensures sendResult.Fail? ==> o.states == r.states && o.icons == r.icons
    ensures o.sent == r.sent + [(tabId, StopCaptureRequest)] && o.notifications == r.notifications
  {
    var r := r.(sent := r.sent + [(tabId, StopCaptureRequest)]);
    if sendResult.Fail? then r
    else r.(states := r.states - {tabId}, icons := r.icons + [(tabId, false)])
  }

  /** The `chrome.action.onClicked` listener. */
  function OnClickedStep(r: Registry, tab: Tab, env: ChromeEnv): (o: Registry)
    requires AllTrue(r.states)
    ensures AllTrue(o.states) && OthersKept(r.states, o.states, tab.id)
    // an unsupported page changes nothing but a notification
    ensures !IsSupportedPlatform(tab.url) ==> o == r.(notifications := r.notifications + [UnsupportedMessage])
    // a capturing tab is stopped, an idle one started
    ensures IsSupportedPlatform(tab.url) && Capturing(r, tab.id) ==> o == StopCaptureStep(r, tab.id, env.sendResult)
    ensures IsSupportedPlatform(tab.url) && !Capturing(r, tab.id) ==>
      && (Capturing(o, tab.id) <==> env.streamId.Ok? && env.sendResult.Pass?)
      && o.notifications == r.notifications + (if Capturing(o, tab.id) then [] else [ErrorMessage(StartCaptureStep(r, tab.id, env).0.message)])
  {
    if !IsSupportedPlatform(tab.url) then r.(notifications := r.notifications + [UnsupportedMessage])
    else if Capturing(r, tab.id) then StopCaptureStep(r, tab.id, env.sendResult)
    else
      var (outcome, r') := StartCaptureStep(r, tab.id, env);
      if outcome.Fail? then r'.(notifications := r'.notifications + [ErrorMessage(outcome.message)]) else r'
  }

  /** The `chrome.tabs.onRemoved` listener. */
  function OnRemovedStep(r: Registry, tabId: int): (o: Registry)
    requires AllTrue(r.states)
    ensures AllTrue(o.states) && OthersKept(r.states, o.states, tabId)
    ensures tabId !in o.states && o == r.(states := o.states)
  {
    r.(states := r.states - {tabId})
  }

  /** Messages from content scripts and the popup. */
  datatype WorkerMessage =
    | CaptureStartedMessage
    | CaptureStoppedMessage
    | CaptureErrorMessage(error: string)
    | GetSettingsMessage
    | OtherWorkerMessage(action: string)

  datatype WorkerResponse = Succeeded | Failed(error: Option<string>) | SettingsReply(settings: Content.StoredSettings)

  /** The `chrome.runtime.onMessage` listener for a message from tab `tabId`. */
  function OnMessageStep(r: Registry, tabId: int, msg: WorkerMessage, stored: Content.StoredSettings): (o: (WorkerResponse, Registry))
    requires AllTrue(r.states)
    ensures AllTrue(o.1.states) && OthersKept(r.states, o.1.states, tabId)
    ensures msg.CaptureStartedMessage? ==> Capturing(o.1, tabId) && o == (Succeeded, o.1)
    ensures msg.CaptureStoppedMessage? || msg.CaptureErrorMessage? ==> tabId !in o.1.states
    ensures msg.CaptureErrorMessage? ==> o.0 == Failed(None)
    ensures msg.GetSettingsMessage? ==> o == (SettingsReply(stored), r)
    ensures msg.OtherWorkerMessage? ==> o == (Failed(Some("Unknown action")), r)
    ensures o.1.notifications == r.notifications && o.1.sent == r.sent
  {
    match msg
    case CaptureStartedMessage => (Succeeded, r.(states := r.states[tabId := true], icons := r.icons + [(tabId, true)]))
    case CaptureStoppedMessage => (Succeeded, r.(states := r.states - {tabId}, icons := r.icons + [(tabId, false)]))
    case CaptureErrorMessage(_) => (Failed(None), r.(states := r.states - {tabId}, icons := r.icons + [(tabId, false)]))
    case GetSettingsMessage => (SettingsReply(stored), r)
    case OtherWorkerMessage(_) => (Failed(Some("Unknown action")), r)
  }

  /** Two clicks on an idle supported tab, with every Chrome call succeeding, start and then stop capture. */
  lemma {:induction false} ClickTwice(r: Registry, tab: Tab, streamId: string)
    requires AllTrue(r.states) && IsSupportedPlatform(tab.url) && tab.id !in r.states
    ensures var env := ChromeEnv(Ok(streamId), Pass);
      var once := OnClickedStep(r, tab, env);
      && Capturing(once, tab.id)
      && OnClickedStep(once, tab, env).states == r.states
      && OnClickedStep(once, tab, env).sent == r.sent + [(tab.id, StartCaptureRequest(streamId)), (tab.id, StopCaptureRequest)]
  {
    var env := ChromeEnv(Ok(streamId), Pass);
    var once := OnClickedStep(r, tab, env);
    assert Capturing(once, tab.id);
    var twice := OnClickedStep(once, tab, env);
    assert twice.states == once.states - {tab.id};
    assert once.states == r.states[tab.id := true];
  }

  /** What `chrome.runtime.onInstalled` stores on a fresh install. */
  function Installed(stored: Content.StoredSettings): (s: Content.StoredSettings) {
    stored.(sourceLang := Some("auto"), targetLang := Some("ko"), translationEngine := Some("google"), showOriginal := Some(true),
            overlayPosition := Some("bottom"), overlaySize := Some("100"), enableCache := Some(true))
  }

  /** The installed defaults agree with the content script's own defaults. */
  lemma InstalledMatchesDefaults(stored: Content.StoredSettings)
    ensures Content.LoadedSettings(Installed(stored)) ==
      Content.LoadedSettings(Content.NothingStored).(apiKey := Content.OrDefault(stored.apiKey, ""), apiSecret := Content.OrDefault(stored.apiSecret, ""))
  {
  }

  /** The worker: `captureStates` and the logs of its effects. */
  class ServiceWorker {
    var captureStates: map<int, bool>
    var icons: seq<(int, bool)>
    var notifications: seq<string>
    var sent: seq<(int, TabMessage)>

    function State(): Registry
      reads this
    {
      Registry(captureStates, icons, notifications, sent)
    }

    ghost predicate Valid()
      reads this
    {
      AllTrue(captureStates)
    }

    constructor ()
      ensures Valid() && State() == Registry(map[], [], [], [])
    {
      captureStates, icons, notifications, sent := map[], [], [], [];
    }

    method UpdateIcon(tabId: int, isCapturing: bool)
      modifies this
      ensures icons == old(icons) + [(tabId, isCapturing)] && captureStates == old(captureStates)
      ensures notifications == old(notifications) && sent == old(sent)
    {
      icons := icons + [(tabId, isCapturing)];
    }

    method StartCapture(tabId: int, env: ChromeEnv) returns (o: Outcome)
      requires Valid()
      modifies this
      ensures Valid() && (o, State()) == StartCaptureStep(old(State()), tabId, env)
    {
      if env.streamId.Err? {
        return Fail(env.streamId.message);
      }
      sent := sent + [(tabId, StartCaptureRequest(env.streamId.value))];
      if env.sendResult.Fail? {
        return env.sendResult;
      }
      captureStates := captureStates[tabId := true];
      UpdateIcon(tabId, true);
      o := Pass;
    }

    method StopCapture(tabId: int, sendResult: Outcome)
      requires Valid()
      modifies this
      ensures Valid() && State() == StopCaptureStep(old(State()), tabId, sendResult)
    {
      sent := sent + [(tabId, StopCaptureRequest)];
      if sendResult.Fail? {
        return;
      }
      captureStates := captureStates - {tabId};
      UpdateIcon(tabId, false);
    }

    method OnClicked(tab: Tab, env: ChromeEnv)
      requires Valid()
      modifies this
      ensures Valid() && State() == OnClickedStep(old(State()), tab, env)
    {
      if !IsSupportedPlatform(tab.url) {
        notifications := notifications + [UnsupportedMessage];
        return;
      }
      var isCapturing := tab.id in captureStates && captureStates[tab.id];
      if isCapturing {
        StopCapture(tab.id, env.sendResult);
      } else {
        var outcome := StartCapture(tab.id, env);
        if outcome.Fail? {
          notifications := notifications + [ErrorMessage(outcome.message)];
        }
      }
    }

    method OnRemoved(tabId: int)
      requires Valid()
      modifies this
      ensures Valid() && State() == OnRemovedStep(old(State()), tabId)
    {
      if tabId in captureStates {
        captureStates := captureStates - {tabId};
      }
    }

    method OnMessage(tabId: int, msg: WorkerMessage, stored: Content.StoredSettings) returns (response: WorkerResponse)
      requires Valid()
      modifies this
      ensures Valid() && (response, State()) == OnMessageStep(old(State()), tabId, msg, stored)
    {
      match msg
      case CaptureStartedMessage =>
        captureStates := captureStates[tabId := true];
        UpdateIcon(tabId, true);
        response := Succeeded;
      case CaptureStoppedMessage =>
        captureStates := captureStates - {tabId};
        UpdateIcon(tabId, false);
        response := Succeeded;
      case CaptureErrorMessage(_) =>
        captureStates := captureStates - {tabId};
        UpdateIcon(tabId, false);
        response := Failed(None);
      case GetSettingsMessage =>
        response := SettingsReply(stored);
      case OtherWorkerMessage(_) =>
        response := Failed(Some("Unknown action"));
    }
  }
}
