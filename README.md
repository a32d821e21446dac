# Live Stream Translator: a Dafny model of the live-caption core

The Live Stream Translator browser extension captures a tab's audio and runs it through the
browser's speech recognizer. It translates each recognized sentence and shows the result as a
subtitle over the video on YouTube, Twitch, SOOP, CHZZK (치지직) and niconico pages. This
project models the logic behind that pipeline and proves properties of it.

- `cache.dfy` (`Cache`): the `TranslationCache` of translator.js. It is a bounded `Map` that
  evicts in insertion order. The same class is copied into content-bundle.js.
- `translator.dfy` (`Translator`):
  - `translate`, with its blank-text short cut, its `text|src|tgt|engine` cache key, its engine
    switch and credential checks, and its single fallback to Google.
  - The Google-only `translate` of content-bundle.js.
  - `clearCache` and `getCacheSize`.
  - The pure pieces of the providers: the Google segment join and the Papago and DeepL
    language maps.
  - `UsageTracker`.
  - Providers are an oracle from a provider call to a reply. The object keeps a log of every
    provider call.
- `stt.js`, modelled in `stt.dfy` (`Stt`):
  - `SpeechRecognitionEngine`. Its recognizer callbacks (`onstart`, `onend`, `onerror`) and the
    100 ms restart timer are explicit events.
  - `STTResultHandler`.
  - `getLanguageCode`, `isSupportedLanguage` and `validateSTTOptions`.
  - The bundle's 12-entry language table.
- `platform.dfy` (`Platform`):
  - The platform table.
  - `detectPlatform`, with the URL and the presence of the live badge as inputs. The URL regexes
    are written out as scheme/host/path prefix predicates.
  - `getPlatformConfig` and `getSubtitlePosition`.
  - `translateSlang`, as a left fold of case-insensitive replace-all.
- `content.dfy` (`Content`): the `LiveStreamTranslator` content script, and its copy in
  content-bundle.js (the `bundled` flag).
  - The DOM is a list of overlay containers and a list of subtitle nodes.
  - The two `setTimeout` callbacks of a final subtitle are pending timers, fired as events.
  - The recognizer's calls and callbacks reach the page's engine as events, and the errors it
    reports become notifications.
  - The message listener and the `beforeunload` listener are included.
- `background.dfy` (`Background`): the service worker's `captureStates` registry and its click,
  tab-removed, message and install handlers. Chrome's calls become outcome parameters.
- `popup.dfy` (`Popup`): the popup's settings form.
  - The slider ↔ percent mapping.
  - API-key field visibility.
  - Loading, saving and resetting the settings.
- `wrappers.dfy`, `text.dfy`, `seqs.dfy`: `Option`/`Result`/`Outcome`, the JavaScript string
  operations the code relies on (`trim`, `includes`, `toUpperCase`, `String(n)`), and the
  last-n-elements function used for both bounded histories.

Every stateful class is a Dafny `class`. Each method ensures that its new state, seen through
`State()`, is a pure step function applied to the old state. The properties are then proved
about those step functions.

## Model

| member | source | states |
|---|---|---|
| Cache.Empty | Chrome_Extension/scripts/utils/translator.js:16-19 | A new cache is well formed and holds no entry. |
| Cache.EvictIfFull | Chrome_Extension/scripts/utils/translator.js:26-29 | Below capacity nothing changes. At or above `maxSize`, exactly the oldest key is dropped and every other entry keeps its value. |
| Cache.Inserted | Chrome_Extension/scripts/utils/translator.js:25-32 | After `set(key, value)`, `key` maps to `value`, and no other key is added or changed. When full, the oldest key is gone unless it is `key`; every other key survives. The size stays within max(maxSize, 1). |
| Cache.ReinsertWhenFull | Chrome_Extension/scripts/utils/translator.js:27-31 | Setting a present key into a full cache still evicts. The size drops to maxSize-1, unless the key was the oldest, in which case it moves to the newest position. |
| Cache.SetBelowCapacity | Chrome_Extension/scripts/utils/translator.js:25-32 | Below capacity, a new key is appended and an existing key keeps its place (Map insertion order). |
| Cache.InsertedAll | Chrome_Extension/scripts/utils/translator.js:25-32 | Any run of `set` calls keeps the cache well formed. |
| Cache.FifoKeepsNewest | Chrome_Extension/scripts/utils/translator.js:21-36 | FIFO: after `set`-ting distinct fresh keys, the cache holds exactly the newest `maxSize` keys of old order + new keys, oldest first. `get`/`has` never reorder. |
| Cache.TranslationCache.constructor | Chrome_Extension/scripts/utils/translator.js:16-19 | A new object holds the empty cache with the given `maxSize`. |
| Cache.TranslationCache.Get | Chrome_Extension/scripts/utils/translator.js:21-23 | Returns a value exactly when the key is stored, and then the stored value. |
| Cache.TranslationCache.Has | Chrome_Extension/scripts/utils/translator.js:34-36 | True exactly when the key is stored. |
| Cache.TranslationCache.Set | Chrome_Extension/scripts/utils/translator.js:25-32 | The new contents are `Inserted` of the old ones; well-formedness is kept. |
| Cache.TranslationCache.Clear | Chrome_Extension/scripts/utils/translator.js:38-40 | The cache becomes empty. |
| Cache.TranslationCache.GetSize | Chrome_Extension/scripts/utils/translator.js:42-44 | The number of entries, which never exceeds max(maxSize, 1). |
| Translator.EngineOf | Chrome_Extension/scripts/utils/translator.js:230 | `options.engine \|\| 'google'`: never empty, and a given engine is kept. |
| Translator.CacheKeyInjective | Chrome_Extension/scripts/utils/translator.js:230 | When text and language codes contain no `\|`, two requests share a cache key only if all four fields agree. |
| Translator.CacheKeyCollision | Chrome_Extension/scripts/utils/translator.js:230 | A text containing `\|` can share its key with a different request: `a\|b,c` and `a,b\|c` collide. |
| Translator.SelectProvider | Chrome_Extension/scripts/utils/translator.js:245-272 | The switch fails exactly for Papago without key or secret, DeepL without key, or an unknown engine, each with its own message. Google uses the Apps Script provider when the key contains `script.google.com`. |
| Translator.FallbackOf | Chrome_Extension/scripts/utils/translator.js:284-287 | The retry keeps text and languages and asks for Google with no credentials. |
| Translator.Route | Chrome_Extension/scripts/utils/translator.js:224-291 | Blank text gives `''` with no cache access and no call. A cache hit returns the stored text with no call. At most one call per engine tried (≤1 for Google, ≤2 otherwise). The log only grows. A failure leaves the cache unchanged. |
| Translator.GoogleFailurePropagates | Chrome_Extension/scripts/utils/translator.js:284-289 | With engine Google, a failing provider call is the result; there is no retry and the cache is untouched. |
| Translator.MissingCredentialsFallBack | Chrome_Extension/scripts/utils/translator.js:257-287 | A non-Google engine that throws before any call falls back once to public Google. Its result is cached under the Google key, or a failure is returned with the cache unchanged. |
| Translator.DirectSuccessCached | Chrome_Extension/scripts/utils/translator.js:250-280 | On a cache miss, when the chosen provider answers, the result is its text, stored under the request's own key, and exactly that one call is logged. |
| Translator.ProviderFailureFallsBack | Chrome_Extension/scripts/utils/translator.js:281-289 | When a credentialed Papago or DeepL call fails, that call is logged and the request is routed again as Google. A Google cache hit then answers with no further call. Otherwise exactly one public Google call follows, and its text is stored under the Google key or its error is returned with the cache unchanged. |
| Translator.FallbackLeavesEngineKeyEmpty | Chrome_Extension/scripts/utils/translator.js:275-289 | After a failed first attempt, the original engine's key is never filled, so the next identical request tries that engine again. |
| Translator.RepeatIsCacheHit | Chrome_Extension/scripts/utils/translator.js:230-275 | Once a Google request succeeds, repeating it returns the same text and calls no provider. |
| Translator.RouteBundled | Chrome_Extension/scripts/content-bundle.js:498-518 | The bundled `translate` keeps the blank short cut and the cache hit, and makes at most one call, always to public Google. |
| Translator.BundledIgnoresCredentials | Chrome_Extension/scripts/content-bundle.js:503-514 | In the bundle, requests differing only in options get the same result and the same provider call; the engine only chooses the cache key. |
| Translator.BundleDropsEngineChoice | Chrome_Extension/scripts/content-bundle.js:511-511 | A Papago request with credentials calls Papago in the module but Google in the bundle. |
| Translator.TranslatorService.constructor | Chrome_Extension/scripts/utils/translator.js:47 | Module load creates a fresh empty cache of size 100 and an empty call log. |
| Translator.TranslatorService.Translate | Chrome_Extension/scripts/utils/translator.js:224-291 | Result, cache and call log are those of `Route`. |
| Translator.TranslatorService.TranslateBundled | Chrome_Extension/scripts/content-bundle.js:498-518 | Result, cache and call log are those of `RouteBundled`. |
| Translator.TranslatorService.ClearCache | Chrome_Extension/scripts/utils/translator.js:306 | Empties the cache and keeps the call log. |
| Translator.TranslatorService.GetCacheSize | Chrome_Extension/scripts/utils/translator.js:311 | The number of cached entries, within the size bound. |
| Translator.PapagoCodeIsIdentity | Chrome_Extension/scripts/utils/translator.js:121-136 | Papago's table maps every code to itself. |
| Translator.PapagoRequestOf | Chrome_Extension/scripts/utils/translator.js:121-148 | Papago receives the source, target and text that `translate` was given. |
| Translator.DeepLAutoBecomesAUTO | Chrome_Extension/scripts/utils/translator.js:170-184 | `auto` maps to `''`, and `\|\|` then replaces it by `AUTO`. |
| Translator.DeepLAsWrittenSendsAUTO | Chrome_Extension/scripts/utils/translator.js:170-199 | As written, a request with source `auto` carries `source_lang=AUTO`. |
| Translator.DeepLSourceCode | Chrome_Extension/scripts/utils/translator.js:184-199 | Corrected: no source language exactly for `auto` or none; otherwise the mapped code. |
| Translator.DeepLRequestOf | Chrome_Extension/scripts/utils/translator.js:184-199 | Corrected request: `source_lang` is left out exactly for automatic detection and is otherwise as written. The free endpoint is used exactly when the key contains `free`. The target is mapped and the text and key are passed through. |
| Translator.GoogleReplyText | Chrome_Extension/scripts/utils/translator.js:63-75 | A reply without `data[0]` fails; otherwise the text is the join of its segments. |
| Translator.JoinSegmentsAppend | Chrome_Extension/scripts/utils/translator.js:66-73 | Joining is segment by segment: the join of a + b is join(a) + join(b). |
| Translator.JoinSegmentsSkipsMissing | Chrome_Extension/scripts/utils/translator.js:66-73 | Missing and empty segments contribute nothing (`filter(Boolean)`). |
| Translator.Tracked | Chrome_Extension/scripts/utils/translator.js:338-350 | `track(e, n)` on day d adds exactly n to the (e, d) counter and changes no other counter. A missing counter reads as 0. |
| Translator.TrackAdds | Chrome_Extension/scripts/utils/translator.js:338-350 | Two `track` calls for the same engine and day equal one call with the sum. |
| Translator.UsageTracker.constructor | Chrome_Extension/scripts/utils/translator.js:319-321 | The usage table starts empty. |
| Translator.UsageTracker.Track | Chrome_Extension/scripts/utils/translator.js:338-350 | The table becomes `Tracked` of the old one. |
| Translator.UsageTracker.GetUsage | Chrome_Extension/scripts/utils/translator.js:353-358 | The counter for engine and date, 0 when missing. |
| Text.TrimEmptyIffBlank | Chrome_Extension/scripts/utils/translator.js:225 | `s.trim()` is empty exactly when `s` is all whitespace. |
| Stt.NewEngine | All-Extension_App/Chrome_Extension/scripts/utils/stt.js:15-32 | A new engine is idle, uninitialized, with no attempts. Auto-restart is on unless `autoRestart` is explicitly `false`. |
| Stt.StartStep | All-Extension_App/Chrome_Extension/scripts/utils/stt.js:176-195 | `start()` throws only when no recognizer exists and the browser lacks one. While recognizing it is a no-op. Otherwise the engine is initialized, with restart flag and counter unchanged. |
| Stt.ErrorClassification | All-Extension_App/Chrome_Extension/scripts/utils/stt.js:119-160 | `no-speech` and `aborted` report nothing; every other code reports exactly one error. Only `not-allowed` turns auto-restart off. Nothing else changes. |
| Stt.RestartsBetweenStarts | All-Extension_App/Chrome_Extension/scripts/utils/stt.js:95-116 | Between `onstart` signals, restarts scheduled equal the attempts counted and never exceed 5. |
| Stt.RestartOffIsFinal | All-Extension_App/Chrome_Extension/scripts/utils/stt.js:110-114 | Once auto-restart is off, no event turns it back on and no restart is ever scheduled. |
| Stt.StopAndAbort | All-Extension_App/Chrome_Extension/scripts/utils/stt.js:200-222 | `stop()` is a complete no-op unless recognizing; otherwise it turns restart off and issues `recognition.stop()`. `abort()` turns restart off and ends the session at once. |
| Stt.StopDoesNotCancelPendingRestart | All-Extension_App/Chrome_Extension/scripts/utils/stt.js:102-116 | After `onend`, `stop()` finds the engine idle and does nothing, so the pending 100 ms timer still restarts recognition. |
| Stt.SpeechRecognitionEngine.constructor | All-Extension_App/Chrome_Extension/scripts/utils/stt.js:15-32 | The object's fields are `NewEngine`. |
| Stt.SpeechRecognitionEngine.Start | All-Extension_App/Chrome_Extension/scripts/utils/stt.js:176-195 | Throws with the unsupported message exactly when `StartStep` fails, leaving the state unchanged; otherwise the state is `StartStep`'s. |
| Stt.SpeechRecognitionEngine.Stop | All-Extension_App/Chrome_Extension/scripts/utils/stt.js:200-208 | The state becomes `StopStep` of the old one. |
| Stt.SpeechRecognitionEngine.Abort | All-Extension_App/Chrome_Extension/scripts/utils/stt.js:213-222 | The state becomes `AbortStep` of the old one. |
| Stt.SpeechRecognitionEngine.SetLanguage | All-Extension_App/Chrome_Extension/scripts/utils/stt.js:227-233 | The state becomes `SetLanguageStep` of the old one. |
| Stt.SpeechRecognitionEngine.HandleStart | All-Extension_App/Chrome_Extension/scripts/utils/stt.js:95-99 | The `onstart` transition. |
| Stt.SpeechRecognitionEngine.HandleEnd | All-Extension_App/Chrome_Extension/scripts/utils/stt.js:102-116 | The `onend` transition. |
| Stt.SpeechRecognitionEngine.HandleError | All-Extension_App/Chrome_Extension/scripts/utils/stt.js:119-160 | The `onerror` transition. |
| Stt.SpeechRecognitionEngine.FireRestartTimer | All-Extension_App/Chrome_Extension/scripts/utils/stt.js:114 | The 100 ms timer fires and calls `start()`. |
| Stt.SpeechRecognitionEngine.IsActive | All-Extension_App/Chrome_Extension/scripts/utils/stt.js:238-240 | Returns `isRecognizing`. |
| Stt.PushHistory | All-Extension_App/Chrome_Extension/scripts/utils/stt.js:352-366 | The history after `addToHistory` is the newest 100 of old + [r]: overflow drops the oldest entry. |
| Stt.CollapseNoRepeat | All-Extension_App/Chrome_Extension/scripts/utils/stt.js:328-337 | The finals kept never repeat the transcript kept just before them, including the previous batch's last final. |
| Stt.CollapseLast | All-Extension_App/Chrome_Extension/scripts/utils/stt.js:328-337 | The last transcript kept equals the batch's last final transcript. |
| Stt.HandleFromFinals | All-Extension_App/Chrome_Extension/scripts/utils/stt.js:321-343 | For the loop from any point: appended finals are the de-duplicated finals, `hasNew` tracks non-emptiness, the last final is updated, and the history gains exactly the kept finals. |
| Stt.HandleFromReturnsKept | All-Extension_App/Chrome_Extension/scripts/utils/stt.js:321-343 | The finals the loop returns are the input's finals with repeats of the previous final dropped, and `hasNew` holds exactly when any were returned. |
| Stt.HandleFromKeepsLastFinals | All-Extension_App/Chrome_Extension/scripts/utils/stt.js:321-343 | The remembered final is the last kept one, and the history is the old history plus the kept finals, cut to its newest 100 entries. |
| Stt.HandleFromInterims | All-Extension_App/Chrome_Extension/scripts/utils/stt.js:321-343 | For the loop from any point: every interim is appended in input order, and `lastInterimTranscript` becomes the last one's. |
| Stt.HandleResultsSpec | All-Extension_App/Chrome_Extension/scripts/utils/stt.js:321-350 | `handleResults`: `final` is the de-duplicated finals, `hasNew` iff `final` is non-empty, `interim` is all interims in order. The last transcripts are updated, and the history is the newest 100 of old + kept. |
| Stt.RepeatedFinalDropped | All-Extension_App/Chrome_Extension/scripts/utils/stt.js:328-337 | Across two batches, a repeated `hello` is returned once, and `world` after it is new. |
| Stt.HistorySlice | All-Extension_App/Chrome_Extension/scripts/utils/stt.js:368-373 | `slice(-limit)`: the last min(limit, len) entries for limit > 0, the whole history for 0, the front dropped for negative limits. |
| Stt.STTResultHandler.constructor | All-Extension_App/Chrome_Extension/scripts/utils/stt.js:311-316 | Empty history and empty last transcripts. |
| Stt.STTResultHandler.AddToHistory | All-Extension_App/Chrome_Extension/scripts/utils/stt.js:352-366 | The history becomes `PushHistory` of the old one; the last transcripts are unchanged. |
| Stt.STTResultHandler.HandleResults | All-Extension_App/Chrome_Extension/scripts/utils/stt.js:321-350 | The loop computes `HandleBatch`, whose meaning is `HandleResultsSpec`. |
| Stt.STTResultHandler.GetHistory | All-Extension_App/Chrome_Extension/scripts/utils/stt.js:368-373 | Returns `HistorySlice(history, limit)`. |
| Stt.STTResultHandler.ClearHistory | All-Extension_App/Chrome_Extension/scripts/utils/stt.js:375-382 | History, last final and last interim are all reset to empty. |
| Stt.STTResultHandler.GetLastFinal | All-Extension_App/Chrome_Extension/scripts/utils/stt.js:384-389 | Returns the last final transcript. |
| Stt.STTResultHandler.GetLastInterim | All-Extension_App/Chrome_Extension/scripts/utils/stt.js:391-393 | Returns the last interim transcript. |
| Stt.LanguageCodeSpec | All-Extension_App/Chrome_Extension/scripts/utils/stt.js:246-274 | A table key maps to its entry; anything else maps to itself. |
| Stt.BundleLanguageCodeSpec | Chrome_Extension/scripts/content-bundle.js:169-186 | The bundle agrees with stt.js on its 12 codes and returns every other code unchanged. |
| Stt.BundleLacksVietnamese | Chrome_Extension/scripts/content-bundle.js:169-186 | `vi` reaches the bundled recognizer as `vi`, but stt.js maps it to `vi-VN`. |
| Stt.ValidateSttOptions | All-Extension_App/Chrome_Extension/scripts/utils/stt.js:290-305 | Valid iff speech is supported and the language is absent, `auto` or supported; valid iff no errors. An absent or `auto` language never adds a language error. |
| Platform.ConfigOf | Chrome_Extension/scripts/utils/platform.js:134-136 | A configuration exactly for ids in the table, and then that id's entry; otherwise `null`. |
| Platform.ConfigCases | Chrome_Extension/scripts/utils/platform.js:19-136 | Each of the six ids gets its own entry; every other id, `unknown` included, gets `null`. |
| Platform.FirstMatch | Chrome_Extension/scripts/utils/platform.js:119-128 | The loop returns the id of the first entry whose pattern matches, and nothing exactly when none matches. |
| Platform.YouTubeByBadge | Chrome_Extension/scripts/utils/platform.js:110-128 | A watch URL is `youtube_live` iff the live badge is present, else `youtube`. Only watch URLs are ever YouTube or YouTube Live. |
| Platform.LiveUrlUndetected | Chrome_Extension/scripts/utils/platform.js:119-128 | As written, `https://www.youtube.com/live/abc` is `unknown`; the corrected detection gives `youtube_live`. |
| Platform.WatchIsLivePattern | Chrome_Extension/scripts/utils/platform.js:22-32 | Every watch URL also matches the `youtube_live` pattern. |
| Platform.DetectPlatformAsWrittenSound | Chrome_Extension/scripts/utils/platform.js:106-129 | As written, a detected id has a configuration whose URL pattern matches the page, and `unknown` has none. |
| Platform.DetectPlatformCorrection | Chrome_Extension/scripts/utils/platform.js:106-129 | The correction changes only `unknown` into `youtube_live`. A URL is YouTube or YouTube Live exactly when it matches the `youtube_live` pattern. |
| Platform.DetectPlatformSound | Chrome_Extension/scripts/utils/platform.js:106-136 | A detected id has a configuration whose pattern matches the URL; `unknown` only when no pattern matches. |
| Platform.SubtitlePosition | Chrome_Extension/scripts/utils/platform.js:162-168 | The default position for ids without a configuration, the configured one otherwise. |
| Platform.SubtitleBottoms | Chrome_Extension/scripts/utils/platform.js:162-168 | Every position is centred. The bottom offset is 80px on Twitch, 90px on SOOP/CHZZK, 120px on niconico and 100px otherwise. |
| Platform.ReplaceAbsent | Chrome_Extension/scripts/utils/platform.js:179-180 | Replacing a key that does not occur, ignoring case, changes nothing. |
| Platform.ReplaceAllRemoves | Chrome_Extension/scripts/utils/platform.js:179-180 | After replace-all with a text sharing no character with the key, no occurrence of the key remains. |
| Platform.TranslateSlang | Chrome_Extension/scripts/utils/platform.js:173-175 | Ids without a configuration or without a slang table return the text unchanged. |
| Platform.ApplySlangAbsent | Chrome_Extension/scripts/utils/platform.js:177-183 | A text in which no dictionary key occurs, ignoring case, comes back unchanged. |
| Platform.TranslateSlangAbsent | Chrome_Extension/scripts/utils/platform.js:173-184 | The same for `translateSlang` on any configured platform. |
| Platform.WwwwNeverApplies | Chrome_Extension/scripts/utils/platform.js:178-181 | After the `www` step no `www` run is left, so the `wwww` step finds nothing and changes nothing. |
| Platform.FourWs | Chrome_Extension/scripts/utils/platform.js:178-181 | Order matters: `wwww` becomes `ㅋㅋㅋw`. |
| Platform.NiconicoSlangApplied | Chrome_Extension/scripts/utils/platform.js:173-184 | On niconico the table is folded in `Object.entries` order. The integer-like key `888` comes first, then `www`, `wwww`, `草` and `うぽつ` as declared. |
| Platform.KappaAnyCase | Chrome_Extension/scripts/utils/platform.js:178-181 | The `gi` flag makes `kappa` rewrite like `Kappa`. |
| Content.LoadedSettingsDefaults | Chrome_Extension/scripts/content.js:63-80 | Empty storage gives the nine defaults, and a non-empty stored string is kept. `showOriginal`/`enableCache` are off only when stored as `false`. |
| Content.NewPage | Chrome_Extension/scripts/content.js:14-25 | A new content script is not capturing, has no settings and no DOM, and satisfies the page invariant. |
| Content.AtMostOneVisible | Chrome_Extension/scripts/content.js:229-260 | Under the page invariant at most one subtitle is visible, and it is `currentSubtitle`. |
| Content.SubtitleLines | Chrome_Extension/scripts/content.js:237-257 | A translated line iff `translated` is non-empty. A text line iff there is no translation but an original. An original line iff `showOriginal` and an original. Nothing else. |
| Content.CreateOverlayStep | Chrome_Extension/scripts/content.js:278-297 | Idempotent when an overlay exists. Otherwise one overlay is appended with the platform class, the platform's position and (not in the bundle) the `data-size`, and it becomes the container. |
| Content.RemoveOverlayStep | Chrome_Extension/scripts/content.js:302-308 | No container and no current subtitle remain, no subtitle is visible, and nodes and timers are untouched. |
| Content.DisplayStep | Chrome_Extension/scripts/content.js:223-273 | Exactly one node is added; capture flag, settings, translator, engine and handler are unchanged; the page invariant is kept. |
| Content.DisplayAppends | Chrome_Extension/scripts/content.js:234-260 | The new node becomes current, with `SubtitleLines` as its lines and the given finality. |
| Content.DisplayReplacesSubtitle | Chrome_Extension/scripts/content.js:228-273 | The new node is the only visible one. A fade timer of 3000 ms is added exactly for a final. No notification or message is sent. |
| Content.FireTimerStep | Chrome_Extension/scripts/content.js:263-272 | A timer firing keeps the page invariant. |
| Content.FireTimerEffect | Chrome_Extension/scripts/content.js:263-272 | A fade marks its node and schedules removal 500 ms later. A removal detaches the node, and does nothing to an already detached node. No other node, and never an interim, is touched. |
| Content.RecognitionNotes | Chrome_Extension/scripts/content.js:175-178 | One error notification per recognition error, in order, with the `음성 인식 오류:` prefix. This covers the errors of the first start and of every later engine event (`EngineEventStep`). |
| Content.EngineEventStep | Chrome_Extension/scripts/content.js:174-184 | Every recognizer call or callback steps the page's engine (`onstart`, `onend`, `onerror`, the restart timer). Each error the engine passes to `onError` is appended to the notifications, in order. Nothing else on the page changes. |
| Content.EngineErrorNotified | Chrome_Extension/scripts/content.js:175-178 | An `onerror` during a capture shows exactly the engine's classified message. `no-speech` and `aborted` show nothing. Only `not-allowed` ends automatic restart. |
| Content.StartedEngine | Chrome_Extension/scripts/content.js:146-187 | A good start leaves a fresh initialized engine. It has auto-restart on, one `recognition.start()`, no errors, and is not yet recognizing. |
| Content.StopAfterStartedStopsEngine | Chrome_Extension/scripts/content.js:313-320 | After `onstart`, `stopCapture` releases an engine with auto-restart off that has issued `recognition.start()` and then `recognition.stop()`. |
| Content.StopBeforeStartedLeavesEngine | Chrome_Extension/scripts/content.js:313-320 | Before `onstart`, the guarded `stop()` does nothing. The released engine keeps auto-restart on and has issued only its start. |
| Content.StartRecognitionStep | Chrome_Extension/scripts/content.js:146-187 | Succeeds iff settings are loaded and speech is supported; then the engine is initialized with auto-restart on. Without settings it fails with the `TypeError` and changes nothing. |
| Content.StartCaptureStep | Chrome_Extension/scripts/content.js:87-141 | While capturing, nothing changes. Success iff stream, settings and recognizer all succeed; then capture is on, with stream, audio, engine and overlay present and exactly one `captureStarted`. A failure leaves capture off, with exactly one error notification and one `captureError`. |
| Content.StopCaptureStep | Chrome_Extension/scripts/content.js:313-345 | Capture off. The engine, audio, stream, overlay and current subtitle are all gone. The released engine is the old one after `stop()`. Exactly one `captureStopped` is sent and one notification shown. |
| Content.Translated | Chrome_Extension/scripts/content.js:192-218 | Translating changes only the translator's cache and log. |
| Content.TranslateAndDisplayStep | Chrome_Extension/scripts/content.js:192-218 | Never throws: always exactly one new subtitle; settings, handler and capture flag unchanged. |
| Content.TranslateFailureShown | Chrome_Extension/scripts/content.js:195-217 | On failure the subtitle shows the marker `[번역 실패: msg]` beside the text as heard. On success it shows the translation of the slang-substituted text. Its exact lines are `SubtitleLines` of the slang-substituted text and the translation on success, and of the text as heard and the marker on failure. |
| Content.TranslateAll | Chrome_Extension/scripts/content.js:161-165 | The awaited loop adds one subtitle per final and keeps the settings, the handler and the capture flag. What each subtitle shows is `TranslateAllCaptions`. |
| Content.CaptionStep | Chrome_Extension/scripts/content.js:192-218 | One `translateAndDisplay` as lines and translator state. The translator's call log only grows at its end. |
| Content.Captions | Chrome_Extension/scripts/content.js:161-165 | One caption per final. Each final is routed from the translator state the previous one left, so the call log grows at its end in the order of the finals. |
| Content.CaptionsAppend | Chrome_Extension/scripts/content.js:161-165 | Captioning two batches one after the other equals captioning them as one batch. |
| Content.FirstCaption | Chrome_Extension/scripts/content.js:192-218 | One awaited `translateAndDisplay(transcript, true)` appends a final subtitle with `CaptionStep`'s lines and leaves the translator where `CaptionStep` does. Earlier subtitles keep their lines and finality. |
| Content.TranslatedCaption | Chrome_Extension/scripts/content.js:192-218 | The texts handed to `displaySubtitle` give `CaptionStep`'s lines. |
| Content.TranslateAllCaptions | Chrome_Extension/scripts/content.js:161-165 | Subtitle `\|p.nodes\| + i` is final and shows the lines of `finals[i]`, in order, with slang substitution as `CaptionStep` gives. Earlier subtitles keep their lines. The translator ends in the state `Captions` reaches, so its calls follow the order of the finals. |
| Content.ShownFinals | Chrome_Extension/scripts/content.js:161-165 | Finals are shown only when `hasNew`, one subtitle each. |
| Content.ShowProcessed | Chrome_Extension/scripts/content.js:157-172 | Showing a batch keeps the page invariant and the handler state. |
| Content.ShowProcessedNodes | Chrome_Extension/scripts/content.js:157-172 | A batch adds one subtitle per new final, then one for the latest interim. |
| Content.ShowProcessedLive | Chrome_Extension/scripts/content.js:168-171 | The latest interim is shown after the finals, untranslated and unsubstituted, as the current non-final subtitle. |
| Content.OnResultStep | Chrome_Extension/scripts/content.js:157-172 | The `onResult` callback keeps the page invariant. |
| Content.LoadSettingsStep | Chrome_Extension/scripts/content.js:63-80 | The settings become `LoadedSettings` of storage. |
| Content.Identified | Chrome_Extension/scripts/content.js:34-36 | The platform id is what `detectPlatform` as written returns, so a `youtube.com/live/` page is `unknown`. A configuration exists iff the id is not `unknown`. |
| Content.InitStep | Chrome_Extension/scripts/content.js:30-56 | Resolves true iff the as-written detection knows the platform and speech is supported. Settings are loaded exactly when the platform is known. A handler is created only on success; the unsupported-browser notification appears only then. |
| Content.UnknownPlatformCannotStart | Chrome_Extension/scripts/content.js:87-147 | On a page the as-written detection calls unknown, `init` resolves false without settings, so a later `startCapture` fails with the `TypeError`. |
| Content.LivePageCannotStart | Chrome_Extension/scripts/content.js:34-40 | On `https://www.youtube.com/live/abc`, `init` resolves false and the platform is `unknown`. No settings are loaded, and a later `startCapture` fails with the `TypeError`. |
| Content.HandleMessageStep | Chrome_Extension/scripts/content.js:379-409 | `startCapture` without a stream id is ignored and unanswered. The others answer as their operation resolves. `checkWebSpeech` is answered only by the bundle. Unknown actions get `Unknown action` and change nothing. |
| Content.BeforeUnloadStep | Chrome_Extension/scripts/content.js:412-416 | Leaves capture off, stopping it (one `captureStopped`) only if it was on. |
| Content.RestartAfterStop | Chrome_Extension/scripts/content.js:313-345 | After `stopCapture`, a start under good conditions succeeds again with a fresh overlay. |
| Content.LiveStreamTranslator.constructor | Chrome_Extension/scripts/content.js:14-25 | The object's state is `NewPage`. |
| Content.LiveStreamTranslator.ShowNotification | Chrome_Extension/scripts/content.js:350-362 | One notification is appended. |
| Content.LiveStreamTranslator.LoadSettings | Chrome_Extension/scripts/content.js:63-80 | The new state is `LoadSettingsStep`. |
| Content.LiveStreamTranslator.Init | Chrome_Extension/scripts/content.js:30-56 | Result and new state are `InitStep`'s, with the as-written detection. |
| Content.LiveStreamTranslator.Identify | Chrome_Extension/scripts/content.js:34-36 | The new state is `Identified`: the id from `detectPlatform` as written. |
| Content.LiveStreamTranslator.CreateOverlay | Chrome_Extension/scripts/content.js:278-297 | The new state is `CreateOverlayStep`. |
| Content.LiveStreamTranslator.RemoveOverlay | Chrome_Extension/scripts/content.js:302-308 | The new state is `RemoveOverlayStep`. |
| Content.LiveStreamTranslator.DisplaySubtitle | Chrome_Extension/scripts/content.js:223-273 | The new state is `DisplayStep`. |
| Content.LiveStreamTranslator.ReplaceSubtitle | Chrome_Extension/scripts/content.js:229-273 | The current node is detached and the new one appended and scheduled. |
| Content.LiveStreamTranslator.FireTimer | Chrome_Extension/scripts/content.js:263-272 | The new state is `FireTimerStep`. |
| Content.LiveStreamTranslator.StartSpeechRecognition | Chrome_Extension/scripts/content.js:146-187 | Outcome and new state are `StartRecognitionStep`'s. |
| Content.LiveStreamTranslator.ReportCaptureFailure | Chrome_Extension/scripts/content.js:129-140 | One error notification, one `captureError`, and the error is rethrown. |
| Content.LiveStreamTranslator.StartCapture | Chrome_Extension/scripts/content.js:87-141 | Outcome and new state are `StartCaptureStep`'s. |
| Content.LiveStreamTranslator.TurnOn | Chrome_Extension/scripts/content.js:118-126 | Overlay, flag, `captureStarted` and the success notification. |
| Content.LiveStreamTranslator.StopCapture | Chrome_Extension/scripts/content.js:313-345 | The new state is `StopCaptureStep`. After `onstart` that stop ends auto-restart and issues `recognition.stop()` (`StopAfterStartedStopsEngine`). |
| Content.LiveStreamTranslator.ReleaseCapture | Chrome_Extension/scripts/content.js:316-333 | The engine is released as it is after `stop()`, and the audio and stream are closed. |
| Content.LiveStreamTranslator.HandleEngineEvent | Chrome_Extension/scripts/content.js:174-184 | The new state is `EngineEventStep`. |
| Content.LiveStreamTranslator.TranslateAndDisplay | Chrome_Extension/scripts/content.js:192-218 | The new state is `TranslateAndDisplayStep`. |
| Content.LiveStreamTranslator.Translate | Chrome_Extension/scripts/content.js:193-217 | The texts to show and the new translator state are `Translated`'s. |
| Content.LiveStreamTranslator.OnResult | Chrome_Extension/scripts/content.js:157-172 | The new state is `OnResultStep`. |
| Content.LiveStreamTranslator.ShowResults | Chrome_Extension/scripts/content.js:161-171 | The new state is `ShowProcessed`. |
| Content.LiveStreamTranslator.TranslateFinals | Chrome_Extension/scripts/content.js:161-165 | The `for … of` loop computes `TranslateAll`. |
| Content.LiveStreamTranslator.HandleMessage | Chrome_Extension/scripts/content.js:379-409 | Response and new state are `HandleMessageStep`'s. |
| Content.LiveStreamTranslator.BeforeUnload | Chrome_Extension/scripts/content.js:412-416 | The new state is `BeforeUnloadStep`. |
| Background.DetectedIsSupported | All-Extension_App/Chrome_Extension/scripts/background.js:119-129 | Every page the corrected detection recognises is accepted by `isSupportedPlatform`. So is every page the content script recognises, since that is a subset. |
| Background.HomePageAccepted | All-Extension_App/Chrome_Extension/scripts/background.js:119-129 | `isSupportedPlatform` accepts any youtube.com path: the YouTube home page is accepted, although both detections, and so the content script, call it `unknown`. |
| Background.StartCaptureStep | All-Extension_App/Chrome_Extension/scripts/background.js:53-75 | The tab is set to `true` iff both the stream id and the message succeed; on failure the map and icon are unchanged. A failing stream id sends nothing. Other tabs are untouched. |
| Background.StopCaptureStep | All-Extension_App/Chrome_Extension/scripts/background.js:80-95 | The stop message is always sent. The entry is deleted and the icon reset only if it succeeds; a failure is swallowed. Other tabs are untouched. |
| Background.OnClickedStep | All-Extension_App/Chrome_Extension/scripts/background.js:17-48 | Unsupported URL: only a notification. A capturing tab is stopped. An idle tab is started, and a failure adds exactly one error notification. |
| Background.OnRemovedStep | All-Extension_App/Chrome_Extension/scripts/background.js:134-139 | Closing a tab deletes its entry and nothing else. |
| Background.OnMessageStep | All-Extension_App/Chrome_Extension/scripts/background.js:144-179 | `captureStarted` sets the sender's tab; `captureStopped`/`captureError` delete it. `getSettings` replies with storage; an unknown action is refused. No other tab changes. |
| Background.StartCaptureSend | All-Extension_App/Chrome_Extension/scripts/background.js:53-65 | Before the `await` resumes, the request is sent exactly when a stream id was obtained, and no tab is marked. |
| Background.StartCaptureResume | All-Extension_App/Chrome_Extension/scripts/background.js:61-69 | Any delivered reply marks the tab and turns its icon on. An undelivered message changes nothing. |
| Background.StartCaptureHalves | All-Extension_App/Chrome_Extension/scripts/background.js:53-75 | With nothing arriving during the `await`, the two halves compose to `StartCaptureStep`. |
| Background.ErrorBeforeReplyMarksTab | All-Extension_App/Chrome_Extension/scripts/background.js:53-75 | A content-side failure reports `captureError` and then replies `{success: false}`. The error removes the tab's entry, then the resumed start marks it again, so the tab ends capturing with icons off then on. |
| Background.ClickTwice | All-Extension_App/Chrome_Extension/scripts/background.js:17-95 | Two clicks on an idle supported tab start then stop capture and leave the registry as it was. |
| Background.InstalledMatchesDefaults | All-Extension_App/Chrome_Extension/scripts/background.js:184-201 | The install defaults load as the content script's defaults, keeping any stored credentials. |
| Background.ServiceWorker.constructor | All-Extension_App/Chrome_Extension/scripts/background.js:14 | An empty registry. |
| Background.ServiceWorker.UpdateIcon | All-Extension_App/Chrome_Extension/scripts/background.js:100-114 | One icon update is recorded; nothing else changes. |
| Background.ServiceWorker.StartCapture | All-Extension_App/Chrome_Extension/scripts/background.js:53-75 | Outcome and new registry are `StartCaptureStep`'s; only `true` is stored. |
| Background.ServiceWorker.StopCapture | All-Extension_App/Chrome_Extension/scripts/background.js:80-95 | The new registry is `StopCaptureStep`'s. |
| Background.ServiceWorker.OnClicked | All-Extension_App/Chrome_Extension/scripts/background.js:17-48 | The new registry is `OnClickedStep`'s. |
| Background.ServiceWorker.OnRemoved | All-Extension_App/Chrome_Extension/scripts/background.js:134-139 | The new registry is `OnRemovedStep`'s. |
| Background.ServiceWorker.OnMessage | All-Extension_App/Chrome_Extension/scripts/background.js:144-179 | Response and new registry are `OnMessageStep`'s. |
| Popup.IndexOf | Chrome_Extension/scripts/popup.js:191 | `indexOf`: the first index holding the value, or -1 exactly when it is absent. |
| Popup.SliderToPercent | Chrome_Extension/scripts/popup.js:178-185 | Always a `sizeMap` entry: slider i gives `sizeMap[i]`, and anything else gives `'100'`. |
| Popup.PercentToSlider | Chrome_Extension/scripts/popup.js:178-193 | Always a slider index: a listed percent maps to its index (compared as `String`), and anything else to 2. |
| Popup.SliderRoundTrip | Chrome_Extension/scripts/popup.js:178-193 | For every index 0..6, as number or string, `percentToSlider(sliderToPercent(i)) == i`. |
| Popup.PercentRoundTrip | Chrome_Extension/scripts/popup.js:178-193 | For every listed percent, `sliderToPercent(percentToSlider(p)) == p`. |
| Popup.Defaults | Chrome_Extension/scripts/popup.js:183-193 | Out-of-range indices give `'100'`, unknown percents give 2, and the two defaults agree. |
| Popup.NumberOrString | Chrome_Extension/scripts/popup.js:191 | The number 150 and the string `'150'` give the same index, 3. |
| Popup.ApiKeyVisibility | Chrome_Extension/scripts/popup.js:291-304 | Google hides both fields, Papago shows both, DeepL shows only the key, any other engine changes nothing; no other field changes. |
| Popup.ShownCredentialsAreRead | Chrome_Extension/scripts/popup.js:291-304 | The fields shown are those the router needs: Papago needs both, DeepL ignores the secret. Google hides the key field, yet the router reads it as an Apps Script URL. |
| Popup.LoadedShows | Chrome_Extension/scripts/popup.js:220-252 | The form shows the content script's `LoadedSettings`, a valid slider index and `size%`. A listed size round-trips through the slider. |
| Popup.SavedShape | Chrome_Extension/scripts/popup.js:258-268 | Every field is stored; the credentials are trimmed and the size is a listed percent. |
| Popup.SavedTrimmed | Chrome_Extension/scripts/popup.js:262-263 | The stored credentials are already trimmed. |
| Popup.LoadThenSave | Chrome_Extension/scripts/popup.js:220-268 | Loading then saving stores the loaded settings, normalized: unlisted size to `'100'`, credentials trimmed. |
| Popup.SaveThenLoad | Chrome_Extension/scripts/popup.js:258-268 | The content script loads back exactly what the popup saved, with trimmed credentials and the slider's percent. |
| Popup.StoredRoundTrip | Chrome_Extension/scripts/content.js:63-80 | Settings stored with non-empty strings load back unchanged. |
| Popup.ResetIsDefault | Chrome_Extension/scripts/popup.js:372-382 | The reset settings load as the built-in defaults and are their own normal form. |
| Popup.SaveStep | Chrome_Extension/scripts/popup.js:257-286 | The value stored and returned is `Saved` of the form. |
| Popup.ResetStep | Chrome_Extension/scripts/popup.js:367-408 | Unconfirmed: nothing changes. Confirmed: storage holds the defaults, the cache is removed and the form is reloaded from the defaults. |
| Popup.ResetShowsDefaults | Chrome_Extension/scripts/popup.js:367-408 | After reset the form shows Google with both credential fields hidden, slider 2 and `100%`. |
| Popup.FilledDefaults | Chrome_Extension/scripts/popup.js:220-244 | Filling from the defaults selects Google, slider 2 and `100%`. |
| Popup.ResetThenSave | Chrome_Extension/scripts/popup.js:367-408 | Saving right after a reset stores exactly the reset defaults. |
| Popup.PopupPage.constructor | Chrome_Extension/scripts/popup.js:136-163 | The page starts with the given form, storage and cache flag. |
| Popup.PopupPage.UpdateApiKeyVisibility | Chrome_Extension/scripts/popup.js:291-304 | The form becomes `ApiKeyVisibility` of the old form. |
| Popup.PopupPage.LoadSettings | Chrome_Extension/scripts/popup.js:220-252 | The form becomes `Loaded` from storage. |
| Popup.PopupPage.OnSliderInput | Chrome_Extension/scripts/popup.js:514-517 | The size label becomes the slider's percent plus `%`. |
| Popup.PopupPage.SaveSettings | Chrome_Extension/scripts/popup.js:257-286 | Returns and stores `Saved` of the form, as `SaveStep`. |
| Popup.PopupPage.ResetSettings | Chrome_Extension/scripts/popup.js:367-408 | The new state is `ResetStep`. |

## Left out

- Network bodies of the providers (`fetch`, HTTP status, JSON parsing), in translator.js and content-bundle.js. Each provider is an oracle from the call to a text or an error message. The Google segment join and the Papago and DeepL request shaping are kept.
- `translateBatch`: `Promise.all` runs the translations concurrently against the shared cache, and the model has no interleavings. It is not modelled.
- Web Speech API objects, `getUserMedia`, `AudioContext`, and `chrome.*` messaging, storage, tab capture, notifications and icons. They are represented by their outcomes, passed as parameters: `CaptureEnv`, `ChromeEnv`, stored settings and the active tab. The popup's `confirm` is the `confirmed` parameter.
- Timers: the 100 ms restart and the 3000/500 ms fade and removal are explicit events. The notification and toast timers are not modelled; a notification is only recorded.
- DOM construction and styling:
  - the overlay's inline style beyond its position and size attribute;
  - the popup's `initI18n`, `switchTab`, `showHelp`, `showToast` text styling and `updateCacheStatus`;
  - `checkWebSpeechSupport`'s DOM text;
  - the popup's own cache-clearing button.
- The JavaScript RegExp engine. URL patterns are scheme/host/path prefix predicates. Slang keys contain no metacharacters, so replace-all is literal, case-insensitive and ASCII-folded; the keys are compiled unescaped.
- Confidence values, `Date.now()` timestamps and ISO-date derivation. The date and the timestamps are parameters.
- Console logging throughout, and `logPlatformInfo`, `findVideoElement` and `isLiveStreaming` of platform.js, which only query the DOM.
- Content.StartRecognitionStep: the content script passes `lang: undefined` for `auto`, and the object spread in the engine constructor then overwrites the defaulted `'auto'` with `undefined`. The model uses the empty language for both, which `init` treats alike.
- Background.OnMessageStep: a message from a sender without a tab (an undefined key) is not modelled; the sender's tab id is a parameter. `getSettings` reads storage asynchronously; the stored value is a parameter.
- Background.ServiceWorker.UpdateIcon: the icon paths and the title text are not modelled; only the (tab, capturing) call is recorded.
- Popup.SliderToPercent: slider values are the strings or numbers the range input produces. Non-index property names of the array (`"length"`) are not modelled.
- Platform.ConfigCases, Stt.LanguageCodeSpec and the Papago and DeepL `langMap[x] || …` lookups: the JavaScript objects also answer names inherited from `Object.prototype` (`constructor`, `toString`, …) with a function. The model's tables hold only their own keys, so such an id or language code is treated as unknown.
- Popup.LoadedShows: `sourceLang`, `targetLang`, `translationEngine` and `overlayPosition` are `<select>` controls, whose options are in popup.html, which is not part of this model. A stored value outside the options makes the browser's `.value` read `""`, but the model shows it as stored.
- Popup.LoadThenSave: for the same reason, such a value is saved back as stored, where the browser would save `""`.
- Translator.Route: provider replies are modelled as strings or errors. A reply without its text field would be cached as `undefined` at translator.js:275, and then `.substring` would throw at translator.js:277. The fields are Apps Script's `translatedText`/`text` at translator.js:107, Papago's `translatedText` at translator.js:156 and DeepL's `translations[0].text` at translator.js:214. Such a reply would break "a failure leaves the cache unchanged".
- Background.StartCaptureStep and Background.OnClickedStep are single steps across `await chrome.tabs.sendMessage`. The content script's `captureError`, which arrives before its `{success: false}` reply, cannot fall between them. The split is `StartCaptureSend` and `StartCaptureResume`. `ErrorBeforeReplyMarksTab` shows that this ordering leaves the tab marked capturing while the page is idle. The clicks as modelled end with the tab unmarked only when the message itself fails.
- Content.OnResultStep and Content.TranslateAndDisplayStep: each batch runs to completion as one step across its `await this.translateAndDisplay`. The engine does not await the async `onResult`, so batches can overlap. A `stopCapture` during a pending translation lets `displaySubtitle` re-create the overlay after the stop. Neither interleaving is modelled.
- Content.EngineEventStep: only events of the page's current engine are modelled. Callbacks of an engine that `stopCapture` has already released, such as its final `onend` or `onerror`, are not modelled, although its `onError` closure would still notify the page.
- stt.js is modelled from the All-Extension_App copy of the file; the bundle's copies of the engine, handler and cache share these models.

## Findings

| source | as written | input that shows it | evidently intended | confidence | as-written member | corrected member |
|---|---|---|---|---|---|---|
| Chrome_Extension/scripts/utils/translator.js:170-199 | `langMap['auto']` is `''`, so `langMap[sourceLang] \|\| sourceLang.toUpperCase()` yields `AUTO`, and `source_lang=AUTO` is appended | `translate('hello', 'auto', 'ko', {engine: 'deepl', apiKey: k})` | automatic detection leaves `source_lang` out, as the empty `auto` entry signals | high, not executed | Translator.DeepLAsWrittenSendsAUTO | Translator.DeepLRequestOf |
| Chrome_Extension/scripts/utils/platform.js:119-128 | the loop skips both YouTube entries, so the `(watch\|live)` pattern of `youtube_live` is never tested | `https://www.youtube.com/live/abc` gives `unknown` | a `youtube.com/live/…` page is detected as `youtube_live` | medium, not executed | Platform.LiveUrlUndetected | Platform.DetectPlatformCorrection |

The content script's model keeps the detection as written: `Content.Identified` and `Content.InitStep` use it. On a `youtube.com/live/` page the script stays disabled (`Content.LivePageCannotStart`). The corrected detection lives in `Platform` with its proved properties.
