/**
 * platform.js: the constant table of supported streaming sites, URL-based platform detection,
 * subtitle placement, and the per-platform slang rewriting applied before translation.
 * The URL regexes are anchored literal prefixes, modelled exactly as prefix tests; the slang
 * regexes are built from the table keys with the `gi` flags, and since no key contains a
 * RegExp metacharacter they are modelled as literal, case-insensitive replace-all.
 */
module Platform {
  import opened Wrappers
  import opened Text

  const YouTube := "youtube"
  const YouTubeLive := "youtube_live"
  const Twitch := "twitch"
  const Soop := "soop"
  const Chzzk := "chzzk"
  const Niconico := "niconico"
  const Unknown := "unknown"

  /**
   * `^https?:\/\/(host1|host2|…)(path1|path2|…)`, followed by one `\w` character when `needsWordChar`
   * (the `\w+` of the Twitch pattern: only its first character matters to an unanchored end).
   */
  datatype UrlPattern = UrlPattern(hosts: seq<string>, paths: seq<string>, needsWordChar: bool)

  datatype Position = Position(bottom: string, left: string, transform: string)

  datatype PlatformConfig = PlatformConfig(
    name: string,
    urlPattern: UrlPattern,
    position: Position,
    defaultLang: string,
    bufferSize: nat,
    slangDict: Option<seq<(string, string)>>)

  function Centered(bottom: string): Position {
    Position(bottom, "50%", "translateX(-50%)")
  }

  /** The position used for an id without a configuration. */
  const DefaultPosition := Centered("100px")

  const Schemes: seq<string> := ["http://", "https://"]

  const YouTubePattern := UrlPattern(["youtube.com", "www.youtube.com"], ["/watch"], false)
  const YouTubeLivePattern := UrlPattern(["youtube.com", "www.youtube.com"], ["/watch", "/live"], false)
  const TwitchPattern := UrlPattern(["twitch.tv", "www.twitch.tv"], ["/"], true)
  const SoopPattern := UrlPattern(["play.sooplive.co.kr"], ["/"], false)
  const ChzzkPattern := UrlPattern(["chzzk.naver.com"], ["/live/"], false)
  const NiconicoPattern := UrlPattern(["nicovideo.jp", "www.nicovideo.jp", "live.nicovideo.jp"], ["/"], false)

  const TwitchSlang := [("Kappa", "냉소"), ("PogChamp", "대박"), ("LUL", "ㅋㅋㅋ"), ("monkaS", "불안"), ("KEKW", "ㅋㅋㅋㅋ")]
  const SoopSlang := [("컨텐츠", "방송"), ("ㄱㄱ", "고고"), ("ㄷㄷ", "덜덜"), ("ㅇㅇ", "응응")]
  const ChzzkSlang := [("ㄱㄱ", "고고"), ("ㄷㄷ", "덜덜"), ("ㅇㅇ", "응응")]
  /** In the order `Object.entries` lists them: the integer-like key `888` first, then the others as declared. */
  const NiconicoSlang := [("888", "박수"), ("www", "ㅋㅋㅋ"), ("wwww", "ㅋㅋㅋㅋ"), ("草", "ㅋㅋ"), ("うぽつ", "업로드 감사")]

  const YouTubeEntry := (YouTube, PlatformConfig("YouTube", YouTubePattern, Centered("100px"), "auto", 1024, None))
  const YouTubeLiveEntry := (YouTubeLive, PlatformConfig("YouTube Live", YouTubeLivePattern, Centered("100px"), "auto", 1024, None))

  /** The entries after the two YouTube ones, in insertion order. */
  const OtherEntries: seq<(string, PlatformConfig)> := [
    (Twitch, PlatformConfig("Twitch", TwitchPattern, Centered("80px"), "en", 512, Some(TwitchSlang))),
    (Soop, PlatformConfig("SOOP (구 아프리카TV)", SoopPattern, Centered("90px"), "ko", 1024, Some(SoopSlang))),
    (Chzzk, PlatformConfig("치지직", ChzzkPattern, Centered("90px"), "ko", 1024, Some(ChzzkSlang))),
    (Niconico, PlatformConfig("ニコニコ動画", NiconicoPattern, Centered("120px"), "ja", 2048, Some(NiconicoSlang)))
  ]

  /** `platformConfigs`, in insertion order. */
  const Configs: seq<(string, PlatformConfig)> := [YouTubeEntry, YouTubeLiveEntry] + OtherEntries

  /** `\w` */
  predicate IsWordChar(c: char) {
    ('a' <= c <= 'z') || ('A' <= c <= 'Z') || ('0' <= c <= '9') || c == '_'
  }

  function PatternPrefix(p: UrlPattern, s: nat, h: nat, k: nat): string
    requires s < |Schemes| && h < |p.hosts| && k < |p.paths|
  {
    Schemes[s] + p.hosts[h] + p.paths[k]
  }

  /** The match of one alternative (scheme `s`, host `h`, path `k`) of the pattern. */
  predicate MatchesAt(p: UrlPattern, url: string, s: nat, h: nat, k: nat)
    requires s < |Schemes| && h < |p.hosts| && k < |p.paths|
  {
    var pre := PatternPrefix(p, s, h, k);
    StartsWith(url, pre) && (!p.needsWordChar || (|pre| < |url| && IsWordChar(url[|pre|])))
  }

  /** `urlPattern.test(url)` */
  predicate Matches(p: UrlPattern, url: string) {
    exists s, h, k | 0 <= s < |Schemes| && 0 <= h < |p.hosts| && 0 <= k < |p.paths| :: MatchesAt(p, url, s, h, k)
  }

  /** `getPlatformConfig(platformId)`: `None` stands for `null`. */
  function ConfigOf(id: string): (r: Option<PlatformConfig>)
    ensures r.Some? <==> exists i :: 0 <= i < |Configs| && Configs[i].0 == id
    ensures r.Some? ==> exists i :: 0 <= i < |Configs| && Configs[i] == (id, r.value)
  {
    Lookup(Configs, id)
  }

  /** The table's ids are distinct, so each entry is what `getPlatformConfig` returns for its id. */
  lemma ConfigAt(i: nat)
    requires i < |Configs|
    ensures ConfigOf(Configs[i].0) == Some(Configs[i].1)
  {
    var c := ConfigOf(Configs[i].0);
    var j :| 0 <= j < |Configs| && Configs[j] == (Configs[i].0, c.value);
    assert j == i;
  }

  /** The configuration of each id, and `null` for every other string. */
  lemma ConfigCases(id: string)
    ensures id == YouTube ==> ConfigOf(id) == Some(YouTubeEntry.1)
    ensures id == YouTubeLive ==> ConfigOf(id) == Some(YouTubeLiveEntry.1)
    ensures id == Twitch ==> ConfigOf(id) == Some(OtherEntries[0].1)
    ensures id == Soop ==> ConfigOf(id) == Some(OtherEntries[1].1)
    ensures id == Chzzk ==> ConfigOf(id) == Some(OtherEntries[2].1)
    ensures id == Niconico ==> ConfigOf(id) == Some(OtherEntries[3].1)
    ensures id !in {YouTube, YouTubeLive, Twitch, Soop, Chzzk, Niconico} ==> ConfigOf(id).None?
  {
    if id == YouTube { ConfigAt(0); }
    else if id == YouTubeLive { ConfigAt(1); }
    else if id == Twitch { ConfigAt(2); }
    else if id == Soop { ConfigAt(3); }
    else if id == Chzzk { ConfigAt(4); }
    else if id == Niconico { ConfigAt(5); }
    else if ConfigOf(id).Some? {
      var i :| 0 <= i < |Configs| && Configs[i].0 == id;
      assert Configs[i].0 in {YouTube, YouTubeLive, Twitch, Soop, Chzzk, Niconico} by {
        if i >= 2 {
          assert Configs[i] == OtherEntries[i - 2];
        }
      }
    }
  }

  /** The loop of `detectPlatform`: the id of the first entry whose pattern matches. */
  function FirstMatch(entries: seq<(string, PlatformConfig)>, url: string): (r: Option<string>)
    ensures r.Some? ==> exists i :: (0 <= i < |entries| && entries[i].0 == r.value && Matches(entries[i].1.urlPattern, url)
      && forall j :: 0 <= j < i ==> !Matches(entries[j].1.urlPattern, url))
    ensures r.None? <==> forall i :: 0 <= i < |entries| ==> !Matches(entries[i].1.urlPattern, url)
  {
    if entries == [] then None
    else if Matches(entries[0].1.urlPattern, url) then Some(entries[0].0)
    else FirstMatch(entries[1..], url)
  }

  function OrUnknown(r: Option<string>): string {
    if r.Some? then r.value else Unknown
  }

  /**
   * `detectPlatform()` as written: the page's URL and whether a `.ytp-live-badge` element is
   * present are inputs. The loop skips the `youtube_live` entry along with `youtube`.
   */
  function DetectPlatformAsWritten(url: string, liveBadge: bool): string {
    if Matches(YouTubePattern, url) then (if liveBadge then YouTubeLive else YouTube)
    else OrUnknown(FirstMatch(OtherEntries, url))
  }

  /** `detectPlatform()` with only the `youtube` entry skipped by the loop, so a `youtube.com/live` page reaches the `youtube_live` pattern. */
  function DetectPlatform(url: string, liveBadge: bool): string {
    if Matches(YouTubePattern, url) then (if liveBadge then YouTubeLive else YouTube)
    else OrUnknown(FirstMatch([YouTubeLiveEntry] + OtherEntries, url))
  }

  lemma FirstMatchCons(e: (string, PlatformConfig), rest: seq<(string, PlatformConfig)>, url: string)
    ensures FirstMatch([e] + rest, url) == if Matches(e.1.urlPattern, url) then Some(e.0) else FirstMatch(rest, url)
  {
    assert ([e] + rest)[1..] == rest;
  }

  /** A YouTube page matches none of the patterns after the two YouTube entries. */
  lemma {:induction false} YouTubeHostsOnly(url: string)
    requires Matches(YouTubeLivePattern, url)
    ensures FirstMatch(OtherEntries, url).None?
  {
    var s, h, k :| 0 <= s < |Schemes| && 0 <= h < 2 && 0 <= k < 2 && MatchesAt(YouTubeLivePattern, url, s, h, k);
    forall i, s', h', k' | 0 <= i < |OtherEntries| && 0 <= s' < |Schemes| && 0 <= h' < |OtherEntries[i].1.urlPattern.hosts|
        && 0 <= k' < |OtherEntries[i].1.urlPattern.paths|
      ensures !MatchesAt(OtherEntries[i].1.urlPattern, url, s', h', k')
    {
      NotOtherAlternative(url, s, h, k, i, s', h', k');
    }
  }

  lemma NotOtherAlternative(url: string, s: nat, h: nat, k: nat, i: nat, s': nat, h': nat, k': nat)
    requires s < |Schemes| && h < 2 && k < 2 && MatchesAt(YouTubeLivePattern, url, s, h, k)
    requires i < |OtherEntries| && s' < |Schemes| && h' < |OtherEntries[i].1.urlPattern.hosts| && k' < |OtherEntries[i].1.urlPattern.paths|
    ensures !MatchesAt(OtherEntries[i].1.urlPattern, url, s', h', k')
  {
    var mine := PatternPrefix(YouTubeLivePattern, s, h, k);
    assert url[..|mine|] == mine;
    var n := |Schemes[s]|;
    assert url[4] == mine[4] && url[n] == mine[n] && url[n + 4] == mine[n + 4];
    OtherPrefixDiffers(i, s', h', k', s, h, k);
    var pre := PatternPrefix(OtherEntries[i].1.urlPattern, s', h', k');
    if s != s' {
      assert pre[4] != url[4];
    } else {
      assert pre[n] != url[n] || pre[n + 4] != url[n + 4];
    }
  }

  /** Each prefix of the later patterns differs from each YouTube prefix within its first few characters. */
  lemma OtherPrefixDiffers(i: nat, s': nat, h': nat, k': nat, s: nat, h: nat, k: nat)
    requires i < |OtherEntries| && s' < |Schemes| && h' < |OtherEntries[i].1.urlPattern.hosts| && k' < |OtherEntries[i].1.urlPattern.paths|
    requires s < |Schemes| && h < 2 && k < 2
    ensures var pre, mine, n := PatternPrefix(OtherEntries[i].1.urlPattern, s', h', k'), PatternPrefix(YouTubeLivePattern, s, h, k), |Schemes[s]|;
      && n + 4 < |pre| && n + 4 < |mine|
      && (s != s' ==> pre[4] != mine[4])
      && (s == s' ==> pre[n] != mine[n] || pre[n + 4] != mine[n + 4])
  {
    var p := OtherEntries[i].1.urlPattern;
    var host, yt := p.hosts[h'], YouTubeLivePattern.hosts[h];
    assert |host| >= 5 && (host[0] != yt[0] || host[4] != yt[4]);
  }

  /** A `watch` page is YouTube Live exactly when the live badge is present, and only `watch` pages are ever YouTube or YouTube Live as written. */
  lemma {:induction false} YouTubeByBadge(url: string, liveBadge: bool)
    ensures Matches(YouTubePattern, url) ==>
      (DetectPlatformAsWritten(url, liveBadge) == YouTubeLive <==> liveBadge)
      && DetectPlatformAsWritten(url, liveBadge) in {YouTube, YouTubeLive}
    ensures !Matches(YouTubePattern, url) ==> DetectPlatformAsWritten(url, liveBadge) !in {YouTube, YouTubeLive}
  {
    var r := FirstMatch(OtherEntries, url);
    if r.Some? {
      var i :| 0 <= i < |OtherEntries| && OtherEntries[i].0 == r.value;
    }
  }

  const LiveUrl := "https://www.youtube.com/live/abc"

  /** The page `https://www.youtube.com/live/abc`, which the `youtube_live` pattern names, is `unknown` as written. */
  lemma LiveUrlUndetected(liveBadge: bool)
    ensures DetectPlatformAsWritten(LiveUrl, liveBadge) == Unknown
    ensures DetectPlatform(LiveUrl, liveBadge) == YouTubeLive
  {
    LiveUrlNotWatch();
    LiveUrlIsLive();
    YouTubeHostsOnly(LiveUrl);
    FirstMatchCons(YouTubeLiveEntry, OtherEntries, LiveUrl);
  }

  lemma LiveUrlNotWatch()
    ensures !Matches(YouTubePattern, LiveUrl)
  {
    forall s, h, k | 0 <= s < |Schemes| && 0 <= h < 2 && 0 <= k < 1 ensures !MatchesAt(YouTubePattern, LiveUrl, s, h, k) {
      var pre := PatternPrefix(YouTubePattern, s, h, k);
      if s == 0 {
        assert pre[4] != LiveUrl[4];
      } else if h == 0 {
        assert pre[8] != LiveUrl[8];
      } else {
        assert pre[24] != LiveUrl[24];
      }
    }
  }

  lemma LiveUrlIsLive()
    ensures Matches(YouTubeLivePattern, LiveUrl)
  {
    var pre := PatternPrefix(YouTubeLivePattern, 1, 1, 1);
    assert LiveUrl == pre + "/abc";
    assert LiveUrl[..|pre|] == pre;
    assert MatchesAt(YouTubeLivePattern, LiveUrl, 1, 1, 1);
  }

  /** Every `watch` page matches the `youtube_live` pattern too. */
  lemma WatchIsLivePattern(url: string)
    requires Matches(YouTubePattern, url)
    ensures Matches(YouTubeLivePattern, url)
  {
    var s, h, k :| 0 <= s < |Schemes| && 0 <= h < 2 && 0 <= k < 1 && MatchesAt(YouTubePattern, url, s, h, k);
    assert PatternPrefix(YouTubeLivePattern, s, h, k) == PatternPrefix(YouTubePattern, s, h, k);
    assert MatchesAt(YouTubeLivePattern, url, s, h, k);
  }

  /**
   * The correction changes only pages detected as `unknown`, which become YouTube Live; and a
   * page is YouTube or YouTube Live exactly when it matches the `youtube_live` pattern.
   */
  lemma {:induction false} DetectPlatformCorrection(url: string, liveBadge: bool)
    ensures DetectPlatform(url, liveBadge) != DetectPlatformAsWritten(url, liveBadge) ==>
      DetectPlatformAsWritten(url, liveBadge) == Unknown && DetectPlatform(url, liveBadge) == YouTubeLive
    ensures DetectPlatform(url, liveBadge) in {YouTube, YouTubeLive} <==> Matches(YouTubeLivePattern, url)
  {
    FirstMatchCons(YouTubeLiveEntry, OtherEntries, url);
    if Matches(YouTubePattern, url) {
      WatchIsLivePattern(url);
    } else if Matches(YouTubeLivePattern, url) {
      YouTubeHostsOnly(url);
    } else {
      YouTubeByBadge(url, liveBadge);
    }
  }

  lemma FirstMatchWitness(entries: seq<(string, PlatformConfig)>, url: string, id: string)
    requires FirstMatch(entries, url) == Some(id)
    ensures exists i :: 0 <= i < |entries| && entries[i].0 == id && Matches(entries[i].1.urlPattern, url)
  {
  }

  /** An id found by the loop names an entry whose pattern matches. */
  lemma LoopFindsConfigured(url: string, id: string)
    requires FirstMatch([YouTubeLiveEntry] + OtherEntries, url) == Some(id)
    ensures ConfigOf(id).Some? && Matches(ConfigOf(id).value.urlPattern, url)
  {
    var rest := [YouTubeLiveEntry] + OtherEntries;
    FirstMatchWitness(rest, url, id);
    var i :| 0 <= i < |rest| && rest[i].0 == id && Matches(rest[i].1.urlPattern, url);
    LoopEntryConfigured(i);
  }

  lemma LoopEntryConfigured(i: nat)
    requires i < 1 + |OtherEntries|
    ensures var e := ([YouTubeLiveEntry] + OtherEntries)[i]; ConfigOf(e.0) == Some(e.1)
  {
    if i == 0 {
      ConfigCases(YouTubeLive);
    } else {
      assert ([YouTubeLiveEntry] + OtherEntries)[i] == OtherEntries[i - 1];
      ConfigOtherEntry(i - 1);
    }
  }

  lemma ConfigOtherEntry(k: nat)
    requires k < |OtherEntries|
    ensures ConfigOf(OtherEntries[k].0) == Some(OtherEntries[k].1)
  {
    assert OtherEntries[k] == Configs[k + 2];
    ConfigAt(k + 2);
  }

  lemma LoopFindsNothing(url: string)
    requires !Matches(YouTubePattern, url) && FirstMatch([YouTubeLiveEntry] + OtherEntries, url).None?
    ensures forall i :: 0 <= i < |Configs| ==> !Matches(Configs[i].1.urlPattern, url)
  {
    var rest := [YouTubeLiveEntry] + OtherEntries;
    forall i | 0 <= i < |Configs| ensures !Matches(Configs[i].1.urlPattern, url) {
      if i >= 1 {
        assert rest[i - 1] == Configs[i];
      }
    }
  }

  /** The detected platform is one whose pattern matches the URL, and `unknown` only when none does. */
  lemma DetectPlatformSound(url: string, liveBadge: bool)
    ensures var r := DetectPlatform(url, liveBadge);
      && (r != Unknown ==> ConfigOf(r).Some? && Matches(ConfigOf(r).value.urlPattern, url))
      && (r == Unknown ==> forall i :: 0 <= i < |Configs| ==> !Matches(Configs[i].1.urlPattern, url))
  {
    if Matches(YouTubePattern, url) {
      WatchSound(url, liveBadge);
    } else if FirstMatch([YouTubeLiveEntry] + OtherEntries, url).Some? {
      var id := FirstMatch([YouTubeLiveEntry] + OtherEntries, url).value;
      LoopFindsConfigured(url, id);
      UnknownNotConfigured();
      assert id != Unknown;
    } else {
      LoopFindsNothing(url);
    }
  }

  /** As written too, a detected id has a configuration whose pattern matches the page, and `unknown` has none. */
  lemma DetectPlatformAsWrittenSound(url: string, liveBadge: bool)
    ensures var r := DetectPlatformAsWritten(url, liveBadge);
      && (r != Unknown ==> ConfigOf(r).Some? && Matches(ConfigOf(r).value.urlPattern, url))
      && ConfigOf(Unknown).None?
  {
    DetectPlatformCorrection(url, liveBadge);
    DetectPlatformSound(url, liveBadge);
    UnknownNotConfigured();
  }

  lemma UnknownNotConfigured()
    ensures ConfigOf(Unknown).None?
  {
    ConfigCases(Unknown);
  }

  lemma WatchSound(url: string, liveBadge: bool)
    requires Matches(YouTubePattern, url)
    ensures var r := DetectPlatform(url, liveBadge); ConfigOf(r).Some? && Matches(ConfigOf(r).value.urlPattern, url)
  {
    WatchIsLivePattern(url);
    ConfigCases(YouTube);
    ConfigCases(YouTubeLive);
  }

  /** `getSubtitlePosition(platformId)` */
  function SubtitlePosition(id: string): (p: Position)
    ensures ConfigOf(id).None? ==> p == DefaultPosition
    ensures ConfigOf(id).Some? ==> p == ConfigOf(id).value.position
  {
    match ConfigOf(id) case None => DefaultPosition case Some(c) => c.position
  }

  /** Every position is centred; only the offset from the bottom differs. */
  lemma SubtitleBottoms(id: string)
    ensures SubtitlePosition(id).left == "50%" && SubtitlePosition(id).transform == "translateX(-50%)"
    ensures id == Twitch ==> SubtitlePosition(id).bottom == "80px"
    ensures id == Soop || id == Chzzk ==> SubtitlePosition(id).bottom == "90px"
    ensures id == Niconico ==> SubtitlePosition(id).bottom == "120px"
    ensures id !in {Twitch, Soop, Chzzk, Niconico} ==> SubtitlePosition(id).bottom == "100px"
  {
    ConfigCases(id);
  }

  // ---------------------------------------------------------------------------------------
  // Slang rewriting

  /** `key` occurs at the start of `s` under the `i` flag. */
  predicate StartsWithCI(s: string, key: string) {
    |key| <= |s| && forall i :: 0 <= i < |key| ==> CaseEq(s[i], key[i])
  }

  /** `key` occurs somewhere in `s` under the `i` flag. */
  predicate ContainsCI(s: string, key: string)
    decreases |s|
  {
    if |s| < |key| then false else StartsWithCI(s, key) || ContainsCI(s[1..], key)
  }

  /** `s.replace(new RegExp(key, 'gi'), repl)` for a key without metacharacters: scan left to right, replacing non-overlapping matches. */
  function ReplaceAll(s: string, key: string, repl: string): string
    requires |key| > 0
    decreases |s|
  {
    if |s| < |key| then s
    else if StartsWithCI(s, key) then repl + ReplaceAll(s[|key|..], key, repl)
    else [s[0]] + ReplaceAll(s[1..], key, repl)
  }

  /** Replacing a key that does not occur changes nothing. */
  lemma {:induction false} ReplaceAbsent(s: string, key: string, repl: string)
    requires |key| > 0 && !ContainsCI(s, key)
    ensures ReplaceAll(s, key, repl) == s
    decreases |s|
  {
    if |s| >= |key| {
      ReplaceAbsent(s[1..], key, repl);
      assert [s[0]] + s[1..] == s;
    }
  }

  /** No character of `a` matches any character of `b` under the `i` flag. */
  predicate Disjoint(a: string, b: string) {
    forall i, j :: 0 <= i < |a| && 0 <= j < |b| ==> !CaseEq(a[i], b[j])
  }

  lemma {:induction false} ContainsAfter(a: string, b: string, key: string)
    requires |key| > 0 && Disjoint(a, key[..1]) && ContainsCI(a + b, key)
    ensures ContainsCI(b, key)
    decreases |a|
  {
    if a == [] {
      assert a + b == b;
    } else {
      assert !StartsWithCI(a + b, key) by {
        assert (a + b)[0] == a[0] && key[..1][0] == key[0];
      }
      assert (a + b)[1..] == a[1..] + b;
      assert Disjoint(a[1..], key[..1]) by {
        forall i, j | 0 <= i < |a[1..]| && 0 <= j < 1 ensures !CaseEq(a[1..][i], key[..1][j]) {
          assert a[1..][i] == a[i + 1];
        }
      }
      ContainsAfter(a[1..], b, key);
    }
  }

  /** A prefix of the output made of characters that do not occur in the replacement was copied from the input unchanged. */
  lemma {:induction false} PrefixKept(s: string, key: string, repl: string, m: nat)
    requires |key| > 0 && |repl| > 0
    requires m <= |ReplaceAll(s, key, repl)|
    requires forall i, j :: 0 <= i < m && 0 <= j < |repl| ==> ReplaceAll(s, key, repl)[i] != repl[j]
    ensures m <= |s| && ReplaceAll(s, key, repl)[..m] == s[..m]
    decreases |s|
  {
    var r := ReplaceAll(s, key, repl);
    if |s| < |key| {
    } else if StartsWithCI(s, key) {
      assert r[0] == repl[0];
    } else if m > 0 {
      var r' := ReplaceAll(s[1..], key, repl);
      assert r == [s[0]] + r';
      forall i, j | 0 <= i < m - 1 && 0 <= j < |repl| ensures r'[i] != repl[j] {
        assert r'[i] == r[i + 1];
      }
      PrefixKept(s[1..], key, repl, m - 1);
      assert r[..m] == [s[0]] + r'[..m - 1];
      assert s[..m] == [s[0]] + s[1..][..m - 1];
    }
  }

  /** After replacing every occurrence of `key` by a text sharing no character with it, no occurrence remains. */
  lemma {:induction false} ReplaceAllRemoves(s: string, key: string, repl: string)
    requires |key| > 0 && |repl| > 0 && Disjoint(repl, key)
    ensures !ContainsCI(ReplaceAll(s, key, repl), key)
    decreases |s|
  {
    var r := ReplaceAll(s, key, repl);
    if |s| < |key| {
      NotContainsShort(s, key);
    } else if StartsWithCI(s, key) {
      ReplaceAllRemoves(s[|key|..], key, repl);
      if ContainsCI(r, key) {
        assert Disjoint(repl, key[..1]) by {
          forall i, j | 0 <= i < |repl| && 0 <= j < 1 ensures !CaseEq(repl[i], key[..1][j]) {
            assert key[..1][j] == key[j];
          }
        }
        ContainsAfter(repl, ReplaceAll(s[|key|..], key, repl), key);
      }
    } else {
      var r' := ReplaceAll(s[1..], key, repl);
      ReplaceAllRemoves(s[1..], key, repl);
      assert r[1..] == r';
      if StartsWithCI(r, key) {
        var m := |key| - 1;
        forall i, j | 0 <= i < m && 0 <= j < |repl| ensures r'[i] != repl[j] {
          assert CaseEq(r[i + 1], key[i + 1]);
          assert r'[i] == r[i + 1];
        }
        PrefixKept(s[1..], key, repl, m);
        forall i | 0 <= i < |key| ensures CaseEq(s[i], key[i]) {
          if i > 0 {
            assert r[i] == r'[..m][i - 1] == s[1..][..m][i - 1] == s[i];
          }
        }
        assert false;
      }
    }
  }

  lemma NotContainsShort(s: string, key: string)
    requires |s| < |key|
    ensures !ContainsCI(s, key)
  {
  }

  predicate KeysNonEmpty(dict: seq<(string, string)>) {
    forall i :: 0 <= i < |dict| ==> |dict[i].0| > 0
  }

  /** The fold of `translateSlang` over a dictionary's entries, in order. */
  function ApplySlang(text: string, dict: seq<(string, string)>): string
    requires KeysNonEmpty(dict)
    decreases |dict|
  {
    if dict == [] then text else ApplySlang(ReplaceAll(text, dict[0].0, dict[0].1), dict[1..])
  }

  lemma ConfigKeysNonEmpty(id: string)
    ensures ConfigOf(id).Some? && ConfigOf(id).value.slangDict.Some? ==> KeysNonEmpty(ConfigOf(id).value.slangDict.value)
  {
    ConfigCases(id);
  }

  /** `translateSlang(text, platformId)` */
  function TranslateSlang(text: string, id: string): (r: string)
    ensures ConfigOf(id).None? || ConfigOf(id).value.slangDict.None? ==> r == text
  {
    ConfigKeysNonEmpty(id);
    match ConfigOf(id)
    case None => text
    case Some(c) =>
      match c.slangDict
      case None => text
      case Some(dict) => ApplySlang(text, dict)
  }

  /** Text in which no dictionary key occurs, ignoring case, comes back unchanged. */
  lemma {:induction false} ApplySlangAbsent(text: string, dict: seq<(string, string)>)
    requires KeysNonEmpty(dict)
    requires forall i :: 0 <= i < |dict| ==> !ContainsCI(text, dict[i].0)
    ensures ApplySlang(text, dict) == text
    decreases |dict|
  {
    if dict != [] {
      ReplaceAbsent(text, dict[0].0, dict[0].1);
      ApplySlangAbsent(text, dict[1..]);
    }
  }

  lemma TranslateSlangAbsent(text: string, id: string)
    requires ConfigOf(id).Some? && ConfigOf(id).value.slangDict.Some?
    requires forall i :: 0 <= i < |ConfigOf(id).value.slangDict.value| ==> !ContainsCI(text, ConfigOf(id).value.slangDict.value[i].0)
    ensures TranslateSlang(text, id) == text
  {
    ConfigKeysNonEmpty(id);
    ApplySlangAbsent(text, ConfigOf(id).value.slangDict.value);
  }

  /** In the niconico table `www` comes before `wwww`: after the `www` step no `www` run is left, so the `wwww` entry never applies. */
  lemma WwwwNeverApplies(text: string)
    ensures var t := ReplaceAll(text, "www", "ㅋㅋㅋ");
      !ContainsCI(t, "wwww") && ReplaceAll(t, "wwww", "ㅋㅋㅋㅋ") == t
  {
    var t := ReplaceAll(text, "www", "ㅋㅋㅋ");
    ReplaceAllRemoves(text, "www", "ㅋㅋㅋ");
    if ContainsCI(t, "wwww") {
      ContainsLonger(t, "www", "wwww");
    }
    ReplaceAbsent(t, "wwww", "ㅋㅋㅋㅋ");
  }

  lemma {:induction false} ContainsLonger(s: string, short: string, long: string)
    requires |short| <= |long| && long[..|short|] == short && ContainsCI(s, long)
    ensures ContainsCI(s, short)
    decreases |s|
  {
    if !StartsWithCI(s, long) {
      ContainsLonger(s[1..], short, long);
    } else {
      forall i | 0 <= i < |short| ensures CaseEq(s[i], short[i]) {
        assert short[i] == long[i];
      }
    }
  }

  /** A text in which no character matches the first character of `key` does not contain `key`. */
  lemma {:induction false} FirstCharAbsent(s: string, key: string)
    requires |key| > 0 && forall i :: 0 <= i < |s| ==> !CaseEq(s[i], key[0])
    ensures !ContainsCI(s, key)
    decreases |s|
  {
    if |s| >= |key| {
      assert !CaseEq(s[0], key[0]);
      assert forall i :: 0 <= i < |s[1..]| ==> s[1..][i] == s[i + 1];
      FirstCharAbsent(s[1..], key);
    }
  }

  /** Order matters: `wwww` becomes three `ㅋ` and a leftover `w`, not four `ㅋ`. */
  lemma FourWs()
    ensures ApplySlang("wwww", NiconicoSlang) == "ㅋㅋㅋw"
  {
    FourWsNo888();
    FourWsFirstKey();
    FourWsRest();
  }

  lemma FourWsNo888()
    ensures ApplySlang("wwww", NiconicoSlang) == ApplySlang("wwww", NiconicoSlang[1..])
  {
    FirstCharAbsent("wwww", "888");
    ReplaceAbsent("wwww", "888", "박수");
  }

  lemma FourWsFirstKey()
    ensures ReplaceAll("wwww", "www", "ㅋㅋㅋ") == "ㅋㅋㅋw"
    ensures ApplySlang("wwww", NiconicoSlang[1..]) == ApplySlang("ㅋㅋㅋw", NiconicoSlang[2..])
  {
    assert StartsWithCI("wwww", "www");
    assert ReplaceAll("w", "www", "ㅋㅋㅋ") == "w";
    assert ReplaceAll("wwww", "www", "ㅋㅋㅋ") == "ㅋㅋㅋ" + ReplaceAll("w", "www", "ㅋㅋㅋ") == "ㅋㅋㅋw";
  }

  /** After the `www` step nothing else in the table applies to `ㅋㅋㅋw`. */
  lemma FourWsRest()
    ensures ApplySlang("ㅋㅋㅋw", NiconicoSlang[2..]) == "ㅋㅋㅋw"
  {
    var t := "ㅋㅋㅋw";
    var dict := NiconicoSlang[2..];
    FourWsFirstKey();
    WwwwNeverApplies("wwww");
    var rest := dict[1..];
    assert ApplySlang(t, dict) == ApplySlang(t, rest);
    forall i | 0 <= i < |rest| ensures !ContainsCI(t, rest[i].0) {
      FirstCharAbsent(t, rest[i].0);
    }
    ApplySlangAbsent(t, rest);
  }

  /** On a niconico page the dictionary is applied in `Object.entries` order. */
  lemma NiconicoSlangApplied(text: string)
    ensures TranslateSlang(text, Niconico) == ApplySlang(text, NiconicoSlang)
  {
    ConfigAt(5);
  }

  /** Twitch emotes match in any case: `kappa` is rewritten like `Kappa`. */
  lemma KappaAnyCase()
    ensures ReplaceAll("kappa", "Kappa", "냉소") == "냉소"
  {
    assert StartsWithCI("kappa", "Kappa");
    assert "kappa"[5..] == [];
  }
}
