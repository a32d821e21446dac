/**
 * The translation router of translator.js: `translate` checks blank input, then the shared
 * `TranslationCache`, then dispatches on the engine to one provider, caches a success, and
 * on failure of a non-default engine retries once with the default engine. The HTTP calls
 * are an oracle `ProviderCall -> ProviderReply`; what the router sends to each provider
 * (which provider, which language codes, which endpoint) is modelled exactly.
 */
module Translator {
  import opened Wrappers
  import opened Text
  import opened Cache

  const Google := "google"
  const Papago := "papago"
  const DeepL := "deepl"

  /** The `options` object; the empty string stands for a missing or falsy field. */
  datatype Options = Options(engine: string, apiKey: string, apiSecret: string)

  /** One `translate(text, sourceLang, targetLang, options)` call. */
  datatype Request = Request(text: string, sourceLang: string, targetLang: string, options: Options)

  datatype Provider =
    | GooglePublic
    | GoogleScript(url: string)
    | PapagoApi(keyId: string, secret: string)
    | DeepLApi(authKey: string)

  /** One invocation of a provider function, with the arguments `translate` passes it. */
  datatype ProviderCall = ProviderCall(provider: Provider, text: string, sourceLang: string, targetLang: string)

  /** What a provider's promise settles to: the translated text, or the message of the error it throws. */
  datatype ProviderReply = Translated(text: string) | Failed(message: string)

  type Oracle = ProviderCall -> ProviderReply

  /** `options.engine || 'google'` */
  function EngineOf(o: Options): (e: string)
    ensures e != ""
    ensures o.engine != "" ==> e == o.engine
  {
    if o.engine == "" then Google else o.engine
  }

  /** The template-literal cache key `${text}|${sourceLang}|${targetLang}|${engine}`. */
  function CacheKey(text: string, sourceLang: string, targetLang: string, engine: string): string {
    text + "|" + sourceLang + "|" + targetLang + "|" + engine
  }

  function KeyOf(req: Request): string {
    CacheKey(req.text, req.sourceLang, req.targetLang, EngineOf(req.options))
  }

  predicate NoBar(s: string) {
    forall i :: 0 <= i < |s| ==> s[i] != '|'
  }

  /** The index of the first `|` in `x` (its length when there is none). */
  function FirstBar(x: string): (n: nat)
    ensures n <= |x|
  {
    if x == [] || x[0] == '|' then 0 else 1 + FirstBar(x[1..])
  }

  lemma {:induction false} FirstBarAfter(a: string, rest: string)
    requires NoBar(a)
    ensures FirstBar(a + "|" + rest) == |a|
    decreases |a|
  {
    if a != [] {
      assert (a + "|" + rest)[1..] == a[1..] + "|" + rest;
      FirstBarAfter(a[1..], rest);
    }
  }

  lemma {:induction false} PrefixBeforeBar(a: string, ra: string, b: string, rb: string)
    requires NoBar(a) && NoBar(b) && a + "|" + ra == b + "|" + rb
    ensures a == b && ra == rb
  {
    var x := a + "|" + ra;
    FirstBarAfter(a, ra);
    FirstBarAfter(b, rb);
    assert a == x[..|a|] && b == x[..|b|];
    assert ra == x[|a| + 1..] && rb == x[|b| + 1..];
  }

  /** Two requests share a cache entry only if they agree on all four fields, when the text and both language codes are free of `|`. */
  lemma {:induction false} CacheKeyInjective(t1: string, s1: string, g1: string, e1: string, t2: string, s2: string, g2: string, e2: string)
    requires NoBar(t1) && NoBar(s1) && NoBar(g1) && NoBar(t2) && NoBar(s2) && NoBar(g2)
    requires CacheKey(t1, s1, g1, e1) == CacheKey(t2, s2, g2, e2)
    ensures t1 == t2 && s1 == s2 && g1 == g2 && e1 == e2
  {
    assert CacheKey(t1, s1, g1, e1) == t1 + "|" + (s1 + "|" + g1 + "|" + e1);
    assert CacheKey(t2, s2, g2, e2) == t2 + "|" + (s2 + "|" + g2 + "|" + e2);
    PrefixBeforeBar(t1, s1 + "|" + g1 + "|" + e1, t2, s2 + "|" + g2 + "|" + e2);
    assert s1 + "|" + g1 + "|" + e1 == s1 + "|" + (g1 + "|" + e1);
    assert s2 + "|" + g2 + "|" + e2 == s2 + "|" + (g2 + "|" + e2);
    PrefixBeforeBar(s1, g1 + "|" + e1, s2, g2 + "|" + e2);
    PrefixBeforeBar(g1, e1, g2, e2);
  }

  /** A text containing '|' can share its cache entry with a different request. */
  lemma CacheKeyCollision()
    ensures CacheKey("a|b", "c", "d", Google) == CacheKey("a", "b|c", "d", Google)
  {
  }

  /** The `switch (engine)` of `translate`: the provider it calls, or the error it throws before calling one. */
  function SelectProvider(o: Options): (r: Result<Provider>)
    ensures r.Err? <==>
      || (EngineOf(o) == Papago && (o.apiKey == "" || o.apiSecret == ""))
      || (EngineOf(o) == DeepL && o.apiKey == "")
      || (EngineOf(o) != Google && EngineOf(o) != Papago && EngineOf(o) != DeepL)
    ensures r.Ok? && EngineOf(o) == Google ==>
      r.value == (if Contains(o.apiKey, "script.google.com") then GoogleScript(o.apiKey) else GooglePublic)
    ensures r.Ok? && EngineOf(o) == Papago ==> r.value == PapagoApi(o.apiKey, o.apiSecret)
    ensures r.Ok? && EngineOf(o) == DeepL ==> r.value == DeepLApi(o.apiKey)
    ensures r.Err? && EngineOf(o) == Papago ==> r.message == "Papago API requires apiKey and apiSecret"
    ensures r.Err? && EngineOf(o) == DeepL ==> r.message == "DeepL API requires apiKey"
    ensures r.Err? && EngineOf(o) != Papago && EngineOf(o) != DeepL ==>
      r.message == "Unknown translation engine: " + EngineOf(o)
  {
    var engine := EngineOf(o);
    if engine == Google then
      if o.apiKey != "" && Contains(o.apiKey, "script.google.com") then Ok(GoogleScript(o.apiKey)) else Ok(GooglePublic)
    else if engine == Papago then
      if o.apiKey == "" || o.apiSecret == "" then Err("Papago API requires apiKey and apiSecret")
      else Ok(PapagoApi(o.apiKey, o.apiSecret))
    else if engine == DeepL then
      if o.apiKey == "" then Err("DeepL API requires apiKey") else Ok(DeepLApi(o.apiKey))
    else Err("Unknown translation engine: " + engine)
  }

  /** The cache shared by all `translate` calls, and the log of every provider invocation so far. */
  datatype RouterState = RouterState(cache: CacheState, calls: seq<ProviderCall>)

  datatype Routed = Routed(result: Result<string>, state: RouterState)

  /** The retry request: same text and languages, `{ engine: 'google' }`. */
  function FallbackOf(req: Request): (f: Request)
    ensures EngineOf(f.options) == Google && f.options.apiKey == ""
    ensures f.text == req.text && f.sourceLang == req.sourceLang && f.targetLang == req.targetLang
  {
    Request(req.text, req.sourceLang, req.targetLang, Options(Google, "", ""))
  }

  /** The first attempt with the selected engine: its outcome and the call log after it. */
  function Attempt(calls: seq<ProviderCall>, req: Request, oracle: Oracle): (Result<string>, seq<ProviderCall>) {
    match SelectProvider(req.options)
    case Err(m) => (Err(m), calls)
    case Ok(p) =>
      var call := ProviderCall(p, req.text, req.sourceLang, req.targetLang);
      match oracle(call)
      case Translated(t) => (Ok(t), calls + [call])
      case Failed(m) => (Err(m), calls + [call])
  }

  /** `translate`: the settled result and the new cache and call log. */
  function Route(st: RouterState, maxSize: int, req: Request, oracle: Oracle): (r: Routed)
    requires WellFormed(st.cache)
    ensures WellFormed(r.state.cache)
    ensures Blank(req.text) ==> r == Routed(Ok(""), st)
    ensures !Blank(req.text) && KeyOf(req) in st.cache.store ==> r == Routed(Ok(st.cache.store[KeyOf(req)]), st)
    // the log only grows, by at most one call per engine tried
    ensures |st.calls| <= |r.state.calls| <= |st.calls| + (if EngineOf(req.options) == Google then 1 else 2)
    ensures r.state.calls[..|st.calls|] == st.calls
    // a failure leaves the cache as it was
    ensures r.result.Err? ==> r.state.cache == st.cache
    decreases if EngineOf(req.options) == Google then 0 else 1
  {
    if Blank(req.text) then Routed(Ok(""), st)
    else
      var key := KeyOf(req);
      if key in st.cache.store then Routed(Ok(st.cache.store[key]), st)
      else
        var (outcome, calls) := Attempt(st.calls, req, oracle);
        if outcome.Ok? then Routed(outcome, RouterState(Inserted(st.cache, maxSize, key, outcome.value), calls))
        else if EngineOf(req.options) != Google then Route(RouterState(st.cache, calls), maxSize, FallbackOf(req), oracle)
        else Routed(outcome, RouterState(st.cache, calls))
  }

  /** The default engine never retries: a failure of its one provider call is the result. */
  lemma {:induction false} GoogleFailurePropagates(st: RouterState, maxSize: int, req: Request, oracle: Oracle)
    requires WellFormed(st.cache) && !Blank(req.text) && KeyOf(req) !in st.cache.store
    requires EngineOf(req.options) == Google
    requires oracle(ProviderCall(SelectProvider(req.options).value, req.text, req.sourceLang, req.targetLang)).Failed?
    ensures var r := Route(st, maxSize, req, oracle);
      && r.result == Err(oracle(ProviderCall(SelectProvider(req.options).value, req.text, req.sourceLang, req.targetLang)).message)
      && r.state == RouterState(st.cache, st.calls + [ProviderCall(SelectProvider(req.options).value, req.text, req.sourceLang, req.targetLang)])
  {
  }

  /**
   * An engine whose credentials are missing calls no provider of its own: the request is
   * answered by the public Google provider with exactly one call (or none, from the cache),
   * and a success is cached under the Google key only, never under the engine's own key.
   */
  lemma {:induction false} MissingCredentialsFallBack(st: RouterState, maxSize: int, req: Request, oracle: Oracle)
    requires WellFormed(st.cache) && !Blank(req.text) && KeyOf(req) !in st.cache.store
    requires SelectProvider(req.options).Err? && EngineOf(req.options) != Google
    ensures var r := Route(st, maxSize, req, oracle);
      var g := FallbackOf(req);
      var call := ProviderCall(GooglePublic, req.text, req.sourceLang, req.targetLang);
      && (KeyOf(g) in st.cache.store ==> r == Routed(Ok(st.cache.store[KeyOf(g)]), st))
      && (KeyOf(g) !in st.cache.store ==>
            && r.state.calls == st.calls + [call]
            && (oracle(call).Translated? ==>
                  r.result == Ok(oracle(call).text)
                  && r.state.cache == Inserted(st.cache, maxSize, KeyOf(g), oracle(call).text))
            && (oracle(call).Failed? ==> r.result == Err(oracle(call).message) && r.state.cache == st.cache))
  {
    var g := FallbackOf(req);
    assert Attempt(st.calls, req, oracle) == (Err(SelectProvider(req.options).message), st.calls);
    assert Route(st, maxSize, req, oracle) == Route(RouterState(st.cache, st.calls), maxSize, g, oracle);
    assert SelectProvider(g.options) == Ok(GooglePublic);
  }

  /** A provider that answers is the result: its text is returned and cached under the request's own key, after exactly one call. */
  lemma {:induction false} DirectSuccessCached(st: RouterState, maxSize: int, req: Request, oracle: Oracle)
    requires WellFormed(st.cache) && !Blank(req.text) && KeyOf(req) !in st.cache.store
    requires SelectProvider(req.options).Ok?
    requires oracle(ProviderCall(SelectProvider(req.options).value, req.text, req.sourceLang, req.targetLang)).Translated?
    ensures var call := ProviderCall(SelectProvider(req.options).value, req.text, req.sourceLang, req.targetLang);
      var t := oracle(call).text;
      Route(st, maxSize, req, oracle) == Routed(Ok(t), RouterState(Inserted(st.cache, maxSize, KeyOf(req), t), st.calls + [call]))
  {
    var call := ProviderCall(SelectProvider(req.options).value, req.text, req.sourceLang, req.targetLang);
    assert Attempt(st.calls, req, oracle) == (Ok(oracle(call).text), st.calls + [call]);
  }

  /**
   * A Papago or DeepL call that fails is logged and followed by the Google retry: the result is
   * that of the retry from the log with the failed call, so with an empty Google entry exactly one
   * more call is made and its success is cached under the Google key.
   */
  lemma {:induction false} ProviderFailureFallsBack(st: RouterState, maxSize: int, req: Request, oracle: Oracle)
    requires WellFormed(st.cache) && !Blank(req.text) && KeyOf(req) !in st.cache.store
    requires SelectProvider(req.options).Ok? && EngineOf(req.options) != Google
    requires oracle(ProviderCall(SelectProvider(req.options).value, req.text, req.sourceLang, req.targetLang)).Failed?
    ensures var call := ProviderCall(SelectProvider(req.options).value, req.text, req.sourceLang, req.targetLang);
      var r := Route(st, maxSize, req, oracle);
      var g := FallbackOf(req);
      var retry := ProviderCall(GooglePublic, req.text, req.sourceLang, req.targetLang);
      && r == Route(RouterState(st.cache, st.calls + [call]), maxSize, g, oracle)
      && (KeyOf(g) in st.cache.store ==> r == Routed(Ok(st.cache.store[KeyOf(g)]), RouterState(st.cache, st.calls + [call])))
      && (KeyOf(g) !in st.cache.store ==>
            && r.state.calls == st.calls + [call, retry]
            && (oracle(retry).Translated? ==>
                  r.result == Ok(oracle(retry).text)
                  && r.state.cache == Inserted(st.cache, maxSize, KeyOf(g), oracle(retry).text))
            && (oracle(retry).Failed? ==> r.result == Err(oracle(retry).message) && r.state.cache == st.cache))
  {
    var call := ProviderCall(SelectProvider(req.options).value, req.text, req.sourceLang, req.targetLang);
    var g := FallbackOf(req);
    var st' := RouterState(st.cache, st.calls + [call]);
    assert Attempt(st.calls, req, oracle) == (Err(oracle(call).message), st.calls + [call]);
    assert Route(st, maxSize, req, oracle) == Route(st', maxSize, g, oracle);
    assert SelectProvider(g.options) == Ok(GooglePublic);
    assert st.calls + [call] + [ProviderCall(GooglePublic, req.text, req.sourceLang, req.targetLang)]
        == st.calls + [call, ProviderCall(GooglePublic, req.text, req.sourceLang, req.targetLang)];
  }

  /** A fallback never fills the failing engine's own entry, so every later request with that engine tries it again. */
  lemma {:induction false} FallbackLeavesEngineKeyEmpty(st: RouterState, maxSize: int, req: Request, oracle: Oracle)
    requires WellFormed(st.cache) && !Blank(req.text) && KeyOf(req) !in st.cache.store
    requires EngineOf(req.options) != Google && Attempt(st.calls, req, oracle).0.Err?
    ensures KeyOf(req) !in Route(st, maxSize, req, oracle).state.cache.store
  {
    // the two keys share everything up to the engine, which differs
    var prefix := req.text + "|" + req.sourceLang + "|" + req.targetLang + "|";
    assert KeyOf(req)[|prefix|..] == EngineOf(req.options);
    assert KeyOf(FallbackOf(req))[|prefix|..] == Google;
    var st' := RouterState(st.cache, Attempt(st.calls, req, oracle).1);
    var r := Route(st', maxSize, FallbackOf(req), oracle);
    assert Route(st, maxSize, req, oracle) == r;
    assert forall k :: k in r.state.cache.store && k != KeyOf(FallbackOf(req)) ==> k in st.cache.store;
  }

  /** Cache round trip: once a request with the default engine has succeeded, repeating it returns the same text and calls no provider. */
  lemma {:induction false} RepeatIsCacheHit(st: RouterState, maxSize: int, req: Request, oracle: Oracle)
    requires WellFormed(st.cache) && EngineOf(req.options) == Google
    requires Route(st, maxSize, req, oracle).result.Ok?
    ensures var r := Route(st, maxSize, req, oracle);
      Route(r.state, maxSize, req, oracle) == Routed(r.result, r.state)
  {
    var r := Route(st, maxSize, req, oracle);
    if !Blank(req.text) && KeyOf(req) !in st.cache.store {
      var (outcome, calls) := Attempt(st.calls, req, oracle);
      assert r.state.cache == Inserted(st.cache, maxSize, KeyOf(req), outcome.value);
    }
  }

  /**
   * `translate` of content-bundle.js: the same cache key (engine included), but always the
   * public Google provider and no retry.
   */
  function RouteBundled(st: RouterState, maxSize: int, req: Request, oracle: Oracle): (r: Routed)
    requires WellFormed(st.cache)
    ensures WellFormed(r.state.cache)
    ensures Blank(req.text) ==> r == Routed(Ok(""), st)
    ensures !Blank(req.text) && KeyOf(req) in st.cache.store ==> r == Routed(Ok(st.cache.store[KeyOf(req)]), st)
    ensures r.state.calls == st.calls
      || r.state.calls == st.calls + [ProviderCall(GooglePublic, req.text, req.sourceLang, req.targetLang)]
  {
    if Blank(req.text) then Routed(Ok(""), st)
    else
      var key := KeyOf(req);
      if key in st.cache.store then Routed(Ok(st.cache.store[key]), st)
      else
        var call := ProviderCall(GooglePublic, req.text, req.sourceLang, req.targetLang);
        match oracle(call)
        case Translated(t) => Routed(Ok(t), RouterState(Inserted(st.cache, maxSize, key, t), st.calls + [call]))
        case Failed(m) => Routed(Err(m), RouterState(st.cache, st.calls + [call]))
  }

  /** In the bundle the engine and the credentials only choose the cache entry: two requests that differ in options alone send the same provider call. */
  lemma {:induction false} BundledIgnoresCredentials(st: RouterState, maxSize: int, req: Request, opts: Options, oracle: Oracle)
    requires WellFormed(st.cache)
    requires KeyOf(req) !in st.cache.store
    requires KeyOf(Request(req.text, req.sourceLang, req.targetLang, opts)) !in st.cache.store
    ensures var other := Request(req.text, req.sourceLang, req.targetLang, opts);
      && RouteBundled(st, maxSize, req, oracle).result == RouteBundled(st, maxSize, other, oracle).result
      && RouteBundled(st, maxSize, req, oracle).state.calls == RouteBundled(st, maxSize, other, oracle).state.calls
  {
  }

  /** Where the bundle and the module disagree: a Papago request with credentials goes to Papago in the module, to Google in the bundle. */
  lemma {:induction false} BundleDropsEngineChoice(st: RouterState, maxSize: int, req: Request, oracle: Oracle)
    requires WellFormed(st.cache) && !Blank(req.text) && KeyOf(req) !in st.cache.store
    requires req.options.engine == Papago && req.options.apiKey != "" && req.options.apiSecret != ""
    ensures Route(st, maxSize, req, oracle).state.calls[|st.calls|].provider == PapagoApi(req.options.apiKey, req.options.apiSecret)
    ensures RouteBundled(st, maxSize, req, oracle).state.calls[|st.calls|].provider == GooglePublic
  {
    var call := ProviderCall(PapagoApi(req.options.apiKey, req.options.apiSecret), req.text, req.sourceLang, req.targetLang);
    assert Attempt(st.calls, req, oracle).1 == st.calls + [call];
    if oracle(call).Failed? {
      var st' := RouterState(st.cache, st.calls + [call]);
      var r := Route(st', maxSize, FallbackOf(req), oracle);
      assert r.state.calls[..|st'.calls|] == st'.calls;
      assert r.state.calls[|st.calls|] == st'.calls[|st.calls|];
    }
  }

  /** The translation cache object and the provider log behind `translate`, `clearCache` and `getCacheSize`. */
  class TranslatorService {
    const cache: TranslationCache
    var calls: seq<ProviderCall>

    ghost predicate Valid()
      reads this, cache
    {
      cache.Valid()
    }

    function State(): RouterState
      reads this, cache
    {
      RouterState(cache.State(), calls)
    }

    /** Module load: `new TranslationCache()` with the default size of 100. */
    constructor ()
      ensures Valid() && fresh(cache) && cache.maxSize == DefaultMaxSize
      ensures State() == RouterState(Empty(), [])
    {
      cache := new TranslationCache(DefaultMaxSize);
      calls := [];
    }

    method Translate(req: Request, oracle: Oracle) returns (result: Result<string>)
      requires Valid()
      modifies this, cache
      ensures Valid()
      ensures Routed(result, State()) == Route(old(State()), cache.maxSize, req, oracle)
      decreases if EngineOf(req.options) == Google then 0 else 1
    {
      if Trim(req.text) == "" {
        TrimEmptyIffBlank(req.text);
        return Ok("");
      }
      TrimEmptyIffBlank(req.text);
      var key := CacheKey(req.text, req.sourceLang, req.targetLang, EngineOf(req.options));
      var hit := cache.Has(key);
      if hit {
        var cached := cache.Get(key);
        return Ok(cached.value);
      }
      var engine := EngineOf(req.options);
      var outcome: Result<string>;
      var selected := SelectProvider(req.options);
      if selected.Err? {
        outcome := Err(selected.message);
      } else {
        var call := ProviderCall(selected.value, req.text, req.sourceLang, req.targetLang);
        calls := calls + [call];
        var reply := oracle(call);
        outcome := if reply.Translated? then Ok(reply.text) else Err(reply.message);
      }
      if outcome.Ok? {
        cache.Set(key, outcome.value);
        return outcome;
      }
      if engine != Google {
        result := Translate(FallbackOf(req), oracle);
        return;
      }
      return outcome;
    }

    /** `translate` as content-bundle.js defines it. */
    method TranslateBundled(req: Request, oracle: Oracle) returns (result: Result<string>)
      requires Valid()
      modifies this, cache
      ensures Valid()
      ensures Routed(result, State()) == RouteBundled(old(State()), cache.maxSize, req, oracle)
    {
      TrimEmptyIffBlank(req.text);
      if Trim(req.text) == "" {
        return Ok("");
      }
      var key := KeyOf(req);
      var hit := cache.Has(key);
      if hit {
        var cached := cache.Get(key);
        return Ok(cached.value);
      }
      result := AskGoogle(req, key, oracle);
    }

    /** The cache miss of the bundled `translate`: one call to the public Google endpoint, cached when it succeeds. */
    method AskGoogle(req: Request, key: string, oracle: Oracle) returns (result: Result<string>)
      requires Valid()
      modifies this, cache
      ensures Valid()
      ensures var call := ProviderCall(GooglePublic, req.text, req.sourceLang, req.targetLang);
        match oracle(call)
        case Translated(t) => result == Ok(t) && State() == RouterState(Inserted(old(State()).cache, cache.maxSize, key, t), old(calls) + [call])
        case Failed(m) => result == Err(m) && State() == RouterState(old(State()).cache, old(calls) + [call])
    {
      var call := ProviderCall(GooglePublic, req.text, req.sourceLang, req.targetLang);
      calls := calls + [call];
      var reply := oracle(call);
      if reply.Failed? {
        return Err(reply.message);
      }
      cache.Set(key, reply.text);
      return Ok(reply.text);
    }

    method ClearCache()
      requires Valid()
      modifies cache
      ensures Valid() && State() == RouterState(Empty(), calls)
    {
      cache.Clear();
    }

    method GetCacheSize() returns (n: nat)
      requires Valid()
      ensures n == |cache.order| && n <= Bound(cache.maxSize)
    {
      n := cache.GetSize();
    }
  }

  const PapagoCodes: seq<(string, string)> := [
    ("auto", "auto"), ("ko", "ko"), ("en", "en"), ("ja", "ja"), ("zh-CN", "zh-CN"), ("zh-TW", "zh-TW"),
    ("es", "es"), ("fr", "fr"), ("vi", "vi"), ("th", "th"), ("id", "id")]

  /** `langMap[lang] || lang` in `translateWithPapago`. */
  function PapagoCode(lang: string): string {
    var m := Lookup(PapagoCodes, lang);
    if m.Some? && m.value != "" then m.value else lang
  }

  /** The Papago table maps every code to itself, so Papago receives the codes `translate` was given. */
  lemma PapagoCodeIsIdentity(lang: string)
    ensures PapagoCode(lang) == lang
  {
    var m := Lookup(PapagoCodes, lang);
    if m.Some? {
      var i :| 0 <= i < |PapagoCodes| && PapagoCodes[i] == (lang, m.value);
      assert PapagoCodes[i].0 == PapagoCodes[i].1;
    }
  }

  /** The form body of a Papago request: source, target and text. */
  datatype PapagoRequest = PapagoRequest(keyId: string, secret: string, source: string, target: string, text: string)

  function PapagoRequestOf(call: ProviderCall): (p: PapagoRequest)
    requires call.provider.PapagoApi?
    ensures p.source == call.sourceLang && p.target == call.targetLang && p.text == call.text
  {
    PapagoCodeIsIdentity(call.sourceLang);
    PapagoCodeIsIdentity(call.targetLang);
    PapagoRequest(call.provider.keyId, call.provider.secret, PapagoCode(call.sourceLang), PapagoCode(call.targetLang), call.text)
  }

  const DeepLCodes: seq<(string, string)> := [
    ("auto", ""), ("en", "EN"), ("ko", "KO"), ("ja", "JA"), ("zh", "ZH"), ("de", "DE"),
    ("fr", "FR"), ("es", "ES"), ("it", "IT"), ("pt", "PT"), ("ru", "RU")]

  /** `langMap[lang] || lang.toUpperCase()` in `translateWithDeepL`. */
  function DeepLCode(lang: string): string {
    var m := Lookup(DeepLCodes, lang);
    if m.Some? && m.value != "" then m.value else ToUpper(lang)
  }

  /** The `auto` entry maps to the empty string, which `||` then replaces by the upper-cased input. */
  lemma DeepLAutoBecomesAUTO()
    ensures DeepLCode("auto") == "AUTO"
  {
    assert Lookup(DeepLCodes, "auto") == Some("");
  }

  /** The source language a DeepL request should carry: none for automatic detection. */
  function DeepLSourceCode(lang: string): (r: Option<string>)
    ensures r.None? <==> lang == "auto" || lang == ""
    ensures r.Some? ==> r.value == DeepLCode(lang)
  {
    var m := Lookup(DeepLCodes, lang);
    if lang == "auto" then None
    else
      assert m.Some? ==> m.value != "" by {
        if m.Some? {
          var i :| 0 <= i < |DeepLCodes| && DeepLCodes[i] == (lang, m.value);
        }
      }
      var code := DeepLCode(lang);
      if code == "" then None else Some(code)
  }

  const DeepLFreeEndpoint := "https://api-free.deepl.com/v2/translate"
  const DeepLProEndpoint := "https://api.deepl.com/v2/translate"

  /** The parameters of a DeepL request; `sourceLang` is `None` when `source_lang` is not appended. */
  datatype DeepLRequest = DeepLRequest(endpoint: string, authKey: string, text: string, targetLang: string, sourceLang: Option<string>)

  /** The request as translator.js builds it: `source_lang` is appended whenever the mapped source is non-empty. */
  function DeepLRequestAsWritten(call: ProviderCall): (d: DeepLRequest)
    requires call.provider.DeepLApi?
  {
    var source := DeepLCode(call.sourceLang);
    DeepLRequest(
      if Contains(call.provider.authKey, "free") then DeepLFreeEndpoint else DeepLProEndpoint,
      call.provider.authKey, call.text, DeepLCode(call.targetLang),
      if source != "" then Some(source) else None)
  }

  /** With the default source language `auto`, the request as written asks DeepL for the source language `AUTO`. */
  lemma DeepLAsWrittenSendsAUTO(key: string, text: string, target: string)
    ensures DeepLRequestAsWritten(ProviderCall(DeepLApi(key), text, "auto", target)).sourceLang == Some("AUTO")
  {
    DeepLAutoBecomesAUTO();
  }

  /** The request with automatic detection expressed by leaving `source_lang` out. */
  function DeepLRequestOf(call: ProviderCall): (d: DeepLRequest)
    requires call.provider.DeepLApi?
    ensures d.sourceLang.None? <==> call.sourceLang == "auto" || call.sourceLang == ""
    ensures call.sourceLang != "auto" ==> d == DeepLRequestAsWritten(call)
    ensures d.endpoint == DeepLFreeEndpoint <==> Contains(call.provider.authKey, "free")
    ensures d.targetLang == DeepLCode(call.targetLang) && d.authKey == call.provider.authKey && d.text == call.text
  {
    DeepLRequest(
      if Contains(call.provider.authKey, "free") then DeepLFreeEndpoint else DeepLProEndpoint,
      call.provider.authKey, call.text, DeepLCode(call.targetLang), DeepLSourceCode(call.sourceLang))
  }

  /** `data[0].map(item => item[0]).filter(Boolean).join('')` over the segments of a public Google reply (`None` for a missing segment). */
  function JoinSegments(segments: seq<Option<string>>): string {
    if segments == [] then ""
    else (if segments[0].Some? then segments[0].value else "") + JoinSegments(segments[1..])
  }

  /** The text of a public Google reply: an error when `data[0]` is absent. */
  function GoogleReplyText(firstPart: Option<seq<Option<string>>>): (r: ProviderReply)
    ensures r.Failed? <==> firstPart.None?
    ensures r.Translated? ==> r.text == JoinSegments(firstPart.value)
  {
    match firstPart
    case None => Failed("Invalid response from Google Translate")
    case Some(segments) => Translated(JoinSegments(segments))
  }

  /** Joining is segment by segment: the reply for two runs of segments is the concatenation of their texts. */
  lemma {:induction false} JoinSegmentsAppend(a: seq<Option<string>>, b: seq<Option<string>>)
    ensures JoinSegments(a + b) == JoinSegments(a) + JoinSegments(b)
    decreases |a|
  {
    if a == [] {
      assert a + b == b;
    } else {
      assert (a + b)[1..] == a[1..] + b;
      JoinSegmentsAppend(a[1..], b);
    }
  }

  /** Missing and empty segments contribute nothing. */
  lemma {:induction false} JoinSegmentsSkipsMissing(a: seq<Option<string>>, b: seq<Option<string>>)
    ensures JoinSegments(a + [None] + b) == JoinSegments(a + b)
    ensures JoinSegments(a + [Some("")] + b) == JoinSegments(a + b)
  {
    JoinSegmentsAppend(a + [None], b);
    JoinSegmentsAppend(a, [None]);
    JoinSegmentsAppend(a + [Some("")], b);
    JoinSegmentsAppend(a, [Some("")]);
    JoinSegmentsAppend(a, b);
  }

  /** Characters translated per engine and per day, as `UsageTracker.usage` keeps them. */
  type Usage = map<string, map<string, int>>

  /** `this.usage[engine]?.[date] || 0` */
  function UsageOf(u: Usage, engine: string, date: string): int {
    if engine in u && date in u[engine] then u[engine][date] else 0
  }

  /** The table after `track(engine, charCount)` on day `today`. */
  function Tracked(u: Usage, engine: string, today: string, charCount: int): (r: Usage)
    ensures forall e, d :: UsageOf(r, e, d) == UsageOf(u, e, d) + (if e == engine && d == today then charCount else 0)
  {
    var perDay := if engine in u then u[engine] else map[];
    u[engine := perDay[today := UsageOf(u, engine, today) + charCount]]
  }

  /** Tracking is additive: two calls for the same engine and day add up to one call with the sum. */
  lemma TrackAdds(u: Usage, engine: string, today: string, a: int, b: int)
    ensures forall e, d :: UsageOf(Tracked(Tracked(u, engine, today, a), engine, today, b), e, d)
                       == UsageOf(Tracked(u, engine, today, a + b), e, d)
  {
  }

  class UsageTracker {
    var usage: Usage

    constructor ()
      ensures usage == map[]
    {
      usage := map[];
    }

    /** `track(engine, charCount)`, with the current date passed in as `today`. */
    method Track(engine: string, today: string, charCount: int)
      modifies this
      ensures usage == Tracked(old(usage), engine, today, charCount)
    {
      var perDay := if engine in usage then usage[engine] else map[];
      var current := if today in perDay && perDay[today] != 0 then perDay[today] else 0;
      usage := usage[engine := perDay[today := current + charCount]];
    }

    /** `getUsage(engine, date)`, with the date made explicit. */
    method GetUsage(engine: string, date: string) returns (n: int)
      ensures n == UsageOf(usage, engine, date)
    {
      n := if engine in usage && date in usage[engine] then usage[engine][date] else 0;
    }
  }
}
