/**
 * The resolution pipeline of `EnjsonTranslationProvider`: validate the call,
 * reconcile the namespace, track usage, fetch the translation map from the
 * cache or the remote service, look the key up, fall back to the local file,
 * and build the result. The remote call and the fallback file are inputs
 * (`Environment`), so resolution is a total function of state and inputs.
 */
module TranslationProvider {
  import opened Wrappers
  import opened Text
  import opened Config
  import opened Results
  import opened TranslationCache
  import KeyParser
  import UsageTracker

  /** Error code of a result whose remote request failed and whose fallback missed. */
  const RequestFailedCode: string := "enjson_request_failed"

  /** The `ArgumentException`s a resolution call can throw, before any I/O. */
  datatype ArgumentError = MissingLocale | MissingProjectId | KeyMissingNamespace | NamespaceMismatch
  {
    /** The exception message. */
    function Message(): string {
      match this
      case MissingLocale => "enjson_missing_locale"
      case MissingProjectId => "enjson_missing_project_id"
      case KeyMissingNamespace => "enjson_key_missing_namespace"
      case NamespaceMismatch => "enjson_namespace_mismatch"
    }
  }

  /** What the remote translations endpoint does if it is called: fail (network
      error, non-success status, malformed body) or answer with a JSON object,
      whose body may be null. */
  datatype RemoteOutcome = RequestFailed | Responded(body: Option<map<string, string>>)

  /** The world at the time of a call: the clock, the remote endpoint, and the
      local fallback file as read and parsed (`None` when reading or parsing fails). */
  datatype Environment = Environment(
    now: int,
    remote: RemoteOutcome,
    fallbackFile: Option<map<string, string>>
  )

  /** The long-lived state a provider touches: its memory cache and the usage tracker. */
  datatype ProviderState = ProviderState(cache: Store, tracker: UsageTracker.Tracker)

  /** A translation map with a non-blank value for `key` yields that value
      (`TryGetValue(key, out v) && !string.IsNullOrWhiteSpace(v)`). */
  function LookupUsable(m: Option<map<string, string>>, key: string): (v: Option<string>)
    ensures v.Some? <==> m.Some? && key in m.value && !IsBlank(m.value[key])
    ensures v.Some? ==> v.value == m.value[key]
  {
    if m.Some? && key in m.value && !IsBlank(m.value[key]) then Some(m.value[key]) else None
  }

  /** The translation map a fetch produced (`None` when it threw), the cache
      after it, and whether the remote endpoint was called. */
  datatype Fetch = Fetch(translations: Option<map<string, string>>, cache: Store, remoteCalled: bool)

  /** `GetTranslationsAsync`: serve a live cached map without calling the
      remote endpoint; otherwise call it, treat a null body as the empty map, and
      cache the map for `CacheMinutes` from now. Storing with a non-positive
      lifetime throws, which the caller sees as a failed fetch. */
  function GetTranslations(cache: Store, opts: Options, now: int, locale: string,
                           ns: Option<string>, group: Option<string>, remote: RemoteOutcome): (r: Fetch)
    ensures var key := RemoteKey(opts.projectId, locale, ns, group);
            && (Get(cache, key, now).Some? ==> r == Fetch(Get(cache, key, now), cache, false))
            && (Get(cache, key, now).None? ==> r.remoteCalled)
            && (Get(cache, key, now).None? && remote.Responded? && opts.cacheMinutes > 0 ==>
                  && r.translations == Some(remote.body.GetOr(map[]))
                  && r.cache == cache[key := Entry(remote.body.GetOr(map[]), now + opts.cacheMinutes * MillisPerMinute)])
            && (Get(cache, key, now).None? && (remote.RequestFailed? || opts.cacheMinutes <= 0) ==>
                  r.translations.None? && r.cache == cache)
  {
    var key := RemoteKey(opts.projectId, locale, ns, group);
    match Get(cache, key, now)
    case Some(cached) => Fetch(Some(cached), cache, false)
    case None =>
      match remote
      case RequestFailed => Fetch(None, cache, true)
      case Responded(body) =>
        var m := body.GetOr(map[]);
        match Set(cache, key, m, now, opts.cacheMinutes)
        case None => Fetch(None, cache, true)
        case Some(stored) => Fetch(Some(m), stored, true)
  }

  /** The fallback map a lookup consults (`None` when unavailable) and the cache after it. */
  datatype FallbackLoad = FallbackLoad(translations: Option<map<string, string>>, cache: Store)

  /** The loading half of `TryGetLocalFallbackValue`: no path configured means
      no fallback; a live cached map is used as is; otherwise the file is read,
      and a successful read is cached for `CacheMinutes`. A failed read, or a
      non-positive lifetime, makes the fallback unavailable without caching. */
  function LoadFallback(cache: Store, opts: Options, now: int, file: Option<map<string, string>>): (r: FallbackLoad)
    ensures IsNullOrBlank(opts.localFallbackPath) ==> r == FallbackLoad(None, cache)
    ensures r.translations.None? ==> r.cache == cache
    ensures !IsNullOrBlank(opts.localFallbackPath) ==>
              var key := FallbackKey(opts.localFallbackPath.value);
              && (Get(cache, key, now).Some? ==> r == FallbackLoad(Get(cache, key, now), cache))
              && (Get(cache, key, now).None? ==>
                    r.translations == (if opts.cacheMinutes > 0 then file else None))
              && (Get(cache, key, now).None? && file.Some? && opts.cacheMinutes > 0 ==>
                    r.cache == cache[key := Entry(file.value, now + opts.cacheMinutes * MillisPerMinute)])
  {
    if IsNullOrBlank(opts.localFallbackPath) then FallbackLoad(None, cache)
    else
      var key := FallbackKey(opts.localFallbackPath.value);
      match Get(cache, key, now)
      case Some(cached) => FallbackLoad(Some(cached), cache)
      case None =>
        match file
        case None => FallbackLoad(None, cache)
        case Some(m) =>
          match Set(cache, key, m, now, opts.cacheMinutes)
          case None => FallbackLoad(None, cache)
          case Some(stored) => FallbackLoad(Some(m), stored)
  }

  /** `TryGetLocalFallbackValue(key, out value)`: the usable fallback value of
      `key`, if any, and the cache after loading the fallback map. */
  function TryGetLocalFallbackValue(cache: Store, opts: Options, now: int,
                                    file: Option<map<string, string>>, key: string): (r: (Option<string>, Store))
    ensures r.0.Some? ==> !IsBlank(r.0.value) && !IsNullOrBlank(opts.localFallbackPath)
    ensures !IsNullOrBlank(opts.localFallbackPath) ==>
              var cached := Get(cache, FallbackKey(opts.localFallbackPath.value), now);
              && (cached.Some? ==> r.0 == LookupUsable(cached, key))
              && (cached.None? ==> r.0 == (if opts.cacheMinutes > 0 then LookupUsable(file, key) else None))
  {
    var load := LoadFallback(cache, opts, now, file);
    (LookupUsable(load.translations, key), load.cache)
  }

  /** The outcome of a resolution call: a thrown `ArgumentException`, or a
      result together with the provider state after the call and whether the
      remote endpoint was called. */
  datatype Resolution =
    | Rejected(error: ArgumentError)
    | Resolved(result: TranslationResult, next: ProviderState, remoteCalled: bool)

  /** Remote calls one resolution made: zero or one. */
  function RemoteCalls(r: Resolution): nat {
    if r.Resolved? && r.remoteCalled then 1 else 0
  }

  /** `cacheNamespace ?? (hasInlineNamespace ? parsedNamespace : null)`: an
      explicit namespace, even a blank one, wins over the key's own. */
  function EffectiveNamespace(split: KeyParser.SplitKey, cacheNamespace: Option<string>): (ns: Option<string>)
    ensures cacheNamespace.Some? ==> ns == cacheNamespace
    ensures cacheNamespace.None? && split.hasNamespace ==> ns == split.namespace
    ensures cacheNamespace.None? && !split.hasNamespace ==> ns == None
  {
    if cacheNamespace.Some? then cacheNamespace
    else if split.hasNamespace then split.namespace
    else None
  }

  /** Lines after validation: track the full key, fetch, look the full key up
      in the remote map, then in the fallback map. The remote value wins; the
      fallback is consulted only when the remote map has no usable value; the
      error code marks exactly a failed fetch whose fallback also missed. */
  function Resolve(state: ProviderState, opts: Options, env: Environment, key: string, locale: string,
                   ns: Option<string>, group: Option<string>): (r: Resolution)
    ensures var fetch := GetTranslations(state.cache, opts, env.now, locale, ns, group, env.remote);
            var fallback := LoadFallback(fetch.cache, opts, env.now, env.fallbackFile);
            var remoteValue := LookupUsable(fetch.translations, key);
            var fallbackValue := LookupUsable(fallback.translations, key);
            && r.Resolved?
            && r.result.key == key
            && r.remoteCalled == fetch.remoteCalled
            && r.next.tracker == UsageTracker.Track(state.tracker, opts, Some(key))
            && (r.result.found <==> remoteValue.Some? || fallbackValue.Some?)
            && (remoteValue.Some? ==> r.result.value == remoteValue && r.next.cache == fetch.cache)
            && (remoteValue.None? ==> r.result.value == fallbackValue && r.next.cache == fallback.cache)
            && (r.result.errorCode.Some? <==> fetch.translations.None? && fallbackValue.None?)
            && (r.result.errorCode.Some? ==> r.result.errorCode.value == RequestFailedCode)
  {
    var tracker := UsageTracker.Track(state.tracker, opts, Some(key));
    var fetch := GetTranslations(state.cache, opts, env.now, locale, ns, group, env.remote);
    match fetch.translations
    case None =>
      var (fallbackValue, cache) := TryGetLocalFallbackValue(fetch.cache, opts, env.now, env.fallbackFile, key);
      var next := ProviderState(cache, tracker);
      if fallbackValue.Some? then Resolved(NewResult(key, fallbackValue, true), next, fetch.remoteCalled)
      else Resolved(NewResult(key, None, false, Some(RequestFailedCode)), next, fetch.remoteCalled)
    case Some(dict) =>
      var value := LookupUsable(Some(dict), key);
      if value.Some? then Resolved(NewResult(key, value, true), ProviderState(fetch.cache, tracker), fetch.remoteCalled)
      else
        var (fallbackValue, cache) := TryGetLocalFallbackValue(fetch.cache, opts, env.now, env.fallbackFile, key);
        var next := ProviderState(cache, tracker);
        if fallbackValue.Some? then Resolved(NewResult(key, fallbackValue, true), next, fetch.remoteCalled)
        else Resolved(NewResult(key, None, false), next, fetch.remoteCalled)
  }

  /** `GetTranslationResultAsync`. Validation runs first and in a fixed order;
      an `ArgumentException` leaves every state unchanged, and a blank key is
      answered without tracking or fetching. */
  function GetTranslationResult(state: ProviderState, opts: Options, env: Environment, key: string, locale: string,
                                customGroup: Option<string>, cacheNamespace: Option<string>): (r: Resolution)
    ensures IsBlank(locale) ==> r == Rejected(MissingLocale)
    ensures !IsBlank(locale) && IsBlank(key) ==> r == Resolved(TranslationResult("", None, false, None), state, false)
    ensures !IsBlank(locale) && !IsBlank(key) && IsBlank(opts.projectId) ==> r == Rejected(MissingProjectId)
    ensures !IsBlank(locale) && !IsBlank(key) && !IsBlank(opts.projectId) && !IsNullOrBlank(cacheNamespace) ==>
              var split := KeyParser.TrySplitKey(key, opts.namespaceDepth);
              && (!split.hasNamespace ==> r == Rejected(KeyMissingNamespace))
              && (split.hasNamespace ==>
                    (r.Rejected? <==> !EqualsIgnoreCase(split.namespace.value, cacheNamespace.value)))
              && (split.hasNamespace && r.Rejected? ==> r.error == NamespaceMismatch)
    ensures IsNullOrBlank(cacheNamespace) ==> (r.Rejected? <==> IsBlank(locale) || (!IsBlank(key) && IsBlank(opts.projectId)))
    ensures r.Resolved? ==> WellFormed(r.result)
    ensures r.Resolved? && !IsBlank(key) ==>
              && r.result.key == key
              && r.next.tracker == UsageTracker.Track(state.tracker, opts, Some(key))
  {
    if IsBlank(locale) then Rejected(MissingLocale)
    else if IsBlank(key) then Resolved(NewResult("", None, false), state, false)
    else if IsBlank(opts.projectId) then Rejected(MissingProjectId)
    else
      var split := KeyParser.TrySplitKey(key, opts.namespaceDepth);
      if !IsNullOrBlank(cacheNamespace) && !split.hasNamespace then Rejected(KeyMissingNamespace)
      else if !IsNullOrBlank(cacheNamespace) && !NullableEqualsIgnoreCase(split.namespace, cacheNamespace) then
        Rejected(NamespaceMismatch)
      else Resolve(state, opts, env, key, locale, EffectiveNamespace(split, cacheNamespace), customGroup)
  }

  /** `GetTranslationAsync`: the value when found, the key itself otherwise, so
      that a caller shows the raw key rather than blank text. Its state change is
      that of `GetTranslationResult`. */
  function GetTranslation(state: ProviderState, opts: Options, env: Environment, key: string, locale: string,
                          customGroup: Option<string>, cacheNamespace: Option<string>): (r: Result<string, ArgumentError>)
    ensures var res := GetTranslationResult(state, opts, env, key, locale, customGroup, cacheNamespace);
            && (res.Rejected? ==> r == Failure(res.error))
            && (res.Resolved? && res.result.found ==> r.Success? && Some(r.value) == res.result.value)
            && (res.Resolved? && !res.result.found ==> r.Success? && r.value == res.result.key)
    ensures r.Success? ==> (IsBlank(r.value) <==> IsBlank(key))
  {
    match GetTranslationResult(state, opts, env, key, locale, customGroup, cacheNamespace)
    case Rejected(e) => Failure(e)
    case Resolved(result, _, _) => Success(if result.found then result.value.value else result.key)
  }

  /** The remote cache key a validated call uses. */
  function CallKey(opts: Options, key: string, locale: string, customGroup: Option<string>, cacheNamespace: Option<string>): string {
    RemoteKey(opts.projectId, locale, EffectiveNamespace(KeyParser.TrySplitKey(key, opts.namespaceDepth), cacheNamespace), customGroup)
  }

  /** A live cached map for the call's cache key means no remote call. */
  lemma LiveEntryMeansNoRemoteCall(state: ProviderState, opts: Options, env: Environment, key: string, locale: string,
                                   customGroup: Option<string>, cacheNamespace: Option<string>)
    requires Get(state.cache, CallKey(opts, key, locale, customGroup, cacheNamespace), env.now).Some?
    ensures RemoteCalls(GetTranslationResult(state, opts, env, key, locale, customGroup, cacheNamespace)) == 0
  {
  }

  /** Loading the fallback map never makes a live entry of the cache expire
      earlier than `CacheMinutes` from now. */
  lemma LoadFallbackKeepsLive(cache: Store, opts: Options, now: int,
                                                 file: Option<map<string, string>>, key: string, later: int)
    requires Get(cache, key, later).Some? && later < now + opts.cacheMinutes * MillisPerMinute
    ensures Get(LoadFallback(cache, opts, now, file).cache, key, later).Some?
  {
  }

  /** Resolving the same call twice within the cache lifetime makes at most one
      remote call between the two, provided the first call's remote request (if
      made) answers. The second call is served from the map the first cached. */
  lemma {:induction false} RepeatWithinTtlCallsRemoteAtMostOnce(
    state: ProviderState, opts: Options, env1: Environment, env2: Environment,
    key: string, locale: string, customGroup: Option<string>, cacheNamespace: Option<string>)
    requires env1.remote.Responded? && opts.cacheMinutes > 0
    requires env2.now < env1.now + opts.cacheMinutes * MillisPerMinute
    ensures var r1 := GetTranslationResult(state, opts, env1, key, locale, customGroup, cacheNamespace);
            r1.Resolved? ==>
              RemoteCalls(r1) + RemoteCalls(GetTranslationResult(r1.next, opts, env2, key, locale, customGroup, cacheNamespace)) <= 1
  {
    var r1 := GetTranslationResult(state, opts, env1, key, locale, customGroup, cacheNamespace);
    if r1.Resolved? && r1.remoteCalled {
      var ns := EffectiveNamespace(KeyParser.TrySplitKey(key, opts.namespaceDepth), cacheNamespace);
      var ck := RemoteKey(opts.projectId, locale, ns, customGroup);
      var fetch := GetTranslations(state.cache, opts, env1.now, locale, ns, customGroup, env1.remote);
      assert Get(fetch.cache, ck, env2.now).Some?;
      LoadFallbackKeepsLive(fetch.cache, opts, env1.now, env1.fallbackFile, ck, env2.now);
      assert Get(r1.next.cache, ck, env2.now).Some?;
      LiveEntryMeansNoRemoteCall(r1.next, opts, env2, key, locale, customGroup, cacheNamespace);
    }
  }

  /** Options with a project id, the default namespace depth and cache
      lifetime, and the given fallback path. */
  function ScenarioOptions(fallbackPath: Option<string>): Options {
    Defaults.(projectId := "p", localFallbackPath := fallbackPath)
  }

  /** The lookup uses the full key, not the key with its namespace split off:
      a remote map holding only "welcome" does not resolve "emails.welcome". */
  lemma FullKeyLookupExample()
    ensures var env := Environment(0, Responded(Some(map["welcome" := "Hi"])), None);
            var r := GetTranslationResult(ProviderState(map[], UsageTracker.Initial), ScenarioOptions(None), env,
                                          "emails.welcome", "en", None, None);
            r.Resolved? && r.result == TranslationResult("emails.welcome", None, false, None)
  {
    assert !IsWhiteSpace("en"[0]) && !IsWhiteSpace("emails.welcome"[0]) && !IsWhiteSpace("p"[0]);
    assert "emails.welcome" !in map["welcome" := "Hi"];
  }

  /** A failed request falls back to the local file: when the file has a usable
      value for the full key, the result is found, without an error code. */
  lemma RequestFailureUsesFallback(state: ProviderState, opts: Options, env: Environment,
                                                      key: string, locale: string, ns: Option<string>, group: Option<string>)
    requires env.remote == RequestFailed && opts.cacheMinutes > 0
    requires Get(state.cache, RemoteKey(opts.projectId, locale, ns, group), env.now).None?
    requires !IsNullOrBlank(opts.localFallbackPath)
    requires Get(state.cache, FallbackKey(opts.localFallbackPath.value), env.now).None?
    requires env.fallbackFile.Some? && key in env.fallbackFile.value && !IsBlank(env.fallbackFile.value[key])
    ensures Resolve(state, opts, env, key, locale, ns, group).result
         == TranslationResult(key, Some(env.fallbackFile.value[key]), true, None)
  {
  }

  /** A failed request with no fallback configured is a miss with the
      request-failed error code. */
  lemma RequestFailureNoFallbackExample()
    ensures var env := Environment(0, RequestFailed, None);
            var r := GetTranslationResult(ProviderState(map[], UsageTracker.Initial), ScenarioOptions(None), env,
                                          "emails.welcome", "en", None, None);
            r.Resolved? && r.result == TranslationResult("emails.welcome", None, false, Some("enjson_request_failed"))
  {
    assert !IsWhiteSpace("en"[0]) && !IsWhiteSpace("emails.welcome"[0]) && !IsWhiteSpace("p"[0]);
  }
}
