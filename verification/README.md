# Enjson translation resolution, modelled in Dafny

This project models the core of the Enjson translations client for .NET. The
client resolves a dotted localization key such as `emails.user.created` to a
translated string for one locale. It does so in four steps:

- it validates the call;
- it reconciles an optional explicit namespace with the namespace inline in the key;
- it records the key with a usage tracker;
- it reads the locale's translation map from a memory cache or the remote
  service, falling back to a local JSON file.

The usage tracker gathers distinct keys, compared case-insensitively. It
reports them in bounded batches, and a single-flight flag guards each flush.

HTTP, files and clocks are inputs rather than effects. The remote endpoint is a
`RemoteOutcome` (`RequestFailed | Responded(body)`). The parsed fallback file is
an `Option<map>`, where `None` means the read or the parse failed. Time is an
explicit `now` in milliseconds. With these inputs, resolution is a total
function from (state, options, environment, arguments) to either an argument
error or a result plus the next state.

Modules, one per component:

- `Wrappers`: `Option`, `Result`.
- `Text`: `string.IsNullOrWhiteSpace` and ordinal case-insensitive comparison.
- `Math`: `Math.Min` and `Math.Max`.
- `Config`: the options the logic reads, and their defaults.
- `KeyParser`: `TrySplitKey`, and the `Split`/`Join` it relies on.
- `Results`: the `EnjsonTranslationResult` record.
- `TranslationCache`: the expiring store and its cache keys.
- `UsageTracker`: `Track`, and `FlushAsync` split into `FlushBegin`/`FlushEnd`
  at its one await.
- `TranslationProvider`: `GetTranslationsAsync`, `TryGetLocalFallbackValue`,
  `GetTranslationResultAsync` and `GetTranslationAsync`.

Three facts about the code shape the model:

- Both lookups use the full original key (EnjsonTranslationProvider.cs:88 and
  :91). The lookup key that `TrySplitKey` computes at :59 is never used. So a
  remote map holding only `welcome` does not resolve `emails.welcome`
  (`FullKeyLookupExample`).
- Cache keys are not injective (EnjsonTranslationProvider.cs:115-117, :183):
  - a blank namespace shares a key with the namespace `"root"`, and a blank
    custom group shares one with the group `"global"`;
  - a `:` inside a part can make two keys equal;
  - the fallback map lives in the same cache, so a project id such as
    `"fallback"` can make a remote key equal the fallback key.

  `PlaceholdersCollide`, `ColonCollides` and `FallbackProjectCollides` exhibit
  these collisions. `RemoteKeyInjective` and `FallbackKeyCollision` prove that,
  for parts without `:`, no other collisions exist.
- A non-positive `CacheMinutes` makes the cache entry options throw
  (EnjsonTranslationProvider.cs:145, :194). After the remote call, that
  exception is caught as a failed fetch (:80). While the fallback file is
  loading, it makes the fallback unavailable (:197). `TranslationCache.Set`
  models this as `None`.

## Model

| member | source | states |
|---|---|---|
| Text.Fold | EnjsonUsageTracker.cs:31-32 | the comparer's case folding: same length, each ASCII lower-case letter mapped to its own capital (code point − 32), every other character kept |
| Text.FoldCharIff | EnjsonUsageTracker.cs:31-32 | two characters fold alike iff they are equal or the two cases of one ASCII letter |
| Text.EqualsIgnoreCaseIff | EnjsonTranslationProvider.cs:65 | case-insensitive equality holds iff the strings have equal length and agree at each position up to the case of an ASCII letter |
| KeyParser.Segments | EnjsonTranslationProvider.cs:159 | every piece `Split` keeps under `RemoveEmptyEntries` is non-empty and holds no `.` |
| KeyParser.SegmentsSplitAt | EnjsonTranslationProvider.cs:159 | the segments of `a + "." + b` are the segments of `a` followed by those of `b`, whatever leading, trailing or doubled dots either holds |
| KeyParser.SegmentsOfSegment | EnjsonTranslationProvider.cs:159 | the empty string has no segments and a dot-free non-empty string is its own single segment; with `SegmentsSplitAt` this fixes the segments of every key |
| KeyParser.Join | EnjsonTranslationProvider.cs:164-165 | `string.Join(".", …)`: one part joins to itself, the result starts with the first part followed by a `.` when there are more, and joined segments are non-empty |
| KeyParser.SegmentsOfJoin | EnjsonTranslationProvider.cs:159-165 | splitting undoes `string.Join(".", …)`: the segments of joined segments are those segments |
| KeyParser.JoinAppend | EnjsonTranslationProvider.cs:164-165 | joining two non-empty runs of segments is joining each with a `.` between them |
| KeyParser.TrySplitKey | EnjsonTranslationProvider.cs:151-174 | a failed split returns no namespace and the key unchanged; depth ≤ 0 or fewer than two segments always fails; a successful split has a non-empty namespace and a non-blank lookup key |
| KeyParser.SplitKeyParts | EnjsonTranslationProvider.cs:159-173 | on success the namespace's segments are exactly the first min(depth, n−1) segments of the key, the lookup key's segments are the rest, and `namespace + "." + lookupKey` is the key's segments rejoined |
| KeyParser.SplitSucceedsIff | EnjsonTranslationProvider.cs:156-171 | the split succeeds iff depth > 0, the key has at least two segments, and it is not the case that the lookup key would be a single blank last segment |
| KeyParser.SplitExample | EnjsonTranslationProvider.cs:159-165 | `"a.b.c"` at depth 1 splits into `"a"` and `"b.c"` |
| KeyParser.SingleSegmentExample | EnjsonTranslationProvider.cs:160-161 | an undotted key has no namespace |
| KeyParser.ClampedDepthExample | EnjsonTranslationProvider.cs:163 | depth 5 on `"a.b"` is clamped to 1 |
| KeyParser.BlankLastSegmentExample | EnjsonTranslationProvider.cs:166-171 | `"a. "` fails because its lookup key is blank |
| Results.NewResult | EnjsonTranslationResult.cs:11-17 | key, value, found flag and error code are stored verbatim; the error code defaults to null |
| TranslationCache.Get | EnjsonTranslationProvider.cs:118-119 | an entry is served iff it exists and its expiry instant has not been reached |
| TranslationCache.Set | EnjsonTranslationProvider.cs:143-146 | the store refuses a non-positive lifetime; otherwise it adds exactly the one key |
| TranslationCache.GetAfterSet | EnjsonTranslationProvider.cs:143-146 | a stored map reads back until `CacheMinutes` after insertion (absolute expiry), reads as a miss from then on, and other keys are unaffected |
| TranslationCache.NamespaceKey | EnjsonTranslationProvider.cs:115 | the namespace part of the key is the namespace when it is not blank and `"root"` otherwise, so it is never blank |
| TranslationCache.GroupKey | EnjsonTranslationProvider.cs:116 | the group part of the key is the group when it is not blank and `"global"` otherwise, so it is never blank |
| TranslationCache.RemoteKey | EnjsonTranslationProvider.cs:117 | the key starts with `enjson:`, then the project id, then `:`, and its length is the parts' lengths plus the ten fixed characters |
| TranslationCache.FallbackKey | EnjsonTranslationProvider.cs:183 | the fallback key is `enjson:fallback:` followed by the path |
| TranslationCache.PlaceholdersCollide | EnjsonTranslationProvider.cs:115-117 | any null or blank namespace shares its key with `"root"`, and any null or blank group shares its key with `"global"` |
| TranslationCache.ColonCollides | EnjsonTranslationProvider.cs:117 | locale `"en:x"` with namespace `"y"` shares a key with locale `"en"` with namespace `"x:y"` |
| TranslationCache.RemoteKeyInjective | EnjsonTranslationProvider.cs:115-117 | when the project id, the locale and the namespace key hold no `:`, equal cache keys imply an equal project id, locale, namespace key and group key |
| TranslationCache.FallbackKeyCollision | EnjsonTranslationProvider.cs:183 | for a project id without `:`, a remote key can equal the fallback key only when the project id is `"fallback"` (an id containing `:`, such as `"fallback:x"`, can collide too) |
| TranslationCache.FallbackProjectCollides | EnjsonTranslationProvider.cs:183 | with the project id `"fallback"`, a remote map and the fallback map do share an entry |
| UsageTracker.Track | EnjsonUsageTracker.cs:55-62 | a no-op when tracking is disabled or the key is blank; otherwise it only inserts, the key is then held in some spelling, an already-held key changes nothing, the flag is untouched, and validity (case-distinct, non-blank keys) is kept |
| UsageTracker.TrackAddsFoldedKey | EnjsonUsageTracker.cs:31-32 | seen through the case-insensitive comparer, tracking adds exactly the key's folded spelling |
| UsageTracker.TrackIdempotent | EnjsonUsageTracker.cs:61 | tracking a key twice is the same as tracking it once |
| UsageTracker.TrackAllInsertsOnly | EnjsonUsageTracker.cs:55-62 | any sequence of `Track` calls keeps the flag and every pending key, keeps validity, and leaves every tracked non-blank key pending |
| UsageTracker.BatchLimit | EnjsonUsageTracker.cs:78 | `Math.Max(1, batchSize)`: at least one key per report, and exactly the configured size when that is positive |
| UsageTracker.FlushBegin | EnjsonUsageTracker.cs:64-91 | disabled means no effect; a set flag means an immediate return with no change; an empty pending set sends nothing and leaves the flag as found; otherwise the flag is taken and the batch is a non-empty subset of pending of size min(n, max(1, batchSize)) |
| UsageTracker.FlushEnd | EnjsonUsageTracker.cs:93-106 | the flag is clear on every outcome; a failed report leaves pending unchanged; an accepted one removes every batched key in every spelling and keeps every other key |
| UsageTracker.FlushEndRemovesBatch | EnjsonUsageTracker.cs:96-97 | removing the batch through the comparer is exactly `pending − batch` and keeps validity |
| UsageTracker.KeysTrackedMidFlushSurvive | EnjsonUsageTracker.cs:91-106 | with any `Track` calls between sending and completion, success leaves `pending − batch`, failure leaves pending untouched, keys tracked mid-flush that are not in the batch survive, and the flag ends clear |
| UsageTracker.SingleFlight | EnjsonUsageTracker.cs:69-70 | while a report is in flight the flag stays set, so no second flush sends |
| UsageTracker.BatchDrain | EnjsonUsageTracker.cs:77-82 | a successful batch leaves n − min(n, max(1, batchSize)) keys, and a non-empty pending set gives a non-empty batch |
| UsageTracker.DrainExample | EnjsonUsageTracker.cs:77-82 | 250 keys with batch size 200 drain as 200 and then 50 |
| TranslationProvider.LookupUsable | EnjsonTranslationProvider.cs:88 | a value is taken iff the key is present with a non-blank value |
| TranslationProvider.GetTranslations | EnjsonTranslationProvider.cs:109-149 | a live cached map is returned with no remote call; on a miss the remote is called, a null body becomes the empty map and is cached with expiry CacheMinutes after the call's instant `now` (the request's duration is not modelled); a failed request or a refused lifetime yields no map and leaves the cache unchanged |
| TranslationProvider.LoadFallback | EnjsonTranslationProvider.cs:176-201 | no path means no fallback; a live cached map is used; otherwise the file read is used and cached; a failed read or a refused lifetime yields no map and no cache change |
| TranslationProvider.TryGetLocalFallbackValue | EnjsonTranslationProvider.cs:176-204 | a value is only ever returned with a configured path, is non-blank, and comes from the cached fallback map, or from the file when nothing is cached |
| TranslationProvider.EffectiveNamespace | EnjsonTranslationProvider.cs:69 | an explicit namespace, even a blank one, wins; otherwise the inline namespace; otherwise none |
| TranslationProvider.Resolve | EnjsonTranslationProvider.cs:71-94 | tracks the full key once; found iff the remote map or the fallback map has a usable value for the full key; the remote value wins, and the fallback is not loaded when it does; the error code `enjson_request_failed` appears iff the fetch failed and the fallback missed |
| TranslationProvider.GetTranslationResult | EnjsonTranslationProvider.cs:43-95 | validation order: a blank locale rejects even with a blank key; a blank key returns `("", null, false)` with no tracking, no fetch and no state change; a blank project id rejects; with a non-blank explicit namespace, a missing inline namespace or one differing ignoring case rejects, and a matching one never does; every result is well formed; the tracker sees the original key |
| TranslationProvider.GetTranslation | EnjsonTranslationProvider.cs:98-107 | returns the value when found and the key otherwise, so the returned text is blank only for a blank key |
| TranslationProvider.LiveEntryMeansNoRemoteCall | EnjsonTranslationProvider.cs:115-119 | a live cached map for the call's key means the call makes no remote request |
| TranslationProvider.LoadFallbackKeepsLive | EnjsonTranslationProvider.cs:183-195 | loading the fallback never makes a live entry expire before now + CacheMinutes |
| TranslationProvider.RepeatWithinTtlCallsRemoteAtMostOnce | EnjsonTranslationProvider.cs:115-146 | two identical calls within the cache lifetime make at most one remote request between them, when the first request answers |
| TranslationProvider.FullKeyLookupExample | EnjsonTranslationProvider.cs:88-94 | a remote map holding only `"welcome"` does not resolve `"emails.welcome"` |
| TranslationProvider.RequestFailureUsesFallback | EnjsonTranslationProvider.cs:80-83 | after a failed request, a usable value for the full key in the fallback file gives a found result with no error code |
| TranslationProvider.RequestFailureNoFallbackExample | EnjsonTranslationProvider.cs:80-86 | a failed request with no fallback path gives `(key, null, false, "enjson_request_failed")` |

## Left out

- HTTP transport is left out: `GetFromJsonAsync`, `PostAsJsonAsync`, status
  codes and JSON deserialization. Only the outcome is modelled: a failed or
  answered request, and an accepted, non-success or throwing report.
- URL building and `Uri.EscapeDataString` (EnjsonTranslationProvider.cs:121-136,
  EnjsonUsageTracker.cs:84) are left out. They are foreign library calls that
  only feed the transport.
- File I/O is left out: the `File.Exists` check in the constructor
  (EnjsonTranslationProvider.cs:38-39), and `ReadAllText` with
  `JsonSerializer`. The parsed file is an `Option<map>` input.
- A JSON `null` value in a translation map is represented as the empty string.
  Both are rejected by the same blank check, so lookups agree.
- `IMemoryCache` internals are left out: size limits and compaction under
  memory pressure. The model keeps an entry until it expires, whereas the real
  cache may evict it earlier and cause an extra remote call.
- Timer scheduling and `Dispose` (EnjsonUsageTracker.cs:46-51, 112-115) are left out.
- Thread interleaving is modelled only at the flush's await (`FlushBegin`,
  then any `Track` calls, then `FlushEnd`).
- Cancellation tokens are left out.
- GetTranslations: one resolution happens at a single instant, `env.now`. That
  instant serves for the remote cache check, for the expiry of the stored remote
  map, and for the fallback cache check. In the code, the map is stored only
  after the awaited GET returns (EnjsonTranslationProvider.cs:138-146), so its
  expiry is later by the request's duration, and the fallback lookup happens
  later still. Hence the model does not promise the exact expiry instant of a
  freshly fetched map. The properties stated about expiry still hold in the
  code, where entries live at least as long.
- The `batch.Count == 0` exit of `FlushAsync` is not a separate branch, because
  it cannot be reached. `FlushBegin` proves that a non-empty pending set always
  yields a non-empty batch.
- Which keys `Take` picks depends on the dictionary's enumeration order. The
  model picks any subset of the right size.
- Case-insensitive comparison folds ASCII letters only. The ordinal case
  mapping of other letters is not modelled.
- The rest of the repository is not part of this model: dependency-injection
  registration (ServiceCollectionExtensions.cs), configuration binding, and the
  provider interface (IExternalTranslationProvider.cs). Their only inputs here
  are the option values and defaults in `Config`.
