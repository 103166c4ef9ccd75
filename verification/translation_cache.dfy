/**
 * The expiring key-to-map store the provider keeps in `IMemoryCache`, and the
 * keys under which it stores remote translation maps and the local fallback map.
 * Time is an explicit number of milliseconds.
 */
module TranslationCache {
  import opened Wrappers
  import opened Text

  const MillisPerMinute: int := 60000

  /** A cached translation map and the absolute instant at which it expires. */
  datatype Entry = Entry(translations: map<string, string>, expiresAt: int)

  type Store = map<string, Entry>

  /** `TryGetValue`: an entry is live strictly before its expiry instant; an
      expired entry reads as a miss. */
  function Get(store: Store, key: string, now: int): (r: Option<map<string, string>>)
    ensures r.Some? <==> key in store && now < store[key].expiresAt
    ensures r.Some? ==> r.value == store[key].translations
  {
    if key in store && now < store[key].expiresAt then Some(store[key].translations) else None
  }

  /** `Set` with `AbsoluteExpirationRelativeToNow = TimeSpan.FromMinutes(minutes)`.
      The cache refuses a non-positive lifetime by throwing, shown here as `None`. */
  function Set(store: Store, key: string, m: map<string, string>, now: int, minutes: int): (r: Option<Store>)
    ensures r.None? <==> minutes <= 0
    ensures r.Some? ==> r.value.Keys == store.Keys + {key}
  {
    if minutes <= 0 then None
    else Some(store[key := Entry(m, now + minutes * MillisPerMinute)])
  }

  /** A stored map reads back unchanged until `minutes` have passed since it was
      stored and reads as a miss from then on; no other key is affected. */
  lemma GetAfterSet(store: Store, key: string, m: map<string, string>, now: int, minutes: int, later: int, other: string)
    requires minutes > 0
    ensures var s := Set(store, key, m, now, minutes).value;
            && (later < now + minutes * MillisPerMinute ==> Get(s, key, later) == Some(m))
            && (later >= now + minutes * MillisPerMinute ==> Get(s, key, later) == None)
            && (other != key ==> Get(s, other, later) == Get(store, other, later))
  {
  }

  /** Placeholder standing for a blank namespace in a cache key. */
  const RootNamespace: string := "root"
  /** Placeholder standing for a blank custom group in a cache key. */
  const GlobalGroup: string := "global"

  /** The namespace part of a cache key: the namespace, or "root" when it is blank. */
  function NamespaceKey(ns: Option<string>): (k: string)
    ensures !IsBlank(k)
    ensures !IsNullOrBlank(ns) ==> k == ns.value
    ensures IsNullOrBlank(ns) ==> k == RootNamespace
  {
    if IsNullOrBlank(ns) then assert !IsWhiteSpace(RootNamespace[0]); RootNamespace else ns.value
  }

  /** The custom-group part of a cache key: the group, or "global" when it is blank. */
  function GroupKey(group: Option<string>): (k: string)
    ensures !IsBlank(k)
    ensures !IsNullOrBlank(group) ==> k == group.value
    ensures IsNullOrBlank(group) ==> k == GlobalGroup
  {
    if IsNullOrBlank(group) then assert !IsWhiteSpace(GlobalGroup[0]); GlobalGroup else group.value
  }

  /** The cache key of a remote translation map:
      "enjson:{projectId}:{locale}:{namespace or root}:{customGroup or global}". */
  function RemoteKey(projectId: string, locale: string, ns: Option<string>, group: Option<string>): (k: string)
    ensures |k| == 10 + |projectId| + |locale| + |NamespaceKey(ns)| + |GroupKey(group)|
    ensures k[..7] == "enjson:" && k[7..7 + |projectId|] == projectId && k[7 + |projectId|] == ':'
  {
    "enjson:" + projectId + ":" + locale + ":" + NamespaceKey(ns) + ":" + GroupKey(group)
  }

  /** The cache key of the local fallback map: "enjson:fallback:{path}". */
  function FallbackKey(path: string): (k: string)
    ensures |k| == 16 + |path|
    ensures k[..16] == "enjson:fallback:" && k[16..] == path
  {
    "enjson:fallback:" + path
  }

  /** A blank namespace and the literal namespace "root" share one cache entry,
      and so do a blank custom group and the literal group "global". */
  lemma PlaceholdersCollide(projectId: string, locale: string, ns: Option<string>, group: Option<string>)
    ensures IsNullOrBlank(ns) ==>
              RemoteKey(projectId, locale, ns, group) == RemoteKey(projectId, locale, Some("root"), group)
    ensures IsNullOrBlank(group) ==>
              RemoteKey(projectId, locale, ns, group) == RemoteKey(projectId, locale, ns, Some("global"))
  {
    assert !IsWhiteSpace("root"[0]) && !IsWhiteSpace("global"[0]);
  }

  /** A ':' inside a locale can make two different requests share one key. */
  lemma ColonCollides()
    ensures RemoteKey("p", "en:x", Some("y"), None) == RemoteKey("p", "en", Some("x:y"), None)
  {
    assert NamespaceKey(Some("y")) == "y" by { assert !IsWhiteSpace("y"[0]); }
    assert NamespaceKey(Some("x:y")) == "x:y" by { assert !IsWhiteSpace("x:y"[0]); }
  }

  /** Two strings that each end at their first ':' are equal if the whole
      concatenations are. */
  lemma SplitAtColon(a: string, b: string, c: string, d: string)
    requires ':' !in a && ':' !in c
    requires a + [':'] + b == c + [':'] + d
    ensures a == c && b == d
  {
    var s := a + [':'] + b;
    forall i | 0 <= i < |a|
      ensures s[i] != ':'
    {
      assert s[i] == a[i] && a[i] in a;
    }
    forall i | 0 <= i < |c|
      ensures s[i] != ':'
    {
      assert s[i] == c[i] && c[i] in c;
    }
    assert s[|a|] == ':' && s[|c|] == ':';
    assert |a| == |c|;
    assert a == s[..|a|] && c == s[..|c|];
    assert b == s[|a| + 1..] && d == s[|c| + 1..];
  }

  /** The cache key as the nested concatenation the injectivity proof peels. */
  lemma RemoteKeyShape(projectId: string, locale: string, ns: Option<string>, group: Option<string>)
    ensures RemoteKey(projectId, locale, ns, group)
         == "enjson:" + (projectId + [':'] + (locale + [':'] + (NamespaceKey(ns) + [':'] + GroupKey(group))))
  {
  }

  /** Equal strings with a common prefix are equal after it. */
  lemma DropPrefix(prefix: string, x: string, y: string)
    requires prefix + x == prefix + y
    ensures x == y
  {
    assert x == (prefix + x)[|prefix|..];
    assert y == (prefix + y)[|prefix|..];
  }

  /** The only collisions are the ones above: when the project id, the locale
      and the namespace key hold no ':', equal cache keys mean equal project ids,
      locales, namespace keys and group keys. */
  lemma {:induction false} RemoteKeyInjective(
    p1: string, l1: string, n1: Option<string>, g1: Option<string>,
    p2: string, l2: string, n2: Option<string>, g2: Option<string>)
    requires ':' !in p1 && ':' !in l1 && ':' !in NamespaceKey(n1)
    requires ':' !in p2 && ':' !in l2 && ':' !in NamespaceKey(n2)
    requires RemoteKey(p1, l1, n1, g1) == RemoteKey(p2, l2, n2, g2)
    ensures p1 == p2 && l1 == l2
    ensures NamespaceKey(n1) == NamespaceKey(n2) && GroupKey(g1) == GroupKey(g2)
  {
    var t1 := NamespaceKey(n1) + [':'] + GroupKey(g1);
    var t2 := NamespaceKey(n2) + [':'] + GroupKey(g2);
    var r1 := l1 + [':'] + t1;
    var r2 := l2 + [':'] + t2;
    RemoteKeyShape(p1, l1, n1, g1);
    RemoteKeyShape(p2, l2, n2, g2);
    DropPrefix("enjson:", p1 + [':'] + r1, p2 + [':'] + r2);
    SplitAtColon(p1, r1, p2, r2);
    SplitAtColon(l1, t1, l2, t2);
    SplitAtColon(NamespaceKey(n1), GroupKey(g1), NamespaceKey(n2), GroupKey(g2));
  }

  /** The fallback map and a remote map share a cache key only when the project
      id is "fallback" (or holds a ':'). */
  lemma {:induction false} FallbackKeyCollision(projectId: string, locale: string, ns: Option<string>, group: Option<string>, path: string)
    requires ':' !in projectId
    ensures RemoteKey(projectId, locale, ns, group) == FallbackKey(path) ==> projectId == "fallback"
  {
    if RemoteKey(projectId, locale, ns, group) == FallbackKey(path) {
      var rest := locale + [':'] + (NamespaceKey(ns) + [':'] + GroupKey(group));
      RemoteKeyShape(projectId, locale, ns, group);
      assert FallbackKey(path) == "enjson:" + ("fallback" + [':'] + path);
      DropPrefix("enjson:", projectId + [':'] + rest, "fallback" + [':'] + path);
      SplitAtColon(projectId, rest, "fallback", path);
    }
  }

  /** The collision that needs the project id "fallback": a remote map and the
      fallback map share one entry. */
  lemma FallbackProjectCollides()
    ensures RemoteKey("fallback", "en", None, None) == FallbackKey("en:root:global")
  {
  }
}
