/**
 * Splitting a dotted translation key such as "emails.user.created" into an
 * inline namespace and a lookup key (`TrySplitKey`).
 */
module KeyParser {
  import opened Wrappers
  import opened Text
  import opened Math

  const Separator: char := '.'

  /** A piece `string.Split` keeps under `RemoveEmptyEntries`: non-empty, no separator. */
  predicate IsSegment(p: string) {
    |p| > 0 && Separator !in p
  }

  predicate AllSegments(parts: seq<string>) {
    forall i :: 0 <= i < |parts| ==> IsSegment(parts[i])
  }

  /** Length of the longest prefix of `s` without a separator. */
  function TokenLength(s: string): (n: nat)
    ensures n <= |s|
    ensures forall i :: 0 <= i < n ==> s[i] != Separator
    ensures n < |s| ==> s[n] == Separator
  {
    if s == [] || s[0] == Separator then 0 else 1 + TokenLength(s[1..])
  }

  /** `key.Split('.', StringSplitOptions.RemoveEmptyEntries)`: the maximal
      separator-free pieces of `s`, in order, with the empty ones dropped. */
  function Segments(s: string): (parts: seq<string>)
    ensures AllSegments(parts)
    decreases |s|
  {
    if s == [] then []
    else if s[0] == Separator then Segments(s[1..])
    else
      var n := TokenLength(s);
      [s[..n]] + Segments(s[n..])
  }

  /** `string.Join(".", parts)`. */
  function Join(parts: seq<string>): (s: string)
    ensures |parts| == 1 ==> s == parts[0]
    ensures |parts| > 0 ==> |s| >= |parts[0]| && s[..|parts[0]|] == parts[0]
    ensures |parts| >= 2 ==> |s| > |parts[0]| && s[|parts[0]|] == Separator
    ensures |parts| > 0 && AllSegments(parts) ==> |s| > 0
  {
    if |parts| == 0 then ""
    else if |parts| == 1 then parts[0]
    else parts[0] + [Separator] + Join(parts[1..])
  }

  /** The outcome of `TrySplitKey`: its return value and its two out-parameters. */
  datatype SplitKey = SplitKey(hasNamespace: bool, namespace: Option<string>, lookupKey: string)

  /** Number of leading segments taken as namespace: the configured depth,
      clamped so that at least one segment is left for the lookup key. */
  function NamespaceSegments(depth: int, count: int): int {
    Min(depth, count - 1)
  }

  /** `TrySplitKey(key, namespaceDepth, out namespace, out lookupKey)`. */
  function TrySplitKey(key: string, depth: int): (r: SplitKey)
    ensures !r.hasNamespace ==> r.namespace == None && r.lookupKey == key
    ensures depth <= 0 || |Segments(key)| <= 1 ==> !r.hasNamespace
    ensures r.hasNamespace ==> r.namespace.Some? && |r.namespace.value| > 0 && !IsBlank(r.lookupKey)
  {
    if depth <= 0 then SplitKey(false, None, key)
    else
      var parts := Segments(key);
      if |parts| <= 1 then SplitKey(false, None, key)
      else
        var d := NamespaceSegments(depth, |parts|);
        var lookupKey := Join(parts[d..]);
        if IsBlank(lookupKey) then SplitKey(false, None, key)
        else
          JoinNonEmpty(parts[..d]);
          SplitKey(true, Some(Join(parts[..d])), lookupKey)
  }

  /** Joining at least one non-empty segment yields a non-empty string. */
  lemma JoinNonEmpty(parts: seq<string>)
    requires |parts| > 0 && AllSegments(parts)
    ensures |Join(parts)| > 0
  {
  }

  /** Joining two non-empty runs of segments is joining each and putting a
      separator between them. */
  lemma {:induction false} JoinAppend(a: seq<string>, b: seq<string>)
    requires |a| > 0 && |b| > 0
    ensures Join(a + b) == Join(a) + [Separator] + Join(b)
    decreases |a|
  {
    if |a| == 1 {
      assert (a + b)[1..] == b;
    } else {
      assert (a + b)[1..] == a[1..] + b;
      JoinAppend(a[1..], b);
    }
  }

  /** A separator ends the leading token however the string continues. */
  lemma {:induction false} TokenLengthAppend(a: string, rest: string)
    requires |rest| > 0 && rest[0] == Separator
    ensures TokenLength(a + rest) == TokenLength(a)
    decreases |a|
  {
    if a != [] && a[0] != Separator {
      assert (a + rest)[1..] == a[1..] + rest;
      TokenLengthAppend(a[1..], rest);
    }
  }

  /** Splitting at a separator: the segments of `a + "." + b` are the segments
      of `a` followed by those of `b`, whatever empty pieces either holds. */
  lemma {:induction false} SegmentsSplitAt(a: string, b: string)
    ensures Segments(a + [Separator] + b) == Segments(a) + Segments(b)
    decreases |a|
  {
    var s := a + [Separator] + b;
    if a == [] {
      assert s[1..] == b;
    } else if a[0] == Separator {
      assert s[1..] == a[1..] + [Separator] + b;
      SegmentsSplitAt(a[1..], b);
    } else {
      var m := TokenLength(a);
      TokenLengthAppend(a, [Separator] + b);
      assert s == a + ([Separator] + b);
      assert s[..m] == a[..m];
      if m < |a| {
        assert s[m..] == a[m..] + [Separator] + b;
        SegmentsSplitAt(a[m..], b);
      } else {
        assert s[m..] == [Separator] + b;
        assert ([Separator] + b)[1..] == b;
        assert a[m..] == [];
      }
    }
  }

  /** A segment splits into itself, and the empty string into nothing; with
      `SegmentsSplitAt` this fixes the segments of every key. */
  lemma SegmentsOfSegment(p: string)
    ensures Segments("") == []
    ensures IsSegment(p) ==> Segments(p) == [p]
  {
    if IsSegment(p) {
      SegmentsOfJoin([p]);
    }
  }

  /** A string without separators is one token. */
  lemma {:induction false} TokenLengthOfSegment(p: string, rest: string)
    requires Separator !in p
    ensures TokenLength(p + rest) >= |p|
    ensures |rest| > 0 && rest[0] == Separator ==> TokenLength(p + rest) == |p|
  {
    var s := p + rest;
    forall i | 0 <= i < |p|
      ensures s[i] != Separator
    {
      assert s[i] == p[i];
      assert p[i] in p;
    }
    if |rest| > 0 && rest[0] == Separator {
      assert s[|p|] == Separator;
    }
  }

  /** Splitting undoes joining: the segments of the joined string are the
      segments that were joined. */
  lemma {:induction false} SegmentsOfJoin(parts: seq<string>)
    requires AllSegments(parts)
    ensures Segments(Join(parts)) == parts
    decreases |parts|
  {
    if |parts| == 0 {
    } else if |parts| == 1 {
      var p := parts[0];
      TokenLengthOfSegment(p, "");
      assert p + "" == p;
      assert p[|p|..] == "";
    } else {
      var p := parts[0];
      var tail := [Separator] + Join(parts[1..]);
      var s := Join(parts);
      assert s == p + tail;
      TokenLengthOfSegment(p, tail);
      assert s[..|p|] == p;
      assert s[|p|..] == tail;
      assert tail[1..] == Join(parts[1..]);
      SegmentsOfJoin(parts[1..]);
    }
  }

  /** When a key has an inline namespace, the namespace is exactly the first
      min(depth, n - 1) of the key's n segments and the lookup key is the rest,
      and rejoining the two with a separator gives back the key's segments
      joined with separators. */
  lemma {:induction false} SplitKeyParts(key: string, depth: int)
    requires TrySplitKey(key, depth).hasNamespace
    ensures var r := TrySplitKey(key, depth);
            var parts := Segments(key);
            var d := NamespaceSegments(depth, |parts|);
            && 1 <= d < |parts|
            && Segments(r.namespace.value) == parts[..d]
            && Segments(r.lookupKey) == parts[d..]
            && r.namespace.value + [Separator] + r.lookupKey == Join(parts)
  {
    var parts := Segments(key);
    var d := NamespaceSegments(depth, |parts|);
    SegmentsOfJoin(parts[..d]);
    SegmentsOfJoin(parts[d..]);
    JoinAppend(parts[..d], parts[d..]);
    assert parts[..d] + parts[d..] == parts;
  }

  /** A joined run of two or more segments contains a separator, so it is not blank. */
  lemma JoinOfSeveralNotBlank(parts: seq<string>)
    requires |parts| >= 2
    ensures !IsBlank(Join(parts))
  {
    assert Join(parts)[|parts[0]|] == Separator;
  }

  /** When the split succeeds, independently of how it is computed: the depth
      is positive, the key has at least two segments, and the lookup key is not
      blank, which can only fail when the lookup key is the single last segment. */
  lemma {:induction false} SplitSucceedsIff(key: string, depth: int)
    ensures var parts := Segments(key);
            TrySplitKey(key, depth).hasNamespace
            <==> depth > 0 && |parts| >= 2 && (depth < |parts| - 1 || !IsBlank(parts[|parts| - 1]))
  {
    var parts := Segments(key);
    if depth > 0 && |parts| >= 2 {
      var d := NamespaceSegments(depth, |parts|);
      if depth < |parts| - 1 {
        JoinOfSeveralNotBlank(parts[d..]);
      } else {
        assert parts[d..] == [parts[|parts| - 1]];
      }
    }
  }

  /** A depth-1 split: "a.b.c" has namespace "a" and lookup key "b.c". */
  lemma SplitExample()
    ensures TrySplitKey("a.b.c", 1) == SplitKey(true, Some("a"), "b.c")
  {
    var parts := ["a", "b", "c"];
    SegmentsOfJoin(parts);
    assert Join(parts) == "a.b.c";
    assert parts[1..] == ["b", "c"];
    assert Join(parts[1..]) == "b.c";
    assert !IsWhiteSpace("b.c"[0]);
    assert parts[..1] == ["a"];
  }

  /** A key with a single segment has no namespace. */
  lemma SingleSegmentExample()
    ensures TrySplitKey("single", 1) == SplitKey(false, None, "single")
  {
    SegmentsOfJoin(["single"]);
  }

  /** A depth larger than the key allows is clamped to leave one segment. */
  lemma ClampedDepthExample()
    ensures TrySplitKey("a.b", 5) == SplitKey(true, Some("a"), "b")
  {
    var parts := ["a", "b"];
    SegmentsOfJoin(parts);
    assert Join(parts) == "a.b";
    assert parts[1..] == ["b"];
    assert !IsWhiteSpace("b"[0]);
    assert parts[..1] == ["a"];
  }

  /** A blank last segment makes the split fail. */
  lemma BlankLastSegmentExample()
    ensures TrySplitKey("a. ", 1) == SplitKey(false, None, "a. ")
  {
    var parts := ["a", " "];
    SegmentsOfJoin(parts);
    assert Join(parts) == "a. ";
    assert parts[1..] == [" "];
  }
}
