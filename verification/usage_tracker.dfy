/**
 * The usage tracker (`EnjsonUsageTracker`): a case-insensitive set of keys
 * waiting to be reported and a single-flight flag guarding the flush. The
 * asynchronous flush is split at its one await, the report POST: `FlushBegin`
 * acquires the flag and picks the batch, `FlushEnd` applies the report's outcome
 * and releases the flag, and `Track` may run any number of times in between.
 */
module UsageTracker {
  import opened Wrappers
  import opened Text
  import opened Config
  import opened Math

  /** `pending` holds keys as first spelled; `flushing` is `_isFlushing == 1`. */
  datatype Tracker = Tracker(pending: set<string>, flushing: bool)

  const Initial: Tracker := Tracker({}, false)

  /** Membership under the case-insensitive comparer of the pending dictionary. */
  predicate Holds(keys: set<string>, key: string) {
    exists p :: p in keys && EqualsIgnoreCase(p, key)
  }

  /** No two pending keys differ only by case. */
  ghost predicate FoldDistinct(keys: set<string>) {
    forall a, b :: a in keys && b in keys && EqualsIgnoreCase(a, b) ==> a == b
  }

  /** What every reachable tracker satisfies: case-distinct, non-blank keys. */
  ghost predicate Valid(t: Tracker) {
    && FoldDistinct(t.pending)
    && forall p :: p in t.pending ==> !IsBlank(p)
  }

  /** The pending keys as the comparer sees them, one folded spelling each. */
  function Folded(keys: set<string>): set<string> {
    set p | p in keys :: Fold(p)
  }

  /** `Track(fullKey)`: a no-op when tracking is disabled or the key is blank;
      otherwise `TryAdd`, which leaves an existing entry (in any spelling) alone. */
  function Track(t: Tracker, opts: Options, fullKey: Option<string>): (r: Tracker)
    ensures r.flushing == t.flushing
    ensures t.pending <= r.pending
    ensures !opts.enableUsageTracking || IsNullOrBlank(fullKey) ==> r == t
    ensures opts.enableUsageTracking && !IsNullOrBlank(fullKey) ==> Holds(r.pending, fullKey.value)
    ensures opts.enableUsageTracking && !IsNullOrBlank(fullKey) ==> r.pending <= t.pending + {fullKey.value}
    ensures fullKey.Some? && Holds(t.pending, fullKey.value) ==> r == t
    ensures Valid(t) ==> Valid(r)
  {
    if !opts.enableUsageTracking || IsNullOrBlank(fullKey) then t
    else if Holds(t.pending, fullKey.value) then t
    else t.(pending := t.pending + {fullKey.value})
  }

  /** Seen through the comparer, tracking a key adds exactly its folded
      spelling, however many times and in whatever case it was tracked before. */
  lemma TrackAddsFoldedKey(t: Tracker, opts: Options, key: string)
    requires opts.enableUsageTracking && !IsBlank(key)
    ensures Folded(Track(t, opts, Some(key)).pending) == Folded(t.pending) + {Fold(key)}
  {
    var r := Track(t, opts, Some(key));
    if Holds(t.pending, key) {
      var p :| p in t.pending && EqualsIgnoreCase(p, key);
      assert Fold(p) in Folded(t.pending);
    } else {
      assert r.pending == t.pending + {key};
      assert Fold(key) in Folded(r.pending);
    }
  }

  /** Tracking a key a second time changes nothing. */
  lemma TrackIdempotent(t: Tracker, opts: Options, key: Option<string>)
    ensures Track(Track(t, opts, key), opts, key) == Track(t, opts, key)
  {
  }

  /** Tracking each key of `keys` in turn, as callers may do while a report is in flight. */
  function TrackAll(t: Tracker, opts: Options, keys: seq<string>): Tracker
    decreases |keys|
  {
    if |keys| == 0 then t else TrackAll(Track(t, opts, Some(keys[0])), opts, keys[1..])
  }

  /** Tracking only inserts: it keeps the flag and every pending key, keeps the
      tracker valid, and leaves each tracked non-blank key pending. */
  lemma {:induction false} TrackAllInsertsOnly(t: Tracker, opts: Options, keys: seq<string>)
    ensures var r := TrackAll(t, opts, keys);
            && r.flushing == t.flushing
            && t.pending <= r.pending
            && (Valid(t) ==> Valid(r))
            && (opts.enableUsageTracking ==>
                  forall i :: 0 <= i < |keys| && !IsBlank(keys[i]) ==> Holds(r.pending, keys[i]))
    decreases |keys|
  {
    if |keys| > 0 {
      var t1 := Track(t, opts, Some(keys[0]));
      TrackAllInsertsOnly(t1, opts, keys[1..]);
      var r := TrackAll(t, opts, keys);
      if opts.enableUsageTracking {
        forall i | 0 <= i < |keys| && !IsBlank(keys[i])
          ensures Holds(r.pending, keys[i])
        {
          if i == 0 {
            var p :| p in t1.pending && EqualsIgnoreCase(p, keys[0]);
            assert p in r.pending;
          } else {
            assert keys[i] == keys[1..][i - 1];
          }
        }
      }
    }
  }

  /** `Math.Max(1, UsageReportBatchSize)`: the most keys one report carries. */
  function BatchLimit(batchSize: int): (n: int)
    ensures n >= 1 && n >= batchSize
    ensures n == 1 || n == batchSize
    ensures batchSize >= 1 ==> n == batchSize
  {
    Max(1, batchSize)
  }

  /** A batch `Take` can produce from the pending keys: some of them, as many
      as the limit allows. The order of the keys is unspecified. */
  ghost predicate IsBatch(pending: set<string>, batchSize: int, batch: set<string>) {
    batch <= pending && |batch| == Min(|pending|, BatchLimit(batchSize))
  }

  /** How an entered flush ends before or without sending a report. */
  datatype FlushStep =
    | Disabled                     // tracking is off: the flag is not touched
    | AlreadyFlushing              // another flush holds the flag
    | NothingPending               // flag taken, nothing to send, flag released
    | Sending(batch: set<string>)  // flag taken, report in flight

  /** The outcome of the report POST. */
  datatype ReportOutcome = Accepted | NotSuccessStatus | Threw

  /** The part of `FlushAsync` before the report is sent. */
  method FlushBegin(t: Tracker, opts: Options) returns (next: Tracker, step: FlushStep)
    ensures !opts.enableUsageTracking ==> step == Disabled && next == t
    ensures opts.enableUsageTracking && t.flushing ==> step == AlreadyFlushing && next == t
    ensures opts.enableUsageTracking && !t.flushing && t.pending == {} ==> step == NothingPending && next == t
    ensures step.Sending? <==> opts.enableUsageTracking && !t.flushing && t.pending != {}
    ensures step.Sending? ==> next == t.(flushing := true)
    ensures step.Sending? ==> IsBatch(t.pending, opts.usageReportBatchSize, step.batch) && step.batch != {}
  {
    if !opts.enableUsageTracking {
      return t, Disabled;
    }
    if t.flushing {
      return t, AlreadyFlushing;
    }
    if t.pending == {} {
      return t, NothingPending;
    }
    var limit := BatchLimit(opts.usageReportBatchSize);
    var batch: set<string> := {};
    var rest := t.pending;
    while rest != {} && |batch| < limit
      invariant batch <= t.pending && rest == t.pending - batch
      invariant |batch| + |rest| == |t.pending|
      invariant |batch| <= limit
      decreases rest
    {
      var k :| k in rest;
      batch := batch + {k};
      rest := rest - {k};
    }
    return t.(flushing := true), Sending(batch);
  }

  /** The part of `FlushAsync` after the report: on success each batched key is
      removed through the case-insensitive comparer; the flag is released on
      every outcome. */
  function FlushEnd(t: Tracker, batch: set<string>, outcome: ReportOutcome): (r: Tracker)
    ensures !r.flushing
    ensures r.pending <= t.pending
    ensures outcome != Accepted ==> r.pending == t.pending
    ensures outcome == Accepted ==> forall b :: b in batch ==> !Holds(r.pending, b)
    ensures outcome == Accepted ==> forall p :: p in t.pending && !Holds(batch, p) ==> p in r.pending
  {
    if outcome == Accepted then Tracker(set p | p in t.pending && !Holds(batch, p), false)
    else t.(flushing := false)
  }

  /** When the batch was taken from a valid tracker's keys, removing it through
      the comparer is plain set difference. */
  lemma {:induction false} FlushEndRemovesBatch(t: Tracker, batch: set<string>)
    requires Valid(t) && batch <= t.pending
    ensures FlushEnd(t, batch, Accepted).pending == t.pending - batch
    ensures Valid(FlushEnd(t, batch, Accepted))
  {
    var r := FlushEnd(t, batch, Accepted);
    forall p, b | p in t.pending && p !in batch && b in batch
      ensures !EqualsIgnoreCase(b, p)
    {
      assert b in t.pending;
    }
    forall p | p in batch
      ensures Holds(batch, p)
    {
      assert EqualsIgnoreCase(p, p);
    }
  }

  /** A whole flush that sends a report: keys tracked while the report was in
      flight are never lost. On success exactly the batch leaves the pending set,
      so every key tracked mid-flush that is not in the batch is still pending;
      on failure nothing leaves it. Either way the flag is released. */
  lemma {:induction false} KeysTrackedMidFlushSurvive(
    t: Tracker, opts: Options, batch: set<string>, keys: seq<string>, outcome: ReportOutcome)
    requires Valid(t) && !t.flushing
    requires IsBatch(t.pending, opts.usageReportBatchSize, batch)
    ensures var during := TrackAll(t.(flushing := true), opts, keys);
            var after := FlushEnd(during, batch, outcome);
            && during.flushing
            && !after.flushing
            && Valid(after)
            && (outcome == Accepted ==> after.pending == during.pending - batch)
            && (outcome != Accepted ==> after.pending == during.pending && t.pending <= after.pending)
            && (opts.enableUsageTracking ==>
                  forall i :: 0 <= i < |keys| && !IsBlank(keys[i]) && !Holds(batch, keys[i])
                    ==> Holds(after.pending, keys[i]))
  {
    var during := TrackAll(t.(flushing := true), opts, keys);
    TrackAllInsertsOnly(t.(flushing := true), opts, keys);
    var after := FlushEnd(during, batch, outcome);
    if outcome == Accepted {
      FlushEndRemovesBatch(during, batch);
      if opts.enableUsageTracking {
        forall i | 0 <= i < |keys| && !IsBlank(keys[i]) && !Holds(batch, keys[i])
          ensures Holds(after.pending, keys[i])
        {
          var p :| p in during.pending && EqualsIgnoreCase(p, keys[i]);
          assert !Holds(batch, p);
          assert p in after.pending;
        }
      }
    }
  }

  /** While a report is in flight no other flush can send one: tracking keeps
      the flag set, so every flush entered meanwhile finds it taken. */
  lemma {:induction false} SingleFlight(t: Tracker, opts: Options, keys: seq<string>)
    requires t.flushing
    ensures TrackAll(t, opts, keys).flushing
  {
    TrackAllInsertsOnly(t, opts, keys);
  }

  /** A successful report of a batch leaves the pending set smaller by the batch
      size: `max(0, n - max(1, batchSize))` keys remain of `n`. */
  lemma BatchDrain(pending: set<string>, batchSize: int, batch: set<string>)
    requires IsBatch(pending, batchSize, batch)
    ensures |pending - batch| == |pending| - Min(|pending|, BatchLimit(batchSize))
    ensures pending != {} ==> batch != {}
  {
    assert pending == (pending - batch) + batch;
  }

  /** 250 keys with a batch size of 200 drain as 200 keys and then the
      remaining 50. */
  lemma DrainExample(pending: set<string>, b1: set<string>, b2: set<string>)
    requires |pending| == 250
    requires IsBatch(pending, 200, b1)
    requires IsBatch(pending - b1, 200, b2)
    ensures |b1| == 200 && |pending - b1| == 50
    ensures |b2| == 50 && pending - b1 - b2 == {}
  {
    BatchDrain(pending, 200, b1);
    BatchDrain(pending - b1, 200, b2);
  }
}
