/** The bounded latency tracker (latency.go): one sample per message from its first publish
    to the commit of its ACK, and nearest-rank percentiles of the samples. */
module Latency {
  import opened Wrappers
  import opened Outbox

  const MAX_CAPACITY := 100000

  // ---- samples in order ----

  predicate Sorted(s: seq<nat>) { forall i, j :: 0 <= i < j < |s| ==> s[i] <= s[j] }

  function Insert(x: nat, s: seq<nat>): (r: seq<nat>) {
    if s == [] || x <= s[0] then [x] + s else [s[0]] + Insert(x, s[1..])
  }

  /** slices.Sort, as any sort. */
  function Sort(s: seq<nat>): seq<nat> { if s == [] then [] else Insert(s[0], Sort(s[1..])) }

  lemma {:induction false} InsertAdds(x: nat, s: seq<nat>)
    ensures multiset(Insert(x, s)) == multiset(s) + multiset{x}
  {
    if s != [] {
      assert s == [s[0]] + s[1..];
      if x > s[0] { InsertAdds(x, s[1..]); }
    }
  }

  lemma Prepend(x: nat, s: seq<nat>)
    requires Sorted(s) && forall i :: 0 <= i < |s| ==> x <= s[i]
    ensures Sorted([x] + s)
  {}

  lemma {:induction false} InsertSorts(x: nat, s: seq<nat>)
    requires Sorted(s)
    ensures Sorted(Insert(x, s))
  {
    if s == [] || x <= s[0] {
      Prepend(x, s);
    } else {
      var rest := Insert(x, s[1..]);
      InsertSorts(x, s[1..]);
      InsertAdds(x, s[1..]);
      forall i | 0 <= i < |rest| ensures s[0] <= rest[i] {
        assert rest[i] in multiset(rest);
        assert rest[i] == x || rest[i] in s[1..];
      }
      Prepend(s[0], rest);
    }
  }

  lemma {:induction false} SortSorts(s: seq<nat>)
    ensures Sorted(Sort(s)) && multiset(Sort(s)) == multiset(s)
  {
    if s != [] {
      SortSorts(s[1..]);
      InsertSorts(s[0], Sort(s[1..]));
      InsertAdds(s[0], Sort(s[1..]));
      assert s == [s[0]] + s[1..];
    }
  }

  /** How many samples are at most, or below, a value. */
  function AtMost(s: seq<nat>, v: nat): nat { if s == [] then 0 else AtMost(s[1..], v) + if s[0] <= v then 1 else 0 }
  function Below(s: seq<nat>, v: nat): nat { if s == [] then 0 else Below(s[1..], v) + if s[0] < v then 1 else 0 }

  lemma {:induction false} CountInsert(x: nat, s: seq<nat>, v: nat)
    ensures AtMost(Insert(x, s), v) == AtMost(s, v) + if x <= v then 1 else 0
    ensures Below(Insert(x, s), v) == Below(s, v) + if x < v then 1 else 0
  {
    if s != [] && x > s[0] {
      CountInsert(x, s[1..], v);
      assert Insert(x, s)[1..] == Insert(x, s[1..]);
    } else {
      assert Insert(x, s)[1..] == s;
    }
  }

  lemma {:induction false} CountSort(s: seq<nat>, v: nat)
    ensures AtMost(Sort(s), v) == AtMost(s, v) && Below(Sort(s), v) == Below(s, v)
  {
    if s != [] {
      CountSort(s[1..], v);
      CountInsert(s[0], Sort(s[1..]), v);
    }
  }

  lemma {:induction false} NoneBelow(s: seq<nat>, v: nat)
    requires forall i :: 0 <= i < |s| ==> v <= s[i]
    ensures Below(s, v) == 0
  {
    if s != [] { NoneBelow(s[1..], v); }
  }

  /** In a sorted list, i+1 samples are at most the i-th, and at most i are below it. */
  lemma {:induction false} RankCounts(s: seq<nat>, i: nat)
    requires Sorted(s) && i < |s|
    ensures AtMost(s, s[i]) >= i + 1 && Below(s, s[i]) <= i
  {
    if i == 0 {
      NoneBelow(s[1..], s[0]);
    } else {
      assert Sorted(s[1..]);
      RankCounts(s[1..], i - 1);
      assert s[1..][i - 1] == s[i];
    }
  }

  // ---- percentiles ----

  /** nearestRankIndex. */
  function NearestRankIndex(p: int, n: int): int {
    if n <= 1 then 0
    else
      var k := (p * n + 99) / 100;
      (if k < 1 then 1 else if k > n then n else k) - 1
  }

  lemma RankBounds(p: nat, n: nat)
    requires 1 <= p <= 100 && n >= 1
    ensures var i := NearestRankIndex(p, n); 0 <= i < n && 100 * i < p * n <= 100 * (i + 1)
  {
    assert n <= p * n <= 100 * n by {
      assert p * n == n + (p - 1) * n;
      assert 100 * n == p * n + (100 - p) * n;
    }
  }

  lemma RankMonotone(p: nat, q: nat, n: nat)
    requires 1 <= p <= q <= 100 && n >= 1
    ensures NearestRankIndex(p, n) <= NearestRankIndex(q, n)
  {
    assert q * n == p * n + (q - p) * n;
  }

  /** The p-th nearest-rank percentile: a sample that at least p percent of the samples do
      not exceed, while fewer than p percent are below it. */
  ghost predicate IsPercentile(samples: seq<nat>, p: nat, v: nat) {
    && v in samples
    && p * |samples| <= 100 * AtMost(samples, v)
    && 100 * Below(samples, v) < p * |samples|
  }

  function Percentile(samples: seq<nat>, p: nat): (v: nat)
    requires samples != [] && 1 <= p <= 100
  {
    SortSorts(samples);
    SameSize(samples);
    RankBounds(p, |samples|);
    Sort(samples)[NearestRankIndex(p, |samples|)]
  }

  lemma SameSize(samples: seq<nat>)
    ensures |Sort(samples)| == |samples|
  {
    SortSorts(samples);
    assert |multiset(Sort(samples))| == |multiset(samples)|;
  }

  lemma NearestRank(samples: seq<nat>, p: nat)
    requires samples != [] && 1 <= p <= 100
    ensures IsPercentile(samples, p, Percentile(samples, p))
  {
    var s, i := Sort(samples), NearestRankIndex(p, |samples|);
    SortSorts(samples);
    SameSize(samples);
    RankBounds(p, |samples|);
    RankCounts(s, i);
    CountSort(samples, s[i]);
    assert s[i] in multiset(s);
  }

  // ---- the tracker ----

  datatype Snapshot = Snapshot(count: nat, firstPublishes: nat, retries: nat, missing: nat, overflow: nat, ranks: Option<Ranks>)
  datatype Ranks = Ranks(min: nat, p50: nat, p95: nat, max: nat)

  class LatencyTracker {
    const capacity: nat
    var firstPublish: map<MessageId, int>
    var completed: set<MessageId>
    var durations: seq<nat>
    var firstPublishes: nat
    var retryAttempts: nat
    var missingOrigins: nat
    var overflowSamples: nat
    /** History: how often each recording method was called. */
    ghost var publishCalls: nat
    ghost var ackCalls: nat

    /** In-flight and completed ids are disjoint and together the counted first publishes,
        within capacity; there is one sample per completed id; and every call is counted
        under exactly one heading. */
    ghost predicate Valid() reads this {
      && 1 <= capacity <= MAX_CAPACITY
      && firstPublish.Keys !! completed
      && |firstPublish| + |completed| == firstPublishes <= capacity
      && |durations| == |completed|
      && publishCalls == firstPublishes + retryAttempts + overflowSamples
      && ackCalls == |durations| + missingOrigins
    }

    constructor (capacity: nat)
      requires 1 <= capacity <= MAX_CAPACITY
      ensures Valid() && this.capacity == capacity && firstPublishes == 0 && publishCalls == 0 && ackCalls == 0
    {
      this.capacity := capacity;
      firstPublish, completed, durations := map[], {}, [];
      firstPublishes, retryAttempts, missingOrigins, overflowSamples, publishCalls, ackCalls := 0, 0, 0, 0, 0, 0;
    }

    /** RecordFirstPublish: the first registration wins; a full tracker takes no new id. */
    method RecordFirstPublish(id: MessageId, now: int)
      requires Valid()
      modifies this
      ensures Valid() && publishCalls == old(publishCalls) + 1 && ackCalls == old(ackCalls)
      ensures completed == old(completed) && durations == old(durations)
      ensures firstPublish == if id in old(firstPublish) || id in old(completed) || old(firstPublishes) == capacity
                              then old(firstPublish) else old(firstPublish)[id := now]
      ensures overflowSamples > old(overflowSamples) <==> id !in old(firstPublish) && id !in completed && old(firstPublishes) == capacity
    {
      publishCalls := publishCalls + 1;
      if id in firstPublish {
        retryAttempts := retryAttempts + 1;
        return;
      }
      if id in completed {
        retryAttempts := retryAttempts + 1;
        return;
      }
      if |firstPublish| + |completed| >= capacity {
        overflowSamples := overflowSamples + 1;
        return;
      }
      assert firstPublish[id := now].Keys == firstPublish.Keys + {id};
      assert |firstPublish[id := now]| == |firstPublish| + 1;
      firstPublish := firstPublish[id := now];
      firstPublishes := firstPublishes + 1;
    }

    /** RecordAckDeleted: one sample per known message, never negative.  The overflow branch
        that the source keeps here is dead: a completed id always has room for its sample. */
    method RecordAckDeleted(id: MessageId, now: int)
      requires Valid()
      modifies this
      ensures Valid() && ackCalls == old(ackCalls) + 1 && publishCalls == old(publishCalls)
      ensures overflowSamples == old(overflowSamples) && firstPublishes == old(firstPublishes)
      ensures if id in old(firstPublish)
              then firstPublish == old(firstPublish) - {id} && completed == old(completed) + {id}
                && durations == old(durations) + [if now < old(firstPublish)[id] then 0 else now - old(firstPublish)[id]]
              else firstPublish == old(firstPublish) && completed == old(completed) && durations == old(durations)
    {
      ackCalls := ackCalls + 1;
      if id !in firstPublish {
        missingOrigins := missingOrigins + 1;
        return;
      }
      var start := firstPublish[id];
      assert (firstPublish - {id}).Keys == firstPublish.Keys - {id};
      assert |firstPublish - {id}| == |firstPublish| - 1;
      firstPublish := firstPublish - {id};
      completed := completed + {id};
      if |durations| >= capacity {
        assert false;
      }
      var d := now - start;
      if d < 0 { d := 0; }
      durations := durations + [d];
    }

    /** Snapshot: the percentiles are nearest-rank elements of the samples, in order. */
    method TakeSnapshot() returns (s: Snapshot)
      requires Valid()
      ensures s.count == |durations| && s.firstPublishes == firstPublishes && s.retries == retryAttempts
      ensures s.missing == missingOrigins && s.overflow == overflowSamples
      ensures s.ranks.Some? <==> durations != []
      ensures s.ranks.Some? ==> Describes(s.ranks.value, durations)
    {
      var ranks := None;
      if durations != [] {
        var sorted := Sort(durations);
        var n := |durations|;
        SortSorts(durations);
        SameSize(durations);
        RankBounds(50, n);
        RankBounds(95, n);
        Bracketed(durations);
        ranks := Some(Ranks(sorted[0], sorted[NearestRankIndex(50, n)], sorted[NearestRankIndex(95, n)], sorted[n - 1]));
      }
      s := Snapshot(|durations|, firstPublishes, retryAttempts, missingOrigins, overflowSamples, ranks);
    }
  }

  ghost predicate Describes(r: Ranks, samples: seq<nat>) {
    && r.min in samples && r.max in samples && (forall x :: x in samples ==> r.min <= x <= r.max)
    && IsPercentile(samples, 50, r.p50) && IsPercentile(samples, 95, r.p95)
    && r.min <= r.p50 <= r.p95 <= r.max
  }

  lemma Bracketed(samples: seq<nat>)
    requires samples != []
    ensures |Sort(samples)| == |samples|
    ensures var s, n := Sort(samples), |samples|; Describes(Ranks(s[0], Percentile(samples, 50), Percentile(samples, 95), s[n - 1]), samples)
  {
    var s, n := Sort(samples), |samples|;
    SortSorts(samples);
    SameSize(samples);
    RankBounds(50, n);
    RankBounds(95, n);
    RankMonotone(50, 95, n);
    NearestRank(samples, 50);
    NearestRank(samples, 95);
    assert s[0] in multiset(s) && s[n - 1] in multiset(s);
    forall x | x in samples ensures s[0] <= x <= s[n - 1] {
      assert x in multiset(s);
      var i :| 0 <= i < n && s[i] == x;
    }
    var i, j := NearestRankIndex(50, n), NearestRankIndex(95, n);
    assert s[0] <= s[i] <= s[j] <= s[n - 1];
  }
}
