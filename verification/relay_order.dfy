/** Nearest relays first. */
module RelayOrder {
  import opened Basics

  // orderRelays (mrcore/transport/relaypool.go). A relay is its position in the list,
  // which may name one twice.

  /** In nanoseconds. */
  const RELAY_LATENCY_BUCKET := 50_000_000

  datatype Probe = Answered(latency: int) | Silent

  /** Go's integer division, which cuts towards zero. */
  function TruncatedDiv(a: int, b: int): int
    requires b > 0
  {
    if a >= 0 then a / b else -(-a / b)
  }

  function Bucket(p: Probe): int {
    if p.Answered? then TruncatedDiv(p.latency, RELAY_LATENCY_BUCKET) else 0
  }

  /** A shuffle moves elements around and does nothing else. */
  ghost predicate Permutes(shuffle: seq<nat> -> seq<nat>) {
    forall s: seq<nat> :: multiset(shuffle(s)) == multiset(s)
  }

  /** s holds each position that f selects, once, and no other. */
  ghost predicate Exactly(s: seq<nat>, f: nat -> bool) {
    forall p: nat :: multiset(s)[p] == if f(p) then 1 else 0
  }

  function InBucket(results: seq<Probe>, id: int): nat -> bool {
    (p: nat) => p < |results| && results[p].Answered? && Bucket(results[p]) == id
  }

  function IsSilent(results: seq<Probe>): nat -> bool {
    (p: nat) => p < |results| && results[p].Silent?
  }

  /** Nearest first: who answered comes before who did not, and the buckets of
      those who answered never decrease. */
  predicate NearestFirst(results: seq<Probe>, s: seq<nat>)
    requires forall i :: 0 <= i < |s| ==> s[i] < |results|
  {
    forall i, j :: 0 <= i < j < |s| && results[s[j]].Answered? ==>
      results[s[i]].Answered? && Bucket(results[s[i]]) <= Bucket(results[s[j]])
  }

  lemma InExactly(s: seq<nat>, f: nat -> bool, p: nat)
    requires Exactly(s, f)
    ensures p in s <==> f(p)
  {
    assert p in s <==> p in multiset(s);
  }

  lemma AppendExactly(s: seq<nat>, f: nat -> bool, t: seq<nat>, g: nat -> bool, h: nat -> bool)
    requires Exactly(s, f) && Exactly(t, g)
    requires forall p: nat :: !(f(p) && g(p)) && (h(p) <==> f(p) || g(p))
    ensures Exactly(s + t, h)
  {
    assert multiset(s + t) == multiset(s) + multiset(t);
  }

  lemma ShuffledExactly(s: seq<nat>, f: nat -> bool, shuffle: seq<nat> -> seq<nat>)
    requires Exactly(s, f) && Permutes(shuffle)
    ensures Exactly(shuffle(s), f)
  {
    assert multiset(shuffle(s)) == multiset(s);
  }

  predicate Ascending(ids: seq<int>) {
    forall i, j :: 0 <= i < j < |ids| ==> ids[i] < ids[j]
  }

  /** slices.Sort, of keys of a map in whatever order they came. */
  method Sorted(keys: seq<int>) returns (ids: seq<int>)
    requires Distinct(keys)
    ensures Ascending(ids) && forall id :: id in ids <==> id in keys
  {
    ids := [];
    for k := 0 to |keys|
      invariant Ascending(ids) && forall id :: id in ids <==> id in keys[..k]
    {
      var id := keys[k];
      assert keys[..k + 1] == keys[..k] + [id];
      var at := 0;
      while at < |ids| && ids[at] < id
        invariant at <= |ids| && forall n :: 0 <= n < at ==> ids[n] < id
      {
        at := at + 1;
      }
      assert id !in ids;
      ids := ids[..at] + [id] + ids[at..];
    }
    assert keys[..|keys|] == keys;
  }

  lemma ExtendExactly(s: seq<nat>, f: nat -> bool, i: nat, h: nat -> bool)
    requires Exactly(s, f) && !f(i) && forall p: nat :: h(p) <==> f(p) || p == i
    ensures Exactly(s + [i], h)
  {
    var one := (p: nat) => p == i;
    assert Exactly([i], one);
    AppendExactly(s, f, [i], one, h);
  }

  lemma SameExactly(s: seq<nat>, f: nat -> bool, h: nat -> bool)
    requires Exactly(s, f) && forall p: nat :: h(p) <==> f(p)
    ensures Exactly(s, h)
  {
  }

  /** One probe more, for one bucket or for the silent. */
  lemma OneProbeMore(results: seq<Probe>, i: nat, s: seq<nat>, id: int)
    requires i < |results|
    ensures var before, now := results[..i], results[..i + 1];
      var mine := results[i].Answered? && Bucket(results[i]) == id;
      && (Exactly(s, InBucket(before, id)) ==> Exactly(if mine then s + [i] else s, InBucket(now, id)))
      && (Exactly(s, IsSilent(before)) ==> Exactly(if results[i].Silent? then s + [i] else s, IsSilent(now)))
  {
    var before, now := results[..i], results[..i + 1];
    if Exactly(s, InBucket(before, id)) {
      if results[i].Answered? && Bucket(results[i]) == id {
        ExtendExactly(s, InBucket(before, id), i, InBucket(now, id));
      } else {
        SameExactly(s, InBucket(before, id), InBucket(now, id));
      }
    }
    if Exactly(s, IsSilent(before)) {
      if results[i].Silent? {
        ExtendExactly(s, IsSilent(before), i, IsSilent(now));
      } else {
        SameExactly(s, IsSilent(before), IsSilent(now));
      }
    }
  }

  lemma NoneYet(results: seq<Probe>, i: nat, id: int)
    requires i <= |results|
    requires forall p :: 0 <= p < i && results[p].Answered? ==> Bucket(results[p]) != id
    ensures Exactly([], InBucket(results[..i], id))
  {
  }

  /** The buckets of the first i probes. */
  ghost predicate BucketsOf(buckets: map<int, seq<nat>>, results: seq<Probe>, i: nat)
    requires i <= |results|
  {
    && (forall id :: id in buckets ==> Exactly(buckets[id], InBucket(results[..i], id)))
    && (forall p :: 0 <= p < i && results[p].Answered? ==> Bucket(results[p]) in buckets)
  }

  function Put(buckets: map<int, seq<nat>>, id: int, i: nat): map<int, seq<nat>> {
    buckets[id := (if id in buckets then buckets[id] else []) + [i]]
  }

  lemma ProbeCounted(buckets: map<int, seq<nat>>, results: seq<Probe>, i: nat)
    requires i < |results| && BucketsOf(buckets, results, i)
    ensures results[i].Silent? ==> BucketsOf(buckets, results, i + 1)
    ensures results[i].Answered? ==> BucketsOf(Put(buckets, Bucket(results[i]), i), results, i + 1)
  {
    var buckets' := if results[i].Silent? then buckets else Put(buckets, Bucket(results[i]), i);
    forall id | id in buckets'
      ensures Exactly(buckets'[id], InBucket(results[..i + 1], id))
    {
      if id in buckets {
        OneProbeMore(results, i, buckets[id], id);
      } else {
        NoneYet(results, i, id);
        OneProbeMore(results, i, [], id);
        assert [] + [i] == [i];
      }
    }
  }

  predicate Distinct(keys: seq<int>) {
    forall i, j :: 0 <= i < j < |keys| ==> keys[i] != keys[j]
  }

  method Buckets(results: seq<Probe>) returns (buckets: map<int, seq<nat>>, keys: seq<int>, silent: seq<nat>)
    ensures Distinct(keys) && forall id :: id in keys <==> id in buckets
    ensures BucketsOf(buckets, results, |results|)
    ensures Exactly(silent, IsSilent(results))
  {
    buckets, keys, silent := map[], [], [];
    for i := 0 to |results|
      invariant Distinct(keys) && forall id :: id in keys <==> id in buckets
      invariant BucketsOf(buckets, results, i)
      invariant Exactly(silent, IsSilent(results[..i]))
    {
      ProbeCounted(buckets, results, i);
      OneProbeMore(results, i, silent, 0);
      if results[i].Silent? {
        silent := silent + [i];
      } else {
        var id := Bucket(results[i]);
        if id !in buckets {
          keys := keys + [id];
        }
        buckets := Put(buckets, id, i);
      }
    }
    assert results[..|results|] == results;
  }

  /** All that answered and whose bucket is among the first k. */
  function InFirst(results: seq<Probe>, ids: seq<int>, k: nat): nat -> bool
    requires k <= |ids|
  {
    (p: nat) => p < |results| && results[p].Answered? && Bucket(results[p]) in ids[..k]
  }

  lemma AppendBucket(results: seq<Probe>, ids: seq<int>, k: nat, ordered: seq<nat>, next: seq<nat>)
    requires Ascending(ids) && k < |ids|
    requires Exactly(ordered, InFirst(results, ids, k)) && Exactly(next, InBucket(results, ids[k]))
    requires (forall i :: 0 <= i < |ordered| ==> ordered[i] < |results|) && NearestFirst(results, ordered)
    ensures Exactly(ordered + next, InFirst(results, ids, k + 1))
    ensures forall i :: 0 <= i < |ordered + next| ==> (ordered + next)[i] < |results|
    ensures NearestFirst(results, ordered + next)
  {
    assert ids[..k + 1] == ids[..k] + [ids[k]];
    assert ids[k] !in ids[..k];
    AppendExactly(ordered, InFirst(results, ids, k), next, InBucket(results, ids[k]), InFirst(results, ids, k + 1));
    forall i | 0 <= i < |next|
      ensures InBucket(results, ids[k])(next[i])
    {
      InExactly(next, InBucket(results, ids[k]), next[i]);
    }
    forall i | 0 <= i < |ordered|
      ensures results[ordered[i]].Answered? && Bucket(results[ordered[i]]) <= ids[k]
    {
      InExactly(ordered, InFirst(results, ids, k), ordered[i]);
      var n :| 0 <= n < k && ids[n] == Bucket(results[ordered[i]]);
    }
  }

  lemma AppendSilent(results: seq<Probe>, ids: seq<int>, ordered: seq<nat>, last: seq<nat>)
    requires Exactly(ordered, InFirst(results, ids, |ids|)) && Exactly(last, IsSilent(results))
    requires (forall i :: 0 <= i < |ordered| ==> ordered[i] < |results|) && NearestFirst(results, ordered)
    requires forall p :: 0 <= p < |results| && results[p].Answered? ==> Bucket(results[p]) in ids
    ensures Exactly(ordered + last, (p: nat) => p < |results|)
    ensures forall i :: 0 <= i < |ordered + last| ==> (ordered + last)[i] < |results|
    ensures NearestFirst(results, ordered + last)
  {
    assert ids[..|ids|] == ids;
    AppendExactly(ordered, InFirst(results, ids, |ids|), last, IsSilent(results), (p: nat) => p < |results|);
    forall i | 0 <= i < |last|
      ensures IsSilent(results)(last[i])
    {
      InExactly(last, IsSilent(results), last[i]);
    }
  }

  /** Unless it was cancelled, the result names every position once, those that
      answered before those that did not, in buckets of 50 ms. */
  method OrderRelays(results: seq<Probe>, cancelled: bool, shuffle: seq<nat> -> seq<nat>) returns (r: Option<seq<nat>>)
    requires Permutes(shuffle)
    ensures r.None? <==> cancelled
    ensures r.Some? ==> Exactly(r.value, (p: nat) => p < |results|)
    ensures r.Some? ==> (forall i :: 0 <= i < |r.value| ==> r.value[i] < |results|) && NearestFirst(results, r.value)
  {
    if cancelled {
      return None;
    }
    var buckets, keys, silent := Buckets(results);
    var ids := Sorted(keys);
    assert results[..|results|] == results;
    var ordered: seq<nat> := [];
    for k := 0 to |ids|
      invariant Exactly(ordered, InFirst(results, ids, k))
      invariant forall i :: 0 <= i < |ordered| ==> ordered[i] < |results|
      invariant NearestFirst(results, ordered)
    {
      assert ids[k] in ids;
      var next := shuffle(buckets[ids[k]]);
      ShuffledExactly(buckets[ids[k]], InBucket(results, ids[k]), shuffle);
      AppendBucket(results, ids, k, ordered, next);
      ordered := ordered + next;
    }
    var last := shuffle(silent);
    ShuffledExactly(silent, IsSilent(results), shuffle);
    AppendSilent(results, ids, ordered, last);
    return Some(ordered + last);
  }

  /** Fifty milliseconds wide each. */
  lemma BucketIs(latency: int)
    ensures latency >= 0 ==> Bucket(Answered(latency)) * 50_000_000 <= latency < (Bucket(Answered(latency)) + 1) * 50_000_000
    ensures latency < 0 ==> (Bucket(Answered(latency)) - 1) * 50_000_000 < latency <= Bucket(Answered(latency)) * 50_000_000
  {
  }
}
