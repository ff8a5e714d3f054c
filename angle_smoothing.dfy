/**
 * The per-key angle smoothing both puppet controllers keep: a map from bone
 * key to the last smoothed angle, seeded with the target on first use and
 * moved towards each new target by `LerpAngle` with blend factor `alpha`.
 */
module AngleSmoothing {
  import opened UnityMath

  /** One smoothing request of a frame: the bone key, its target angle, and whether the bone is assigned. */
  datatype Job = Job(key: string, target: real, active: bool)

  /** The angle a request produces: the cached value, or the target itself when the key is new, moved towards the target. */
  function SmoothedValue(cache: map<string, real>, key: string, target: real, alpha: real): (r: real)
    ensures key !in cache ==> r == target
  {
    var seed := if key in cache then cache[key] else target;
    LerpAngleFixed(target, alpha);
    LerpAngle(seed, target, alpha)
  }

  /**
   * Each request shrinks the shortest turn between the cached angle and the
   * target by the factor `1 - Clamp01(alpha)`: with `alpha` = 1 (no smoothing)
   * the bone reaches the target in one frame, and with `alpha` in (0, 1) it
   * closes a fixed fraction of the remaining turn every frame.
   */
  lemma SmoothedValueContracts(cache: map<string, real>, key: string, target: real, alpha: real)
    requires key in cache
    ensures DeltaAngle(SmoothedValue(cache, key, target, alpha), target) == (1.0 - Clamp01(alpha)) * DeltaAngle(cache[key], target)
  {
    LerpAngleContracts(cache[key], target, alpha);
  }

  /** The cache after one request: only the requested key changes, and only when the bone is assigned. */
  function Step(cache: map<string, real>, job: Job, alpha: real): (r: map<string, real>)
    ensures job.active ==> r.Keys == cache.Keys + {job.key} && r[job.key] == SmoothedValue(cache, job.key, job.target, alpha)
    ensures !job.active ==> r == cache
    ensures forall k :: k in cache && k != job.key ==> k in r && r[k] == cache[k]
  {
    if job.active then cache[job.key := SmoothedValue(cache, job.key, job.target, alpha)] else cache
  }

  /** The cache after the first `n` requests of a frame, applied in order. */
  function SmoothPrefix(cache: map<string, real>, jobs: seq<Job>, n: nat, alpha: real): map<string, real>
    requires n <= |jobs|
  {
    if n == 0 then cache else Step(SmoothPrefix(cache, jobs, n - 1, alpha), jobs[n - 1], alpha)
  }

  /** One more request extends the prefix by one `Step`. */
  lemma SmoothPrefixNext(cache: map<string, real>, jobs: seq<Job>, n: nat, alpha: real)
    requires n < |jobs|
    ensures SmoothPrefix(cache, jobs, n + 1, alpha) == Step(SmoothPrefix(cache, jobs, n, alpha), jobs[n], alpha)
  {
  }

  /** The cache after all of a frame's requests, applied in order. */
  function SmoothAll(cache: map<string, real>, jobs: seq<Job>, alpha: real): map<string, real>
  {
    SmoothPrefix(cache, jobs, |jobs|, alpha)
  }

  /** Requests beyond the first `n` do not matter to the prefix. */
  lemma {:induction false} SmoothPrefixOfPrefix(cache: map<string, real>, a: seq<Job>, b: seq<Job>, n: nat, alpha: real)
    requires n <= |a|
    ensures SmoothPrefix(cache, a + b, n, alpha) == SmoothPrefix(cache, a, n, alpha)
  {
    if n > 0 {
      SmoothPrefixOfPrefix(cache, a, b, n - 1, alpha);
      assert (a + b)[n - 1] == a[n - 1];
    }
  }

  /** Running two batches of requests one after the other is running them together. */
  lemma {:induction false} SmoothAllAppend(cache: map<string, real>, a: seq<Job>, b: seq<Job>, alpha: real)
    ensures SmoothAll(cache, a + b, alpha) == SmoothAll(SmoothAll(cache, a, alpha), b, alpha)
  {
    var mid := SmoothAll(cache, a, alpha);
    var k := 0;
    SmoothPrefixOfPrefix(cache, a, b, |a|, alpha);
    while k < |b|
      invariant 0 <= k <= |b|
      invariant SmoothPrefix(cache, a + b, |a| + k, alpha) == SmoothPrefix(mid, b, k, alpha)
    {
      assert (a + b)[|a| + k] == b[k];
      k := k + 1;
    }
  }

  /** No two requests of a frame name the same key. */
  predicate DistinctKeys(jobs: seq<Job>)
  {
    forall i, j :: 0 <= i < j < |jobs| ==> jobs[i].key != jobs[j].key
  }

  /** Requests whose keys follow a list of pairwise different names have distinct keys. */
  lemma DistinctByKeys(jobs: seq<Job>, names: seq<string>)
    requires |jobs| == |names|
    requires forall i :: 0 <= i < |jobs| ==> jobs[i].key == names[i]
    requires forall i, j :: 0 <= i < j < |names| ==> names[i] != names[j]
    ensures DistinctKeys(jobs)
  {
  }

  /**
   * With distinct keys, after the first `n` requests each assigned bone's key
   * holds its own smoothed value, computed from the cache as it was before the
   * frame, and every key no assigned request names keeps its entry, or its
   * absence.
   */
  lemma {:induction false} SmoothPrefixAt(cache: map<string, real>, jobs: seq<Job>, n: nat, alpha: real, k: string)
    requires n <= |jobs| && DistinctKeys(jobs)
    ensures forall i :: 0 <= i < n && jobs[i].active && jobs[i].key == k ==>
              k in SmoothPrefix(cache, jobs, n, alpha) &&
              SmoothPrefix(cache, jobs, n, alpha)[k] == SmoothedValue(cache, k, jobs[i].target, alpha)
    ensures (forall i :: 0 <= i < n && jobs[i].active ==> jobs[i].key != k) ==>
              (k in SmoothPrefix(cache, jobs, n, alpha) <==> k in cache) &&
              (k in cache ==> SmoothPrefix(cache, jobs, n, alpha)[k] == cache[k])
  {
    if n > 0 {
      SmoothPrefixAt(cache, jobs, n - 1, alpha, k);
      var before := SmoothPrefix(cache, jobs, n - 1, alpha);
      var last := jobs[n - 1];
      if last.active && last.key == k {
        assert forall i :: 0 <= i < n - 1 ==> jobs[i].key != k;
        assert SmoothedValue(before, k, last.target, alpha) == SmoothedValue(cache, k, last.target, alpha);
      }
    }
  }

  /** `SmoothPrefixAt` for the whole frame. */
  lemma SmoothAllAt(cache: map<string, real>, jobs: seq<Job>, alpha: real, k: string)
    requires DistinctKeys(jobs)
    ensures forall i :: 0 <= i < |jobs| && jobs[i].active && jobs[i].key == k ==>
              k in SmoothAll(cache, jobs, alpha) && SmoothAll(cache, jobs, alpha)[k] == SmoothedValue(cache, k, jobs[i].target, alpha)
    ensures (forall i :: 0 <= i < |jobs| && jobs[i].active ==> jobs[i].key != k) ==>
              (k in SmoothAll(cache, jobs, alpha) <==> k in cache) &&
              (k in cache ==> SmoothAll(cache, jobs, alpha)[k] == cache[k])
  {
    SmoothPrefixAt(cache, jobs, |jobs|, alpha, k);
  }
}
