/**
 * The bounded, lockstep history shared by both time controllers: two deques
 * with the same `maxlen` (state snapshots and the simulation times they were
 * taken at), the pops that step back through them, and the nearest-time scan
 * used by rewinding.
 */
module History {
  import opened Numbers

  /** `deque.append` on a deque with `maxlen == cap`: when full, the oldest entry is dropped. */
  function Push<T>(s: seq<T>, x: T, cap: nat): (r: seq<T>)
    requires 0 < cap && |s| <= cap
    ensures |r| == if |s| < cap then |s| + 1 else cap
    ensures r[|r| - 1] == x
  {
    if |s| < cap then s + [x] else s[1..] + [x]
  }

  /** What a push keeps: the newest `|r|` entries of the old contents followed by `x`. */
  lemma PushKeepsNewest<T>(s: seq<T>, x: T, cap: nat)
    requires 0 < cap && |s| <= cap
    ensures var r := Push(s, x, cap); r == (s + [x])[|s| + 1 - |r|..]
  {
  }

  /** Appending every element of `xs`, in order. */
  function PushAll<T>(s: seq<T>, xs: seq<T>, cap: nat): (r: seq<T>)
    requires 0 < cap && |s| <= cap
    ensures |r| <= cap
    decreases |xs|
  {
    if xs == [] then s else PushAll(Push(s, xs[0], cap), xs[1..], cap)
  }

  /** Pushing any number of entries keeps exactly the newest `cap` of everything pushed, in order. */
  lemma {:induction false} PushAllKeepsNewest<T>(s: seq<T>, xs: seq<T>, cap: nat)
    requires 0 < cap && |s| <= cap
    ensures var all := s + xs; PushAll(s, xs, cap) == all[|all| - MinNat(|all|, cap)..]
    decreases |xs|
  {
    var all := s + xs;
    if xs == [] {
      assert all == s;
    } else {
      var s1 := Push(s, xs[0], cap);
      var d := |s| + 1 - |s1|;
      PushKeepsNewest(s, xs[0], cap);
      assert s1 == (s + [xs[0]])[d..];
      assert s1 + xs[1..] == all[d..] by {
        assert s + [xs[0]] + xs[1..] == all;
      }
      PushAllKeepsNewest(s1, xs[1..], cap);
    }
  }

  predicate NonDecreasing(ts: seq<real>) {
    forall i, j :: 0 <= i < j < |ts| ==> ts[i] <= ts[j]
  }

  /**
   * The two history deques and `simulation_time`. Index i of `states` was
   * saved at time `times[i]`.
   */
  datatype Timeline<S> = Timeline(states: seq<S>, times: seq<real>, now: real) {

    /** The two deques have the same length, which never exceeds the maximum. */
    predicate InLockstep(cap: nat) {
      |states| == |times| <= cap
    }

    /** Stored times never decrease, are non-negative, and none is later than `now`. */
    predicate Ordered() {
      && 0.0 <= now
      && NonDecreasing(times)
      && forall i :: 0 <= i < |times| ==> 0.0 <= times[i] <= now
    }
  }

  /** Both histories cleared and the clock at 0. */
  function Cleared<S>(): (tl: Timeline<S>)
    ensures tl.Ordered() && tl.InLockstep(0)
  {
    Timeline([], [], 0.0)
  }

  /** Appending a time no earlier than every stored one keeps the deque ordered and bounded by it. */
  lemma PushKeepsOrder(ts: seq<real>, t: real, cap: nat)
    requires 0 < cap && |ts| <= cap
    requires NonDecreasing(ts) && forall i :: 0 <= i < |ts| ==> 0.0 <= ts[i] <= t
    requires 0.0 <= t
    ensures var r := Push(ts, t, cap);
      NonDecreasing(r) && forall i :: 0 <= i < |r| ==> 0.0 <= r[i] <= t
  {
    var r := Push(ts, t, cap);
    var rest := if |ts| < cap then ts else ts[1..];
    assert r == rest + [t];
    assert NonDecreasing(rest) && forall i :: 0 <= i < |rest| ==> 0.0 <= rest[i] <= t by {
      if |ts| == cap {
        forall i | 0 <= i < |rest| ensures rest[i] == ts[i + 1] { }
      }
    }
  }

  /** `save_state`: the snapshot and the current time are appended together. */
  function Saved<S>(tl: Timeline<S>, s: S, cap: nat): (r: Timeline<S>)
    requires 0 < cap && tl.InLockstep(cap)
    ensures r.InLockstep(cap) && r.now == tl.now && 0 < |r.times|
    ensures r.states[|r.states| - 1] == s && r.times[|r.times| - 1] == tl.now
    ensures |tl.times| < cap ==> r.states == tl.states + [s] && r.times == tl.times + [tl.now]
  {
    Timeline(Push(tl.states, s, cap), Push(tl.times, tl.now, cap), tl.now)
  }

  /** Saving stamps the snapshot with the current time, so the order survives. */
  lemma SavedKeepsOrder<S>(tl: Timeline<S>, s: S, cap: nat)
    requires 0 < cap && tl.InLockstep(cap) && tl.Ordered()
    ensures Saved(tl, s, cap).Ordered()
  {
    PushKeepsOrder(tl.times, tl.now, cap);
  }

  /** One forward tick of the clock: save, then advance `now` by `h`. */
  function Advanced<S>(tl: Timeline<S>, s: S, cap: nat, h: real): (r: Timeline<S>)
    requires 0 < cap && tl.InLockstep(cap)
    ensures r.InLockstep(cap) && r.now == tl.now + h && 0 < |r.times|
    ensures r.states[|r.states| - 1] == s && r.times[|r.times| - 1] == tl.now
    ensures |tl.times| < cap ==> r.states == tl.states + [s] && r.times == tl.times + [tl.now]
  {
    Saved(tl, s, cap).(now := tl.now + h)
  }

  /** The clock only moves forward by a non-negative tick, so the order survives. */
  lemma AdvancedKeepsOrder<S>(tl: Timeline<S>, s: S, cap: nat, h: real)
    requires 0 < cap && tl.InLockstep(cap) && tl.Ordered() && 0.0 <= h
    ensures Advanced(tl, s, cap, h).Ordered()
  {
    SavedKeepsOrder(tl, s, cap);
  }

  /** Popping `k` pairs from the tail (all of them if fewer are stored). */
  function Dropped<S>(tl: Timeline<S>, k: nat): (r: Timeline<S>)
    requires |tl.states| == |tl.times|
    ensures |r.states| == |r.times| == |tl.times| - MinNat(k, |tl.times|)
    ensures r.states == tl.states[..|r.states|] && r.times == tl.times[..|r.times|]
    ensures r.now == tl.now
  {
    var m := MinNat(k, |tl.times|);
    Timeline(tl.states[..|tl.states| - m], tl.times[..|tl.times| - m], tl.now)
  }

  /** Any prefix of an ordered history, with the clock at its newest entry, is ordered and no later. */
  lemma TruncatedKeepsOrder<S>(tl: Timeline<S>, n: nat)
    requires tl.Ordered() && 0 < n <= |tl.times| <= |tl.states|
    ensures var r := Timeline(tl.states[..n], tl.times[..n], tl.times[n - 1]);
      r.Ordered() && r.now <= tl.now
  {
  }

  /** Popping entries keeps the clock, and the remaining entries stay ordered. */
  lemma DroppedKeepsOrder<S>(tl: Timeline<S>, k: nat)
    requires |tl.states| == |tl.times| && tl.Ordered()
    ensures Dropped(tl, k).Ordered()
  {
  }

  /** The clock set back to the time of the newest remaining entry. */
  function AtTail<S>(tl: Timeline<S>): (r: Timeline<S>)
    requires 0 < |tl.times|
    ensures r.states == tl.states && r.times == tl.times
    ensures r.now == tl.times[|tl.times| - 1]
  {
    tl.(now := tl.times[|tl.times| - 1])
  }

  function Dist(t: real, target: real): real {
    Abs(t - target)
  }

  /** Index i holds a time nearest to the target, and no earlier index is as near. */
  predicate IsFirstNearest(ts: seq<real>, target: real, i: int) {
    && 0 <= i < |ts|
    && (forall j :: 0 <= j < |ts| ==> Dist(ts[i], target) <= Dist(ts[j], target))
    && (forall j :: 0 <= j < i ==> Dist(ts[i], target) < Dist(ts[j], target))
  }

  lemma FirstNearestAgainst(ts: seq<real>, target: real, i: int, j: int)
    requires IsFirstNearest(ts, target, i) && 0 <= j < |ts|
    ensures Dist(ts[i], target) <= Dist(ts[j], target)
    ensures j < i ==> Dist(ts[i], target) < Dist(ts[j], target)
  {
  }

  /** At most one index is the first nearest: the tie-break is deterministic. */
  lemma FirstNearestIsUnique(ts: seq<real>, target: real, i: int, j: int)
    requires IsFirstNearest(ts, target, i) && IsFirstNearest(ts, target, j)
    ensures i == j
  {
    FirstNearestAgainst(ts, target, i, j);
    FirstNearestAgainst(ts, target, j, i);
  }

  /** The nearest-time lookup, defined by recursion on the prefix the scan has read. */
  function FirstNearest(ts: seq<real>, target: real): (i: nat)
    requires 0 < |ts|
    ensures IsFirstNearest(ts, target, i)
    decreases |ts|
  {
    if |ts| == 1 then 0
    else
      var j := FirstNearest(ts[..|ts| - 1], target);
      if Dist(ts[|ts| - 1], target) < Dist(ts[j], target) then |ts| - 1 else j
  }

  /**
   * The linear scan of `rewind_to_time`: start with index 0 and replace the
   * best index only on a strictly smaller distance.
   */
  method FindNearest(ts: seq<real>, target: real) returns (best: nat)
    requires 0 < |ts|
    ensures IsFirstNearest(ts, target, best)
    ensures best == FirstNearest(ts, target)
  {
    best := 0;
    var bestDiff := Dist(ts[0], target);
    for i := 0 to |ts|
      invariant best < |ts| && (best == 0 || best < i)
      invariant bestDiff == Dist(ts[best], target)
      invariant forall j :: 0 <= j < i ==> bestDiff <= Dist(ts[j], target)
      invariant forall j :: 0 <= j < best ==> bestDiff < Dist(ts[j], target)
    {
      var diff := Dist(ts[i], target);
      if diff < bestDiff {
        best, bestDiff := i, diff;
      }
    }
    FirstNearestIsUnique(ts, target, best, FirstNearest(ts, target));
  }

  /**
   * The history after a rewind: everything after the first nearest entry is
   * discarded and the clock takes that entry's time.
   */
  function Rewound<S>(tl: Timeline<S>, target: real): (r: Timeline<S>)
    requires 0 < |tl.times| && |tl.states| == |tl.times|
    ensures var i := FirstNearest(tl.times, target);
      && r.states == tl.states[..i + 1] && r.times == tl.times[..i + 1]
      && r.now == tl.times[i]
    ensures 0 < |r.times| && |r.states| == |r.times|
  {
    var i := FirstNearest(tl.times, target);
    AtTail(Dropped(tl, |tl.times| - i - 1))
  }

  /** A rewind lands on a stored time at least as near the target as every other, never later than before. */
  lemma RewoundNearestAndOrdered<S>(tl: Timeline<S>, target: real)
    requires 0 < |tl.times| && |tl.states| == |tl.times|
    ensures var r := Rewound(tl, target);
      forall j :: 0 <= j < |tl.times| ==> Dist(r.now, target) <= Dist(tl.times[j], target)
    ensures tl.Ordered() ==> Rewound(tl, target).Ordered() && Rewound(tl, target).now <= tl.now
  {
    var i := FirstNearest(tl.times, target);
    if tl.Ordered() {
      TruncatedKeepsOrder(tl, i + 1);
    }
  }
}
