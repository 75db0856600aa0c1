/**
 The sweep line of `_validate_reservations`: it re-checks recorded reservation intervals against
 the worker ceiling, the summed target rate and the exclusive resource keys. What the sweep decides
 is stated without any sweep: at every instant the occupied intervals respect the three limits.
 */
module Reservations {
  import opened Options
  import opened Sorting

  /** An exclusive resource: the endpoint every trial of a host and port shares, or a caller's own key. */
  datatype Key = Endpoint(host: string, port: nat) | User(name: string)

  /** Required admission ceilings (`ConcurrentExecutionPolicy`). */
  datatype Policy = Policy(maxWorkers: nat, maxActiveTargetBps: nat)

  /** What the sweep reads of one trial's record. A trial that never ran has no admission index. */
  datatype Reservation = Reservation(index: Option<nat>, admitted: real, released: Option<real>, target: nat, keys: set<Key>)

  /** Releases follow admissions, and admission indices identify trials. */
  predicate Ordered(rs: seq<Reservation>) {
    && (forall k :: 0 <= k < |rs| && rs[k].released.Some? ==> rs[k].admitted <= rs[k].released.value)
    && (forall j, k :: 0 <= j < k < |rs| && rs[j].index.Some? && rs[k].index.Some? ==> rs[j].index != rs[k].index)
  }

  // ---- The meaning of a set of reservations ------------------------------------------------

  /** Half-open: occupied from admission up to, and not including, release. */
  predicate Occupies(r: Reservation, t: real) {
    r.index.Some? && r.admitted <= t && (r.released.None? || t < r.released.value)
  }

  ghost function OccupiedAt(rs: seq<Reservation>, t: real): set<nat> {
    set k | 0 <= k < |rs| && Occupies(rs[k], t)
  }

  /** Sum of the targets of the trials in `at`. */
  ghost function Rate(rs: seq<Reservation>, at: set<nat>): nat {
    if rs == [] then 0
    else Rate(rs[..|rs| - 1], at) + (if |rs| - 1 in at then rs[|rs| - 1].target else 0)
  }

  ghost function KeysOf(rs: seq<Reservation>, at: set<nat>): set<Key> {
    set k, key | 0 <= k < |rs| && k in at && key in rs[k].keys :: key
  }

  ghost predicate Exclusive(rs: seq<Reservation>, at: set<nat>) {
    forall j, k :: 0 <= j < k < |rs| && j in at && k in at ==> rs[j].keys !! rs[k].keys
  }

  ghost predicate WithinLimits(rs: seq<Reservation>, at: set<nat>, policy: Policy) {
    && |at| <= policy.maxWorkers
    && Rate(rs, at) <= policy.maxActiveTargetBps
    && Exclusive(rs, at)
  }

  lemma SubsetSize<T>(a: set<T>, b: set<T>)
    requires a <= b
    ensures |a| <= |b|
  {
    assert b == a + (b - a);
  }

  lemma {:induction false} RateIsMonotone(rs: seq<Reservation>, a: set<nat>, b: set<nat>)
    requires a <= b
    ensures Rate(rs, a) <= Rate(rs, b)
  {
    if rs != [] { RateIsMonotone(rs[..|rs| - 1], a, b); }
  }

  lemma {:induction false} RateAdds(rs: seq<Reservation>, at: set<nat>, k: nat)
    requires k !in at
    ensures Rate(rs, at + {k}) == Rate(rs, at) + (if k < |rs| then rs[k].target else 0)
  {
    if rs != [] {
      RateAdds(rs[..|rs| - 1], at, k);
    }
  }

  /** Fewer occupied reservations never break a limit. */
  lemma LimitsAreMonotone(rs: seq<Reservation>, a: set<nat>, b: set<nat>, policy: Policy)
    requires a <= b && WithinLimits(rs, b, policy)
    ensures WithinLimits(rs, a, policy)
  {
    SubsetSize(a, b);
    RateIsMonotone(rs, a, b);
  }

  // ---- The sorted boundaries ----------------------------------------------------------------

  /** `kind` 0 releases and `kind` 1 admits, so a release sorts before an admission of its time. */
  datatype Boundary = Boundary(time: real, kind: int, index: nat, trial: nat)

  function RankOf(b: Boundary): Rank { Rank(b.time, b.kind, b.index) }

  function Admission(r: Reservation, k: nat): Boundary requires r.index.Some? {
    Boundary(r.admitted, 1, r.index.value, k)
  }

  function Release(r: Reservation, k: nat): Boundary requires r.index.Some? && r.released.Some? {
    Boundary(r.released.value, 0, r.index.value, k)
  }

  /** A confirmed zero-length interval occupies no duration and has no boundaries. */
  predicate Lasting(r: Reservation) { r.index.Some? && r.released != Some(r.admitted) }

  predicate IsBoundary(rs: seq<Reservation>, b: Boundary) {
    && b.trial < |rs|
    && var r := rs[b.trial];
      && Lasting(r)
      && (b == Admission(r, b.trial) || (r.released.Some? && b == Release(r, b.trial)))
  }

  /** Trials admitted and not yet released once the boundaries in `done` have been passed. */
  ghost function Active(rs: seq<Reservation>, done: seq<Boundary>): set<nat> {
    set k | 0 <= k < |rs| && rs[k].index.Some? && Admission(rs[k], k) in done && !Released(rs[k], k, done)
  }

  ghost predicate Released(r: Reservation, k: nat, done: seq<Boundary>) {
    r.index.Some? && r.released.Some? && Release(r, k) in done
  }

  ghost predicate AllBoundaries(rs: seq<Reservation>, bs: seq<Boundary>) {
    && StrictlySorted(bs, RankOf)
    && forall b :: b in bs <==> IsBoundary(rs, b)
  }

  /** Collect and sort the boundaries of every lasting reservation. */
  method Boundaries(rs: seq<Reservation>) returns (bs: seq<Boundary>)
    requires Ordered(rs)
    ensures AllBoundaries(rs, bs)
  {
    var raw: seq<Boundary> := [];
    for k := 0 to |rs|
      invariant forall b :: b in raw <==> IsBoundary(rs, b) && b.trial < k
      invariant DistinctRanks(raw, RankOf)
    {
      if Lasting(rs[k]) {
        raw := raw + [Admission(rs[k], k)];
        if rs[k].released.Some? {
          raw := raw + [Release(rs[k], k)];
        }
      }
    }
    SortKeepsElements(raw, RankOf);
    SortIsStrict(raw, RankOf);
    bs := SortByRank(raw, RankOf);
    forall b ensures b in bs <==> b in raw {
      assert b in multiset(bs) <==> b in multiset(raw);
    }
  }

  /** A boundary has been passed exactly when it ranks below the next one. */
  lemma PassedIffBefore(bs: seq<Boundary>, p: nat, b: Boundary)
    requires StrictlySorted(bs, RankOf) && p < |bs| && b in bs
    ensures b in bs[..p] <==> Before(RankOf(b), RankOf(bs[p]))
  {
    var i :| 0 <= i < |bs| && bs[i] == b;
    if i < p { assert bs[..p][i] == b; }
    if b in bs[..p] {
      var j :| 0 <= j < p && bs[..p][j] == b;
      assert bs[j] == b;
    }
  }

  /** Right after an admission, everything the sweep holds is occupied at that instant. */
  lemma AdmissionIsOccupied(rs: seq<Reservation>, bs: seq<Boundary>, p: nat)
    requires Ordered(rs) && AllBoundaries(rs, bs) && p < |bs| && bs[p].kind == 1
    ensures Active(rs, bs[..p]) + {bs[p].trial} <= OccupiedAt(rs, bs[p].time)
  {
    var t := bs[p].time;
    assert IsBoundary(rs, bs[p]);
    forall k | k in Active(rs, bs[..p]) ensures Occupies(rs[k], t) {
      assert Admission(rs[k], k) in bs;
      PassedIffBefore(bs, p, Admission(rs[k], k));
      if rs[k].released.Some? {
        assert IsBoundary(rs, Admission(rs[k], k));
        assert IsBoundary(rs, Release(rs[k], k));
        PassedIffBefore(bs, p, Release(rs[k], k));
      }
    }
  }

  /** How many boundaries lie at or before `t`. */
  ghost function PassedBy(bs: seq<Boundary>, t: real): (p: nat)
    requires StrictlySorted(bs, RankOf)
    ensures p <= |bs|
    ensures forall i :: 0 <= i < |bs| ==> (bs[i].time <= t <==> i < p)
  {
    if bs == [] || bs[|bs| - 1].time <= t then |bs|
    else
      assert forall i :: 0 <= i < |bs| - 1 ==> bs[i] == bs[..|bs| - 1][i];
      PassedBy(bs[..|bs| - 1], t)
  }

  /** What is occupied at `t` is what the sweep holds once it has passed `t`. */
  lemma OccupiedIsActive(rs: seq<Reservation>, bs: seq<Boundary>, t: real)
    requires Ordered(rs) && AllBoundaries(rs, bs)
    ensures OccupiedAt(rs, t) == Active(rs, bs[..PassedBy(bs, t)])
  {
    var p := PassedBy(bs, t);
    forall b | b in bs ensures b in bs[..p] <==> b.time <= t {
      var i :| 0 <= i < |bs| && bs[i] == b;
      if i < p { assert bs[..p][i] == b; }
      if b in bs[..p] { var j :| 0 <= j < p && bs[..p][j] == b; }
    }
    forall k | 0 <= k < |rs| && rs[k].index.Some?
      ensures k in OccupiedAt(rs, t) <==> k in Active(rs, bs[..p])
    {
      if Lasting(rs[k]) {
        assert IsBoundary(rs, Admission(rs[k], k));
        if rs[k].released.Some? { assert IsBoundary(rs, Release(rs[k], k)); }
      } else {
        assert !IsBoundary(rs, Admission(rs[k], k));
      }
    }
  }

  lemma PassOne(bs: seq<Boundary>, p: nat)
    requires p < |bs|
    ensures bs[..p + 1] == bs[..p] + [bs[p]]
  {}

  lemma NotYetPassed(bs: seq<Boundary>, p: nat)
    requires StrictlySorted(bs, RankOf) && p < |bs|
    ensures bs[p] !in bs[..p]
  {
    PassedIffBefore(bs, p, bs[p]);
  }

  /** Passing a boundary decides nothing about any other boundary. */
  lemma OnlyThisOne(rs: seq<Reservation>, bs: seq<Boundary>, p: nat)
    requires Ordered(rs) && AllBoundaries(rs, bs) && p < |bs|
    ensures IsBoundary(rs, bs[p]) && bs[p] !in bs[..p]
    ensures forall b :: b != bs[p] ==> (b in bs[..p + 1] <==> b in bs[..p])
    ensures bs[p] in bs[..p + 1]
  {
    NotYetPassed(bs, p);
    PassOne(bs, p);
  }

  /** An admission boundary adds exactly its own trial. */
  lemma PassAdmission(rs: seq<Reservation>, bs: seq<Boundary>, p: nat)
    requires Ordered(rs) && AllBoundaries(rs, bs) && p < |bs| && bs[p].kind == 1
    ensures bs[p].trial < |rs| && bs[p].trial !in Active(rs, bs[..p])
    ensures Active(rs, bs[..p + 1]) == Active(rs, bs[..p]) + {bs[p].trial}
  {
    var k := bs[p].trial;
    OnlyThisOne(rs, bs, p);
    if rs[k].released.Some? {
      assert IsBoundary(rs, Release(rs[k], k));
      PassedIffBefore(bs, p, Release(rs[k], k));
    }
  }

  /** A release boundary removes exactly its own trial, which is held: the removal never misses. */
  lemma PassRelease(rs: seq<Reservation>, bs: seq<Boundary>, p: nat)
    requires Ordered(rs) && AllBoundaries(rs, bs) && p < |bs| && bs[p].kind == 0
    ensures bs[p].trial < |rs| && bs[p].trial in Active(rs, bs[..p])
    ensures Active(rs, bs[..p + 1]) == Active(rs, bs[..p]) - {bs[p].trial}
  {
    var k := bs[p].trial;
    OnlyThisOne(rs, bs, p);
    assert IsBoundary(rs, Admission(rs[k], k));
    PassedIffBefore(bs, p, Admission(rs[k], k));
  }

  lemma KeysWithout(rs: seq<Reservation>, at: set<nat>, k: nat)
    requires Exclusive(rs, at) && k in at && k < |rs|
    ensures KeysOf(rs, at - {k}) == KeysOf(rs, at) - rs[k].keys
  {
    forall key | key in KeysOf(rs, at - {k}) ensures key !in rs[k].keys {
      var j :| 0 <= j < |rs| && j in at - {k} && key in rs[j].keys;
      assert j < k || k < j;
    }
  }

  lemma KeysWith(rs: seq<Reservation>, at: set<nat>, k: nat)
    requires k < |rs|
    ensures KeysOf(rs, at + {k}) == KeysOf(rs, at) + rs[k].keys
  {}

  lemma OverlapBreaksExclusion(rs: seq<Reservation>, at: set<nat>, k: nat)
    requires k < |rs| && k !in at && KeysOf(rs, at) * rs[k].keys != {}
    ensures !Exclusive(rs, at + {k})
  {
    var key :| key in KeysOf(rs, at) * rs[k].keys;
    var j :| 0 <= j < |rs| && j in at && key in rs[j].keys;
    assert j < k || k < j;
  }

  /** A set within the sweep's reach that breaks a limit convicts the instant it is occupied. */
  lemma Conviction(rs: seq<Reservation>, bs: seq<Boundary>, p: nat, policy: Policy)
    requires Ordered(rs) && AllBoundaries(rs, bs) && p < |bs| && bs[p].kind == 1
    requires !WithinLimits(rs, Active(rs, bs[..p]) + {bs[p].trial}, policy)
    ensures exists t :: !WithinLimits(rs, OccupiedAt(rs, t), policy)
  {
    AdmissionIsOccupied(rs, bs, p);
    if WithinLimits(rs, OccupiedAt(rs, bs[p].time), policy) {
      LimitsAreMonotone(rs, Active(rs, bs[..p]) + {bs[p].trial}, OccupiedAt(rs, bs[p].time), policy);
    }
  }

  /** The three variables the sweep carries. */
  ghost predicate Carries(rs: seq<Reservation>, done: seq<Boundary>, active: set<nat>, rate: int, keys: set<Key>) {
    && active == Active(rs, done)
    && rate == Rate(rs, active)
    && keys == KeysOf(rs, active)
  }

  ghost predicate LimitsHeld(rs: seq<Reservation>, bs: seq<Boundary>, p: nat, policy: Policy) {
    forall q :: 0 <= q <= p && q <= |bs| ==> WithinLimits(rs, Active(rs, bs[..q]), policy)
  }

  lemma ReleaseStep(rs: seq<Reservation>, bs: seq<Boundary>, p: nat, active: set<nat>, rate: int, keys: set<Key>, policy: Policy)
    requires Ordered(rs) && AllBoundaries(rs, bs) && p < |bs| && bs[p].kind == 0
    requires Carries(rs, bs[..p], active, rate, keys) && WithinLimits(rs, active, policy)
    ensures bs[p].trial < |rs| && bs[p].trial in active
    ensures var k := bs[p].trial;
      Carries(rs, bs[..p + 1], active - {k}, rate - rs[k].target, keys - rs[k].keys)
    ensures WithinLimits(rs, Active(rs, bs[..p + 1]), policy)
  {
    var k := bs[p].trial;
    PassRelease(rs, bs, p);
    KeysWithout(rs, active, k);
    RateAdds(rs, active - {k}, k);
    assert active - {k} + {k} == active;
    LimitsAreMonotone(rs, active - {k}, active, policy);
  }

  lemma ExclusionGrows(rs: seq<Reservation>, at: set<nat>, k: nat)
    requires k < |rs| && Exclusive(rs, at) && KeysOf(rs, at) * rs[k].keys == {}
    ensures Exclusive(rs, at + {k})
  {
    forall i, j | 0 <= i < j < |rs| && i in at + {k} && j in at + {k} ensures rs[i].keys !! rs[j].keys {
      var other := if i == k then j else i;
      if other in at {
        forall key | key in rs[other].keys ensures key !in rs[k].keys {
          assert key in KeysOf(rs, at);
          assert key !in KeysOf(rs, at) * rs[k].keys;
        }
      }
    }
  }

  /** The two tests an admission boundary makes are exact for the set it produces. */
  lemma AdmissionStep(rs: seq<Reservation>, bs: seq<Boundary>, p: nat, active: set<nat>, rate: int, keys: set<Key>, policy: Policy)
    requires Ordered(rs) && AllBoundaries(rs, bs) && p < |bs| && bs[p].kind == 1
    requires Carries(rs, bs[..p], active, rate, keys) && WithinLimits(rs, active, policy)
    ensures bs[p].trial < |rs|
    ensures var k := bs[p].trial;
      && Carries(rs, bs[..p + 1], active + {k}, rate + rs[k].target, keys + rs[k].keys)
      && (WithinLimits(rs, Active(rs, bs[..p + 1]), policy) <==>
          && keys * rs[k].keys == {}
          && |active + {k}| <= policy.maxWorkers
          && rate + rs[k].target <= policy.maxActiveTargetBps)
  {
    var k := bs[p].trial;
    PassAdmission(rs, bs, p);
    KeysWith(rs, active, k);
    RateAdds(rs, active, k);
    if keys * rs[k].keys != {} {
      OverlapBreaksExclusion(rs, active, k);
    } else {
      ExclusionGrows(rs, active, k);
    }
  }

  /**
   The sweep. It accepts exactly when, at every instant, the half-open occupied intervals number at
   most `maxWorkers`, their targets sum to at most the cap, and their keys are pairwise disjoint.
   */
  method Sweep(rs: seq<Reservation>, policy: Policy) returns (accepted: bool)
    requires Ordered(rs)
    ensures accepted <==> forall t :: WithinLimits(rs, OccupiedAt(rs, t), policy)
  {
    var bs := Boundaries(rs);
    var active: set<nat>, rate: int, keys: set<Key> := {}, 0, {};
    assert Active(rs, bs[..0]) == {};
    RateOfNothing(rs);
    for p := 0 to |bs|
      invariant Carries(rs, bs[..p], active, rate, keys)
      invariant LimitsHeld(rs, bs, p, policy)
    {
      var k := bs[p].trial;
      assert IsBoundary(rs, bs[p]);
      if bs[p].kind == 0 {
        ReleaseStep(rs, bs, p, active, rate, keys, policy);
        active, rate, keys := active - {k}, rate - rs[k].target, keys - rs[k].keys;
      } else {
        AdmissionStep(rs, bs, p, active, rate, keys, policy);
        PassAdmission(rs, bs, p);
        if keys * rs[k].keys != {} {
          Conviction(rs, bs, p, policy);
          return false;
        }
        active, rate, keys := active + {k}, rate + rs[k].target, keys + rs[k].keys;
        if |active| > policy.maxWorkers || rate > policy.maxActiveTargetBps {
          Conviction(rs, bs, p, policy);
          return false;
        }
      }
    }
    forall t ensures WithinLimits(rs, OccupiedAt(rs, t), policy) {
      OccupiedIsActive(rs, bs, t);
    }
    return true;
  }

  lemma {:induction false} RateOfNothing(rs: seq<Reservation>)
    ensures Rate(rs, {}) == 0
  {
    if rs != [] { RateOfNothing(rs[..|rs| - 1]); }
  }
}
