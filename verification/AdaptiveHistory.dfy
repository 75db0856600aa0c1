/**
 Whole-history guarantees of the adaptive UDP search, for every history its own decisions admit: resolution
 of the refined grid, what an eligible rate has been through, and the limits on batches, rates and budgets.
 */
module AdaptiveHistory {
  import opened Options
  import opened Intent
  import opened AdaptiveSearch

  // ---- The ordered set of tested rates ------------------------------------------------------

  lemma Prepend(x: nat, tail: seq<nat>)
    requires Ascending(tail) && (tail != [] ==> x < tail[0])
    ensures Ascending([x] + tail) && x !in tail
  {
    var s := [x] + tail;
    forall i, j | 0 <= i < j < |s| ensures s[i] < s[j] {
      assert s[j] == tail[j - 1];
      if i > 0 { assert s[i] == tail[i - 1]; }
    }
    forall j | 0 <= j < |tail| ensures tail[j] != x { assert s[j + 1] == tail[j] && s[0] == x; }
  }

  lemma {:induction false} InsertKeepsOrder(s: seq<nat>, rate: nat)
    requires Ascending(s)
    ensures Ascending(Insert(s, rate))
    ensures forall x: nat :: x in Insert(s, rate) <==> x in s || x == rate
    ensures |Insert(s, rate)| == |s| + if rate in s then 0 else 1
  {
    if s != [] && rate > s[0] {
      InsertKeepsOrder(s[1..], rate);
      var tail := Insert(s[1..], rate);
      assert s == [s[0]] + s[1..];
      Prepend(s[0], tail);
    } else if s != [] && rate < s[0] {
      Prepend(rate, s);
    } else if s == [] {
      assert Insert(s, rate) == [rate];
    }
  }

  lemma {:induction false} InsertPresent(s: seq<nat>, rate: nat)
    requires Ascending(s) && rate in s
    ensures Insert(s, rate) == s
  {
    if rate != s[0] {
      assert s == [s[0]] + s[1..];
      InsertPresent(s[1..], rate);
    }
  }

  /** A value strictly between two neighbours goes exactly there. */
  lemma {:induction false} InsertBetween(s: seq<nat>, i: nat, mid: nat)
    requires Ascending(s) && i + 1 < |s| && s[i] < mid < s[i + 1]
    ensures Insert(s, mid) == s[..i + 1] + [mid] + s[i + 1..]
  {
    if i == 0 {
      var rest := s[1..];
      assert Insert(rest, mid) == [mid] + rest;
      assert [s[0]] + ([mid] + rest) == s[..1] + [mid] + s[1..];
    } else {
      InsertBetween(s[1..], i - 1, mid);
      assert s[1..][..i] == s[1..i + 1] && s[1..][i..] == s[i + 1..];
      assert [s[0]] + (s[1..i + 1] + [mid] + s[i + 1..]) == s[..i + 1] + [mid] + s[i + 1..];
    }
  }

  lemma {:induction false} InsertAllKeepsOrder(s: seq<nat>, rates: seq<nat>)
    requires Ascending(s)
    ensures Ascending(InsertAll(s, rates))
    ensures forall x: nat :: x in InsertAll(s, rates) <==> x in s || x in rates
    decreases rates
  {
    if rates != [] {
      InsertKeepsOrder(s, rates[0]);
      InsertAllKeepsOrder(Insert(s, rates[0]), rates[1..]);
      assert rates == [rates[0]] + rates[1..];
    }
  }

  /** Distinct new rates all count. */
  lemma {:induction false} DistinctRatesAdd(s: seq<nat>, rates: seq<nat>)
    requires Ascending(s)
    requires forall i, j :: 0 <= i < j < |rates| ==> rates[i] != rates[j]
    requires forall r :: r in rates ==> r !in s
    ensures |InsertAll(s, rates)| == |s| + |rates|
    decreases rates
  {
    if rates != [] {
      assert rates == [rates[0]] + rates[1..];
      InsertKeepsOrder(s, rates[0]);
      DistinctRatesAdd(Insert(s, rates[0]), rates[1..]);
    }
  }

  lemma InsertOne(s: seq<nat>, rate: nat)
    requires Ascending(s)
    ensures InsertAll(s, [rate]) == Insert(s, rate)
  {
    assert [rate][1..] == [];
    assert InsertAll(Insert(s, rate), []) == Insert(s, rate);
  }

  lemma TestedNext(h: History, item: BatchResult)
    ensures Tested(h + [item]) == InsertAll(Tested(h), item.batch.rates)
  {
    assert (h + [item])[..|h|] == h;
  }

  /** The tested rates are those of the batches, once each, in order. */
  lemma {:induction false} TestedIsSorted(h: History)
    ensures Ascending(Tested(h))
    ensures forall k, x :: 0 <= k < |h| && x in h[k].batch.rates ==> x in Tested(h)
  {
    if h != [] {
      var n := |h| - 1;
      TestedIsSorted(h[..n]);
      InsertAllKeepsOrder(Tested(h[..n]), h[n].batch.rates);
      forall k, x | 0 <= k < |h| && x in h[k].batch.rates ensures x in Tested(h) {
        if k < n { assert h[..n][k] == h[k]; }
      }
    }
  }

  // ---- The shape of one step ----------------------------------------------------------------

  /** Confirm the highest provisional rate above every eligible one. */
  ghost predicate ConfirmStep(p: Search, h: History, b: Batch, i: nat)
    requires AllRecorded(h)
  {
    var t := Tested(h);
    && i < |t| && b.reason == Confirm && b.rates == [t[i]] && b.depth == Depth(h, t[i])
    && StatusOf(p, h, t[i]) == Provisional
  }

  /** Split the topmost refinable interval. */
  ghost predicate RefineStep(p: Search, h: History, b: Batch, i: nat)
    requires AllRecorded(h)
  {
    var t := Tested(h);
    && i + 1 < |t| && |t| < p.limits.maxDistinct
    && b.reason == Refine && b.rates == [(t[i] + t[i + 1]) / 2]
    && t[i] + 1 < t[i + 1] && PairDepth(h, t, i) < p.limits.maxDepth && b.depth == PairDepth(h, t, i) + 1
  }

  lemma StepShape(p: Search, h: History, b: Batch) returns (i: nat)
    requires AllRecorded(h) && h != [] && Choose(p, h) == Next(b)
    ensures ConfirmStep(p, h, b, i) || RefineStep(p, h, b, i)
    ensures b.reason == Confirm <==> ConfirmStep(p, h, b, i)
  {
    hide StatusOf, Depth, Tested, Specs;
    var t := Tested(h);
    match Promising(p, h, t)
    case Some(k) => i := k;
    case None => i := LastRefinable(p, h, t).value;
  }

  lemma ReservedFits(p: Search, h: History, rates: seq<nat>, reason: Reason, depth: nat)
    requires MakeBatch(p, h, rates, reason, depth).Ok?
    ensures var b := MakeBatch(p, h, rates, reason, depth).value;
      && b == Batch(|h|, rates, reason, depth, Specs(p, rates))
      && UsedTrials(h) + (p.policy.repetitions + p.policy.warmups) * |b.rates| <= p.policy.maxTrials
      && UsedActive(p, h) + ActiveOf(p, b.specs) <= p.maxActive
      && (UsedBits(p, h) + BitsOf(p, b.specs) + 7) / 8 <= p.maxPayload
  {
    hide Specs, ActiveOf, BitsOf, UsedActive, UsedBits, UsedTrials;
  }

  /** Whatever is chosen fits the budgets on top of everything reserved before. */
  lemma ChosenFits(p: Search, h: History, b: Batch)
    requires AllRecorded(h) && Choose(p, h) == Next(b)
    ensures b.index == |h| && b.specs == Specs(p, b.rates)
    ensures UsedTrials(h) + (p.policy.repetitions + p.policy.warmups) * |b.rates| <= p.policy.maxTrials
    ensures UsedActive(p, h) + ActiveOf(p, b.specs) <= p.maxActive
    ensures (UsedBits(p, h) + BitsOf(p, b.specs) + 7) / 8 <= p.maxPayload
    ensures h == [] ==> b.rates == p.initial && b.reason == InitialGrid && b.depth == 0
  {
    hide StatusOf, Depth, Tested, Specs, ActiveOf, BitsOf, UsedActive, UsedBits, UsedTrials, MakeBatch;
    if h == [] {
      ReservedFits(p, h, p.initial, InitialGrid, 0);
    } else {
      var t := Tested(h);
      match Promising(p, h, t)
      case Some(i) => ReservedFits(p, h, [t[i]], Confirm, Depth(h, t[i]));
      case None =>
        var i := LastRefinable(p, h, t).value;
        ReservedFits(p, h, [(t[i] + t[i + 1]) / 2], Refine, PairDepth(h, t, i) + 1);
    }
  }

  lemma {:induction false} SpecsCount(p: Search, rates: seq<nat>)
    ensures |Specs(p, rates)| == (p.policy.repetitions + p.policy.warmups) * |rates|
  {
    if rates != [] { SpecsCount(p, rates[1..]); }
  }

  // ---- Depths and gaps ----------------------------------------------------------------------

  /** `ceil(g / 2^m)`, one halving at a time. */
  function Halved(g: nat, m: nat): nat { if m == 0 then g else (Halved(g, m - 1) + 1) / 2 }

  function Pow2(m: nat): nat { if m == 0 then 1 else 2 * Pow2(m - 1) }

  function CeilDiv(g: nat, d: nat): nat requires d > 0 { (g + d - 1) / d }

  lemma {:induction false} Pow2IsPositive(m: nat)
    ensures Pow2(m) > 0
  {
    if m > 0 { Pow2IsPositive(m - 1); }
  }

  /** Halving upwards `m` times is one division by two to the `m`, rounded up. */
  lemma {:induction false} HalvedIsCeil(g: nat, m: nat)
    ensures Pow2(m) > 0 && Halved(g, m) == CeilDiv(g, Pow2(m))
  {
    if m > 0 {
      HalvedIsCeil(g, m - 1);
      CeilOfCeil(g, Pow2(m - 1));
    }
  }

  lemma CeilOfCeil(g: nat, d: nat)
    requires d > 0
    ensures (CeilDiv(g, d) + 1) / 2 == CeilDiv(g, 2 * d)
  {
    hide CeilDiv;
    CeilMeans(g, d);
    Doubling(g, d, CeilDiv(g, d));
    CeilIs(g, 2 * d, (CeilDiv(g, d) + 1) / 2);
  }

  lemma CeilMeans(g: nat, d: nat)
    requires d > 0
    ensures (CeilDiv(g, d) - 1) * d < g <= CeilDiv(g, d) * d
  {
    DivisionIs(g + d - 1, d, CeilDiv(g, d));
  }

  lemma CeilIs(g: nat, d: nat, q: nat)
    requires d > 0 && (q - 1) * d < g <= q * d
    ensures CeilDiv(g, d) == q
  {
    QuotientIs(g + d - 1, d, q);
  }

  lemma Doubling(g: nat, d: nat, q: nat)
    requires (q - 1) * d < g <= q * d
    ensures var r := (q + 1) / 2; (r - 1) * (2 * d) < g <= r * (2 * d)
  {
    var r := (q + 1) / 2;
    Regroup(r - 1, d);
    Regroup(r, d);
    Scale(2 * (r - 1), q - 1, d);
    Scale(q, 2 * r, d);
  }

  lemma Regroup(a: int, d: nat)
    ensures a * (2 * d) == (2 * a) * d
  {}

  lemma Scale(a: int, b: int, d: nat)
    requires a <= b
    ensures a * d <= b * d
  {}

  lemma DivisionIs(n: nat, d: nat, q: nat)
    requires d > 0 && q == n / d
    ensures q * d <= n < (q + 1) * d
  {}

  lemma QuotientIs(n: nat, d: nat, q: nat)
    requires d > 0 && q * d <= n < (q + 1) * d
    ensures n / d == q
  {
    var other := n / d;
    DivisionIs(n, d, other);
    if other < q {
      Scale(other + 1, q, d);
    } else if other > q {
      Scale(q + 1, other, d);
    }
  }

  function LargestGap(t: seq<nat>): nat
    requires Ascending(t)
  {
    if |t| < 2 then 0 else Larger(t[1] - t[0], LargestGap(t[1..]))
  }

  lemma {:induction false} GapsAreBounded(t: seq<nat>, i: nat)
    requires Ascending(t) && i + 1 < |t|
    ensures t[i + 1] - t[i] <= LargestGap(t)
  {
    if i > 0 {
      GapsAreBounded(t[1..], i - 1);
      assert t[1..][i - 1] == t[i] && t[1..][i] == t[i + 1];
    }
  }

  /** The declared grid in order. */
  function Grid(p: Search): seq<nat> { InsertAll([], p.initial) }

  function InitialGap(p: Search): nat {
    InsertAllKeepsOrder([], p.initial);
    LargestGap(Grid(p))
  }

  /** Neighbours entered at depth at most `m` are at most the initial gap halved `m` times apart. */
  ghost predicate Resolved(g: nat, h: History, t: seq<nat>) {
    forall i: nat :: i + 1 < |t| ==> PairResolved(g, h, t, i)
  }

  ghost predicate PairResolved(g: nat, h: History, t: seq<nat>, i: nat)
    requires i + 1 < |t|
  {
    t[i + 1] - t[i] <= Halved(g, PairDepth(h, t, i))
  }

  ghost predicate Shallow(p: Search, h: History, t: seq<nat>) {
    forall i :: 0 <= i < |t| ==> Depth(h, t[i]) <= p.limits.maxDepth
  }

  lemma DepthNext(h: History, item: BatchResult, rate: nat)
    ensures Depth(h + [item], rate) ==
      if item.batch.reason != Confirm && rate in item.batch.rates then item.batch.depth else Depth(h, rate)
  {
    assert (h + [item])[..|h|] == h;
  }

  lemma FirstStepResolves(p: Search, item: BatchResult)
    requires item.batch.rates == p.initial && item.batch.reason == InitialGrid && item.batch.depth == 0
    ensures Tested([item]) == Grid(p) && Resolved(InitialGap(p), [item], Grid(p)) && Shallow(p, [item], Grid(p))
  {
    assert [item] == [] + [item];
    TestedNext([], item);
    InsertAllKeepsOrder([], p.initial);
    var t := Grid(p);
    forall i | 0 <= i < |t| ensures Depth([item], t[i]) == 0 {
      DepthNext([], item, t[i]);
    }
    forall i: nat | i + 1 < |t| ensures PairResolved(InitialGap(p), [item], t, i) {
      GapsAreBounded(t, i);
    }
  }

  lemma ConfirmKeepsResolution(p: Search, h: History, item: BatchResult, i: nat)
    requires AllRecorded(h) && ConfirmStep(p, h, item.batch, i)
    requires Resolved(InitialGap(p), h, Tested(h)) && Shallow(p, h, Tested(h))
    ensures Tested(h + [item]) == Tested(h)
    ensures Resolved(InitialGap(p), h + [item], Tested(h)) && Shallow(p, h + [item], Tested(h))
  {
    hide StatusOf;
    var t := Tested(h);
    TestedIsSorted(h);
    TestedNext(h, item);
    InsertOne(t, t[i]);
    InsertPresent(t, t[i]);
    forall j | 0 <= j < |t| ensures Depth(h + [item], t[j]) == Depth(h, t[j]) { DepthNext(h, item, t[j]); }
    forall j: nat | j + 1 < |t| ensures PairResolved(InitialGap(p), h + [item], t, j) {
      assert PairResolved(InitialGap(p), h, t, j);
    }
  }

  /** A refined rate is new and strictly between two neighbours, which it splits evenly. */
  lemma RefineIsNew(p: Search, h: History, b: Batch, i: nat)
    requires AllRecorded(h) && RefineStep(p, h, b, i)
    ensures var t := Tested(h);
      && t[i] < b.rates[0] < t[i + 1] && b.rates[0] !in t
      && InsertAll(t, b.rates) == t[..i + 1] + b.rates + t[i + 1..]
      && b.rates[0] - t[i] <= t[i + 1] - b.rates[0] <= (t[i + 1] - t[i] + 1) / 2
  {
    var t := Tested(h);
    var mid := b.rates[0];
    TestedIsSorted(h);
    InsertOne(t, mid);
    InsertBetween(t, i, mid);
    forall j | 0 <= j < |t| ensures t[j] != mid {
      if j <= i { assert t[j] <= t[i]; } else { assert t[i + 1] <= t[j]; }
    }
  }

  lemma RefineKeepsResolution(p: Search, h: History, item: BatchResult, i: nat)
    requires AllRecorded(h) && RefineStep(p, h, item.batch, i)
    requires Resolved(InitialGap(p), h, Tested(h)) && Shallow(p, h, Tested(h))
    ensures Resolved(InitialGap(p), h + [item], Tested(h + [item])) && Shallow(p, h + [item], Tested(h + [item]))
  {
    hide StatusOf, Insert, InsertAll, Tested, InitialGap, LargestGap;
    var g, t, next, mid := InitialGap(p), Tested(h), h + [item], item.batch.rates[0];
    RefineIsNew(p, h, item.batch, i);
    TestedNext(h, item);
    var u := Tested(next);
    assert u == t[..i + 1] + [mid] + t[i + 1..];
    hide Depth;
    DepthNext(h, item, mid);
    forall j | 0 <= j < |t| ensures Depth(next, t[j]) == Depth(h, t[j]) { DepthNext(h, item, t[j]); }
    assert PairResolved(g, h, t, i);
    forall j: nat | j + 1 < |u| ensures PairResolved(g, next, u, j) {
      if j < i {
        assert PairResolved(g, h, t, j);
      } else if j > i + 1 {
        assert u[j] == t[j - 1] && u[j + 1] == t[j];
        assert PairResolved(g, h, t, j - 1);
      }
    }
    forall j | 0 <= j < |u| ensures Depth(next, u[j]) <= p.limits.maxDepth {
      if j > i + 1 { assert u[j] == t[j - 1]; }
    }
  }

  lemma PrefixConforms(p: Search, h: History)
    requires Conforming(p, h) && h != []
    ensures Conforming(p, h[..|h| - 1]) && h == h[..|h| - 1] + [h[|h| - 1]]
    ensures Choose(p, h[..|h| - 1]) == Next(h[|h| - 1].batch)
  {
    hide Choose, ChosenAt, Recorded;
    LastIsChosen(p, h);
    var g := h[..|h| - 1];
    forall k | 0 <= k < |g| ensures Recorded(g[k]) { assert Recorded(h[k]); }
    forall k | 0 <= k < |g| ensures ChosenAt(p, g, k) {
      SameChoice(p, h, g, k);
    }
  }

  lemma SameChoice(p: Search, h: History, g: History, k: nat)
    requires AllRecorded(h) && AllRecorded(g) && k < |g| <= |h| && g == h[..|g|] && ChosenAt(p, h, k)
    ensures ChosenAt(p, g, k)
  {
    hide Choose;
    assert h[..k] == g[..k];
  }

  lemma LastIsChosen(p: Search, h: History)
    requires Conforming(p, h) && h != []
    ensures AllRecorded(h[..|h| - 1]) && Choose(p, h[..|h| - 1]) == Next(h[|h| - 1].batch)
  {
    hide Choose;
    assert ChosenAt(p, h, |h| - 1);
    forall k | 0 <= k < |h| - 1 ensures Recorded(h[k]) {}
  }

  /** Resolution: in every conforming history neighbours of larger depth `m` are within `ceil(G / 2^m)`. */
  lemma {:induction false} SearchResolves(p: Search, h: History)
    requires Conforming(p, h) && h != []
    ensures Resolved(InitialGap(p), h, Tested(h)) && Shallow(p, h, Tested(h))
  {
    hide Choose, StatusOf;
    var g, last := h[..|h| - 1], h[|h| - 1];
    PrefixConforms(p, h);
    ChosenFits(p, g, last.batch);
    if g == [] {
      FirstStepResolves(p, last);
      assert h == [last];
    } else {
      SearchResolves(p, g);
      var i := StepShape(p, g, last.batch);
      if last.batch.reason == Confirm {
        ConfirmKeepsResolution(p, g, last, i);
      } else {
        RefineKeepsResolution(p, g, last, i);
      }
    }
  }

  lemma GridWithinLimits(p: Search)
    requires Prepared(p)
    ensures forall r :: r in p.initial ==> p.limits.minRate <= r <= p.limits.maxRate
  {
    hide MakeBatch, ResolveRate;
  }

  lemma NothingTested()
    ensures Tested([]) == []
  {}

  /** The rates of a chosen batch lie within the limits that bound the rates tested so far. */
  lemma ChosenWithinLimits(p: Search, h: History, b: Batch)
    requires Prepared(p) && AllRecorded(h) && Choose(p, h) == Next(b)
    requires forall r :: r in Tested(h) ==> p.limits.minRate <= r <= p.limits.maxRate
    ensures forall r :: r in b.rates ==> p.limits.minRate <= r <= p.limits.maxRate
  {
    GridWithinLimits(p);
    hide Choose, StatusOf, MakeBatch, Prepared, Depth, Specs, Insert, InsertAll, Tested;
    ChosenFits(p, h, b);
    if h != [] {
      var i := StepShape(p, h, b);
      var t := Tested(h);
      assert t[i] in t;
      if b.reason != Confirm {
        RefineIsNew(p, h, b, i);
        assert t[i + 1] in t;
      }
    }
  }

  /** Every tested rate lies within the offered-rate limits. */
  lemma {:induction false} TestedWithinLimits(p: Search, h: History)
    requires Prepared(p) && Conforming(p, h)
    ensures forall r :: r in Tested(h) ==> p.limits.minRate <= r <= p.limits.maxRate
  {
    hide Choose, StatusOf, MakeBatch, Prepared, Depth, Specs, Insert, InsertAll, Tested;
    if h == [] {
      NothingTested();
    } else {
      var g, last := h[..|h| - 1], h[|h| - 1];
      PrefixConforms(p, h);
      TestedWithinLimits(p, g);
      ChosenWithinLimits(p, g, last.batch);
      TestedNext(g, last);
      TestedIsSorted(g);
      InsertAllKeepsOrder(Tested(g), last.batch.rates);
    }
  }

  /** Two outcomes differ; whether a confirmation is still missing makes no difference. */
  predicate Differ(a: RateStatus, b: RateStatus) {
    a != b && !(a in {Eligible, Provisional} && b in {Eligible, Provisional})
  }

  lemma DifferingMeans(p: Search, h: History, t: seq<nat>, i: nat)
    requires AllRecorded(h) && i + 1 < |t|
    ensures Differing(p, h, t, i) <==> Differ(StatusOf(p, h, t[i]), StatusOf(p, h, t[i + 1]))
  {
    hide StatusOf;
  }

  /** Resolution at the end: neighbours that still differ are as close as the depth or the integers allow. */
  lemma EndIsResolved(p: Search, h: History, i: nat)
    requires Conforming(p, h) && h != [] && Choose(p, h) in {Stop(DepthLimit), Stop(GridExhausted)}
    requires i + 1 < |Tested(h)| && Differ(StatusOf(p, h, Tested(h)[i]), StatusOf(p, h, Tested(h)[i + 1]))
    ensures Pow2(p.limits.maxDepth) > 0
    ensures Tested(h)[i + 1] - Tested(h)[i] <= Larger(1, CeilDiv(InitialGap(p), Pow2(p.limits.maxDepth)))
  {
    hide Choose, StatusOf, Differing, Differ;
    var t := Tested(h);
    DifferingMeans(p, h, t, i);
    SearchResolves(p, h);
    HalvedIsCeil(InitialGap(p), p.limits.maxDepth);
    EndHasNoInterval(p, h, i);
    assert PairResolved(InitialGap(p), h, t, i);
  }

  lemma EndHasNoInterval(p: Search, h: History, i: nat)
    requires AllRecorded(h) && h != [] && Choose(p, h) in {Stop(DepthLimit), Stop(GridExhausted)}
    requires i + 1 < |Tested(h)| && Differing(p, h, Tested(h), i)
    ensures Tested(h)[i + 1] <= Tested(h)[i] + 1 || PairDepth(h, Tested(h), i) >= p.limits.maxDepth
  {
    hide StatusOf, Depth, Tested, MakeBatch;
    assert LastRefinable(p, h, Tested(h)).None?;
    assert !Refinable(p, h, Tested(h), i);
  }

  /** A search that hit neither a stop nor a budget leaves no provisional rate above the highest eligible one. */
  lemma NothingProvisionalAbove(p: Search, h: History, r: nat)
    requires Prepared(p) && Conforming(p, h) && h != []
    requires Choose(p, h).Stop? && Choose(p, h).reason in {DepthLimit, GridExhausted, NoDifferingOutcomes, DistinctRateLimit}
    requires r in Tested(h) && StatusOf(p, h, r) == Provisional
    ensures exists s :: s in Tested(h) && StatusOf(p, h, s) == Eligible && r < s
  {
    hide StatusOf, Depth, Tested, MakeBatch, LastRefinable, Prepared;
    var t := Tested(h);
    TestedWithinLimits(p, h);
    TestedIsSorted(h);
    AtLeastOne(p);
    assert Promising(p, h, t).None?;
    var i :| 0 <= i < |t| && t[i] == r;
    assert r <= HighestEligible(p, h, t);
  }

  lemma AtLeastOne(p: Search)
    requires Prepared(p)
    ensures p.limits.minRate >= 1 && p.limits.confirmations >= 1 && p.policy.repetitions >= p.limits.minimumValid >= 1
  {
    hide MakeBatch;
  }

  // ---- Rates, batches and budgets -----------------------------------------------------------

  function ConfirmSum(h: History, rates: seq<nat>): nat {
    if rates == [] then 0 else Confirmations(h, rates[0]) + ConfirmSum(h, rates[1..])
  }

  lemma ConfirmationsNext(h: History, item: BatchResult, rate: nat)
    ensures Confirmations(h + [item], rate) == Confirmations(h, rate) + if IsConfirmation(item.batch, rate) then 1 else 0
  {
    assert (h + [item])[..|h|] == h;
  }

  lemma {:induction false} SumNext(h: History, item: BatchResult, rates: seq<nat>)
    requires Ascending(rates)
    requires item.batch.reason == Confirm ==> |item.batch.rates| == 1
    ensures ConfirmSum(h + [item], rates) ==
      ConfirmSum(h, rates) + if item.batch.reason == Confirm && item.batch.rates[0] in rates then 1 else 0
  {
    hide Confirmations;
    if rates != [] {
      assert rates == [rates[0]] + rates[1..];
      ConfirmationsNext(h, item, rates[0]);
      SumNext(h, item, rates[1..]);
    }
  }

  lemma {:induction false} SumConcat(h: History, a: seq<nat>, b: seq<nat>)
    ensures ConfirmSum(h, a + b) == ConfirmSum(h, a) + ConfirmSum(h, b)
  {
    if a == [] {
      assert a + b == b;
    } else {
      assert (a + b)[1..] == a[1..] + b;
      SumConcat(h, a[1..], b);
    }
  }

  lemma {:induction false} SumIsBounded(h: History, rates: seq<nat>, c: nat)
    requires forall r :: r in rates ==> Confirmations(h, r) <= c
    ensures ConfirmSum(h, rates) <= |rates| * c
  {
    hide Confirmations;
    if rates != [] {
      SumIsBounded(h, rates[1..], c);
      OneMore(|rates| - 1, c);
    }
  }

  lemma OneMore(n: nat, c: nat)
    ensures (n + 1) * c == n * c + c
  {}

  lemma {:induction false} NoneConfirmed(h: History, rates: seq<nat>)
    requires forall k :: 0 <= k < |h| ==> h[k].batch.reason != Confirm
    ensures ConfirmSum(h, rates) == 0
    ensures rates != [] ==> Confirmations(h, rates[0]) == 0
    decreases |h|, |rates|
  {
    if rates != [] {
      NoneConfirmed(h, rates[1..]);
      if h != [] { NoneConfirmed(h[..|h| - 1], rates); }
    }
  }

  lemma {:induction false} OnlyTestedAreConfirmed(h: History, rate: nat)
    requires rate !in Tested(h)
    ensures Confirmations(h, rate) == 0
  {
    if h != [] {
      var g, last := h[..|h| - 1], h[|h| - 1];
      assert h == g + [last];
      TestedNext(g, last);
      TestedIsSorted(g);
      InsertAllKeepsOrder(Tested(g), last.batch.rates);
      OnlyTestedAreConfirmed(g, rate);
    }
  }

  /** The batches are the grid, one per refined rate, and the confirmations, none more than demanded. */
  ghost predicate Accounted(p: Search, h: History) {
    && |p.initial| <= |Tested(h)| <= p.limits.maxDistinct
    && |h| == 1 + (|Tested(h)| - |p.initial|) + ConfirmSum(h, Tested(h))
    && forall r :: r in Tested(h) ==> Confirmations(h, r) <= p.limits.confirmations
  }

  lemma FirstIsAccounted(p: Search, item: BatchResult)
    requires item.batch.rates == p.initial && item.batch.reason == InitialGrid
    requires |p.initial| <= p.limits.maxDistinct && forall i, j :: 0 <= i < j < |p.initial| ==> p.initial[i] != p.initial[j]
    ensures Accounted(p, [item])
  {
    assert [item] == [] + [item];
    TestedNext([], item);
    DistinctRatesAdd([], p.initial);
    InsertAllKeepsOrder([], p.initial);
    NoneConfirmed([item], Tested([item]));
    forall r | r in Tested([item]) ensures Confirmations([item], r) == 0 { ConfirmationsNext([], item, r); }
  }

  lemma ConfirmIsAccounted(p: Search, h: History, item: BatchResult, i: nat)
    requires AllRecorded(h) && Accounted(p, h) && ConfirmStep(p, h, item.batch, i)
    ensures Accounted(p, h + [item])
  {
    var t := Tested(h);
    TestedIsSorted(h);
    TestedNext(h, item);
    InsertOne(t, t[i]);
    InsertPresent(t, t[i]);
    SumNext(h, item, t);
    forall r | r in t ensures Confirmations(h + [item], r) <= p.limits.confirmations { ConfirmationsNext(h, item, r); }
  }

  lemma RefineIsAccounted(p: Search, h: History, item: BatchResult, i: nat)
    requires AllRecorded(h) && Accounted(p, h) && RefineStep(p, h, item.batch, i)
    ensures Accounted(p, h + [item])
  {
    var t, mid := Tested(h), item.batch.rates[0];
    RefineIsNew(p, h, item.batch, i);
    TestedNext(h, item);
    TestedIsSorted(h + [item]);
    TestedIsSorted(h);
    var u := Tested(h + [item]);
    SumNext(h, item, u);
    SumConcat(h, t[..i + 1] + [mid], t[i + 1..]);
    SumConcat(h, t[..i + 1], [mid]);
    SumConcat(h, t[..i + 1], t[i + 1..]);
    assert t == t[..i + 1] + t[i + 1..];
    OnlyTestedAreConfirmed(h, mid);
    assert ConfirmSum(h, [mid]) == 0;
    forall r | r in u ensures Confirmations(h + [item], r) <= p.limits.confirmations {
      ConfirmationsNext(h, item, r);
    }
  }

  lemma {:induction false} SearchIsAccounted(p: Search, h: History)
    requires Prepared(p) && Conforming(p, h) && h != []
    ensures Accounted(p, h)
  {
    hide Choose, StatusOf, MakeBatch, Accounted;
    var g, last := h[..|h| - 1], h[|h| - 1];
    PrefixConforms(p, h);
    ChosenFits(p, g, last.batch);
    if g == [] {
      FirstIsAccounted(p, last);
      assert h == [last];
    } else {
      SearchIsAccounted(p, g);
      var i := StepShape(p, g, last.batch);
      if last.batch.reason == Confirm { ConfirmIsAccounted(p, g, last, i); } else { RefineIsAccounted(p, g, last, i); }
    }
  }

  function MostBatches(p: Search): int {
    1 + (p.limits.maxDistinct - |p.initial|) + p.limits.maxDistinct * p.limits.confirmations
  }

  /** Termination: no history is longer than the grid, the refinements and the confirmations allow. */
  lemma SearchIsFinite(p: Search, h: History)
    requires Prepared(p) && Conforming(p, h)
    ensures |h| <= MostBatches(p)
  {
    if h == [] {
    } else {
      SearchIsAccounted(p, h);
      SumIsBounded(h, Tested(h), p.limits.confirmations);
      Multiplied(|Tested(h)|, p.limits.maxDistinct, p.limits.confirmations);
    }
  }

  lemma Multiplied(a: nat, b: nat, c: nat)
    requires a <= b
    ensures a * c <= b * c
  {}

  /** Cumulative reservations never exceed the budgets; payload is rounded up once, over the whole search. */
  lemma BudgetsHold(p: Search, h: History)
    requires Conforming(p, h)
    ensures UsedTrials(h) <= p.policy.maxTrials
    ensures UsedActive(p, h) <= p.maxActive
    ensures (UsedBits(p, h) + 7) / 8 <= p.maxPayload
  {
    if h != [] {
      var g, last := h[..|h| - 1], h[|h| - 1];
      PrefixConforms(p, h);
      ChosenFits(p, g, last.batch);
      SpecsCount(p, last.batch.rates);
    }
  }

  // ---- What an eligible rate has been through -----------------------------------------------

  /** In how many batches a rate was measured. */
  function BatchesOf(h: History, rate: nat): nat {
    if h == [] then 0 else BatchesOf(h[..|h| - 1], rate) + if rate in h[|h| - 1].batch.rates then 1 else 0
  }

  lemma {:induction false} MeasuredConcat(a: seq<Observation>, b: seq<Observation>, rate: nat)
    ensures MeasuredAt(a + b, rate) == MeasuredAt(a, rate) + MeasuredAt(b, rate)
  {
    if a == [] {
      assert a + b == b;
    } else {
      assert (a + b)[1..] == a[1..] + b;
      MeasuredConcat(a[1..], b, rate);
    }
  }

  lemma ObservedNext(p: Search, h: History, item: BatchResult)
    requires AllRecorded(h) && Recorded(item)
    ensures AllRecorded(h + [item])
    ensures AllObserved(p, h + [item]) == AllObserved(p, h) + Observed(p, item.batch.specs, item.trials)
  {
    var next := h + [item];
    assert next[..|h|] == h && next[|h|] == item;
    forall k | 0 <= k < |next| ensures Recorded(next[k]) { if k < |h| { assert Recorded(h[k]); } }
  }

  lemma {:induction false} ObservedConcat(p: Search, a: seq<Spec>, b: seq<Spec>, trials: seq<Evidence>)
    requires |trials| == |a| + |b|
    ensures Observed(p, a + b, trials) == Observed(p, a, trials[..|a|]) + Observed(p, b, trials[|a|..])
  {
    if a == [] {
      assert a + b == b && trials[0..] == trials;
    } else {
      assert (a + b)[1..] == a[1..] + b;
      assert trials[1..][..|a| - 1] == trials[..|a|][1..] && trials[1..][|a| - 1..] == trials[|a|..];
      ObservedConcat(p, a[1..], b, trials[1..]);
    }
  }

  /** Runs of one rate and phase yield one measured observation each, or none. */
  lemma {:induction false} UniformMeasured(p: Search, specs: seq<Spec>, trials: seq<Evidence>, rate: nat, own: nat, measured: bool)
    requires |specs| == |trials| && forall k :: 0 <= k < |specs| ==> specs[k].rate == own && specs[k].measured == measured
    ensures |MeasuredAt(Observed(p, specs, trials), rate)| == if own == rate && measured then |specs| else 0
  {
    if specs != [] {
      hide Usable;
      UniformMeasured(p, specs[1..], trials[1..], rate, own, measured);
      var obs := Observed(p, specs, trials);
      assert obs[1..] == Observed(p, specs[1..], trials[1..]);
    }
  }

  lemma CellMeasured(p: Search, own: nat, trials: seq<Evidence>, rate: nat)
    requires |trials| == |Cell(p, own)|
    ensures |MeasuredAt(Observed(p, Cell(p, own), trials), rate)| == if own == rate then p.policy.repetitions else 0
  {
    var warm := seq(p.policy.warmups, i requires 0 <= i < p.policy.warmups => Spec(own, false, i));
    var runs := seq(p.policy.repetitions, i requires 0 <= i < p.policy.repetitions => Spec(own, true, i));
    ObservedConcat(p, warm, runs, trials);
    MeasuredConcat(Observed(p, warm, trials[..|warm|]), Observed(p, runs, trials[|warm|..]), rate);
    UniformMeasured(p, warm, trials[..|warm|], rate, own, false);
    UniformMeasured(p, runs, trials[|warm|..], rate, own, true);
  }

  /** A batch measures each of its rates `repetitions` times and nothing else. */
  lemma {:induction false} BatchMeasured(p: Search, rates: seq<nat>, trials: seq<Evidence>, rate: nat)
    requires |trials| == |Specs(p, rates)| && forall i, j :: 0 <= i < j < |rates| ==> rates[i] != rates[j]
    ensures |MeasuredAt(Observed(p, Specs(p, rates), trials), rate)| == if rate in rates then p.policy.repetitions else 0
    decreases rates
  {
    if rates != [] {
      hide Observed, MeasuredAt, Cell;
      var cell, rest := Cell(p, rates[0]), Specs(p, rates[1..]);
      assert rates == [rates[0]] + rates[1..];
      ObservedConcat(p, cell, rest, trials);
      MeasuredConcat(Observed(p, cell, trials[..|cell|]), Observed(p, rest, trials[|cell|..]), rate);
      CellMeasured(p, rates[0], trials[..|cell|], rate);
      BatchMeasured(p, rates[1..], trials[|cell|..], rate);
    } else {
      NothingMeasured(p, rate);
    }
  }

  lemma NothingMeasured(p: Search, rate: nat)
    ensures MeasuredAt(Observed(p, [], []), rate) == []
  {}

  predicate DistinctRates(rates: seq<nat>) { forall i, j :: 0 <= i < j < |rates| ==> rates[i] != rates[j] }

  /** No batch repeats a rate. */
  lemma ChosenRatesDiffer(p: Search, h: History, b: Batch)
    requires Prepared(p) && AllRecorded(h) && Choose(p, h) == Next(b)
    ensures DistinctRates(b.rates)
  {
    GridIsDistinct(p);
    hide Choose, StatusOf, MakeBatch, Prepared, Depth, Tested;
    ChosenFits(p, h, b);
    if h != [] { var i := StepShape(p, h, b); }
  }

  lemma GridIsDistinct(p: Search)
    requires Prepared(p)
    ensures DistinctRates(p.initial) && |p.initial| <= p.limits.maxDistinct
  {
    hide MakeBatch, ResolveRate;
  }

  /** How often a tested rate was measured: one admission and its confirmations, a full cell each time. */
  ghost predicate Measured(p: Search, h: History, rate: nat)
    requires AllRecorded(h)
  {
    && BatchesOf(h, rate) == (if rate in Tested(h) then 1 else 0) + Confirmations(h, rate)
    && |MeasuredAt(AllObserved(p, h), rate)| == BatchesOf(h, rate) * p.policy.repetitions
  }

  lemma BatchesNext(h: History, item: BatchResult, rate: nat)
    ensures BatchesOf(h + [item], rate) == BatchesOf(h, rate) + if rate in item.batch.rates then 1 else 0
  {
    assert (h + [item])[..|h|] == h;
  }

  lemma MeasuredNext(p: Search, h: History, item: BatchResult, rate: nat)
    requires AllRecorded(h) && Recorded(item) && item.batch.specs == Specs(p, item.batch.rates)
    requires DistinctRates(item.batch.rates)
    requires |MeasuredAt(AllObserved(p, h), rate)| == BatchesOf(h, rate) * p.policy.repetitions
    ensures AllRecorded(h + [item])
    ensures |MeasuredAt(AllObserved(p, h + [item]), rate)| == BatchesOf(h + [item], rate) * p.policy.repetitions
  {
    hide Observed, MeasuredAt, AllObserved, Specs;
    ObservedNext(p, h, item);
    BatchesNext(h, item, rate);
    var added := Observed(p, item.batch.specs, item.trials);
    MeasuredConcat(AllObserved(p, h), added, rate);
    BatchMeasured(p, item.batch.rates, item.trials, rate);
  }

  /** A batch that is not a confirmation tests new rates only; a confirmation retests one. */
  lemma StepCounts(p: Search, h: History, item: BatchResult, rate: nat)
    requires Prepared(p) && AllRecorded(h) && Choose(p, h) == Next(item.batch)
    ensures (if rate in item.batch.rates then 1 else 0) + (if rate in Tested(h) then 1 else 0) ==
      (if rate in Tested(h + [item]) then 1 else 0) + if IsConfirmation(item.batch, rate) then 1 else 0
  {
    hide Choose, StatusOf, MakeBatch, Prepared, Depth;
    var t := Tested(h);
    ChosenFits(p, h, item.batch);
    TestedNext(h, item);
    TestedIsSorted(h);
    InsertAllKeepsOrder(t, item.batch.rates);
    if h != [] {
      var i := StepShape(p, h, item.batch);
      if item.batch.reason != Confirm { RefineIsNew(p, h, item.batch, i); }
    }
  }

  lemma {:induction false} EveryRateIsMeasured(p: Search, h: History, rate: nat)
    requires Prepared(p) && Conforming(p, h)
    ensures Measured(p, h, rate)
  {
    hide Choose, StatusOf, MakeBatch, Prepared, Specs, Observed;
    if h == [] {
      NothingMeasured(p, rate);
    } else {
      var g, last := h[..|h| - 1], h[|h| - 1];
      PrefixConforms(p, h);
      EveryRateIsMeasured(p, g, rate);
      ChosenFits(p, g, last.batch);
      ChosenRatesDiffer(p, g, last.batch);
      assert Recorded(last);
      MeasuredNext(p, g, last, rate);
      StepCounts(p, g, last, rate);
      BatchesNext(g, last, rate);
      ConfirmationsNext(g, last, rate);
    }
  }

  /**
   Eligibility is sound: an eligible rate went through exactly one admission and the demanded confirmations,
   and every one of its measured observations is valid and within the loss limit.
   */
  lemma EligibleIsEarned(p: Search, h: History, rate: nat)
    requires Prepared(p) && Conforming(p, h) && StatusOf(p, h, rate) == Eligible
    ensures BatchesOf(h, rate) == 1 + p.limits.confirmations
    ensures |MeasuredAt(AllObserved(p, h), rate)| == (1 + p.limits.confirmations) * p.policy.repetitions
    ensures forall o :: o in MeasuredAt(AllObserved(p, h), rate) ==> o.valid && o.acceptable
  {
    hide Choose, MakeBatch, Prepared, Specs, Observed, MeasuredAt, AllObserved;
    EveryRateIsMeasured(p, h, rate);
    AtLeastOne(p);
    if h == [] {
      assert false;
    }
    SearchIsAccounted(p, h);
    if rate !in Tested(h) {
      OnlyTestedAreConfirmed(h, rate);
      assert false;
    }
  }

  // ---- Retests ------------------------------------------------------------------------------

  predicate Settled(s: RateStatus) { s == Rejected || s == Inconclusive }

  /** A batch leaves the status of every rate it does not test. */
  lemma UntestedIsUnchanged(p: Search, h: History, item: BatchResult, rate: nat)
    requires AllRecorded(h) && Recorded(item) && rate !in item.batch.rates
    requires item.batch.specs == Specs(p, item.batch.rates) && DistinctRates(item.batch.rates)
    ensures AllRecorded(h + [item]) && StatusOf(p, h + [item], rate) == StatusOf(p, h, rate)
  {
    hide Judge, Observed, MeasuredAt, AllObserved, Specs;
    ObservedNext(p, h, item);
    ConfirmationsNext(h, item, rate);
    var added := Observed(p, item.batch.specs, item.trials);
    MeasuredConcat(AllObserved(p, h), added, rate);
    BatchMeasured(p, item.batch.rates, item.trials, rate);
    assert MeasuredAt(added, rate) == [];
    assert MeasuredAt(AllObserved(p, h + [item]), rate) == MeasuredAt(AllObserved(p, h), rate);
  }

  lemma SettledIsNotChosen(p: Search, h: History, b: Batch, rate: nat)
    requires AllRecorded(h) && h != [] && Choose(p, h) == Next(b)
    requires rate in Tested(h) && Settled(StatusOf(p, h, rate))
    ensures rate !in b.rates
  {
    hide Choose, StatusOf, Depth;
    var i := StepShape(p, h, b);
    if b.reason != Confirm { RefineIsNew(p, h, b, i); }
  }

  lemma PrefixOf(p: Search, h: History, k: nat)
    requires Conforming(p, h) && k <= |h|
    ensures Conforming(p, h[..k])
  {
    hide Choose;
    var g := h[..k];
    forall j | 0 <= j < |g| ensures Recorded(g[j]) { assert Recorded(h[j]); }
    forall j | 0 <= j < |g| ensures ChosenAt(p, g, j) {
      assert ChosenAt(p, h, j) && h[..j] == g[..j];
    }
  }

  /** Once rejected or inconclusive, a rate is never tested again and stays so. */
  lemma {:induction false} SettledIsNeverRetested(p: Search, h: History, k: nat, rate: nat)
    requires Prepared(p) && Conforming(p, h) && 0 < k <= |h|
    requires Conforming(p, h[..k]) && rate in Tested(h[..k]) && Settled(StatusOf(p, h[..k], rate))
    ensures forall j :: k <= j < |h| ==> rate !in h[j].batch.rates
    ensures rate in Tested(h) && StatusOf(p, h, rate) == StatusOf(p, h[..k], rate)
    decreases |h|
  {
    hide Choose, StatusOf, MakeBatch, Prepared, Conforming;
    if k == |h| {
      assert h[..k] == h;
    } else {
      var g, last := h[..|h| - 1], h[|h| - 1];
      PrefixConforms(p, h);
      assert g[..k] == h[..k];
      SettledIsNeverRetested(p, g, k, rate);
      ConformingIsRecorded(p, h);
      ConformingIsRecorded(p, g);
      SettledIsNotChosen(p, g, last.batch, rate);
      ChosenFits(p, g, last.batch);
      ChosenRatesDiffer(p, g, last.batch);
      UntestedIsUnchanged(p, g, last, rate);
      TestedNext(g, last);
      TestedIsSorted(g);
      InsertAllKeepsOrder(Tested(g), last.batch.rates);
      forall j | k <= j < |h| ensures rate !in h[j].batch.rates {
        if j < |g| { assert g[j] == h[j]; }
      }
    }
  }

  lemma ConformingIsRecorded(p: Search, h: History)
    requires Conforming(p, h)
    ensures AllRecorded(h) && forall k :: 0 <= k < |h| ==> Recorded(h[k])
  {}

  // ---- Searches exist -----------------------------------------------------------------------

  const SMALLEST := Search(
    Config(Udp, None, 1, false, false, 1, 0), [1], TrialPolicy(1, 0, 1, false, 0.0), 1, 1, Limits(1, 1, 1, 0, 0.0, 1, 1.0, 1))

  lemma SmallestBits()
    ensures SpecBits(SMALLEST, Spec(1, true, 0)) == 1 && ActiveSeconds(SMALLEST.config) == 1
  {
    var c := SMALLEST.config;
    assert NativeRate(c, Some(Aggregate(1))) == Ok(Some(1));
    assert ResolveRate(c, Some(Aggregate(1))).Ok?;
    assert PayloadBits(c, Some(Aggregate(1))) == Some(1);
  }

  lemma SmallestSpecs()
    ensures Specs(SMALLEST, [1]) == [Spec(1, true, 0)]
  {
    hide SpecBits, ActiveOf, BitsOf;
    var p := SMALLEST;
    assert Cell(p, 1) == [Spec(1, true, 0)];
    assert [1][1..] == [] && Specs(p, []) == [];
  }

  lemma OneCosts(p: Search, spec: Spec)
    ensures ActiveOf(p, [spec]) == ActiveSeconds(p.config) && BitsOf(p, [spec]) == SpecBits(p, spec)
  {
    hide SpecBits;
    assert [spec][1..] == [] && ActiveOf(p, []) == 0 && BitsOf(p, []) == 0;
  }

  lemma SmallestCosts()
    ensures var specs := Specs(SMALLEST, [1]);
      specs == [Spec(1, true, 0)] && ActiveOf(SMALLEST, specs) == 1 && BitsOf(SMALLEST, specs) == 1
  {
    hide Specs, ActiveOf, BitsOf, SpecBits, Cell, ActiveSeconds;
    SmallestBits();
    SmallestSpecs();
    OneCosts(SMALLEST, Spec(1, true, 0));
  }

  /** A search over the single rate of one bit per second is admitted, and so is its grid. */
  lemma SmallestIsPrepared()
    ensures Prepared(SMALLEST) && Conforming(SMALLEST, []) && Choose(SMALLEST, []).Next?
  {
    hide Specs, ActiveOf, BitsOf, SpecBits, Cell;
    SmallestCosts();
    assert MakeBatch(SMALLEST, [], [1], InitialGrid, 0).Ok?;
    assert [1][0] in [1];
  }
}
