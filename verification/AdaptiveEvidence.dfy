/**
 What the four statuses of a rate say about the trials run at it (`adaptive.py`, `_observation_v1` and
 `_rate_summaries_v1`): stated over the recorded evidence itself, trial by trial, with no observation in between.
 */
module AdaptiveEvidence {
  import opened Options
  import opened PlanOutcomes
  import opened AdaptiveSearch
  import opened AdaptiveHistory

  /** Trial `i` of batch `k` is a measured trial at the rate. */
  predicate TrialAt(h: History, rate: nat, k: nat, i: nat) {
    k < |h| && Recorded(h[k]) && i < |h[k].batch.specs| && h[k].batch.specs[i].measured && h[k].batch.specs[i].rate == rate
  }

  /**
   The trial completed as requested, both endpoint rates are known, the sender kept up with the demanded share of
   the rate, and the receiver's counts make sense.
   */
  predicate Trusted(p: Search, rate: nat, e: Evidence) {
    && e.status == Completed
    && e.artifact.Some?
    && var m := e.artifact.value;
      && m.settingsMatch && m.methodMatches
      && m.senderBps.Some? && m.receiverBps.Some? && m.senderBps.value >= p.limits.senderFraction * (rate as real)
      && m.packets.Some? && m.packets.value > 0 && m.lost.Some? && 0 <= m.lost.value <= m.packets.value
  }

  /** Of every hundred packets at most `lossPercent` are lost. */
  predicate LossAllowed(p: Search, m: Measurement)
    requires m.packets.Some? && m.lost.Some?
  {
    100.0 * (m.lost.value as real) <= p.limits.lossPercent * (m.packets.value as real)
  }

  predicate Within(p: Search, rate: nat, e: Evidence) { Trusted(p, rate, e) && LossAllowed(p, e.artifact.value) }

  predicate Lossy(p: Search, rate: nat, e: Evidence) { Trusted(p, rate, e) && !LossAllowed(p, e.artifact.value) }

  /** The evidence of trial `i` of batch `k`. */
  function At(h: History, k: nat, i: nat): Evidence
    requires k < |h| && Recorded(h[k]) && i < |h[k].batch.specs|
  {
    h[k].trials[i]
  }

  ghost predicate AllTrusted(p: Search, h: History, rate: nat) {
    forall k: nat, i: nat :: TrialAt(h, rate, k, i) ==> Trusted(p, rate, At(h, k, i))
  }

  ghost predicate AllWithin(p: Search, h: History, rate: nat) {
    forall k: nat, i: nat :: TrialAt(h, rate, k, i) ==> Within(p, rate, At(h, k, i))
  }

  ghost predicate SomeLossy(p: Search, h: History, rate: nat) {
    exists k: nat, i: nat :: TrialAt(h, rate, k, i) && Lossy(p, rate, At(h, k, i))
  }

  /** What each status of a tested rate says about its trials, both ways. */
  ghost predicate Evident(p: Search, h: History, rate: nat, status: RateStatus) {
    && (status == Rejected <==> SomeLossy(p, h, rate))
    && (status == Inconclusive <==> !SomeLossy(p, h, rate) && !AllTrusted(p, h, rate))
    && (status == Provisional <==> AllWithin(p, h, rate) && BatchesOf(h, rate) <= p.limits.confirmations)
    && (status == Eligible <==> AllWithin(p, h, rate) && BatchesOf(h, rate) > p.limits.confirmations)
  }

  // ---- One trial ----------------------------------------------------------------------------

  lemma QuotientAtLeast(a: real, b: real, q: real)
    requires b > 0.0
    ensures a / b >= q <==> a >= q * b
  {
    assert a == (a / b) * b;
  }

  lemma QuotientAtMost(a: real, b: real, q: real)
    requires b > 0.0
    ensures a / b <= q <==> a <= q * b
  {
    assert a == (a / b) * b;
  }

  lemma ObservationMeans(p: Search, spec: Spec, e: Evidence)
    requires spec.measured && spec.rate > 0
    ensures var o := Observe(p, spec, e);
      && o.rate == spec.rate && o.measured
      && (o.valid <==> Trusted(p, spec.rate, e))
      && (o.acceptable <==> Within(p, spec.rate, e))
  {
    if e.artifact.Some? {
      var m := e.artifact.value;
      if m.senderBps.Some? { QuotientAtLeast(m.senderBps.value, spec.rate as real, p.limits.senderFraction); }
      if CountsKnown(m) { QuotientAtMost(100.0 * (m.lost.value as real), m.packets.value as real, p.limits.lossPercent); }
    }
  }

  // ---- The observations of a rate are those of its trials -----------------------------------

  lemma {:induction false} ObservedAt(p: Search, specs: seq<Spec>, trials: seq<Evidence>)
    requires |specs| == |trials|
    ensures |Observed(p, specs, trials)| == |specs|
    ensures forall i :: 0 <= i < |specs| ==> Observed(p, specs, trials)[i] == Observe(p, specs[i], trials[i])
  {
    hide Observe;
    if specs != [] { ObservedAt(p, specs[1..], trials[1..]); }
  }

  lemma {:induction false} MeasuredAtHolds(obs: seq<Observation>, rate: nat)
    ensures forall o :: o in MeasuredAt(obs, rate) <==> o in obs && o.rate == rate && o.measured
  {
    if obs != [] {
      MeasuredAtHolds(obs[1..], rate);
      assert obs == [obs[0]] + obs[1..];
    }
  }

  /** Where an observation comes from: trial `i` of batch `k`. */
  ghost predicate Source(p: Search, h: History, o: Observation, k: nat, i: nat)
    requires AllRecorded(h)
  {
    k < |h| && Recorded(h[k]) && i < |h[k].batch.specs| && o == Observe(p, h[k].batch.specs[i], h[k].trials[i])
  }

  lemma {:induction false} ObservationHasSource(p: Search, h: History, o: Observation) returns (k: nat, i: nat)
    requires AllRecorded(h) && o in AllObserved(p, h)
    ensures Source(p, h, o, k, i)
  {
    hide Observe;
    var g, last := h[..|h| - 1], h[|h| - 1];
    assert Recorded(last);
    var added := Observed(p, last.batch.specs, last.trials);
    ObservedAt(p, last.batch.specs, last.trials);
    if o in added {
      i :| 0 <= i < |added| && added[i] == o;
      k := |h| - 1;
    } else {
      k, i := ObservationHasSource(p, g, o);
    }
  }

  lemma {:induction false} SourceIsObserved(p: Search, h: History, k: nat, i: nat)
    requires AllRecorded(h) && k < |h| && Recorded(h[k]) && i < |h[k].batch.specs|
    ensures Observe(p, h[k].batch.specs[i], h[k].trials[i]) in AllObserved(p, h)
  {
    hide Observe;
    var g, last := h[..|h| - 1], h[|h| - 1];
    assert Recorded(last);
    var added := Observed(p, last.batch.specs, last.trials);
    ObservedAt(p, last.batch.specs, last.trials);
    if k == |g| {
      assert added[i] in added;
    } else {
      assert g[k] == h[k];
      SourceIsObserved(p, g, k, i);
    }
  }

  /** A measured observation of a positive rate is that of one of its trials. */
  lemma MeasuredHasTrial(p: Search, h: History, rate: nat, o: Observation) returns (k: nat, i: nat)
    requires AllRecorded(h) && rate > 0 && o in MeasuredAt(AllObserved(p, h), rate)
    ensures TrialAt(h, rate, k, i)
    ensures (o.valid <==> Trusted(p, rate, At(h, k, i))) && (o.acceptable <==> Within(p, rate, At(h, k, i)))
  {
    hide AllObserved, MeasuredAt, Usable, Trusted, Within;
    MeasuredAtHolds(AllObserved(p, h), rate);
    k, i := ObservationHasSource(p, h, o);
    ObservationMeans(p, h[k].batch.specs[i], h[k].trials[i]);
  }

  /** Every measured trial of a positive rate gives an observation of that rate. */
  lemma TrialIsMeasured(p: Search, h: History, rate: nat, k: nat, i: nat) returns (o: Observation)
    requires AllRecorded(h) && rate > 0 && TrialAt(h, rate, k, i)
    ensures o in MeasuredAt(AllObserved(p, h), rate)
    ensures (o.valid <==> Trusted(p, rate, At(h, k, i))) && (o.acceptable <==> Within(p, rate, At(h, k, i)))
  {
    hide AllObserved, MeasuredAt, Usable, Trusted, Within;
    o := Observe(p, h[k].batch.specs[i], h[k].trials[i]);
    SourceIsObserved(p, h, k, i);
    MeasuredAtHolds(AllObserved(p, h), rate);
    ObservationMeans(p, h[k].batch.specs[i], h[k].trials[i]);
  }

  lemma SomeLossyMeans(p: Search, h: History, rate: nat)
    requires AllRecorded(h) && rate > 0
    ensures SomeLossy(p, h, rate) <==> exists o :: o in MeasuredAt(AllObserved(p, h), rate) && o.valid && !o.acceptable
  {
    hide AllObserved, MeasuredAt, Trusted, LossAllowed;
    if SomeLossy(p, h, rate) {
      var k: nat, i: nat :| TrialAt(h, rate, k, i) && Lossy(p, rate, At(h, k, i));
      var o := TrialIsMeasured(p, h, rate, k, i);
    }
    if o :| o in MeasuredAt(AllObserved(p, h), rate) && o.valid && !o.acceptable {
      var k, i := MeasuredHasTrial(p, h, rate, o);
      assert TrialAt(h, rate, k, i) && Lossy(p, rate, At(h, k, i));
    }
  }

  lemma AllTrustedMeans(p: Search, h: History, rate: nat)
    requires AllRecorded(h) && rate > 0
    ensures AllTrusted(p, h, rate) <==> forall o :: o in MeasuredAt(AllObserved(p, h), rate) ==> o.valid
  {
    hide AllObserved, MeasuredAt, Trusted;
    if AllTrusted(p, h, rate) {
      forall o | o in MeasuredAt(AllObserved(p, h), rate) ensures o.valid {
        var k, i := MeasuredHasTrial(p, h, rate, o);
      }
    }
    if forall o :: o in MeasuredAt(AllObserved(p, h), rate) ==> o.valid {
      forall k: nat, i: nat | TrialAt(h, rate, k, i) ensures Trusted(p, rate, At(h, k, i)) {
        var o := TrialIsMeasured(p, h, rate, k, i);
      }
    }
  }

  lemma AllWithinMeans(p: Search, h: History, rate: nat)
    ensures AllWithin(p, h, rate) <==> AllTrusted(p, h, rate) && !SomeLossy(p, h, rate)
  {
    hide Trusted, LossAllowed, TrialAt;
  }

  lemma {:induction false} AllValidCount(obs: seq<Observation>)
    requires forall o :: o in obs ==> o.valid
    ensures ValidCount(obs) == |obs|
  {
    if obs != [] { AllValidCount(obs[1..]); }
  }

  // ---- The status ---------------------------------------------------------------------------

  /** One batch gives at least the demanded number of measurements. */
  lemma EnoughMeasured(p: Search, h: History, rate: nat)
    requires Prepared(p) && Conforming(p, h) && rate in Tested(h)
    ensures AllRecorded(h) && rate > 0
    ensures BatchesOf(h, rate) == 1 + Confirmations(h, rate)
    ensures |MeasuredAt(AllObserved(p, h), rate)| >= p.limits.minimumValid >= 1
  {
    hide Choose, Prepared, MakeBatch, AllObserved, MeasuredAt;
    EveryRateIsMeasured(p, h, rate);
    AtLeastOne(p);
    TestedWithinLimits(p, h);
    Times(BatchesOf(h, rate), p.policy.repetitions);
  }

  lemma Times(n: nat, r: nat)
    requires n >= 1
    ensures n * r >= r
  {
    assert n * r == r + (n - 1) * r;
  }

  /**
   Soundness and completeness of the four statuses: a tested rate is rejected exactly when one of its measured
   trials could be trusted and lost too much, eligible exactly when every one of them could be trusted and lost at
   most the limit in one admission and the demanded confirmations, provisional while confirmations are missing, and
   inconclusive exactly when nothing rejects it but some trial cannot be trusted.
   */
  lemma StatusMeans(p: Search, h: History, rate: nat)
    requires Prepared(p) && Conforming(p, h) && rate in Tested(h)
    ensures AllRecorded(h) && Evident(p, h, rate, StatusOf(p, h, rate))
  {
    hide Choose, Prepared, Conforming, Tested, AllObserved, MeasuredAt, AllTrusted, AllWithin, SomeLossy, BatchesOf,
      Confirmations;
    EnoughMeasured(p, h, rate);
    SomeLossyMeans(p, h, rate);
    AllTrustedMeans(p, h, rate);
    AllWithinMeans(p, h, rate);
    var measured := MeasuredAt(AllObserved(p, h), rate);
    if forall o :: o in measured ==> o.valid { AllValidCount(measured); }
  }
}
