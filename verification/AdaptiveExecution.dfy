/**
 The adaptive driver (`adaptive_execution.py`) and the imperative half of `adaptive.py`: validating a history
 against the decisions it claims, summarising rates with dictionaries, and running batches until none is admitted.
 */
module AdaptiveExecution {
  import opened Options
  import opened PlanOutcomes
  import opened AdaptiveSearch
  import opened AdaptiveHistory
  import opened AdaptiveEvidence

  // ---- Running one batch --------------------------------------------------------------------

  /** Whether some trial before `i` failed under stop-on-error. */
  predicate StoppedBefore(p: Search, outcome: nat -> Evidence, i: nat) {
    p.policy.stopOnError && exists j: nat :: j < i && outcome(j).status != Completed
  }

  /** Every trial up to and including the first fatal failure ran; the rest are recorded as not run. */
  ghost predicate Ran(p: Search, outcome: nat -> Evidence, trials: seq<Evidence>, stopped: bool) {
    && (stopped <==> StoppedBefore(p, outcome, |trials|))
    && forall i: nat :: i < |trials| ==> trials[i] == if StoppedBefore(p, outcome, i) then Evidence(NotRun, None) else outcome(i)
  }

  function Started(trials: seq<Evidence>): nat {
    if trials == [] then 0 else Started(trials[..|trials| - 1]) + if trials[|trials| - 1].status != NotRun then 1 else 0
  }

  lemma StartedNext(trials: seq<Evidence>, e: Evidence)
    ensures Started(trials + [e]) == Started(trials) + if e.status != NotRun then 1 else 0
  {
    assert (trials + [e])[..|trials|] == trials;
  }

  /** The pauses declared between that many trials. */
  function Declared(pause: Pause, started: nat): real { if started <= 1 then 0.0 else Declared(pause, started - 1) + pause }

  lemma {:induction false} DeclaredGrows(pause: Pause, a: nat, b: nat)
    requires a <= b
    ensures Declared(pause, a) <= Declared(pause, b)
    decreases b
  {
    if a < b { DeclaredGrows(pause, a, b - 1); }
  }

  /** One more trial: what the first failure under stop-on-error leaves to do. */
  lemma RanNext(p: Search, outcome: nat -> Evidence, trials: seq<Evidence>, stopped: bool)
    requires Ran(p, outcome, trials, stopped)
    ensures var e := if stopped then Evidence(NotRun, None) else outcome(|trials|);
      Ran(p, outcome, trials + [e], stopped || (e.status != Completed && p.policy.stopOnError))
  {}

  lemma NoneRan(p: Search, outcome: nat -> Evidence)
    ensures Ran(p, outcome, [], false) && Started([]) == 0 && Declared(p.policy.pause, 0) == 0.0
  {}

  /** A trial that is not the first is preceded by a pause, if pauses are declared. */
  lemma DeclaredNext(pause: Pause, ran: nat, paused: real, slept: real)
    requires paused >= Declared(pause, ran) && slept >= if ran > 0 then pause else 0.0
    ensures paused + slept >= Declared(pause, ran + 1)
  {}

  /** A sleep lasts at least as long as it was asked to. */
  ghost predicate Sleeps(pause: Pause, sleep: nat -> real) { forall i: nat :: sleep(i) >= pause }

  /** `run_plan` without an elapsed limit, which an adaptive search may not have; `sleep` measures the pauses. */
  method RunPlan(p: Search, specs: seq<Spec>, outcome: nat -> Evidence, sleep: nat -> real)
    returns (trials: seq<Evidence>, stopped: bool, paused: real)
    requires Sleeps(p.policy.pause, sleep)
    ensures |trials| == |specs| && Ran(p, outcome, trials, stopped)
    ensures paused >= Declared(p.policy.pause, Started(trials))
  {
    hide Ran, Started, Declared;
    trials, stopped, paused := [], false, 0.0;
    ghost var ran: nat := 0;
    NoneRan(p, outcome);
    for i: nat := 0 to |specs|
      invariant |trials| == i && Ran(p, outcome, trials, stopped)
      invariant Started(trials) <= ran <= i && (!stopped ==> ran == i) && paused >= Declared(p.policy.pause, ran)
    {
      var slept := if !stopped && i > 0 && p.policy.pause != 0.0 then sleep(i) else 0.0;
      var e := if stopped then Evidence(NotRun, None) else outcome(i);
      StartedNext(trials, e);
      RanNext(p, outcome, trials, stopped);
      trials, paused := trials + [e], paused + slept;
      if !stopped {
        DeclaredNext(p.policy.pause, ran, paused - slept, slept);
        ran := ran + 1;
        stopped := e.status != Completed && p.policy.stopOnError;
      }
    }
    DeclaredGrows(p.policy.pause, Started(trials), ran);
  }

  // ---- Validating a history -----------------------------------------------------------------

  /** `math.isclose` with both tolerances at one billionth. */
  predicate Close(a: real, b: real) {
    Abs(a - b) <= TOLERANCE || Abs(a - b) <= TOLERANCE * Abs(a) || Abs(a - b) <= TOLERANCE * Abs(b)
  }

  /** At least as long as declared, up to rounding. */
  predicate LongEnough(observed: real, declared: real) { observed >= declared || Close(observed, declared) }

  /** No declared pause was cut short, and the first batch has no cooldown before it. */
  predicate PauseOk(p: Search, item: BatchResult, first: bool) {
    && LongEnough(item.paused, Declared(p.policy.pause, Started(item.trials)))
    && item.cooldown >= 0.0
    && if first then item.cooldown == 0.0 else LongEnough(item.cooldown, p.policy.pause)
  }

  ghost predicate Rested(p: Search, h: History) { forall k :: 0 <= k < |h| ==> PauseOk(p, h[k], k == 0) }

  /** Replay the search: every batch must be the deterministic decision of its prefix, and every pause long enough. */
  method ValidateHistory(p: Search, h: History) returns (ok: bool)
    ensures ok <==> Conforming(p, h) && Rested(p, h)
  {
    hide Choose, Conforming, PauseOk;
    NothingConforms(p);
    assert h[..0] == [];
    for k: nat := 0 to |h|
      invariant Conforming(p, h[..k]) && forall j :: 0 <= j < k ==> PauseOk(p, h[j], j == 0)
    {
      ConformingIsRecorded(p, h[..k]);
      var expected := Choose(p, h[..k]);
      if expected != Next(h[k].batch) || !Recorded(h[k]) {
        if Conforming(p, h) { StepConforms(p, h, k); }
        return false;
      }
      if !PauseOk(p, h[k], k == 0) { return false; }
      ConformingGrows(p, h[..k], h[k]);
      assert h[..k + 1] == h[..k] + [h[k]];
    }
    assert h[..|h|] == h;
    return true;
  }

  lemma StepConforms(p: Search, h: History, k: nat)
    requires Conforming(p, h) && k < |h|
    ensures Recorded(h[k]) && AllRecorded(h[..k]) && Choose(p, h[..k]) == Next(h[k].batch)
  {
    hide Choose;
    PrefixOf(p, h, k);
    assert ChosenAt(p, h, k);
  }

  lemma ConformingGrows(p: Search, h: History, item: BatchResult)
    requires Conforming(p, h) && Recorded(item) && Choose(p, h) == Next(item.batch)
    ensures Conforming(p, h + [item])
  {
    hide Choose;
    var next := h + [item];
    forall k | 0 <= k < |next| ensures Recorded(next[k]) { if k < |h| { assert Recorded(h[k]); } }
    forall k | 0 <= k < |next| ensures ChosenAt(p, next, k) {
      if k < |h| {
        assert ChosenAt(p, h, k) && next[..k] == h[..k];
      } else {
        assert next[..k] == h;
      }
    }
  }

  /** `next_adaptive_batch`: refuse a search or history that was not admitted, else decide. */
  method NextBatch(p: Search, h: History) returns (d: Option<Decision>)
    ensures d.Some? <==> Prepared(p) && Conforming(p, h) && Rested(p, h)
    ensures d.Some? ==> d.value == Choose(p, h)
  {
    hide Choose, Prepared, Rested;
    if !Prepared(p) { return None; }
    var ok := ValidateHistory(p, h);
    return if ok then Some(Choose(p, h)) else None;
  }

  // ---- Summaries ----------------------------------------------------------------------------

  datatype Summary = Summary(rate: nat, status: RateStatus, valid: nat, confirmations: nat)

  /** All observations of one rate, warm-ups included. */
  function AtRate(obs: seq<Observation>, rate: nat): seq<Observation> {
    if obs == [] then []
    else AtRate(obs[..|obs| - 1], rate) + if obs[|obs| - 1].rate == rate then [obs[|obs| - 1]] else []
  }

  lemma AtRateNext(obs: seq<Observation>, o: Observation, rate: nat)
    ensures AtRate(obs + [o], rate) == AtRate(obs, rate) + if o.rate == rate then [o] else []
  {
    assert (obs + [o])[..|obs|] == obs;
  }

  lemma {:induction false} MeasuredOfRate(obs: seq<Observation>, rate: nat)
    ensures MeasuredAt(AtRate(obs, rate), rate) == MeasuredAt(obs, rate)
  {
    if obs != [] {
      var before, o := obs[..|obs| - 1], obs[|obs| - 1];
      MeasuredOfRate(before, rate);
      MeasuredConcat(AtRate(before, rate), if o.rate == rate then [o] else [], rate);
      MeasuredConcat(before, [o], rate);
      assert obs == before + [o];
    }
  }

  /** The two dictionaries `_rate_summaries_v1` fills: absent keys stand for nothing observed or confirmed. */
  ghost predicate Grouped(grouped: map<nat, seq<Observation>>, obs: seq<Observation>) {
    forall rate: nat :: AtRate(obs, rate) == if rate in grouped then grouped[rate] else []
  }

  ghost predicate Counted(confirmations: map<nat, nat>, h: History) {
    forall rate: nat :: Confirmations(h, rate) == if rate in confirmations then confirmations[rate] else 0
  }

  lemma {:induction false} AtRateConcat(a: seq<Observation>, b: seq<Observation>, rate: nat)
    ensures AtRate(a + b, rate) == AtRate(a, rate) + AtRate(b, rate)
  {
    if b == [] {
      assert a + b == a;
    } else {
      assert (a + b)[..|a + b| - 1] == a + b[..|b| - 1];
      AtRateConcat(a, b[..|b| - 1], rate);
    }
  }

  /** Dictionary insertion of one more observation (`setdefault` and `append`). */
  lemma GroupedNext(grouped: map<nat, seq<Observation>>, obs: seq<Observation>, o: Observation)
    requires Grouped(grouped, obs) && forall rate :: rate in grouped ==> grouped[rate] != []
    ensures Grouped(grouped[o.rate := (if o.rate in grouped then grouped[o.rate] else []) + [o]], obs + [o])
  {
    hide AtRate;
    forall rate: nat ensures AtRate(obs + [o], rate) == AtRate(obs, rate) + if o.rate == rate then [o] else [] {
      AtRateNext(obs, o, rate);
    }
  }

  method GroupBatch(grouped: map<nat, seq<Observation>>, obs: seq<Observation>, added: seq<Observation>)
    returns (next: map<nat, seq<Observation>>)
    requires Grouped(grouped, obs) && forall rate :: rate in grouped ==> grouped[rate] != []
    ensures Grouped(next, obs + added) && forall rate :: rate in next ==> next[rate] != []
  {
    hide Grouped;
    next := grouped;
    assert obs + added[..0] == obs;
    for i := 0 to |added|
      invariant Grouped(next, obs + added[..i]) && forall rate :: rate in next ==> next[rate] != []
    {
      var o := added[i];
      GroupedNext(next, obs + added[..i], o);
      assert obs + added[..i] + [o] == obs + added[..i + 1];
      next := next[o.rate := (if o.rate in next then next[o.rate] else []) + [o]];
    }
    assert added[..|added|] == added;
  }

  /** Confirmations of a rate once the first `i` rates of the batch have been counted. */
  function Tally(h: History, item: BatchResult, i: nat, rate: nat): nat
    requires i <= |item.batch.rates|
  {
    Confirmations(h, rate) + if item.batch.reason == Confirm && rate in item.batch.rates[..i] then 1 else 0
  }

  method CountBatch(confirmations: map<nat, nat>, h: History, item: BatchResult) returns (next: map<nat, nat>)
    requires Counted(confirmations, h) && DistinctRates(item.batch.rates)
    ensures Counted(next, h + [item])
  {
    next := confirmations;
    var rates := item.batch.rates;
    for i := 0 to |rates|
      invariant forall rate: nat :: Tally(h, item, i, rate) == if rate in next then next[rate] else 0
    {
      assert rates[..i + 1] == rates[..i] + [rates[i]];
      if item.batch.reason == Confirm {
        assert rates[i] !in rates[..i];
        next := next[rates[i] := (if rates[i] in next then next[rates[i]] else 0) + 1];
      }
    }
    assert rates[..|rates|] == rates;
    forall rate: nat ensures Confirmations(h + [item], rate) == if rate in next then next[rate] else 0 {
      ConfirmationsNext(h, item, rate);
    }
  }

  lemma {:induction false} OtherRatesUnobserved(p: Search, specs: seq<Spec>, trials: seq<Evidence>, rate: nat)
    requires |specs| == |trials| && forall k :: 0 <= k < |specs| ==> specs[k].rate != rate
    ensures AtRate(Observed(p, specs, trials), rate) == []
  {
    hide Usable;
    if specs != [] {
      var first := Observe(p, specs[0], trials[0]);
      OtherRatesUnobserved(p, specs[1..], trials[1..], rate);
      AtRateConcat([first], Observed(p, specs[1..], trials[1..]), rate);
      AtRateNext([], first, rate);
      assert [] + [first] == [first];
    }
  }

  lemma {:induction false} SpecsAreListed(p: Search, rates: seq<nat>)
    ensures forall k :: 0 <= k < |Specs(p, rates)| ==> Specs(p, rates)[k].rate in rates
    decreases rates
  {
    if rates != [] { SpecsAreListed(p, rates[1..]); }
  }

  lemma {:induction false} OnlyTestedAreObserved(p: Search, h: History, rate: nat)
    requires Conforming(p, h) && rate !in Tested(h)
    ensures AtRate(AllObserved(p, h), rate) == []
  {
    hide Choose, Specs, Observed, AtRate;
    if h == [] {
      NothingAtRate(rate);
    } else {
      var g, last := h[..|h| - 1], h[|h| - 1];
      PrefixConforms(p, h);
      ChosenFits(p, g, last.batch);
      TestedNext(g, last);
      TestedIsSorted(g);
      InsertAllKeepsOrder(Tested(g), last.batch.rates);
      OnlyTestedAreObserved(p, g, rate);
      SpecsAreListed(p, last.batch.rates);
      assert Recorded(last);
      OtherRatesUnobserved(p, last.batch.specs, last.trials, rate);
      ObservedNext(p, g, last);
      AtRateConcat(AllObserved(p, g), Observed(p, last.batch.specs, last.trials), rate);
    }
  }

  lemma NothingAtRate(rate: nat)
    ensures AtRate([], rate) == []
  {}

  /** Exactly the tested rates have observations. */
  lemma ObservedIffTested(p: Search, h: History, rate: nat)
    requires Prepared(p) && Conforming(p, h)
    ensures AtRate(AllObserved(p, h), rate) != [] <==> rate in Tested(h)
  {
    hide Choose, Prepared, AllObserved, AtRate, MeasuredAt, Conforming, Tested;
    ConformingIsRecorded(p, h);
    if rate in Tested(h) {
      EveryRateIsMeasured(p, h, rate);
      AtLeastOne(p);
      MeasuredOfRate(AllObserved(p, h), rate);
      NothingMeasuredAt(rate);
      ManyMeasured(BatchesOf(h, rate), p.policy.repetitions);
    } else {
      OnlyTestedAreObserved(p, h, rate);
    }
  }

  lemma NothingMeasuredAt(rate: nat)
    ensures MeasuredAt([], rate) == []
  {}

  lemma ManyMeasured(a: nat, b: nat)
    requires a >= 1 && b >= 1
    ensures a * b >= 1
  {}

  lemma {:induction false} AscendingIsUnique(a: seq<nat>, b: seq<nat>)
    requires Ascending(a) && Ascending(b) && forall x: nat :: x in a <==> x in b
    ensures a == b
  {
    if a == [] {
      SomeMember(b);
    } else {
      assert a[0] in a;
      SameRest(a, b);
      AscendingIsUnique(a[1..], b[1..]);
      assert a == [a[0]] + a[1..] && b == [b[0]] + b[1..];
    }
  }

  lemma SomeMember(b: seq<nat>)
    ensures b != [] ==> exists x: nat :: x in b
  {
    if b != [] { assert b[0] in b; }
  }

  lemma SameRest(a: seq<nat>, b: seq<nat>)
    requires Ascending(a) && Ascending(b) && a != [] && a[0] in b && forall x: nat :: x in a <==> x in b
    ensures b != [] && a[0] == b[0] && forall x: nat :: x in a[1..] <==> x in b[1..]
  {
    assert b[0] in b && a[0] in a;
    var i :| 0 <= i < |b| && b[i] == a[0];
    var j :| 0 <= j < |a| && a[j] == b[0];
    assert b[0] <= b[i] && a[0] <= a[j];
    TailMembers(a);
    TailMembers(b);
  }

  lemma TailMembers(a: seq<nat>)
    requires Ascending(a) && a != []
    ensures forall x: nat :: x in a[1..] <==> x in a && x != a[0]
  {
    assert a == [a[0]] + a[1..];
    forall i | 0 <= i < |a| - 1 ensures a[1..][i] == a[i + 1] && a[i + 1] != a[0] {}
  }

  /** Dictionary keys in increasing order. */
  method SortedKeys(keys: set<nat>) returns (t: seq<nat>)
    ensures Ascending(t) && forall x: nat :: x in t <==> x in keys
  {
    hide Insert;
    t := [];
    var left := keys;
    while left != {}
      invariant Ascending(t) && left <= keys
      invariant forall x: nat :: x in t <==> x in keys && x !in left
    {
      var x :| x in left;
      InsertKeepsOrder(t, x);
      t := Insert(t, x);
      left := left - {x};
    }
  }

  function SummaryOf(p: Search, h: History, rate: nat): Summary
    requires AllRecorded(h)
  {
    Summary(rate, StatusOf(p, h, rate), ValidCount(MeasuredAt(AllObserved(p, h), rate)), Confirmations(h, rate))
  }

  /** Fill both dictionaries batch by batch. */
  method Dictionaries(p: Search, h: History) returns (grouped: map<nat, seq<Observation>>, counts: map<nat, nat>)
    requires Prepared(p) && Conforming(p, h)
    ensures AllRecorded(h) && Grouped(grouped, AllObserved(p, h)) && Counted(counts, h)
    ensures forall rate :: rate in grouped ==> grouped[rate] != []
  {
    hide Choose, Prepared, Conforming, Grouped, Counted;
    ConformingIsRecorded(p, h);
    grouped, counts := map[], map[];
    NothingGrouped(p);
    assert h[..0] == [];
    for k: nat := 0 to |h|
      invariant AllRecorded(h[..k]) && Grouped(grouped, AllObserved(p, h[..k])) && Counted(counts, h[..k])
      invariant forall rate :: rate in grouped ==> grouped[rate] != []
    {
      var item := h[k];
      StepConforms(p, h, k);
      ChosenRatesDiffer(p, h[..k], item.batch);
      ObservedNext(p, h[..k], item);
      assert h[..k + 1] == h[..k] + [item];
      counts := CountBatch(counts, h[..k], item);
      grouped := GroupBatch(grouped, AllObserved(p, h[..k]), Observed(p, item.batch.specs, item.trials));
    }
    assert h[..|h|] == h;
  }

  lemma NothingGrouped(p: Search)
    ensures Grouped(map[], AllObserved(p, [])) && Counted(map[], [])
  {}

  lemma KeysAreTested(p: Search, h: History, grouped: map<nat, seq<Observation>>, rates: seq<nat>)
    requires Prepared(p) && Conforming(p, h) && Grouped(grouped, AllObserved(p, h))
    requires forall rate :: rate in grouped ==> grouped[rate] != []
    requires Ascending(rates) && forall x: nat :: x in rates <==> x in grouped
    ensures rates == Tested(h)
  {
    hide Choose, Prepared, AllObserved, AtRate, Conforming, Tested;
    TestedIsSorted(h);
    ConformingIsRecorded(p, h);
    forall x: nat ensures x in rates <==> x in Tested(h) {
      ObservedIffTested(p, h, x);
      assert AtRate(AllObserved(p, h), x) == if x in grouped then grouped[x] else [];
    }
    AscendingIsUnique(rates, Tested(h));
  }

  lemma SummaryReads(p: Search, h: History, grouped: map<nat, seq<Observation>>, counts: map<nat, nat>, rate: nat)
    requires AllRecorded(h) && Grouped(grouped, AllObserved(p, h)) && Counted(counts, h) && rate in grouped
    ensures var measured := MeasuredAt(grouped[rate], rate);
      var confirmations := if rate in counts then counts[rate] else 0;
      SummaryOf(p, h, rate) == Summary(rate, Judge(p, measured, confirmations), ValidCount(measured), confirmations)
  {
    hide Judge, MeasuredAt, AtRate, AllObserved, ValidCount;
    MeasuredOfRate(AllObserved(p, h), rate);
    assert AtRate(AllObserved(p, h), rate) == grouped[rate];
    assert Confirmations(h, rate) == if rate in counts then counts[rate] else 0;
  }

  /** `_rate_summaries_v1`: one summary per tested rate, in increasing order. */
  method RateSummaries(p: Search, h: History) returns (summaries: seq<Summary>)
    requires Prepared(p) && Conforming(p, h)
    ensures |summaries| == |Tested(h)|
    ensures forall i :: 0 <= i < |summaries| ==> summaries[i] == SummaryOf(p, h, Tested(h)[i])
  {
    hide *;
    ConformingIsRecorded(p, h);
    var grouped, counts := Dictionaries(p, h);
    var rates := SortedKeys(grouped.Keys);
    KeysAreTested(p, h, grouped, rates);
    summaries := [];
    for i := 0 to |rates|
      invariant |summaries| == i
      invariant forall j :: 0 <= j < i ==> summaries[j] == SummaryOf(p, h, rates[j])
    {
      var rate := rates[i];
      SummaryReads(p, h, grouped, counts, rate);
      var measured := MeasuredAt(grouped[rate], rate);
      var confirmations := if rate in counts then counts[rate] else 0;
      summaries := summaries + [Summary(rate, Judge(p, measured, confirmations), ValidCount(measured), confirmations)];
    }
  }

  datatype Verdict = AcceptableTestedRates | NoAcceptableTestedRate | InconclusiveSearch

  datatype AdaptiveResult = AdaptiveResult(
    history: History, decision: Decision, summaries: seq<Summary>, verdict: Verdict,
    highest: Option<nat>, acceptable: seq<nat>, ceilingCensored: bool)

  ghost predicate IsEligible(p: Search, h: History, rate: nat) {
    AllRecorded(h) && rate in Tested(h) && StatusOf(p, h, rate) == Eligible
  }

  /** `_summarize_v1`: the eligible tested rates, and whether the search's own ceiling hides anything above. */
  method Summarize(p: Search, h: History) returns (r: AdaptiveResult)
    requires Prepared(p) && Conforming(p, h) && h != []
    ensures AllRecorded(h) && r.history == h && r.decision == Choose(p, h)
    ensures forall rate: nat :: rate in r.acceptable <==> IsEligible(p, h, rate)
    ensures r.highest.None? <==> r.acceptable == []
    ensures r.highest.Some? ==> r.highest.value in r.acceptable && forall rate :: rate in r.acceptable ==> rate <= r.highest.value
    ensures r.ceilingCensored <==> IsEligible(p, h, p.limits.maxRate)
    ensures r.verdict == AcceptableTestedRates <==> exists rate: nat :: IsEligible(p, h, rate)
    ensures r.verdict == NoAcceptableTestedRate <==> forall rate :: rate in Tested(h) ==> StatusOf(p, h, rate) == Rejected
    ensures forall rate :: rate in Tested(h) ==> Evident(p, h, rate, StatusOf(p, h, rate))
  {
    hide Choose, Prepared, Conforming, StatusOf, Tested, Evident;
    ConformingIsRecorded(p, h);
    StatusesMean(p, h);
    TestedIsSorted(h);
    var summaries := RateSummaries(p, h);
    var acceptable: seq<nat>, rejected := [], true;
    for i: nat := 0 to |summaries|
      invariant Sifted(p, h, Tested(h), i, acceptable, rejected)
    {
      SiftNext(p, h, Tested(h), i, acceptable, rejected);
      if summaries[i].status == Eligible { acceptable := acceptable + [summaries[i].rate]; }
      if summaries[i].status != Rejected { rejected := false; }
    }
    SiftedAll(p, h, acceptable, rejected);
    hide Sifted, IsEligible;
    var highest: Option<nat> := if acceptable == [] then None else Some(acceptable[|acceptable| - 1]);
    var verdict :=
      if acceptable != [] then AcceptableTestedRates
      else if rejected then NoAcceptableTestedRate
      else InconclusiveSearch;
    r := AdaptiveResult(h, Choose(p, h), summaries, verdict, highest, acceptable, highest == Some(p.limits.maxRate));
  }

  /** Among the first `i` tested rates: the eligible ones in order, and whether all were rejected. */
  ghost predicate Sifted(p: Search, h: History, t: seq<nat>, i: nat, acceptable: seq<nat>, rejected: bool)
    requires AllRecorded(h) && i <= |t|
  {
    && (forall j :: 0 <= j < i ==> (t[j] in acceptable <==> StatusOf(p, h, t[j]) == Eligible))
    && (forall x :: x in acceptable ==> x in t[..i] && x <= acceptable[|acceptable| - 1])
    && (rejected <==> forall j :: 0 <= j < i ==> StatusOf(p, h, t[j]) == Rejected)
  }

  lemma SiftNext(p: Search, h: History, t: seq<nat>, i: nat, acceptable: seq<nat>, rejected: bool)
    requires AllRecorded(h) && Ascending(t) && i < |t| && Sifted(p, h, t, i, acceptable, rejected)
    ensures Sifted(p, h, t, i + 1, if StatusOf(p, h, t[i]) == Eligible then acceptable + [t[i]] else acceptable,
                   rejected && StatusOf(p, h, t[i]) == Rejected)
  {
    hide StatusOf;
    assert t[..i + 1] == t[..i] + [t[i]];
    assert t[i] !in t[..i];
    forall x | x in t[..i] ensures x < t[i] {}
  }

  lemma SiftedAll(p: Search, h: History, acceptable: seq<nat>, rejected: bool)
    requires Prepared(p) && Conforming(p, h) && h != []
    requires AllRecorded(h) && Sifted(p, h, Tested(h), |Tested(h)|, acceptable, rejected)
    ensures forall rate: nat :: rate in acceptable <==> IsEligible(p, h, rate)
    ensures forall rate :: rate in acceptable ==> rate <= acceptable[|acceptable| - 1]
    ensures acceptable != [] ==> acceptable[|acceptable| - 1] in acceptable
    ensures acceptable != [] ==> (acceptable[|acceptable| - 1] == p.limits.maxRate <==> IsEligible(p, h, p.limits.maxRate))
    ensures acceptable == [] <==> forall rate: nat :: !IsEligible(p, h, rate)
    ensures rejected <==> forall rate :: rate in Tested(h) ==> StatusOf(p, h, rate) == Rejected
    ensures rejected ==> acceptable == []
  {
    hide Choose, Prepared, Conforming, StatusOf, Tested;
    var t := Tested(h);
    assert t[..|t|] == t;
    SomethingTested(p, h);
    TestedWithinLimits(p, h);
    forall rate | rate in t ensures rate in acceptable <==> StatusOf(p, h, rate) == Eligible {
      var j :| 0 <= j < |t| && t[j] == rate;
    }
    if acceptable != [] {
      assert acceptable[|acceptable| - 1] in acceptable;
      assert IsEligible(p, h, acceptable[|acceptable| - 1]);
    }
    if rejected && acceptable != [] {
      assert false;
    }
  }

  lemma SomethingTested(p: Search, h: History)
    requires Prepared(p) && Conforming(p, h) && h != []
    ensures Tested(h) != []
  {
    hide Choose, Prepared;
    SearchIsAccounted(p, h);
    GridIsNonempty(p);
  }

  lemma GridIsNonempty(p: Search)
    requires Prepared(p)
    ensures |p.initial| >= 1
  {
    hide MakeBatch;
  }

  // ---- The driver ---------------------------------------------------------------------------

  lemma GridComesFirst(p: Search)
    requires Prepared(p)
    ensures Choose(p, []).Next?
  {
    hide MakeBatch, StatusOf;
  }

  /**
   Run admitted batches until none is admitted, with one recorded cooldown between successive calls. The loop ends
   because no history that conforms is longer than the grid, the refinements and the confirmations allow.
   */
  method RunAdaptiveUdp(p: Search, outcome: nat -> nat -> Evidence, sleep: nat -> nat -> real, cooldown: nat -> real)
    returns (h: History, refused: bool)
    requires Sleeps(p.policy.pause, cooldown) && forall k: nat :: Sleeps(p.policy.pause, sleep(k))
    ensures refused <==> !Prepared(p)
    ensures !refused ==>
      Conforming(p, h) && Rested(p, h) && h != [] && Choose(p, h).Stop? && |h| <= MostBatches(p)
    ensures forall k :: 0 <= k < |h| ==> Ran(p, outcome(k), h[k].trials, h[k].stopped)
    ensures AllRecorded(h) && forall rate :: rate in Tested(h) ==> Evident(p, h, rate, StatusOf(p, h, rate))
  {
    hide Choose, Prepared, Ran, Conforming, Rested, PauseOk, LongEnough, StatusOf, Tested, Evident;
    NothingEvident(p);
    h, refused := [], false;
    NothingConforms(p);
    NothingRested(p);
    while true
      invariant Conforming(p, h) && Rested(p, h) && !refused
      invariant h != [] ==> Prepared(p)
      invariant forall k :: 0 <= k < |h| ==> Ran(p, outcome(k), h[k].trials, h[k].stopped)
      decreases MostBatches(p) - |h|
    {
      var decision := NextBatch(p, h);
      if decision.None? { return [], true; }
      SearchIsFinite(p, h);
      GridComesFirst(p);
      match decision.value
      case Stop(_) =>
        StatusesMean(p, h);
        return h, false;
      case Next(batch) =>
        var pause := if h != [] && p.policy.pause != 0.0 then cooldown(|h|) else 0.0;
        var trials, stopped, paused := RunPlan(p, batch.specs, outcome(|h|), sleep(|h|));
        var item := BatchResult(batch, trials, stopped, paused, pause);
        ConformingGrows(p, h, item);
        RestedGrows(p, h, item);
        h := h + [item];
        SearchIsFinite(p, h);
    }
  }

  lemma StatusesMean(p: Search, h: History)
    requires Prepared(p) && Conforming(p, h)
    ensures AllRecorded(h) && forall rate :: rate in Tested(h) ==> Evident(p, h, rate, StatusOf(p, h, rate))
  {
    hide Choose, Prepared, Conforming, StatusOf, Tested, Evident;
    ConformingIsRecorded(p, h);
    forall rate | rate in Tested(h) ensures Evident(p, h, rate, StatusOf(p, h, rate)) { StatusMeans(p, h, rate); }
  }

  lemma NothingEvident(p: Search)
    ensures AllRecorded([]) && Tested([]) == []
  {}

  lemma NothingRested(p: Search)
    ensures Rested(p, [])
  {}

  lemma RestedGrows(p: Search, h: History, item: BatchResult)
    requires Rested(p, h) && item.paused >= Declared(p.policy.pause, Started(item.trials))
    requires if h == [] then item.cooldown == 0.0 else item.cooldown >= p.policy.pause
    ensures Rested(p, h + [item])
  {
    hide Declared, Close;
    forall k | 0 <= k < |h + [item]| ensures PauseOk(p, (h + [item])[k], k == 0) {
      if k < |h| { assert PauseOk(p, h[k], k == 0); }
    }
  }

  lemma NothingConforms(p: Search)
    ensures Conforming(p, [])
  {}
}
