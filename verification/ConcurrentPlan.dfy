/** Admission inputs of a concurrent plan (`concurrent_execution.py`). */
module ConcurrentPlan {
  import opened Options
  import opened Intent
  import opened PlanOutcomes
  import opened Reservations

  /** `address` is the compressed form of the server where the server is an IP literal. */
  datatype TrialSpec = TrialSpec(
    trialId: string, cellId: string, server: string, address: Option<string>, port: nat, clientPort: Option<nat>,
    config: Config, intent: Option<RateIntent>)

  /** `admitted`: `prepare_plan` accepts the stored plan and returns it unchanged. */
  datatype Plan = Plan(
    trials: seq<TrialSpec>, stopOnError: bool, pauseSeconds: real, stopAfterElapsed: Option<real>, admitted: bool)

  /** Ceilings are positive by construction. */
  type Ceilings = p: Policy | p.maxWorkers > 0 && p.maxActiveTargetBps > 0 witness Policy(1, 1)

  /** Per trial: its exclusive keys and the rate it reserves. */
  datatype Prepared = Prepared(keys: seq<set<Key>>, targets: seq<nat>)

  function Lower(c: char): char { if 'A' <= c <= 'Z' then c - 'A' + 'a' else c }

  function LowerAll(s: string): string { if s == [] then [] else [Lower(s[0])] + LowerAll(s[1..]) }

  function StripDots(s: string): string {
    if s != [] && s[|s| - 1] == '.' then StripDots(s[..|s| - 1]) else s
  }

  /** One spelling of an address, or of a name without resolving it. */
  function CanonicalHost(spec: TrialSpec): string {
    if spec.address.Some? then spec.address.value else StripDots(LowerAll(spec.server))
  }

  predicate Blank(s: string) { forall i :: 0 <= i < |s| ==> Space(s[i] as int) }

  predicate KeysOk(values: seq<string>) {
    && (forall i :: 0 <= i < |values| ==> !Blank(values[i]))
    && (forall i, j :: 0 <= i < j < |values| ==> values[i] != values[j])
  }

  predicate ResourcesOk(trials: seq<TrialSpec>, resources: map<string, seq<string>>) {
    forall cell | cell in resources ::
      && KeysOk(resources[cell])
      && exists i :: 0 <= i < |trials| && trials[i].cellId == cell
  }

  function KeysFor(spec: TrialSpec, resources: map<string, seq<string>>): set<Key> {
    {Endpoint(CanonicalHost(spec), spec.port)}
    + if spec.cellId in resources then (set name | name in resources[spec.cellId] :: User(name)) else {}
  }

  predicate Dots(s: string) { forall i :: 0 <= i < |s| ==> s[i] == '.' }

  /** The same letter, whatever its case. */
  predicate SameLetter(a: char, b: char) {
    a == b || ('A' <= a <= 'Z' && b as int == a as int + 32) || ('A' <= b <= 'Z' && a as int == b as int + 32)
  }

  /** The same name but for the case of its letters. */
  predicate SameSpelling(s: string, t: string) {
    |s| == |t| && forall i :: 0 <= i < |s| ==> SameLetter(s[i], t[i])
  }

  lemma {:induction false} LowerAllAt(s: string)
    ensures |LowerAll(s)| == |s| && forall i :: 0 <= i < |s| ==> LowerAll(s)[i] == Lower(s[i])
  {
    if s != [] { LowerAllAt(s[1..]); }
  }

  lemma {:induction false} StripDotsMeans(s: string)
    ensures var t := StripDots(s);
      |t| <= |s| && s[..|t|] == t && Dots(s[|t|..]) && (t == [] || t[|t| - 1] != '.')
  {
    if s != [] && s[|s| - 1] == '.' {
      var r := s[..|s| - 1];
      StripDotsMeans(r);
      var t := StripDots(r);
      assert s[..|t|] == r[..|t|] && s[|t|..] == r[|t|..] + ['.'];
    } else {
      assert s[..|s|] == s && s[|s|..] == [];
    }
  }

  lemma LettersAgree(a: char, b: char)
    ensures Lower(a) == Lower(b) <==> SameLetter(a, b)
  {}

  /** The names differ only in the case of their letters and in the dots after `m` and `n`. */
  predicate SameButDots(s: string, m: nat, t: string, n: nat) {
    && m <= |s| && n <= |t| && Dots(s[m..]) && Dots(t[n..]) && SameSpelling(s[..m], t[..n])
    && (m == 0 || s[m - 1] != '.') && (n == 0 || t[n - 1] != '.')
  }

  /** Two names have one spelling exactly when they differ only in case and in trailing dots. */
  lemma HostsAgree(a: TrialSpec, b: TrialSpec)
    requires a.address.None? && b.address.None?
    ensures CanonicalHost(a) == CanonicalHost(b) <==> exists m: nat, n: nat :: SameButDots(a.server, m, b.server, n)
  {
    hide LowerAll, StripDots, Lower, SameLetter, SameSpelling;
    var m := |CanonicalHost(a)|;
    var n := |CanonicalHost(b)|;
    CanonicalMeans(a.server);
    CanonicalMeans(b.server);
    SpellingsAgree(a.server[..m], b.server[..n]);
    if CanonicalHost(a) == CanonicalHost(b) { assert SameButDots(a.server, m, b.server, n); }
    if i: nat, j: nat :| SameButDots(a.server, i, b.server, j) {
      DotsAfter(a.server, i, m);
      DotsAfter(a.server, m, i);
      DotsAfter(b.server, j, n);
      DotsAfter(b.server, n, j);
    }
  }

  lemma SpellingsAgree(s: string, t: string)
    ensures LowerAll(s) == LowerAll(t) <==> SameSpelling(s, t)
  {
    hide LowerAll, Lower, SameLetter;
    LowerAllAt(s);
    LowerAllAt(t);
    forall i | 0 <= i < |s| && i < |t| ensures Lower(s[i]) == Lower(t[i]) <==> SameLetter(s[i], t[i]) { LettersAgree(s[i], t[i]); }
    if SameSpelling(s, t) { assert LowerAll(s) == LowerAll(t); }
    if LowerAll(s) == LowerAll(t) {
      forall i | 0 <= i < |s| ensures SameLetter(s[i], t[i]) { assert LowerAll(s)[i] == LowerAll(t)[i]; }
    }
  }

  lemma CanonicalMeans(s: string)
    ensures var host := StripDots(LowerAll(s)); var m := |host|;
      m <= |s| && host == LowerAll(s[..m]) && Dots(s[m..]) && (m == 0 || s[m - 1] != '.')
  {
    hide LowerAll, StripDots;
    var t := LowerAll(s);
    StripDotsMeans(t);
    LowerAllAt(s);
    var m := |StripDots(t)|;
    LowerAllAt(s[..m]);
    assert LowerAll(s[..m]) == t[..m];
    forall i | 0 <= i < |s[m..]| ensures s[m..][i] == '.' { assert t[m..][i] == '.'; }
  }

  lemma DotsAfter(s: string, i: nat, m: nat)
    requires i <= |s| && m <= |s| && Dots(s[i..])
    ensures i < m ==> s[m - 1] == '.'
  {
    if i < m { assert s[i..][m - 1 - i] == s[m - 1]; }
  }

  /** Two trials exclude each other exactly when they share host and port, or a resource named for both their cells. */
  lemma SharedKeysMean(a: TrialSpec, b: TrialSpec, resources: map<string, seq<string>>)
    ensures KeysFor(a, resources) * KeysFor(b, resources) != {} <==>
      || (CanonicalHost(a) == CanonicalHost(b) && a.port == b.port)
      || (a.cellId in resources && b.cellId in resources
          && exists name :: name in resources[a.cellId] && name in resources[b.cellId])
  {
    hide CanonicalHost;
    var both := KeysFor(a, resources) * KeysFor(b, resources);
    if CanonicalHost(a) == CanonicalHost(b) && a.port == b.port { assert Endpoint(CanonicalHost(a), a.port) in both; }
    if a.cellId in resources && b.cellId in resources {
      if name :| name in resources[a.cellId] && name in resources[b.cellId] { assert User(name) in both; }
    }
    if key :| key in both { assert key.User? ==> key.name in resources[a.cellId] && key.name in resources[b.cellId]; }
  }

  /** The finite positive rate a trial reserves. */
  function TargetFor(spec: TrialSpec): Option<nat> {
    match ResolveRate(spec.config, spec.intent)
    case Err(_) => None
    case Ok(r) => r.allDirections
  }

  predicate TrialOk(spec: TrialSpec, policy: Ceilings) {
    && spec.clientPort.None?
    && TargetFor(spec).Some?
    && 0 < TargetFor(spec).value <= policy.maxActiveTargetBps
  }

  ghost predicate PlanOk(plan: Plan, policy: Ceilings, resources: map<string, seq<string>>) {
    && plan.admitted && plan.trials != []
    && plan.pauseSeconds == 0.0
    && ResourcesOk(plan.trials, resources)
    && forall i :: 0 <= i < |plan.trials| ==> TrialOk(plan.trials[i], policy)
  }

  ghost predicate PreparedFrom(p: Prepared, plan: Plan, resources: map<string, seq<string>>) {
    && |p.keys| == |p.targets| == |plan.trials|
    && forall i :: 0 <= i < |plan.trials| ==>
         && p.keys[i] == KeysFor(plan.trials[i], resources)
         && TargetFor(plan.trials[i]) == Some(p.targets[i])
  }

  /** Derive keys and targets, or refuse the plan. Every admitted target fits the cap on its own. */
  method PrepareConcurrentPlan(plan: Plan, policy: Ceilings, resources: map<string, seq<string>>)
    returns (r: Option<Prepared>)
    ensures r.Some? <==> PlanOk(plan, policy, resources)
    ensures r.Some? ==> PreparedFrom(r.value, plan, resources)
  {
    if !plan.admitted || plan.trials == [] || plan.pauseSeconds != 0.0 { return None; }
    if !ResourcesOk(plan.trials, resources) { return None; }
    var keys: seq<set<Key>> := [];
    var targets: seq<nat> := [];
    for i := 0 to |plan.trials|
      invariant |keys| == |targets| == i
      invariant forall j :: 0 <= j < i ==> TrialOk(plan.trials[j], policy)
      invariant forall j :: 0 <= j < i ==>
        keys[j] == KeysFor(plan.trials[j], resources) && TargetFor(plan.trials[j]) == Some(targets[j])
    {
      var spec := plan.trials[i];
      if spec.clientPort.Some? { return None; }
      var target := TargetFor(spec);
      if target.None? || target.value == 0 { return None; }
      if target.value > policy.maxActiveTargetBps { return None; }
      keys := keys + [KeysFor(spec, resources)];
      targets := targets + [target.value];
    }
    return Some(Prepared(keys, targets));
  }

  /** The latest earlier trial of the same cell: what must have released before `i` is admitted. */
  function PriorInCell(trials: seq<TrialSpec>, i: nat): (p: Option<nat>)
    requires i < |trials|
    ensures p.Some? ==> p.value < i && trials[p.value].cellId == trials[i].cellId
    ensures forall j :: 0 <= j < i && trials[j].cellId == trials[i].cellId ==> p.Some? && j <= p.value
  {
    LastOfCell(trials, i, trials[i].cellId)
  }

  function LastOfCell(trials: seq<TrialSpec>, n: nat, cell: string): (p: Option<nat>)
    requires n <= |trials|
    ensures p.Some? ==> p.value < n && trials[p.value].cellId == cell
    ensures forall j :: 0 <= j < n && trials[j].cellId == cell ==> p.Some? && j <= p.value
  {
    if n == 0 then None
    else if trials[n - 1].cellId == cell then Some(n - 1)
    else LastOfCell(trials, n - 1, cell)
  }
}
