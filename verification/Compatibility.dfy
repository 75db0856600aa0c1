/**
 One decision, two implementations: the live compatibility analysis (`check_compatibility` of `analysis.py`) and the
 frozen archive validator (`_validate_compatibility_v1` of `reports.py`), both starting from the retained results.
 Each is proved against one specification of what fingerprints decide.
 */
module Compatibility {
  import opened Options
  import opened JsonFrames
  import opened Fingerprints

  datatype Quality = Complete | Partial | InsufficientData

  datatype Decision = Decision(quality: Quality, compatible: bool)

  const UNKNOWN := Ascii("unknown")

  /** Every trial is fingerprinted over the same fields, and its rate intent is one of the two bases. */
  predicate Shaped(prints: seq<Fingerprint>, expanded: set<string>) {
    forall i :: 0 <= i < |prints| ==>
      && prints[i].Keys == COMPARISON_FIELDS + expanded
      && (prints[i]["rate_intent"] == NativeBasis
          || (prints[i]["rate_intent"].AggregateBasis? && prints[i]["rate_intent"].target >= 1))
  }

  // ---- What is decided ----------------------------------------------------------------------

  /** The aggregate target that all trials share, if they do. */
  function SharedTarget(prints: seq<Fingerprint>, expanded: set<string>): Option<nat>
    requires Shaped(prints, expanded)
  {
    if prints != [] && prints[0]["rate_intent"].AggregateBasis?
       && forall i :: 0 <= i < |prints| ==> prints[i]["rate_intent"] == prints[0]["rate_intent"]
    then Some(prints[0]["rate_intent"].target)
    else None
  }

  /** The verified native rate is the target divided among the verified streams. */
  predicate Allocated(p: Fingerprint, target: nat)
    requires "parallel" in p && "rate" in p
  {
    && p["parallel"].Plain? && p["parallel"].value.Int? && 1 <= p["parallel"].value.n <= target
    && p["rate"] == Plain(Int(target / p["parallel"].value.n))
  }

  ghost predicate AllAllocated(prints: seq<Fingerprint>, expanded: set<string>, target: nat)
    requires Shaped(prints, expanded)
  {
    forall i :: 0 <= i < |prints| ==> Allocated(prints[i], target)
  }

  predicate Lacking(v: Value, name: string, expanded: set<string>) {
    v == Plain(Null) || (name !in expanded && v == Plain(Str(UNKNOWN)))
  }

  /** Equality of the language: an integer equals the float of the same value. */
  predicate Equal(v: Value, w: Value) {
    v == w || (v.Plain? && w.Plain? && NumberOf(v.value).Some? && NumberOf(v.value) == NumberOf(w.value))
  }

  function NumberOf(v: Json): Option<real> {
    match v
    case Int(n) => Some(n as real)
    case Float(finite, _, value) => if finite then Some(value) else None
    case _ => None
  }

  ghost predicate MissingField(prints: seq<Fingerprint>, expanded: set<string>, name: string)
    requires Shaped(prints, expanded) && name in COMPARISON_FIELDS + expanded
  {
    exists i :: 0 <= i < |prints| && Lacking(prints[i][name], name, expanded)
  }

  ghost predicate DiffersOn(prints: seq<Fingerprint>, expanded: set<string>, name: string)
    requires Shaped(prints, expanded) && name in COMPARISON_FIELDS + expanded
  {
    exists i :: 0 <= i < |prints| && !Equal(prints[i][name], prints[0][name])
  }

  /** A shared, correctly allocated aggregate intent lets the per-stream rate vary. */
  ghost predicate MayVary(prints: seq<Fingerprint>, expanded: set<string>, policy: ComparisonPolicy, name: string)
    requires Shaped(prints, expanded)
  {
    || name in policy.varying
    || (name == "rate" && SharedTarget(prints, expanded).Some?
        && AllAllocated(prints, expanded, SharedTarget(prints, expanded).value))
  }

  ghost predicate Blocks(prints: seq<Fingerprint>, expanded: set<string>, policy: ComparisonPolicy, name: string)
    requires Shaped(prints, expanded) && name in COMPARISON_FIELDS + expanded
  {
    || MissingField(prints, expanded, name)
    || (DiffersOn(prints, expanded, name) && !MayVary(prints, expanded, policy, name) && name !in policy.allowed)
  }

  ghost predicate Excused(prints: seq<Fingerprint>, expanded: set<string>, policy: ComparisonPolicy, name: string)
    requires Shaped(prints, expanded) && name in COMPARISON_FIELDS + expanded
  {
    && !MissingField(prints, expanded, name) && DiffersOn(prints, expanded, name)
    && !MayVary(prints, expanded, policy, name) && name in policy.allowed
  }

  /** Compatible evidence: some trials, a consistent allocation if an aggregate is shared, and no blocking field. */
  ghost predicate CompatibleEvidence(prints: seq<Fingerprint>, expanded: set<string>, policy: ComparisonPolicy)
    requires Shaped(prints, expanded)
  {
    && prints != []
    && (SharedTarget(prints, expanded).Some? ==> AllAllocated(prints, expanded, SharedTarget(prints, expanded).value))
    && forall name :: name in COMPARISON_FIELDS + expanded ==> !Blocks(prints, expanded, policy, name)
  }

  ghost predicate Decides(prints: seq<Fingerprint>, expanded: set<string>, policy: ComparisonPolicy, d: Decision)
    requires Shaped(prints, expanded)
  {
    && d.compatible == CompatibleEvidence(prints, expanded, policy)
    && d.quality ==
       if !CompatibleEvidence(prints, expanded, policy) then InsufficientData
       else if exists name :: name in COMPARISON_FIELDS + expanded && Excused(prints, expanded, policy, name) then Partial
       else Complete
  }

  // ---- All fields ---------------------------------------------------------------------------

  ghost predicate AnyBlocks(prints: seq<Fingerprint>, expanded: set<string>, policy: ComparisonPolicy, names: set<string>)
    requires Shaped(prints, expanded) && names <= COMPARISON_FIELDS + expanded
  {
    exists name :: name in names && Blocks(prints, expanded, policy, name)
  }

  ghost predicate AnyExcused(prints: seq<Fingerprint>, expanded: set<string>, policy: ComparisonPolicy, names: set<string>)
    requires Shaped(prints, expanded) && names <= COMPARISON_FIELDS + expanded
  {
    exists name :: name in names && Excused(prints, expanded, policy, name)
  }

  lemma OneMoreField(prints: seq<Fingerprint>, expanded: set<string>, policy: ComparisonPolicy, names: set<string>, name: string)
    requires Shaped(prints, expanded) && names + {name} <= COMPARISON_FIELDS + expanded
    ensures AnyBlocks(prints, expanded, policy, names + {name})
      == (AnyBlocks(prints, expanded, policy, names) || Blocks(prints, expanded, policy, name))
    ensures AnyExcused(prints, expanded, policy, names + {name})
      == (AnyExcused(prints, expanded, policy, names) || Excused(prints, expanded, policy, name))
  {
    hide Blocks, Excused, Shaped;
    assert name in names + {name};
    assert forall other :: other in names ==> other in names + {name};
  }

  /** A shared aggregate target that some verified rate does not match. */
  ghost predicate Conflict(prints: seq<Fingerprint>, expanded: set<string>)
    requires Shaped(prints, expanded)
  {
    SharedTarget(prints, expanded).Some? && !AllAllocated(prints, expanded, SharedTarget(prints, expanded).value)
  }

  /** The evidence decides once every field has been looked at. */
  lemma AllFieldsSeen(prints: seq<Fingerprint>, expanded: set<string>, policy: ComparisonPolicy, early: bool, d: Decision)
    requires Shaped(prints, expanded)
    requires early == (prints == [] || Conflict(prints, expanded))
    requires var all := COMPARISON_FIELDS + expanded;
      && d.compatible == !(early || AnyBlocks(prints, expanded, policy, all))
      && d.quality == if !d.compatible then InsufficientData
                      else if AnyExcused(prints, expanded, policy, all) then Partial else Complete
    ensures Decides(prints, expanded, policy, d)
  {
    hide Blocks, Excused, Shaped, SharedTarget, AllAllocated;
  }

  lemma NothingSeen(prints: seq<Fingerprint>, expanded: set<string>, policy: ComparisonPolicy)
    requires Shaped(prints, expanded)
    ensures !AnyBlocks(prints, expanded, policy, {}) && !AnyExcused(prints, expanded, policy, {})
  {}

  /** The specification admits one decision only. */
  lemma DecisionIsUnique(prints: seq<Fingerprint>, expanded: set<string>, policy: ComparisonPolicy, d: Decision, e: Decision)
    requires Shaped(prints, expanded) && Decides(prints, expanded, policy, d) && Decides(prints, expanded, policy, e)
    ensures d == e
  {}

  // ---- What each side reads of the trials ---------------------------------------------------

  /** A retained result under its identifier. */
  datatype Subject<I> = Subject(id: I, evidence: Provenance)

  datatype Analysis<I> = Analysis(
    quality: Quality, compatible: bool, policy: ComparisonPolicy, fingerprints: map<I, Fingerprint>)

  function EvidenceOf<I>(xs: seq<Subject<I>>): seq<Provenance> { seq(|xs|, i requires 0 <= i < |xs| => xs[i].evidence) }

  predicate DistinctIds<I(==)>(xs: seq<Subject<I>>) { forall i, j :: 0 <= i < j < |xs| ==> xs[i].id != xs[j].id }

  /** The advanced settings this comparison looks at. */
  function Dimensions<I>(xs: seq<Subject<I>>, policy: ComparisonPolicy): (names: set<string>)
    ensures forall name :: name in names ==> AdvancedDefault(name).Some?
  {
    Expanded(EvidenceOf(xs), policy)
  }

  predicate AllLive<I>(xs: seq<Subject<I>>, expanded: set<string>) {
    forall i :: 0 <= i < |xs| ==> LiveFingerprint(xs[i].evidence, expanded).Some?
  }

  predicate AllArchived<I>(xs: seq<Subject<I>>, expanded: set<string>) {
    forall i :: 0 <= i < |xs| ==> ArchivedFingerprint(xs[i].evidence, expanded).Some?
  }

  function LivePrints<I>(xs: seq<Subject<I>>, expanded: set<string>): seq<Fingerprint>
    requires AllLive(xs, expanded)
  {
    seq(|xs|, i requires 0 <= i < |xs| => LiveFingerprint(xs[i].evidence, expanded).value)
  }

  function ArchivedPrints<I>(xs: seq<Subject<I>>, expanded: set<string>): seq<Fingerprint>
    requires AllArchived(xs, expanded)
  {
    seq(|xs|, i requires 0 <= i < |xs| => ArchivedFingerprint(xs[i].evidence, expanded).value)
  }

  /** Fingerprints by identifier. */
  function Keyed<I>(xs: seq<Subject<I>>, prints: seq<Fingerprint>): map<I, Fingerprint>
    requires |xs| == |prints|
  {
    if xs == [] then map[]
    else
      var n := |xs| - 1;
      Keyed(xs[..n], prints[..n])[xs[n].id := prints[n]]
  }

  /** The live fingerprints of accepted trials are the archived ones, and have the comparison's shape. */
  lemma LivePrintsAreArchived<I>(xs: seq<Subject<I>>, policy: ComparisonPolicy)
    requires AllLive(xs, Dimensions(xs, policy))
    ensures AllArchived(xs, Dimensions(xs, policy))
    ensures ArchivedPrints(xs, Dimensions(xs, policy)) == LivePrints(xs, Dimensions(xs, policy))
  {
    hide LiveFingerprint, ArchivedFingerprint, Dimensions;
    var expanded := Dimensions(xs, policy);
    forall i | 0 <= i < |xs|
      ensures ArchivedFingerprint(xs[i].evidence, expanded) == LiveFingerprint(xs[i].evidence, expanded)
    {
      assert LiveFingerprint(xs[i].evidence, expanded).Some?;
      LiveIsArchived(xs[i].evidence, expanded);
    }
  }

  lemma ArchivedPrintsAreShaped<I>(xs: seq<Subject<I>>, expanded: set<string>)
    requires AllArchived(xs, expanded)
    ensures Shaped(ArchivedPrints(xs, expanded), expanded)
  {
    hide ArchivedFingerprint;
    forall i | 0 <= i < |xs| ensures Shaped([ArchivedPrints(xs, expanded)[i]], expanded) {
      FingerprintShape(xs[i].evidence, expanded);
    }
    assert forall i :: 0 <= i < |xs| ==>
      var f := ArchivedPrints(xs, expanded)[i]; Shaped([f], expanded) && [f][0] == f;
  }

  // ---- The live analysis --------------------------------------------------------------------

  /** Malformed for the live analysis: a repeated identifier or a refused fingerprint. */
  predicate LiveRefuses<I(==)>(trials: seq<Subject<I>>, policy: ComparisonPolicy) {
    !DistinctIds(trials) || !AllLive(trials, Dimensions(trials, policy))
  }

  /** What the live analysis of well-formed trials has to say. */
  ghost predicate LiveAnalysis<I(!new)>(trials: seq<Subject<I>>, policy: ComparisonPolicy, c: Analysis<I>) {
    var expanded := Dimensions(trials, policy);
    && AllLive(trials, expanded) && Shaped(LivePrints(trials, expanded), expanded)
    && c.policy == policy && c.fingerprints == Keyed(trials, LivePrints(trials, expanded))
    && Decides(LivePrints(trials, expanded), expanded, policy, Decision(c.quality, c.compatible))
  }

  /** A shared aggregate intent frees the rate if every verified rate agrees with it; every disagreement is diagnosed. */
  method LiveVarying(prints: seq<Fingerprint>, expanded: set<string>, policy: ComparisonPolicy)
    returns (varying: set<string>, incompatible: bool, diagnostics: nat)
    requires Shaped(prints, expanded)
    ensures forall name :: name in varying <==> MayVary(prints, expanded, policy, name)
    ensures incompatible == (prints == [] || Conflict(prints, expanded)) == (diagnostics > 0)
  {
    varying, incompatible, diagnostics := policy.varying, prints == [], 0;
    var shared := prints != [];
    for i := 0 to |prints|
      invariant shared <==> prints != [] && forall j :: 0 <= j < i ==>
        prints[j]["rate_intent"].AggregateBasis? && prints[j]["rate_intent"] == prints[0]["rate_intent"]
    {
      if !prints[i]["rate_intent"].AggregateBasis? || prints[i]["rate_intent"] != prints[0]["rate_intent"] { shared := false; }
    }
    if shared {
      var target := prints[0]["rate_intent"].target;
      var valid := true;
      for i := 0 to |prints|
        invariant valid <==> forall j :: 0 <= j < i ==> Allocated(prints[j], target)
        invariant incompatible == !valid == (diagnostics > 0)
      {
        var parallel, rate := prints[i]["parallel"], prints[i]["rate"];
        if !parallel.Plain? || !parallel.value.Int? || parallel.value.n < 1 || target < parallel.value.n
           || rate != Plain(Int(target / parallel.value.n)) {
          valid, incompatible, diagnostics := false, true, diagnostics + 1;
        }
      }
      if valid { varying := varying + {"rate"}; }
    }
    if prints == [] { diagnostics := diagnostics + 1; }
  }

  method LiveScan(prints: seq<Fingerprint>, expanded: set<string>, name: string) returns (missing: bool, differs: bool)
    requires Shaped(prints, expanded) && name in COMPARISON_FIELDS + expanded
    ensures missing <==> MissingField(prints, expanded, name)
    ensures differs <==> DiffersOn(prints, expanded, name)
  {
    missing, differs := false, false;
    for i := 0 to |prints|
      invariant missing <==> exists j :: 0 <= j < i && Lacking(prints[j][name], name, expanded)
      invariant differs <==> exists j :: 0 <= j < i && !Equal(prints[j][name], prints[0][name])
    {
      var value := prints[i][name];
      if value == Plain(Null) || (name !in expanded && value == Plain(Str(UNKNOWN))) { missing := true; }
      if !Equal(value, prints[0][name]) { differs := true; }
    }
  }

  /** The live decision: an incompatibility flag and a list of diagnostics, here their number. */
  method LiveDecision(prints: seq<Fingerprint>, expanded: set<string>, policy: ComparisonPolicy) returns (d: Decision)
    requires Shaped(prints, expanded)
    ensures Decides(prints, expanded, policy, d)
  {
    hide Shaped, MissingField, DiffersOn, MayVary, AnyBlocks, AnyExcused, Decides, SharedTarget, AllAllocated;
    var varying, incompatible, diagnostics := LiveVarying(prints, expanded, policy);
    ghost var early, done: set<string> := incompatible, {};
    var left := COMPARISON_FIELDS + expanded;
    NothingSeen(prints, expanded, policy);
    while left != {}
      invariant left !! done && left + done == COMPARISON_FIELDS + expanded
      invariant incompatible <==> early || AnyBlocks(prints, expanded, policy, done)
      invariant diagnostics >= 0 && (!incompatible ==> (diagnostics > 0 <==> AnyExcused(prints, expanded, policy, done)))
    {
      var name :| name in left;
      var missing, differs := LiveScan(prints, expanded, name);
      OneMoreField(prints, expanded, policy, done, name);
      if missing || (differs && name !in varying) {
        var allowed := name in policy.allowed && !missing;
        diagnostics := diagnostics + 1;
        incompatible := incompatible || !allowed;
      }
      left, done := left - {name}, done + {name};
    }
    d := Decision(if incompatible then InsufficientData else if diagnostics > 0 then Partial else Complete, !incompatible);
    assert done == COMPARISON_FIELDS + expanded;
    AllFieldsSeen(prints, expanded, policy, early, d);
  }

  /** Fingerprint the trials one by one; one refusal refuses the whole comparison. */
  method LiveFingerprints<I>(trials: seq<Subject<I>>, expanded: set<string>)
    returns (prints: Option<seq<Fingerprint>>, keyed: map<I, Fingerprint>)
    ensures prints.Some? <==> AllLive(trials, expanded)
    ensures prints.Some? ==> prints.value == LivePrints(trials, expanded) && keyed == Keyed(trials, prints.value)
  {
    hide LiveFingerprint;
    var done: seq<Fingerprint> := [];
    keyed := map[];
    for i := 0 to |trials|
      invariant AllLive(trials[..i], expanded) && done == LivePrints(trials[..i], expanded)
      invariant keyed == Keyed(trials[..i], done)
    {
      assert trials[..i + 1][..i] == trials[..i] && trials[..i + 1][i] == trials[i];
      var f := LiveFingerprint(trials[i].evidence, expanded);
      if f.None? { return None, keyed; }
      assert (done + [f.value])[..i] == done;
      done, keyed := done + [f.value], keyed[trials[i].id := f.value];
    }
    assert trials[..|trials|] == trials;
    return Some(done), keyed;
  }

  /** `check_compatibility`. */
  method CheckCompatibility<I(==, !new)>(trials: seq<Subject<I>>, policy: ComparisonPolicy) returns (r: Option<Analysis<I>>)
    ensures r.None? <==> LiveRefuses(trials, policy)
    ensures r.Some? ==> LiveAnalysis(trials, policy, r.value)
  {
    hide Shaped, AllLive, LivePrints, Decides, Dimensions, Keyed;
    if !DistinctIds(trials) { return None; }
    var expanded := Dimensions(trials, policy);
    var prints, keyed := LiveFingerprints(trials, expanded);
    if prints.None? { return None; }
    LivePrintsAreArchived(trials, policy);
    ArchivedPrintsAreShaped(trials, expanded);
    var d := LiveDecision(prints.value, expanded, policy);
    return Some(Analysis(d.quality, d.compatible, policy, keyed));
  }

  // ---- The frozen archive validator ---------------------------------------------------------

  /** The retained analysis is the one decision that the archived fingerprints admit. */
  ghost predicate ArchiveAccepts<I(!new)>(c: Analysis<I>, selected: seq<Subject<I>>) {
    var expanded := Dimensions(selected, c.policy);
    && AllArchived(selected, expanded) && Shaped(ArchivedPrints(selected, expanded), expanded)
    && c.fingerprints == Keyed(selected, ArchivedPrints(selected, expanded))
    && Decides(ArchivedPrints(selected, expanded), expanded, c.policy, Decision(c.quality, c.compatible))
  }

  /** One test of all intents, then one of all allocations. */
  method ArchivedVarying(prints: seq<Fingerprint>, expanded: set<string>, policy: ComparisonPolicy)
    returns (varying: set<string>, compatible: bool)
    requires Shaped(prints, expanded)
    ensures forall name :: name in varying <==> MayVary(prints, expanded, policy, name)
    ensures compatible == (prints != [] && !Conflict(prints, expanded))
  {
    varying, compatible := policy.varying, prints != [];
    if prints != [] && forall i :: 0 <= i < |prints| ==>
         prints[i]["rate_intent"].AggregateBasis? && prints[i]["rate_intent"] == prints[0]["rate_intent"] {
      var target := prints[0]["rate_intent"].target;
      var i := 0;
      while i < |prints| && Allocated(prints[i], target)
        invariant 0 <= i <= |prints| && forall j :: 0 <= j < i ==> Allocated(prints[j], target)
      {
        i := i + 1;
      }
      var agreed := i == |prints|;
      compatible := compatible && agreed;
      if agreed { varying := varying + {"rate"}; }
    }
  }

  /** The first missing value ends one pass, the first difference from the first value the other. */
  method ArchivedScan(prints: seq<Fingerprint>, expanded: set<string>, name: string) returns (missing: bool, differs: bool)
    requires Shaped(prints, expanded) && name in COMPARISON_FIELDS + expanded && prints != []
    ensures missing <==> MissingField(prints, expanded, name)
    ensures differs <==> DiffersOn(prints, expanded, name)
  {
    var i := 0;
    while i < |prints| && !Lacking(prints[i][name], name, expanded)
      invariant 0 <= i <= |prints| && forall j :: 0 <= j < i ==> !Lacking(prints[j][name], name, expanded)
    {
      i := i + 1;
    }
    missing := i < |prints|;
    i := 1;
    while i < |prints| && Equal(prints[i][name], prints[0][name])
      invariant 1 <= i <= |prints| && forall j :: 0 <= j < i ==> Equal(prints[j][name], prints[0][name])
    {
      i := i + 1;
    }
    differs := i < |prints|;
  }

  /** Two flags over the fields of the first fingerprint. */
  method ArchivedDecision(prints: seq<Fingerprint>, expanded: set<string>, policy: ComparisonPolicy) returns (d: Decision)
    requires Shaped(prints, expanded)
    ensures Decides(prints, expanded, policy, d)
  {
    var left := if prints == [] then {} else prints[0].Keys;
    FieldsOfFirst(prints, expanded);
    hide Shaped, MissingField, DiffersOn, MayVary, AnyBlocks, AnyExcused, Decides, SharedTarget, AllAllocated;
    var varying, compatible := ArchivedVarying(prints, expanded, policy);
    var partial := false;
    ghost var early, done: set<string> := !compatible, {};
    NothingSeen(prints, expanded, policy);
    while left != {}
      invariant left !! done && (prints != [] ==> left + done == COMPARISON_FIELDS + expanded) && (prints == [] ==> left == {})
      invariant left + done <= COMPARISON_FIELDS + expanded
      invariant compatible <==> !early && !AnyBlocks(prints, expanded, policy, done)
      invariant compatible ==> (partial <==> AnyExcused(prints, expanded, policy, done))
    {
      var name :| name in left;
      var missing, differs := ArchivedScan(prints, expanded, name);
      OneMoreField(prints, expanded, policy, done, name);
      if missing {
        compatible := false;
      } else if differs && name !in varying {
        if name in policy.allowed { partial := true; } else { compatible := false; }
      }
      left, done := left - {name}, done + {name};
    }
    d := Decision(if !compatible then InsufficientData else if partial then Partial else Complete, compatible);
    if prints != [] { assert done == COMPARISON_FIELDS + expanded; }
    AllFieldsSeen(prints, expanded, policy, early, d);
  }

  lemma FieldsOfFirst(prints: seq<Fingerprint>, expanded: set<string>)
    requires Shaped(prints, expanded)
    ensures prints != [] ==> prints[0].Keys == COMPARISON_FIELDS + expanded
  {}

  method ArchivedFingerprints<I>(selected: seq<Subject<I>>, expanded: set<string>)
    returns (prints: Option<seq<Fingerprint>>, keyed: map<I, Fingerprint>)
    ensures prints.Some? <==> AllArchived(selected, expanded)
    ensures prints.Some? ==> prints.value == ArchivedPrints(selected, expanded) && keyed == Keyed(selected, prints.value)
  {
    hide ArchivedFingerprint;
    var done: seq<Fingerprint> := [];
    keyed := map[];
    for i := 0 to |selected|
      invariant AllArchived(selected[..i], expanded) && done == ArchivedPrints(selected[..i], expanded)
      invariant keyed == Keyed(selected[..i], done)
    {
      assert selected[..i + 1][..i] == selected[..i] && selected[..i + 1][i] == selected[i];
      var f := ArchivedFingerprint(selected[i].evidence, expanded);
      if f.None? { return None, keyed; }
      assert (done + [f.value])[..i] == done;
      done, keyed := done + [f.value], keyed[selected[i].id := f.value];
    }
    assert selected[..|selected|] == selected;
    return Some(done), keyed;
  }

  /** `_validate_compatibility_v1`: recompute the fingerprints and the decision, and compare both. */
  method ValidateCompatibilityV1<I(==, !new)>(c: Analysis<I>, selected: seq<Subject<I>>) returns (ok: bool)
    ensures ok <==> ArchiveAccepts(c, selected)
  {
    hide Shaped, AllArchived, ArchivedPrints, Decides, Dimensions, Keyed;
    var expanded := Dimensions(selected, c.policy);
    var prints, keyed := ArchivedFingerprints(selected, expanded);
    if prints.None? || keyed != c.fingerprints { return false; }
    ArchivedPrintsAreShaped(selected, expanded);
    var d := ArchivedDecision(prints.value, expanded, c.policy);
    ok := d == Decision(c.quality, c.compatible);
    if Decides(prints.value, expanded, c.policy, Decision(c.quality, c.compatible)) {
      DecisionIsUnique(prints.value, expanded, c.policy, d, Decision(c.quality, c.compatible));
    }
  }

  // ---- Agreement ----------------------------------------------------------------------------

  /** Of the analyses under one policy, the archive accepts the live one and no other. */
  lemma ArchiveAcceptsLiveOnly<I(!new)>(trials: seq<Subject<I>>, policy: ComparisonPolicy, live: Analysis<I>, c: Analysis<I>)
    requires LiveAnalysis(trials, policy, live) && c.policy == policy
    ensures ArchiveAccepts(c, trials) <==> c == live
  {
    hide Shaped, AllLive, AllArchived, LivePrints, ArchivedPrints, Decides, Dimensions, Keyed;
    LivePrintsAreArchived(trials, policy);
    if ArchiveAccepts(c, trials) {
      DecisionIsUnique(LivePrints(trials, Dimensions(trials, policy)), Dimensions(trials, policy), policy,
                       Decision(c.quality, c.compatible), Decision(live.quality, live.compatible));
    }
  }

  /** Of the trials the archive can read, the live analysis reads exactly those on which the archive is not lenient. */
  lemma LiveReadsUnlessLenient<I>(xs: seq<Subject<I>>, policy: ComparisonPolicy)
    requires AllArchived(xs, Dimensions(xs, policy))
    ensures AllLive(xs, Dimensions(xs, policy))
      <==> forall i, name :: 0 <= i < |xs| && name in COMPARISON_FIELDS ==> !Lenient(xs[i].evidence, name)
  {
    hide ArchivedFingerprint, LiveFingerprint, Lenient, Dimensions;
    var expanded := Dimensions(xs, policy);
    forall i | 0 <= i < |xs|
      ensures LiveFingerprint(xs[i].evidence, expanded).None?
        <==> exists name :: name in COMPARISON_FIELDS && Lenient(xs[i].evidence, name)
    {
      assert ArchivedFingerprint(xs[i].evidence, expanded).Some?;
      ArchiveAcceptsMore(xs[i].evidence, expanded);
    }
  }

  /** On trials that the live analysis does not refuse, the archive confirms what it says. */
  method LiveMatchesArchive<I(==, !new)>(trials: seq<Subject<I>>, policy: ComparisonPolicy)
    returns (live: Option<Analysis<I>>, confirmed: bool)
    ensures live.None? <==> LiveRefuses(trials, policy)
    ensures live.Some? ==> confirmed && LiveAnalysis(trials, policy, live.value)
  {
    hide LiveAnalysis, ArchiveAccepts, LiveRefuses;
    live := CheckCompatibility(trials, policy);
    if live.None? { return live, false; }
    AnalysisKeepsPolicy(trials, policy, live.value);
    ArchiveAcceptsLiveOnly(trials, policy, live.value, live.value);
    confirmed := ValidateCompatibilityV1(live.value, trials);
  }

  lemma AnalysisKeepsPolicy<I(!new)>(trials: seq<Subject<I>>, policy: ComparisonPolicy, c: Analysis<I>)
    requires LiveAnalysis(trials, policy, c)
    ensures c.policy == policy
  {}

  /** A result the archive can read and the live analysis refuses: a protocol it does not know. */
  lemma ArchiveReadsUnknownProtocol()
    ensures exists x: Provenance :: LiveFingerprint(x, {}).None? && ArchivedFingerprint(x, {}).Some?
  {
    hide ArchivedFingerprint, LiveFingerprint;
    var x := Provenance(Str(Ascii("quic")), None, Null);
    UnknownProtocol(x);
  }

  lemma UnknownProtocol(x: Provenance)
    requires x == Provenance(Str(Ascii("quic")), None, Null)
    ensures LiveFingerprint(x, {}).None? && ArchivedFingerprint(x, {}).Some?
  {
    hide ArchivedIntent, LiveIntent, ProtocolKnown, Range, Ascii;
    QuicIsUnknown();
    assert LiveEntry(x, "protocol").None? && "protocol" in COMPARISON_FIELDS + {};
    NoExtension();
    forall name | name in COMPARISON_FIELDS ensures ArchivedEntry(x, name).Some? {}
  }

  lemma NoExtension()
    ensures ArchivedIntent(Null) == Some(NativeBasis)
  {}

  lemma QuicIsUnknown()
    ensures !ProtocolKnown(Str(Ascii("quic")))
  {
    assert Ascii("quic")[0] == 'q' as int && Ascii("sctp")[0] == 's' as int;
  }
}
