/**
 The fingerprint of one result, derived twice: by the live analysis (`_fingerprint`, `_effective` and `_rate_intent`
 of `analysis.py`) and by the frozen archive validator (`_fingerprint_v1` of `reports.py`). Either may refuse a result
 as malformed; the advanced settings are read by one function that both call.
 */
module Fingerprints {
  import opened Options
  import opened JsonFrames
  import opened PlanOutcomes

  const MAX_UINT64 := 0xFFFF_FFFF_FFFF_FFFF
  const MAX_INT32 := 0x7FFF_FFFF

  datatype State = Verified | Unavailable | Unsupported_ | UnknownState

  /** Whether the pointers of a setting lead to a non-null receipt, or are not valid pointers at all. */
  datatype Evidence = Observed | Unobserved | BadPointers

  datatype Setting = Setting(state: State, evidence: Evidence, value: Json)

  datatype Execution = Execution(
    status: NativeStatus, method_: Json, nativeVersion: Json, systemInfo: Json,
    requested: Option<map<string, Json>>, effective: map<string, Setting>)

  /** What a fingerprint is derived from; `intent` is the rate-intent extension, null when absent. */
  datatype Provenance = Provenance(protocol: Json, execution: Option<Execution>, intent: Json)

  /** A fingerprint entry: a plain value (null for missing evidence) or one of the two rate bases. */
  datatype Value = Plain(value: Json) | NativeBasis | AggregateBasis(target: nat)

  type Fingerprint = map<string, Value>

  /** `allowed` names the differences that carry a retained reason. */
  datatype ComparisonPolicy = ComparisonPolicy(varying: set<string>, allowed: set<string>)

  // ---- Fields -------------------------------------------------------------------------------

  const COMPARISON_FIELDS: set<string> :=
    {"protocol", "method", "native_version", "native_system_info", "server", "port", "duration", "omit", "parallel",
     "rate", "blksize", "tos", "rate_intent"}

  /** The settings that every result is compared on, with their observed ranges; the server is a name. */
  predicate IsSetting(name: string) { name == "server" || Range(name).Some? }

  function Range(name: string): Option<(int, int)> {
    if name == "port" then Some((1, 65535))
    else if name == "duration" then Some((0, 86400))
    else if name == "omit" then Some((0, 600))
    else if name == "parallel" then Some((1, 128))
    else if name == "rate" then Some((0, MAX_UINT64))
    else if name == "blksize" then Some((0, 1024 * 1024))
    else if name == "tos" then Some((0, 255))
    else None
  }

  predicate IsFlag(name: string) {
    name in {"mptcp", "json_stream", "no_delay", "zerocopy", "skip_rx_copy", "udp_counters_64bit", "dont_fragment",
             "repeating_payload", "get_server_output", "gsro", "use_pkcs1_padding"}
  }

  predicate IsName(name: string) {
    name in {"bind_address", "bind_device", "congestion_control", "payload_file", "title", "extra_data", "username",
             "rsa_public_key_path"}
  }

  function AdvancedRange(name: string): Option<(int, int)> {
    if name in {"client_port", "mss", "sctp_streams"} then Some((0, 65535))
    else if name in {"socket_buffer_bytes", "pacing_timer_us"} then Some((0, MAX_INT32))
    else if name == "connect_timeout_ms" then Some((-1, MAX_INT32))
    else if name in {"bytes_to_send", "blocks_to_send", "fq_rate_bps"} then Some((0, MAX_UINT64))
    else if name == "burst_packets" then Some((0, 1000))
    else if name == "flow_label" then Some((0, 0xFFFFF))
    else if name in {"affinity", "server_affinity"} then Some((-1, 1024))
    else if name in {"receive_timeout_ms", "send_timeout_ms"} then Some((0, 86400000))
    else None
  }

  /** The frozen defaults of the advanced settings; a name without one is not an advanced setting. */
  function AdvancedDefault(name: string): Option<Json> {
    if IsFlag(name) then Some(Bool(false))
    else if name == "address_family" then Some(Str(Ascii("auto")))
    else if name == "sctp_bind_addresses" then Some(Arr([]))
    else if IsName(name) || name in {"interval_seconds", "control_keepalive"} || AdvancedRange(name).Some? then Some(Null)
    else None
  }

  /** The advanced settings a comparison has to look at: those the policy names or some trial requested. */
  function Expanded(xs: seq<Provenance>, policy: ComparisonPolicy): (names: set<string>)
    ensures forall name :: name in names ==> AdvancedDefault(name).Some?
  {
    if xs == [] then set name | name in policy.varying + policy.allowed && AdvancedDefault(name).Some?
    else Expanded(xs[..|xs| - 1], policy) + Requested(xs[|xs| - 1])
  }

  function Requested(x: Provenance): (names: set<string>)
    ensures forall name :: name in names ==> AdvancedDefault(name).Some?
  {
    if x.execution.None? || x.execution.value.requested.None? then {}
    else
      var requested := x.execution.value.requested.value;
      set name | name in requested && AdvancedDefault(name).Some? && requested[name] != AdvancedDefault(name).value
  }

  // ---- Advanced settings, read by one function ----------------------------------------------

  predicate CleanName(v: Json) { v.Str? && NonBlank(v.text) && 0 !in v.text }

  predicate SecondsOk(v: Json) {
    || (v.Int? && (v.n == 0 || 1 <= v.n <= 60))
    || (v.Float? && v.finite && (v.value == 0.0 || 0.1 <= v.value <= 60.0))
  }

  predicate KeepaliveOk(v: Json) {
    v.Arr? && |v.items| == 3 && forall i :: 0 <= i < 3 ==> v.items[i].Int? && 0 <= v.items[i].n <= MAX_INT32
  }

  predicate AdvancedOk(name: string, v: Json) {
    if IsFlag(name) then v.Bool?
    else if IsName(name) then CleanName(v)
    else if name == "address_family" then v in {Str(Ascii("auto")), Str(Ascii("ipv4")), Str(Ascii("ipv6"))}
    else if name == "interval_seconds" then SecondsOk(v)
    else if name == "sctp_bind_addresses" then v.Arr? && forall i :: 0 <= i < |v.items| ==> CleanName(v.items[i])
    else if name == "control_keepalive" then KeepaliveOk(v)
    else
      var range := AdvancedRange(name);
      range.Some? && v.Int? && range.value.0 <= v.n <= range.value.1
  }

  /** `_expanded_effective_v1`: null for missing evidence, `None` for a refusal. */
  function AdvancedEffective(x: Provenance, name: string): Option<Json> {
    if x.execution.None? || name !in x.execution.value.effective then Some(Null)
    else
      var setting := x.execution.value.effective[name];
      if setting.state == UnknownState then None
      else if setting.state != Verified then Some(Null)
      else match setting.evidence
        case BadPointers => None
        case Unobserved => Some(Null)
        case Observed =>
          if setting.value == Null then Some(Null)
          else if AdvancedOk(name, setting.value) then Some(setting.value)
          else None
  }

  // ---- The live derivation ------------------------------------------------------------------

  predicate ProtocolKnown(v: Json) { v in {Str(Ascii("tcp")), Str(Ascii("udp")), Str(Ascii("sctp")), Null} }

  predicate MethodKnown(v: Json) {
    v in {Str(Ascii("forward")), Str(Ascii("reverse")), Str(Ascii("bidirectional")), Str(Ascii("unknown"))}
  }

  predicate NameOrNull(v: Json) { v == Null || (v.Str? && NonBlank(v.text)) }

  const SCHEMA_VERSION := Ascii("schema_version")
  const RESOLUTION := Ascii("resolution")
  const INTENT := Ascii("intent")
  const SOURCE := Ascii("source")
  const AGGREGATE := Ascii("aggregate")
  const TARGET_KEY := Ascii("aggregate_bps_per_direction")

  function Member(v: Json, key: Text): Json {
    if v.Obj? && Get(v.fields, key).Some? then Get(v.fields, key).value else Null
  }

  predicate SourceKnown(v: Json) {
    v in {Str(Ascii("legacy")), Str(Ascii("per_stream")), Str(AGGREGATE), Str(Ascii("protocol_default"))}
  }

  /** `_count`: an integer, not negative. */
  function Count(v: Json): Option<nat> { if v.Int? && v.n >= 0 then Some(v.n) else None }

  /** `_rate_intent`. */
  function LiveIntent(extension: Json): Option<Value> {
    if extension == Null then Some(NativeBasis)
    else if !extension.Obj? || Member(extension, SCHEMA_VERSION) != Int(1) then None
    else
      var resolution, intent := Member(extension, RESOLUTION), Member(extension, INTENT);
      if !resolution.Obj? || !SourceKnown(Member(resolution, SOURCE)) then None
      else if Member(resolution, SOURCE) != Str(AGGREGATE) then Some(NativeBasis)
      else if !intent.Obj? then None
      else match Count(Member(intent, TARGET_KEY))
        case None => None
        case Some(target) => if 1 <= target <= MAX_UINT64 then Some(AggregateBasis(target)) else None
  }

  /** `_effective`: an unknown state is refused, and so is a verified, observed setting without a value. */
  function LiveEffective(x: Provenance, name: string): Option<Json> {
    if x.execution.None? || name !in x.execution.value.effective then Some(Null)
    else
      var setting := x.execution.value.effective[name];
      if setting.state == UnknownState then None
      else if setting.state != Verified then Some(Null)
      else match setting.evidence
        case BadPointers => None
        case Unobserved => Some(Null)
        case Observed =>
          if name == "server" then
            if setting.value.Str? && NonBlank(setting.value.text) then Some(setting.value) else None
          else match Count(setting.value)
            case None => None
            case Some(n) =>
              if Range(name).Some? && Range(name).value.0 <= n <= Range(name).value.1 then Some(Int(n)) else None
  }

  function AsPlain(v: Option<Json>): Option<Value> { if v.Some? then Some(Plain(v.value)) else None }

  /** One entry of the live fingerprint, or a refusal of the whole result. */
  function LiveEntry(x: Provenance, name: string): Option<Value> {
    if name == "protocol" then if ProtocolKnown(x.protocol) then Some(Plain(x.protocol)) else None
    else if name == "rate_intent" then LiveIntent(x.intent)
    else if IsSetting(name) then AsPlain(LiveEffective(x, name))
    else if AdvancedDefault(name).Some? then AsPlain(AdvancedEffective(x, name))
    else match x.execution
      case None => Some(Plain(Null))
      case Some(e) =>
        if name == "method" then if MethodKnown(e.method_) then Some(Plain(e.method_)) else None
        else if name == "native_version" then if NameOrNull(e.nativeVersion) then Some(Plain(e.nativeVersion)) else None
        else if NameOrNull(e.systemInfo) then Some(Plain(e.systemInfo)) else None
  }

  /** `_fingerprint`. */
  function LiveFingerprint(x: Provenance, expanded: set<string>): Option<Fingerprint> {
    if forall name :: name in COMPARISON_FIELDS + expanded ==> LiveEntry(x, name).Some?
    then Some(map name | name in COMPARISON_FIELDS + expanded :: LiveEntry(x, name).value)
    else None
  }

  // ---- The archived derivation --------------------------------------------------------------

  /** The retained extension, read with one test for the target. */
  function ArchivedIntent(extension: Json): Option<Value> {
    if extension == Null then Some(NativeBasis)
    else if !extension.Obj? || Member(extension, SCHEMA_VERSION) != Int(1) then None
    else if !Member(extension, RESOLUTION).Obj? || !SourceKnown(Member(Member(extension, RESOLUTION), SOURCE)) then None
    else if Member(Member(extension, RESOLUTION), SOURCE) != Str(AGGREGATE) then Some(NativeBasis)
    else
      var target := Member(Member(extension, INTENT), TARGET_KEY);
      if target.Int? && 1 <= target.n <= MAX_UINT64 then Some(AggregateBasis(target.n)) else None
  }

  /** Whatever is not verified by an observed receipt is missing; only a value that is there is judged. */
  function ArchivedEffective(x: Provenance, name: string): Option<Json> {
    var setting := if x.execution.Some? && name in x.execution.value.effective
      then Some(x.execution.value.effective[name]) else None;
    if setting.None? || setting.value.state != Verified then Some(Null)
    else if setting.value.evidence == BadPointers then None
    else
      var value := if setting.value.evidence == Observed then setting.value.value else Null;
      if value == Null then Some(Null)
      else if name == "server" then if !value.Str? || !NonBlank(value.text) then None else Some(value)
      else if !value.Int? || Range(name).None? || !(Range(name).value.0 <= value.n <= Range(name).value.1) then None
      else Some(value)
  }

  /** Protocol and method are copied as retained. */
  function ArchivedEntry(x: Provenance, name: string): Option<Value> {
    if name == "protocol" then Some(Plain(x.protocol))
    else if name == "method" then Some(Plain(if x.execution.Some? then x.execution.value.method_ else Null))
    else if name == "native_version" then
      if x.execution.Some? && !NameOrNull(x.execution.value.nativeVersion) then None
      else Some(Plain(if x.execution.Some? then x.execution.value.nativeVersion else Null))
    else if name == "native_system_info" then
      if x.execution.Some? && !NameOrNull(x.execution.value.systemInfo) then None
      else Some(Plain(if x.execution.Some? then x.execution.value.systemInfo else Null))
    else if name == "rate_intent" then ArchivedIntent(x.intent)
    else if IsSetting(name) then AsPlain(ArchivedEffective(x, name))
    else AsPlain(AdvancedEffective(x, name))
  }

  /** `_fingerprint_v1`. */
  function ArchivedFingerprint(x: Provenance, expanded: set<string>): Option<Fingerprint> {
    if forall name :: name in COMPARISON_FIELDS + expanded ==> ArchivedEntry(x, name).Some?
    then Some(map name | name in COMPARISON_FIELDS + expanded :: ArchivedEntry(x, name).value)
    else None
  }

  // ---- How the two relate -------------------------------------------------------------------

  lemma IntentsAgree(extension: Json)
    ensures LiveIntent(extension) == ArchivedIntent(extension)
  {
    hide Get, Ascii, SourceKnown;
    var intent := Member(extension, INTENT);
    if !intent.Obj? { assert Member(intent, TARGET_KEY) == Null; }
  }

  /** A setting the live analysis refuses and the archive takes as missing. */
  predicate LenientSetting(x: Provenance, name: string) {
    && x.execution.Some? && name in x.execution.value.effective
    && var setting := x.execution.value.effective[name];
      setting.state == UnknownState || (setting.state == Verified && setting.evidence == Observed && setting.value == Null)
  }

  lemma SettingsAgree(x: Provenance, name: string)
    requires IsSetting(name)
    ensures if LenientSetting(x, name) then LiveEffective(x, name).None? && ArchivedEffective(x, name) == Some(Null)
            else LiveEffective(x, name) == ArchivedEffective(x, name)
  {
    hide NonBlank;
  }

  /** An unknown protocol or method, an unknown setting state, or a verified setting without a value. */
  predicate Lenient(x: Provenance, name: string) {
    || (name == "protocol" && !ProtocolKnown(x.protocol))
    || (name == "method" && x.execution.Some? && !MethodKnown(x.execution.value.method_))
    || (IsSetting(name) && LenientSetting(x, name))
  }

  predicate Compared(name: string) { name in COMPARISON_FIELDS || AdvancedDefault(name).Some? }

  /** Entry by entry, the two agree except where the archive is lenient; there the live analysis refuses. */
  lemma EntriesAgree(x: Provenance, name: string)
    requires Compared(name)
    ensures if Lenient(x, name) then LiveEntry(x, name).None? && ArchivedEntry(x, name).Some?
            else LiveEntry(x, name) == ArchivedEntry(x, name)
  {
    hide LiveIntent, ArchivedIntent, LiveEffective, ArchivedEffective, AdvancedEffective, NameOrNull, LenientSetting,
      ProtocolKnown, MethodKnown, AdvancedDefault;
    IntentsAgree(x.intent);
    if IsSetting(name) {
      SettingsAgree(x, name);
    } else {
      AdvancedStandsApart(name);
    }
  }

  lemma AdvancedStandsApart(name: string)
    ensures AdvancedDefault(name).Some? ==> name !in COMPARISON_FIELDS
  {
    hide Ascii, IsFlag, IsName, AdvancedRange;
    if name in COMPARISON_FIELDS { ComparedIsBasic(name); }
  }

  lemma ComparedIsBasic(name: string)
    requires name in COMPARISON_FIELDS
    ensures !IsFlag(name) && !IsName(name) && AdvancedRange(name).None?
  {
    hide IsFlag, IsName, AdvancedRange;
    assert !IsFlag(name) by { ComparedIsNoFlag(name); }
    assert !IsName(name) by { ComparedIsNoName(name); }
    assert AdvancedRange(name).None? by { ComparedHasNoRange(name); }
  }

  lemma ComparedIsNoFlag(name: string)
    requires name in COMPARISON_FIELDS
    ensures !IsFlag(name)
  {}

  lemma ComparedIsNoName(name: string)
    requires name in COMPARISON_FIELDS
    ensures !IsName(name)
  {}

  lemma ComparedHasNoRange(name: string)
    requires name in COMPARISON_FIELDS
    ensures AdvancedRange(name).None?
  {}

  /** Whatever the live analysis accepts, the archive accepts with the same fingerprint. */
  lemma LiveIsArchived(x: Provenance, expanded: set<string>)
    requires forall name :: name in expanded ==> AdvancedDefault(name).Some?
    requires LiveFingerprint(x, expanded).Some?
    ensures ArchivedFingerprint(x, expanded) == LiveFingerprint(x, expanded)
  {
    hide LiveEntry, ArchivedEntry, AdvancedDefault, Lenient;
    forall name | name in COMPARISON_FIELDS + expanded ensures ArchivedEntry(x, name) == LiveEntry(x, name) {
      assert LiveEntry(x, name).Some?;
      EntriesAgree(x, name);
    }
    assert ArchivedFingerprint(x, expanded).Some?;
    var live, archived := LiveFingerprint(x, expanded).value, ArchivedFingerprint(x, expanded).value;
    assert live.Keys == archived.Keys;
    assert forall name :: name in live ==> live[name] == archived[name];
    assert live == archived;
  }

  /** The archive accepts what the live analysis refuses exactly where it is lenient. */
  lemma ArchiveAcceptsMore(x: Provenance, expanded: set<string>)
    requires forall name :: name in expanded ==> AdvancedDefault(name).Some?
    requires ArchivedFingerprint(x, expanded).Some?
    ensures LiveFingerprint(x, expanded).None? <==> exists name :: name in COMPARISON_FIELDS && Lenient(x, name)
  {
    hide LiveEntry, ArchivedEntry, AdvancedDefault, Lenient;
    forall name | name in COMPARISON_FIELDS + expanded ensures RefusedWhereLenient(x, name) {
      assert ArchivedEntry(x, name).Some?;
      EntriesAgree(x, name);
      OnlyBasicIsLenient(x, name);
    }
    if name :| name in COMPARISON_FIELDS && Lenient(x, name) { assert RefusedWhereLenient(x, name); }
    if LiveFingerprint(x, expanded).None? {
      var name :| name in COMPARISON_FIELDS + expanded && LiveEntry(x, name).None?;
      assert RefusedWhereLenient(x, name);
    }
  }

  predicate RefusedWhereLenient(x: Provenance, name: string) {
    && (Lenient(x, name) <==> LiveEntry(x, name).None?)
    && (Lenient(x, name) ==> name in COMPARISON_FIELDS)
  }

  lemma OnlyBasicIsLenient(x: Provenance, name: string)
    ensures Lenient(x, name) ==> name in COMPARISON_FIELDS
  {
    hide ProtocolKnown, MethodKnown, LenientSetting, Range;
    SettingIsCompared(name);
  }

  lemma SettingIsCompared(name: string)
    ensures IsSetting(name) ==> name in COMPARISON_FIELDS
  {}

  /** Every accepted fingerprint spans the compared fields and holds one of the two rate bases. */
  lemma FingerprintShape(x: Provenance, expanded: set<string>)
    requires ArchivedFingerprint(x, expanded).Some?
    ensures var f := ArchivedFingerprint(x, expanded).value;
      && f.Keys == COMPARISON_FIELDS + expanded
      && (f["rate_intent"] == NativeBasis || (f["rate_intent"].AggregateBasis? && f["rate_intent"].target >= 1))
  {
    hide ArchivedEntry;
    IntentEntry(x);
    assert "rate_intent" in COMPARISON_FIELDS;
  }

  lemma IntentEntry(x: Provenance)
    ensures var v := ArchivedEntry(x, "rate_intent");
      v.Some? ==> v.value == NativeBasis || (v.value.AggregateBasis? && v.value.target >= 1)
  {
    hide Member, SourceKnown, Ascii;
  }
}
