/** Rate intent and admission estimates (`intent.py`). */
module Intent {
  import opened Options

  const MAX_RATE := 0xFFFF_FFFF_FFFF_FFFF
  const DEFAULT_UDP_RATE := 1024 * 1024

  datatype Protocol = Tcp | Udp | Sctp

  /** Streams per direction, as a validated client configuration bounds them. */
  type Streams = p: int | 1 <= p <= 128 witness 1

  datatype Config = Config(
    protocol: Protocol, rate: Option<nat>, parallel: Streams, bidirectional: bool, reverse: bool,
    duration: nat, omit: nat)

  datatype RateIntent = PerStream(bps: nat) | Aggregate(target: nat)

  datatype ResolvedRate = ResolvedRate(
    nativePerStream: Option<nat>, perDirection: Option<nat>, allDirections: Option<nat>, unused: Option<nat>)

  datatype RateError = BothSpecified | BelowStreamCount

  function Directions(c: Config): nat { if c.bidirectional then 2 else 1 }

  /** The native per-stream rate before the totals are formed; `None` inside is the native default. */
  function NativeRate(c: Config, intent: Option<RateIntent>): (r: Result<Option<nat>, RateError>) {
    match intent
    case Some(Aggregate(target)) =>
      if c.rate.Some? then Err(BothSpecified)
      else if target / c.parallel == 0 then Err(BelowStreamCount)
      else Ok(Some(target / c.parallel))
    case Some(PerStream(bps)) => if c.rate.Some? then Err(BothSpecified) else Ok(Some(bps))
    case None => if c.rate.Some? then Ok(c.rate) else Ok(if c.protocol == Udp then Some(DEFAULT_UDP_RATE) else None)
  }

  /** Uniform native allocation. Zero and absent rates are unlimited and have no known totals. */
  function ResolveRate(c: Config, intent: Option<RateIntent>): (r: Result<ResolvedRate, RateError>) {
    match NativeRate(c, intent)
    case Err(e) => Err(e)
    case Ok(native) =>
      if native.None? || native.value == 0 then Ok(ResolvedRate(native, None, None, None))
      else
        var perDirection := native.value * c.parallel;
        var remainder := if intent.Some? && intent.value.Aggregate? then intent.value.target % c.parallel else 0;
        Ok(ResolvedRate(native, Some(perDirection), Some(perDirection * Directions(c)), Some(remainder)))
  }

  /** An aggregate intent is conserved: what is allocated plus what is unused is the target, per direction. */
  lemma AggregateIsConserved(c: Config, target: nat)
    requires c.rate.None?
    ensures ResolveRate(c, Some(Aggregate(target))).Ok? <==> target >= c.parallel
    ensures target >= c.parallel ==>
      var r := ResolveRate(c, Some(Aggregate(target))).value;
      && r.perDirection.Some? && r.unused.Some? && r.nativePerStream.Some?
      && r.perDirection.value + r.unused.value == target
      && r.unused.value < c.parallel
      && r.allDirections == Some(r.perDirection.value * Directions(c))
      && r.nativePerStream.value > 0
  {
    QuotientIsPositive(target, c.parallel);
  }

  lemma QuotientIsPositive(target: nat, parallel: Streams)
    ensures target / parallel * parallel + target % parallel == target
    ensures target / parallel == 0 <==> target < parallel
  {}

  /** Active seconds and target payload bits of one finite run, both traffic directions counted. */
  function ActiveSeconds(c: Config): nat { c.duration + c.omit }

  function PayloadBits(c: Config, intent: Option<RateIntent>): Option<nat> {
    match ResolveRate(c, intent)
    case Ok(r) => if r.allDirections.Some? then Some(r.allDirections.value * ActiveSeconds(c)) else None
    case Err(_) => None
  }

  /** A known native rate is the rate of every stream; the payload counts all streams, directions and seconds. */
  lemma RatesMean(c: Config, intent: Option<RateIntent>)
    requires ResolveRate(c, intent).Ok?
    ensures var r := ResolveRate(c, intent).value;
      && (intent.Some? ==> c.rate.None?)
      && (intent.Some? && intent.value.PerStream? ==> r.nativePerStream == Some(intent.value.bps))
      && (intent.None? && c.rate.Some? ==> r.nativePerStream == c.rate)
      && (intent.None? && c.rate.None? && c.protocol == Udp ==> r.nativePerStream == Some(1048576))
      && (intent.None? && c.rate.None? && c.protocol != Udp ==> r.nativePerStream == None)
      && (r.perDirection.Some? <==> r.nativePerStream.Some? && r.nativePerStream.value > 0)
      && (r.perDirection.Some? ==> r.perDirection.value == r.nativePerStream.value * c.parallel)
      && (r.allDirections.Some? <==> r.perDirection.Some?)
      && (r.allDirections.Some? ==>
            r.allDirections.value == if c.bidirectional then r.perDirection.value + r.perDirection.value else r.perDirection.value)
    ensures var r := ResolveRate(c, intent).value;
      PayloadBits(c, intent) ==
        if r.allDirections.None? then None else Some(r.allDirections.value * c.duration + r.allDirections.value * c.omit)
  {
    var r := ResolveRate(c, intent).value;
    if r.allDirections.Some? {
      Distributes(r.allDirections.value, c.duration, c.omit);
      Twice(r.perDirection.value);
    }
  }

  lemma Distributes(a: nat, b: nat, c: nat)
    ensures a * (b + c) == a * b + a * c
  {}

  lemma Twice(a: nat)
    ensures a * 2 == a + a && a * 1 == a
  {}
}
