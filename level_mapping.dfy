/**
 * The fixed table between the seven actionable java.util.logging levels and
 * the five SLF4J channels, and the reconstruction of a java.util.logging
 * level from the channels' enabled predicates.
 */
module LevelMapping {
  import Slf4j
  import Jul
  import opened Optional

  /**
   * The channel a level is checked and emitted on. CONFIG shares INFO's
   * channel and FINEST shares FINER's: the table is the threshold dispatch
   * on `Level.intValue()` at SEVERE, WARNING, CONFIG and FINE.
   */
  function ChannelOf(level: Jul.Actionable): (c: Slf4j.Channel)
    ensures c == Slf4j.Error <==> Jul.IntValue(level) >= Jul.IntValue(Jul.Severe)
    ensures c == Slf4j.Warn <==> Jul.IntValue(Jul.Warning) <= Jul.IntValue(level) < Jul.IntValue(Jul.Severe)
    ensures c == Slf4j.Info <==> Jul.IntValue(Jul.Config) <= Jul.IntValue(level) < Jul.IntValue(Jul.Warning)
    ensures c == Slf4j.Debug <==> Jul.IntValue(Jul.Fine) <= Jul.IntValue(level) < Jul.IntValue(Jul.Config)
    ensures c == Slf4j.Trace <==> Jul.IntValue(level) < Jul.IntValue(Jul.Fine)
  {
    match level
    case Severe => Slf4j.Error
    case Warning => Slf4j.Warn
    case Info => Slf4j.Info
    case Config => Slf4j.Info
    case Fine => Slf4j.Debug
    case Finer => Slf4j.Trace
    case Finest => Slf4j.Trace
  }

  /** The table preserves severity: a more severe level never gets a less severe channel. */
  lemma ChannelOfMonotone(a: Jul.Actionable, b: Jul.Actionable)
    requires Jul.IntValue(a) >= Jul.IntValue(b)
    ensures Slf4j.IntValue(ChannelOf(a)) >= Slf4j.IntValue(ChannelOf(b))
  {
  }

  /** Exactly two pairs of levels collapse onto one channel: INFO/CONFIG and FINER/FINEST. */
  lemma ChannelOfCollapses(a: Jul.Actionable, b: Jul.Actionable)
    ensures ChannelOf(a) == ChannelOf(b) <==>
      a == b || {a, b} == {Jul.Info, Jul.Config} || {a, b} == {Jul.Finer, Jul.Finest}
  {
  }

  /** The level `getLevel` reports for a channel: CONFIG for info, FINEST for trace. */
  function CanonicalLevel(c: Slf4j.Channel): (l: Jul.Actionable)
    ensures ChannelOf(l) == c
    ensures l != Jul.Info && l != Jul.Finer
  {
    match c
    case Error => Jul.Severe
    case Warn => Jul.Warning
    case Info => Jul.Config
    case Debug => Jul.Fine
    case Trace => Jul.Finest
  }

  /** `isLoggable(level)`: the mapped channel's predicate; OFF never, ALL always. */
  function Loggable(en: Slf4j.Enablement, level: Jul.Level): (r: bool)
    ensures en == Slf4j.AllEnabled ==> (r <==> level != Jul.Off)
    ensures en == Slf4j.NoneEnabled ==> (r <==> level == Jul.All)
  {
    match level
    case Off => false
    case All => true
    case _ => en.IsEnabled(ChannelOf(level))
  }

  /** The order in which `getLevel` asks the channels: most severe first. */
  const ProbeOrder: seq<Slf4j.Channel> := [Slf4j.Error, Slf4j.Warn, Slf4j.Info, Slf4j.Debug, Slf4j.Trace]

  /** The first channel of `order` that is enabled, if any: every channel before it is disabled. */
  function FirstEnabled(en: Slf4j.Enablement, order: seq<Slf4j.Channel>): (r: Option<Slf4j.Channel>)
    ensures r.Some? ==> r.value in order && en.IsEnabled(r.value)
    ensures r.None? <==> forall i :: 0 <= i < |order| ==> !en.IsEnabled(order[i])
    ensures r.Some? ==>
      exists i :: 0 <= i < |order| && order[i] == r.value && (forall j :: 0 <= j < i ==> !en.IsEnabled(order[j]))
  {
    if order == [] then None
    else if en.IsEnabled(order[0]) then Some(order[0])
    else FirstEnabled(en, order[1..])
  }

  /** The queries `getLevel` makes: down `order` until the first enabled channel. */
  function Probes(en: Slf4j.Enablement, order: seq<Slf4j.Channel>): (qs: seq<Slf4j.Event>)
    ensures |qs| <= |order|
    ensures forall i :: 0 <= i < |qs| ==> qs[i] == Slf4j.Query(order[i])
  {
    if order == [] then []
    else if en.IsEnabled(order[0]) then [Slf4j.Query(order[0])]
    else [Slf4j.Query(order[0])] + Probes(en, order[1..])
  }

  /**
   * `getLevel()`: the canonical level of the first enabled channel asked,
   * from error down to trace, or OFF when none is enabled.
   */
  function EffectiveLevel(en: Slf4j.Enablement): (r: Jul.Level)
    ensures r == Jul.Off || (r.IsActionable() && en.IsEnabled(ChannelOf(r)) && CanonicalLevel(ChannelOf(r)) == r)
  {
    if en.error then Jul.Severe
    else if en.warn then Jul.Warning
    else if en.info then Jul.Config
    else if en.debug then Jul.Fine
    else if en.trace then Jul.Finest
    else Jul.Off
  }

  /** The tails of `ProbeOrder` the recursive searches pass through. */
  lemma ProbeOrderTails()
    ensures ProbeOrder[1..] == [Slf4j.Warn, Slf4j.Info, Slf4j.Debug, Slf4j.Trace]
    ensures ProbeOrder[1..][1..] == [Slf4j.Info, Slf4j.Debug, Slf4j.Trace]
    ensures ProbeOrder[1..][1..][1..] == [Slf4j.Debug, Slf4j.Trace]
    ensures ProbeOrder[1..][1..][1..][1..] == [Slf4j.Trace]
    ensures ProbeOrder[1..][1..][1..][1..][1..] == []
  {
  }

  /** Unfolds the search down `ProbeOrder` into one case per channel. */
  lemma FirstEnabledInProbeOrder(en: Slf4j.Enablement)
    ensures FirstEnabled(en, ProbeOrder) ==
      if en.error then Some(Slf4j.Error)
      else if en.warn then Some(Slf4j.Warn)
      else if en.info then Some(Slf4j.Info)
      else if en.debug then Some(Slf4j.Debug)
      else if en.trace then Some(Slf4j.Trace)
      else None
  {
    ProbeOrderTails();
    var o := ProbeOrder;
    assert FirstEnabled(en, o[1..][1..][1..][1..]) == if en.trace then Some(Slf4j.Trace) else None;
    assert FirstEnabled(en, o[1..][1..][1..]) ==
      if en.debug then Some(Slf4j.Debug) else FirstEnabled(en, o[1..][1..][1..][1..]);
    assert FirstEnabled(en, o[1..][1..]) ==
      if en.info then Some(Slf4j.Info) else FirstEnabled(en, o[1..][1..][1..]);
    assert FirstEnabled(en, o[1..]) == if en.warn then Some(Slf4j.Warn) else FirstEnabled(en, o[1..][1..]);
  }

  /** Unfolds the queries down `ProbeOrder` into one case per channel. */
  lemma ProbesInProbeOrder(en: Slf4j.Enablement)
    ensures Probes(en, ProbeOrder) ==
      if en.error then AllProbes()[..1]
      else if en.warn then AllProbes()[..2]
      else if en.info then AllProbes()[..3]
      else if en.debug then AllProbes()[..4]
      else AllProbes()
  {
    ProbeOrderTails();
    var o := ProbeOrder;
    assert Probes(en, o[1..][1..][1..][1..]) == [Slf4j.Query(Slf4j.Trace)];
    assert Probes(en, o[1..][1..][1..]) ==
      [Slf4j.Query(Slf4j.Debug)] + if en.debug then [] else Probes(en, o[1..][1..][1..][1..]);
    assert Probes(en, o[1..][1..]) ==
      [Slf4j.Query(Slf4j.Info)] + if en.info then [] else Probes(en, o[1..][1..][1..]);
    assert Probes(en, o[1..]) == [Slf4j.Query(Slf4j.Warn)] + if en.warn then [] else Probes(en, o[1..][1..]);
  }

  /** A query to every channel, in `ProbeOrder`. */
  function AllProbes(): seq<Slf4j.Event> {
    [Slf4j.Query(Slf4j.Error), Slf4j.Query(Slf4j.Warn), Slf4j.Query(Slf4j.Info),
     Slf4j.Query(Slf4j.Debug), Slf4j.Query(Slf4j.Trace)]
  }

  /**
   * The reconstruction agrees with its reference definition: the canonical
   * level of the first enabled channel in severity order.
   */
  lemma EffectiveLevelIsFirstEnabled(en: Slf4j.Enablement)
    ensures EffectiveLevel(en) ==
      match FirstEnabled(en, ProbeOrder)
      case Some(c) => CanonicalLevel(c)
      case None => Jul.Off
  {
    FirstEnabledInProbeOrder(en);
  }

  /** OFF is reported exactly when no channel is enabled. */
  lemma EffectiveLevelOff(en: Slf4j.Enablement)
    ensures EffectiveLevel(en) == Jul.Off <==> forall c: Slf4j.Channel :: !en.IsEnabled(c)
  {
  }

  /** With exactly one channel enabled, `getLevel` reports that channel's canonical level. */
  lemma EffectiveLevelSingle(en: Slf4j.Enablement, c: Slf4j.Channel)
    requires en.IsEnabled(c)
    requires forall d: Slf4j.Channel :: d != c ==> !en.IsEnabled(d)
    ensures EffectiveLevel(en) == CanonicalLevel(c)
  {
  }

  /**
   * The reported level is loggable, and its channel is the most severe
   * enabled one: any level whose channel is enabled maps to a channel no
   * more severe than the reported level's.
   */
  lemma EffectiveLevelMostSevere(en: Slf4j.Enablement, level: Jul.Actionable)
    requires en.IsEnabled(ChannelOf(level))
    ensures EffectiveLevel(en) != Jul.Off
    ensures Loggable(en, EffectiveLevel(en))
    ensures Slf4j.IntValue(ChannelOf(EffectiveLevel(en))) >= Slf4j.IntValue(ChannelOf(level))
  {
  }
}
