/**
 * The narrow back end: an SLF4J logger as the adapter sees it. The class
 * records every call made on it, in order, the way a mocked logger's
 * interaction log does, so that each adapter method can be specified by
 * the exact interactions it appends.
 */
module Slf4j {

  /** The five SLF4J severity channels. */
  datatype Channel = Error | Warn | Info | Debug | Trace

  /** SLF4J's integer constants for its levels (ERROR_INT … TRACE_INT). */
  function IntValue(c: Channel): int {
    match c
    case Error => 40
    case Warn => 30
    case Info => 20
    case Debug => 10
    case Trace => 0
  }

  /** The answers of the five `isXEnabled` predicates. */
  datatype Enablement = Enablement(error: bool, warn: bool, info: bool, debug: bool, trace: bool)
  {
    function IsEnabled(c: Channel): bool {
      match c
      case Error => error
      case Warn => warn
      case Info => info
      case Debug => debug
      case Trace => trace
    }
  }

  /** What an unstubbed mock answers: every predicate is false. */
  const NoneEnabled := Enablement(false, false, false, false, false)
  const AllEnabled := Enablement(true, true, true, true, true)

  /** A throwable, known only by its identity. */
  type ThrowableId = nat

  /** One call made on the SLF4J logger. */
  datatype Event =
    | Query(channel: Channel)                                          // isXEnabled()
    | Emit(channel: Channel, message: string)                          // x(msg)
    | EmitThrown(channel: Channel, message: string, thrown: ThrowableId) // x(msg, t)
    | NameQuery                                                        // getName()

  class Logger {
    const name: string
    const enabled: Enablement
    /** Every call made on this logger so far, oldest first. */
    var interactions: seq<Event>

    constructor (name: string, enabled: Enablement)
      ensures this.name == name && this.enabled == enabled
      ensures interactions == []
    {
      this.name := name;
      this.enabled := enabled;
      interactions := [];
    }

    method GetName() returns (n: string)
      modifies this
      ensures n == name
      ensures interactions == old(interactions) + [NameQuery]
    {
      n := name;
      interactions := interactions + [NameQuery];
    }

    method IsEnabled(c: Channel) returns (b: bool)
      modifies this
      ensures b == enabled.IsEnabled(c)
      ensures interactions == old(interactions) + [Query(c)]
    {
      b := enabled.IsEnabled(c);
      interactions := interactions + [Query(c)];
    }

    method Log(c: Channel, message: string)
      modifies this
      ensures interactions == old(interactions) + [Emit(c, message)]
    {
      interactions := interactions + [Emit(c, message)];
    }

    method LogThrown(c: Channel, message: string, thrown: ThrowableId)
      modifies this
      ensures interactions == old(interactions) + [EmitThrown(c, message, thrown)]
    {
      interactions := interactions + [EmitThrown(c, message, thrown)];
    }
  }
}
