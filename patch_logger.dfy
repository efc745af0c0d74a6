/**
 * `PatchLogger`: a java.util.logging `Logger` surface whose every call is
 * routed to one wrapped SLF4J logger. Each method is specified by the
 * exact interactions it appends to the wrapped logger.
 */
module Bootstrap {
  import Slf4j
  import Jul
  import opened Optional
  import opened LevelMapping
  import opened MessageFormat

  class PatchLogger {
    const slf4jLogger: Slf4j.Logger

    /** Wrapping a logger makes no call on it. */
    constructor (slf4jLogger: Slf4j.Logger)
      ensures this.slf4jLogger == slf4jLogger
      ensures unchanged(slf4jLogger)
    {
      this.slf4jLogger := slf4jLogger;
    }

    /** `getName()`: asks the wrapped logger for its name. */
    method GetName() returns (name: string)
      modifies slf4jLogger
      ensures name == slf4jLogger.name
      ensures slf4jLogger.interactions == old(slf4jLogger.interactions) + [Slf4j.NameQuery]
    {
      name := slf4jLogger.GetName();
    }

    // One method per level: the literal message on the level's channel, unguarded.

    method Severe(msg: string)
      modifies slf4jLogger
      ensures slf4jLogger.interactions == old(slf4jLogger.interactions) + [Slf4j.Emit(Slf4j.Error, msg)]
    {
      slf4jLogger.Log(Slf4j.Error, msg);
    }

    method Warning(msg: string)
      modifies slf4jLogger
      ensures slf4jLogger.interactions == old(slf4jLogger.interactions) + [Slf4j.Emit(Slf4j.Warn, msg)]
    {
      slf4jLogger.Log(Slf4j.Warn, msg);
    }

    method Info(msg: string)
      modifies slf4jLogger
      ensures slf4jLogger.interactions == old(slf4jLogger.interactions) + [Slf4j.Emit(Slf4j.Info, msg)]
    {
      slf4jLogger.Log(Slf4j.Info, msg);
    }

    method Config(msg: string)
      modifies slf4jLogger
      ensures slf4jLogger.interactions == old(slf4jLogger.interactions) + [Slf4j.Emit(Slf4j.Info, msg)]
    {
      slf4jLogger.Log(Slf4j.Info, msg);
    }

    method Fine(msg: string)
      modifies slf4jLogger
      ensures slf4jLogger.interactions == old(slf4jLogger.interactions) + [Slf4j.Emit(Slf4j.Debug, msg)]
    {
      slf4jLogger.Log(Slf4j.Debug, msg);
    }

    method Finer(msg: string)
      modifies slf4jLogger
      ensures slf4jLogger.interactions == old(slf4jLogger.interactions) + [Slf4j.Emit(Slf4j.Trace, msg)]
    {
      slf4jLogger.Log(Slf4j.Trace, msg);
    }

    method Finest(msg: string)
      modifies slf4jLogger
      ensures slf4jLogger.interactions == old(slf4jLogger.interactions) + [Slf4j.Emit(Slf4j.Trace, msg)]
    {
      slf4jLogger.Log(Slf4j.Trace, msg);
    }

    // The `log` family.

    /** `log(level, msg)`: the literal message on the mapped channel, with no enabled-query. */
    method Log(level: Jul.Actionable, msg: string)
      modifies slf4jLogger
      ensures slf4jLogger.interactions == old(slf4jLogger.interactions) + [Slf4j.Emit(ChannelOf(level), msg)]
    {
      slf4jLogger.Log(ChannelOf(level), msg);
    }

    /**
     * `log(level, msg, params)`: asks the mapped channel whether it is
     * enabled and, only if it is, emits the template with its placeholders
     * replaced by the parameters.
     */
    method LogParams(level: Jul.Actionable, msg: string, params: seq<string>)
      modifies slf4jLogger
      ensures var c := ChannelOf(level);
        slf4jLogger.interactions == old(slf4jLogger.interactions) + [Slf4j.Query(c)] +
          (if slf4jLogger.enabled.IsEnabled(c) then [Slf4j.Emit(c, Format(msg, params))] else [])
    {
      var c := ChannelOf(level);
      var enabled := slf4jLogger.IsEnabled(c);
      if enabled {
        slf4jLogger.Log(c, Format(msg, params));
      }
    }

    /** `log(level, msg, param)`: as `LogParams` with the one parameter. */
    method LogParam(level: Jul.Actionable, msg: string, param: string)
      modifies slf4jLogger
      ensures var c := ChannelOf(level);
        slf4jLogger.interactions == old(slf4jLogger.interactions) + [Slf4j.Query(c)] +
          (if slf4jLogger.enabled.IsEnabled(c) then [Slf4j.Emit(c, Format(msg, [param]))] else [])
    {
      LogParams(level, msg, [param]);
    }

    /** `log(level, msg, thrown)`: message and throwable on the mapped channel, with no enabled-query. */
    method LogThrown(level: Jul.Actionable, msg: string, thrown: Slf4j.ThrowableId)
      modifies slf4jLogger
      ensures slf4jLogger.interactions ==
        old(slf4jLogger.interactions) + [Slf4j.EmitThrown(ChannelOf(level), msg, thrown)]
    {
      slf4jLogger.LogThrown(ChannelOf(level), msg, thrown);
    }

    // The `logp` family: the source class and method are accepted and ignored.

    method Logp(level: Jul.Actionable, sourceClass: Option<string>, sourceMethod: Option<string>, msg: string)
      modifies slf4jLogger
      ensures slf4jLogger.interactions == old(slf4jLogger.interactions) + [Slf4j.Emit(ChannelOf(level), msg)]
    {
      Log(level, msg);
    }

    method LogpParam(level: Jul.Actionable, sourceClass: Option<string>, sourceMethod: Option<string>,
                     msg: string, param: string)
      modifies slf4jLogger
      ensures var c := ChannelOf(level);
        slf4jLogger.interactions == old(slf4jLogger.interactions) + [Slf4j.Query(c)] +
          (if slf4jLogger.enabled.IsEnabled(c) then [Slf4j.Emit(c, Format(msg, [param]))] else [])
    {
      LogParams(level, msg, [param]);
    }

    method LogpParams(level: Jul.Actionable, sourceClass: Option<string>, sourceMethod: Option<string>,
                      msg: string, params: seq<string>)
      modifies slf4jLogger
      ensures var c := ChannelOf(level);
        slf4jLogger.interactions == old(slf4jLogger.interactions) + [Slf4j.Query(c)] +
          (if slf4jLogger.enabled.IsEnabled(c) then [Slf4j.Emit(c, Format(msg, params))] else [])
    {
      LogParams(level, msg, params);
    }

    method LogpThrown(level: Jul.Actionable, sourceClass: Option<string>, sourceMethod: Option<string>,
                      msg: string, thrown: Slf4j.ThrowableId)
      modifies slf4jLogger
      ensures slf4jLogger.interactions ==
        old(slf4jLogger.interactions) + [Slf4j.EmitThrown(ChannelOf(level), msg, thrown)]
    {
      LogThrown(level, msg, thrown);
    }

    // The `logrb` family: source class, source method and bundle are accepted and ignored.

    /**
     * `logrb(level, sourceClass, sourceMethod, bundleName, msg)`: the only
     * five-argument form. With a bundle object and no parameters the varargs
     * form applies, which is `LogrbParams` with no parameters.
     */
    method Logrb(level: Jul.Actionable, sourceClass: Option<string>, sourceMethod: Option<string>,
                 bundleName: Option<string>, msg: string)
      modifies slf4jLogger
      ensures slf4jLogger.interactions == old(slf4jLogger.interactions) + [Slf4j.Emit(ChannelOf(level), msg)]
    {
      Log(level, msg);
    }

    method LogrbParam(level: Jul.Actionable, sourceClass: Option<string>, sourceMethod: Option<string>,
                      bundle: Jul.Bundle, msg: string, param: string)
      modifies slf4jLogger
      ensures var c := ChannelOf(level);
        slf4jLogger.interactions == old(slf4jLogger.interactions) + [Slf4j.Query(c)] +
          (if slf4jLogger.enabled.IsEnabled(c) then [Slf4j.Emit(c, Format(msg, [param]))] else [])
    {
      LogParams(level, msg, [param]);
    }

    /** Both the parameter-array and the varargs forms, with a bundle name or a bundle object. */
    method LogrbParams(level: Jul.Actionable, sourceClass: Option<string>, sourceMethod: Option<string>,
                       bundle: Jul.Bundle, msg: string, params: seq<string>)
      modifies slf4jLogger
      ensures var c := ChannelOf(level);
        slf4jLogger.interactions == old(slf4jLogger.interactions) + [Slf4j.Query(c)] +
          (if slf4jLogger.enabled.IsEnabled(c) then [Slf4j.Emit(c, Format(msg, params))] else [])
    {
      LogParams(level, msg, params);
    }

    /** `logrb(level, bundle, msg, params...)`: the form without source class and method. */
    method LogrbBundleParams(level: Jul.Actionable, bundle: Option<Jul.BundleId>, msg: string, params: seq<string>)
      modifies slf4jLogger
      ensures var c := ChannelOf(level);
        slf4jLogger.interactions == old(slf4jLogger.interactions) + [Slf4j.Query(c)] +
          (if slf4jLogger.enabled.IsEnabled(c) then [Slf4j.Emit(c, Format(msg, params))] else [])
    {
      LogParams(level, msg, params);
    }

    /** With a bundle name or a bundle object. */
    method LogrbThrown(level: Jul.Actionable, sourceClass: Option<string>, sourceMethod: Option<string>,
                       bundle: Jul.Bundle, msg: string, thrown: Slf4j.ThrowableId)
      modifies slf4jLogger
      ensures slf4jLogger.interactions ==
        old(slf4jLogger.interactions) + [Slf4j.EmitThrown(ChannelOf(level), msg, thrown)]
    {
      LogThrown(level, msg, thrown);
    }

    // Level queries.

    /** `isLoggable(level)`: the mapped channel's predicate; OFF and ALL make no call. */
    method IsLoggable(level: Jul.Level) returns (b: bool)
      modifies slf4jLogger
      ensures b == Loggable(slf4jLogger.enabled, level)
      ensures slf4jLogger.interactions == old(slf4jLogger.interactions) +
        (if level.IsActionable() then [Slf4j.Query(ChannelOf(level))] else [])
    {
      match level {
        case Off => b := false;
        case All => b := true;
        case _ => b := slf4jLogger.IsEnabled(ChannelOf(level));
      }
    }

    /** `getLevel()`: asks the channels from error down and stops at the first enabled one. */
    method GetLevel() returns (level: Jul.Level)
      modifies slf4jLogger
      ensures level == EffectiveLevel(slf4jLogger.enabled)
      ensures slf4jLogger.interactions ==
        old(slf4jLogger.interactions) + Probes(slf4jLogger.enabled, ProbeOrder)
    {
      ghost var en, before := slf4jLogger.enabled, slf4jLogger.interactions;
      ProbesInProbeOrder(en);
      var enabled := slf4jLogger.IsEnabled(Slf4j.Error);
      if enabled {
        return Jul.Severe;
      }
      enabled := slf4jLogger.IsEnabled(Slf4j.Warn);
      assert slf4jLogger.interactions == before + AllProbes()[..2];
      if enabled {
        return Jul.Warning;
      }
      enabled := slf4jLogger.IsEnabled(Slf4j.Info);
      assert slf4jLogger.interactions == before + AllProbes()[..3];
      if enabled {
        return Jul.Config;
      }
      enabled := slf4jLogger.IsEnabled(Slf4j.Debug);
      assert slf4jLogger.interactions == before + AllProbes()[..4];
      if enabled {
        return Jul.Fine;
      }
      enabled := slf4jLogger.IsEnabled(Slf4j.Trace);
      assert slf4jLogger.interactions == before + AllProbes();
      if enabled {
        return Jul.Finest;
      }
      return Jul.Off;
    }

    // Features SLF4J cannot express: accepted, and the wrapped logger is never called.

    method Entering(sourceClass: Option<string>, sourceMethod: Option<string>)
      ensures unchanged(slf4jLogger)
    {
    }

    method EnteringParam(sourceClass: Option<string>, sourceMethod: Option<string>, param: Option<string>)
      ensures unchanged(slf4jLogger)
    {
    }

    method EnteringParams(sourceClass: Option<string>, sourceMethod: Option<string>, params: seq<string>)
      ensures unchanged(slf4jLogger)
    {
    }

    method Exiting(sourceClass: Option<string>, sourceMethod: Option<string>)
      ensures unchanged(slf4jLogger)
    {
    }

    method ExitingResult(sourceClass: Option<string>, sourceMethod: Option<string>, result: Option<string>)
      ensures unchanged(slf4jLogger)
    {
    }

    method Throwing(sourceClass: Option<string>, sourceMethod: Option<string>, thrown: Option<Slf4j.ThrowableId>)
      ensures unchanged(slf4jLogger)
    {
    }

    /** `getResourceBundle()`: always null. */
    method GetResourceBundle() returns (bundle: Option<Jul.BundleId>)
      ensures bundle == None
      ensures unchanged(slf4jLogger)
    {
      bundle := None;
    }

    /** `getResourceBundleName()`: always null. */
    method GetResourceBundleName() returns (name: Option<string>)
      ensures name == None
      ensures unchanged(slf4jLogger)
    {
      name := None;
    }
  }
}
