# PatchLogger: a java.util.logging façade over SLF4J

`PatchLogger` exposes the method surface of `java.util.logging.Logger` (seven
actionable levels, `{n}` message templates, `logp`/`logrb` forms with source
class, source method and resource bundle, `entering`/`exiting`/`throwing`) and
routes every call to one wrapped `org.slf4j.Logger`, which has five channels
(error, warn, info, debug, trace), each with an `isXEnabled` predicate and an
emission method.

The adapter's own source (PatchLogger.java) is not part of this model. Its
behaviour comes from the assertions of `PatchLoggerTest.java`. The emission,
no-op and resource-bundle tests check the wrapped logger's complete, ordered
list of calls. The getName, isLoggable and getLevel tests check only the
values returned. The model makes the list of calls explicit for every
operation:

- `Slf4j.Logger` is the wrapped logger. It holds its name, the answers of its
  five predicates (`Enablement`) and `interactions`, the sequence of calls
  made on it. Each call is an `Event`: `Query(c)` for `isXEnabled`,
  `Emit(c, msg)` and `EmitThrown(c, msg, t)` for the two emission overloads,
  and `NameQuery` for `getName`.
- `Bootstrap.PatchLogger` is the adapter. Each method's postcondition states
  exactly which events it appends to `interactions`.
- `LevelMapping` holds the fixed level-to-channel table. It also has the
  `getLevel` reconstruction (`EffectiveLevel`) and the queries it makes
  (`Probes`), each with a reference definition and lemmas.
- `MessageFormat.Format` is the `{d}` substitution. For templates in which
  every `{` opens a one-digit placeholder, it is proved equal to an
  independent definition over a parsed template (`Expand`).
- `PatchLoggerTests` restates each test as a method. The method builds a
  fresh logger and makes the test's calls. Its postcondition is the exact list
  of calls (ordered verification plus "no more interactions"), or the values
  the test asserts. One test has no method of its own:
  `testLogrbParameterizedLevelMethodsWithResourceBundleObjectAndThrowable`
  (PatchLoggerTest.java:790-822) repeats the calls and checks of the test at
  756-788 line for line, so `TestLogrbParameterizedLevelMethodsWithThrowable2`
  covers both.

Java `null` for a source class, source method or bundle is `Optional.None`.
Throwables and resource bundles are known only by their identity (a `nat`).

Three behaviours are not pinned by any test. The model chooses as follows:

- A guarded (parameterized) call on a disabled channel records only the
  `Query` and emits nothing.
- `getLevel` asks error, warn, info, debug and trace in that order. It stops
  at the first enabled channel and returns that channel's canonical level, so
  with several channels enabled the most severe one wins.
- `isLoggable(OFF)` is false and `isLoggable(ALL)` is true. Neither makes a
  call on the wrapped logger.

## Model

| member | source | states |
|---|---|---|
| Bootstrap.PatchLogger.constructor | agent-bootstrap/src/test/java/io/opentelemetry/auto/bootstrap/PatchLoggerTest.java:842-854 | wrapping a logger makes no call on it |
| Bootstrap.PatchLogger.GetName | agent-bootstrap/src/test/java/io/opentelemetry/auto/bootstrap/PatchLoggerTest.java:86-94 | returns the wrapped logger's name, obtained by asking it |
| Bootstrap.PatchLogger.Severe | agent-bootstrap/src/test/java/io/opentelemetry/auto/bootstrap/PatchLoggerTest.java:96-121 | appends exactly one error emission of the literal message |
| Bootstrap.PatchLogger.Warning | agent-bootstrap/src/test/java/io/opentelemetry/auto/bootstrap/PatchLoggerTest.java:96-121 | appends exactly one warn emission of the literal message |
| Bootstrap.PatchLogger.Info | agent-bootstrap/src/test/java/io/opentelemetry/auto/bootstrap/PatchLoggerTest.java:96-121 | appends exactly one info emission of the literal message |
| Bootstrap.PatchLogger.Config | agent-bootstrap/src/test/java/io/opentelemetry/auto/bootstrap/PatchLoggerTest.java:96-121 | appends exactly one info emission: CONFIG shares the info channel |
| Bootstrap.PatchLogger.Fine | agent-bootstrap/src/test/java/io/opentelemetry/auto/bootstrap/PatchLoggerTest.java:96-121 | appends exactly one debug emission of the literal message |
| Bootstrap.PatchLogger.Finer | agent-bootstrap/src/test/java/io/opentelemetry/auto/bootstrap/PatchLoggerTest.java:96-121 | appends exactly one trace emission of the literal message |
| Bootstrap.PatchLogger.Finest | agent-bootstrap/src/test/java/io/opentelemetry/auto/bootstrap/PatchLoggerTest.java:96-121 | appends exactly one trace emission: FINEST shares the trace channel |
| Bootstrap.PatchLogger.Log | agent-bootstrap/src/test/java/io/opentelemetry/auto/bootstrap/PatchLoggerTest.java:123-148 | appends one emission on the mapped channel and makes no enabled-query |
| Bootstrap.PatchLogger.LogParam | agent-bootstrap/src/test/java/io/opentelemetry/auto/bootstrap/PatchLoggerTest.java:150-187 | appends a query of the mapped channel, then, if it is enabled, the emission of the template with its one parameter substituted (stated choice; not asserted by the tests) |
| Bootstrap.PatchLogger.LogParams | agent-bootstrap/src/test/java/io/opentelemetry/auto/bootstrap/PatchLoggerTest.java:189-226 | appends a query of the mapped channel, then, if it is enabled, the emission of the template with the parameters substituted (stated choice; not asserted by the tests) |
| Bootstrap.PatchLogger.LogThrown | agent-bootstrap/src/test/java/io/opentelemetry/auto/bootstrap/PatchLoggerTest.java:228-260 | appends only one emission carrying the message and the same throwable, with no enabled-query |
| Bootstrap.PatchLogger.Logp | agent-bootstrap/src/test/java/io/opentelemetry/auto/bootstrap/PatchLoggerTest.java:396-421 | as Log; the source class and method have no effect |
| Bootstrap.PatchLogger.LogpParam | agent-bootstrap/src/test/java/io/opentelemetry/auto/bootstrap/PatchLoggerTest.java:423-460 | as LogParam; the source class and method have no effect (stated choice; not asserted by the tests) |
| Bootstrap.PatchLogger.LogpParams | agent-bootstrap/src/test/java/io/opentelemetry/auto/bootstrap/PatchLoggerTest.java:462-499 | as LogParams; the source class and method have no effect (stated choice; not asserted by the tests) |
| Bootstrap.PatchLogger.LogpThrown | agent-bootstrap/src/test/java/io/opentelemetry/auto/bootstrap/PatchLoggerTest.java:501-533 | as LogThrown; the source class and method have no effect |
| Bootstrap.PatchLogger.Logrb | agent-bootstrap/src/test/java/io/opentelemetry/auto/bootstrap/PatchLoggerTest.java:535-560 | logrb(level, sourceClass, sourceMethod, bundleName, msg) appends exactly one unguarded emission, as log(level, msg) does; source class, source method and bundle name have no effect |
| Bootstrap.PatchLogger.LogrbParam | agent-bootstrap/src/test/java/io/opentelemetry/auto/bootstrap/PatchLoggerTest.java:562-599 | as LogParam; source class, source method and bundle have no effect (stated choice; not asserted by the tests) |
| Bootstrap.PatchLogger.LogrbParams | agent-bootstrap/src/test/java/io/opentelemetry/auto/bootstrap/PatchLoggerTest.java:601-681 | as LogParams, for the parameter-array and the varargs forms; source class, source method and bundle have no effect (stated choice; not asserted by the tests) |
| Bootstrap.PatchLogger.LogrbBundleParams | agent-bootstrap/src/test/java/io/opentelemetry/auto/bootstrap/PatchLoggerTest.java:683-720 | as LogParams; the bundle has no effect (stated choice; not asserted by the tests) |
| Bootstrap.PatchLogger.LogrbThrown | agent-bootstrap/src/test/java/io/opentelemetry/auto/bootstrap/PatchLoggerTest.java:722-822 | as LogThrown, with a bundle name or a bundle object; source class, source method and bundle have no effect |
| Bootstrap.PatchLogger.IsLoggable | agent-bootstrap/src/test/java/io/opentelemetry/auto/bootstrap/PatchLoggerTest.java:262-329 | answers the mapped channel's predicate and records that one query |
| Bootstrap.PatchLogger.GetLevel | agent-bootstrap/src/test/java/io/opentelemetry/auto/bootstrap/PatchLoggerTest.java:331-394 | returns the reconstructed level and records the queries down to the first enabled channel |
| Bootstrap.PatchLogger.Entering | agent-bootstrap/src/test/java/io/opentelemetry/auto/bootstrap/PatchLoggerTest.java:824-840 | never calls the wrapped logger |
| Bootstrap.PatchLogger.EnteringParam | agent-bootstrap/src/test/java/io/opentelemetry/auto/bootstrap/PatchLoggerTest.java:824-840 | never calls the wrapped logger |
| Bootstrap.PatchLogger.EnteringParams | agent-bootstrap/src/test/java/io/opentelemetry/auto/bootstrap/PatchLoggerTest.java:824-840 | never calls the wrapped logger |
| Bootstrap.PatchLogger.Exiting | agent-bootstrap/src/test/java/io/opentelemetry/auto/bootstrap/PatchLoggerTest.java:824-840 | never calls the wrapped logger |
| Bootstrap.PatchLogger.ExitingResult | agent-bootstrap/src/test/java/io/opentelemetry/auto/bootstrap/PatchLoggerTest.java:824-840 | never calls the wrapped logger |
| Bootstrap.PatchLogger.Throwing | agent-bootstrap/src/test/java/io/opentelemetry/auto/bootstrap/PatchLoggerTest.java:824-840 | never calls the wrapped logger |
| Bootstrap.PatchLogger.GetResourceBundle | agent-bootstrap/src/test/java/io/opentelemetry/auto/bootstrap/PatchLoggerTest.java:842-854 | returns null and never calls the wrapped logger |
| Bootstrap.PatchLogger.GetResourceBundleName | agent-bootstrap/src/test/java/io/opentelemetry/auto/bootstrap/PatchLoggerTest.java:842-854 | returns null and never calls the wrapped logger |
| LevelMapping.ChannelOf | agent-bootstrap/src/test/java/io/opentelemetry/auto/bootstrap/PatchLoggerTest.java:96-121 | the table is the threshold dispatch on Level.intValue(): error from SEVERE up, warn from WARNING, info from CONFIG, debug from FINE, trace below |
| LevelMapping.ChannelOfMonotone | agent-bootstrap/src/test/java/io/opentelemetry/auto/bootstrap/PatchLoggerTest.java:96-121 | a more severe level never gets a less severe channel |
| LevelMapping.ChannelOfCollapses | agent-bootstrap/src/test/java/io/opentelemetry/auto/bootstrap/PatchLoggerTest.java:96-121 | two levels share a channel exactly when they are equal, INFO and CONFIG, or FINER and FINEST |
| LevelMapping.Loggable | agent-bootstrap/src/test/java/io/opentelemetry/auto/bootstrap/PatchLoggerTest.java:262-329 | isLoggable(level) is the mapped channel's flag: with every channel enabled every level but OFF is loggable, with none only ALL; OFF false and ALL true by choice |
| LevelMapping.EffectiveLevel | agent-bootstrap/src/test/java/io/opentelemetry/auto/bootstrap/PatchLoggerTest.java:331-394 | getLevel is error→SEVERE, else warn→WARNING, else info→CONFIG, else debug→FINE, else trace→FINEST, else OFF: always OFF or the canonical level of an enabled channel; the several-enabled case is the stated choice |
| LevelMapping.CanonicalLevel | agent-bootstrap/src/test/java/io/opentelemetry/auto/bootstrap/PatchLoggerTest.java:331-384 | the level getLevel reports for a channel maps back to that channel and is never INFO or FINER |
| LevelMapping.FirstEnabled | agent-bootstrap/src/test/java/io/opentelemetry/auto/bootstrap/PatchLoggerTest.java:331-394 | finds an enabled channel of the order with every channel before it disabled, or reports none exactly when no channel of the order is enabled |
| LevelMapping.Probes | agent-bootstrap/src/test/java/io/opentelemetry/auto/bootstrap/PatchLoggerTest.java:331-394 | the queries getLevel makes are a prefix of the probe order |
| LevelMapping.FirstEnabledInProbeOrder | agent-bootstrap/src/test/java/io/opentelemetry/auto/bootstrap/PatchLoggerTest.java:331-394 | the search in severity order picks error, else warn, else info, else debug, else trace (stated choice; not asserted by the tests) |
| LevelMapping.ProbesInProbeOrder | agent-bootstrap/src/test/java/io/opentelemetry/auto/bootstrap/PatchLoggerTest.java:331-394 | the queries stop at the first enabled channel, or cover all five (stated choice; not asserted by the tests) |
| LevelMapping.EffectiveLevelIsFirstEnabled | agent-bootstrap/src/test/java/io/opentelemetry/auto/bootstrap/PatchLoggerTest.java:331-394 | the reconstruction equals the canonical level of the first enabled channel in severity order, or OFF (stated choice; not asserted by the tests) |
| LevelMapping.EffectiveLevelOff | agent-bootstrap/src/test/java/io/opentelemetry/auto/bootstrap/PatchLoggerTest.java:386-394 | OFF is reported exactly when no channel is enabled |
| LevelMapping.EffectiveLevelSingle | agent-bootstrap/src/test/java/io/opentelemetry/auto/bootstrap/PatchLoggerTest.java:331-384 | with one channel enabled the reported level is its canonical level |
| LevelMapping.EffectiveLevelMostSevere | agent-bootstrap/src/test/java/io/opentelemetry/auto/bootstrap/PatchLoggerTest.java:331-394 | the reported level is loggable and its channel is at least as severe as any enabled level's channel (stated choice; not asserted by the tests) |
| MessageFormat.Format | agent-bootstrap/src/test/java/io/opentelemetry/auto/bootstrap/PatchLoggerTest.java:150-226 | with no parameters, or no placeholder, the template comes back unchanged |
| MessageFormat.FormatLiteralPrefix | agent-bootstrap/src/test/java/io/opentelemetry/auto/bootstrap/PatchLoggerTest.java:150-226 | literal text before the rest of a template is copied as it is |
| MessageFormat.FormatHole | agent-bootstrap/src/test/java/io/opentelemetry/auto/bootstrap/PatchLoggerTest.java:150-226 | the placeholder {d} becomes the d-th parameter |
| MessageFormat.FormatMissingHole | agent-bootstrap/src/test/java/io/opentelemetry/auto/bootstrap/PatchLoggerTest.java:150-226 | a placeholder with no matching parameter is copied as it is |
| MessageFormat.FormatOneParam | agent-bootstrap/src/test/java/io/opentelemetry/auto/bootstrap/PatchLoggerTest.java:162-173 | "x: {0}" with one parameter p gives "x: p" |
| MessageFormat.FormatTwoParams | agent-bootstrap/src/test/java/io/opentelemetry/auto/bootstrap/PatchLoggerTest.java:201-212 | "x: {0},{1}" with parameters a and b gives "x: a,b" |
| MessageFormat.FormatMatchesExpand | agent-bootstrap/src/test/java/io/opentelemetry/auto/bootstrap/PatchLoggerTest.java:150-226 | substitution on the template text equals the substitution defined on the parsed template |
| PatchLoggerTests.TestGetName | agent-bootstrap/src/test/java/io/opentelemetry/auto/bootstrap/PatchLoggerTest.java:86-94 | getName of a logger wrapping one named "xyz" is "xyz" |
| PatchLoggerTests.TestNormalMethods | agent-bootstrap/src/test/java/io/opentelemetry/auto/bootstrap/PatchLoggerTest.java:96-121 | the seven level methods produce exactly the seven expected emissions in order |
| PatchLoggerTests.TestParameterizedLevelMethodsWithNoParams | agent-bootstrap/src/test/java/io/opentelemetry/auto/bootstrap/PatchLoggerTest.java:123-148 | log(level, msg) at the seven levels produces exactly the seven expected emissions |
| PatchLoggerTests.TestParameterizedLevelMethodsWithSingleParam | agent-bootstrap/src/test/java/io/opentelemetry/auto/bootstrap/PatchLoggerTest.java:150-187 | each call produces a query and then the substituted emission, and nothing else |
| PatchLoggerTests.TestParameterizedLevelMethodsWithArrayOfParams | agent-bootstrap/src/test/java/io/opentelemetry/auto/bootstrap/PatchLoggerTest.java:189-226 | each call produces a query and then the substituted emission, and nothing else |
| PatchLoggerTests.TestParameterizedLevelMethodsWithThrowable | agent-bootstrap/src/test/java/io/opentelemetry/auto/bootstrap/PatchLoggerTest.java:228-260 | each call produces exactly one emission carrying its own throwable |
| PatchLoggerTests.TestIsLoggableAll | agent-bootstrap/src/test/java/io/opentelemetry/auto/bootstrap/PatchLoggerTest.java:262-283 | every level is loggable when every channel is enabled |
| PatchLoggerTests.TestIsLoggableSome | agent-bootstrap/src/test/java/io/opentelemetry/auto/bootstrap/PatchLoggerTest.java:285-306 | only SEVERE and WARNING are loggable when only error and warn are enabled |
| PatchLoggerTests.TestIsLoggableNone | agent-bootstrap/src/test/java/io/opentelemetry/auto/bootstrap/PatchLoggerTest.java:308-329 | no level is loggable when no channel is enabled |
| PatchLoggerTests.TestGetLevelSevere | agent-bootstrap/src/test/java/io/opentelemetry/auto/bootstrap/PatchLoggerTest.java:331-340 | only error enabled gives SEVERE |
| PatchLoggerTests.TestGetLevelWarning | agent-bootstrap/src/test/java/io/opentelemetry/auto/bootstrap/PatchLoggerTest.java:342-351 | only warn enabled gives WARNING |
| PatchLoggerTests.TestGetLevelConfig | agent-bootstrap/src/test/java/io/opentelemetry/auto/bootstrap/PatchLoggerTest.java:353-362 | only info enabled gives CONFIG |
| PatchLoggerTests.TestGetLevelFine | agent-bootstrap/src/test/java/io/opentelemetry/auto/bootstrap/PatchLoggerTest.java:364-373 | only debug enabled gives FINE |
| PatchLoggerTests.TestGetLevelFinest | agent-bootstrap/src/test/java/io/opentelemetry/auto/bootstrap/PatchLoggerTest.java:375-384 | only trace enabled gives FINEST |
| PatchLoggerTests.TestGetLevelOff | agent-bootstrap/src/test/java/io/opentelemetry/auto/bootstrap/PatchLoggerTest.java:386-394 | nothing enabled gives OFF |
| PatchLoggerTests.TestLogpParameterizedLevelMethodsWithNoParams | agent-bootstrap/src/test/java/io/opentelemetry/auto/bootstrap/PatchLoggerTest.java:396-421 | logp without parameters produces exactly the seven expected emissions |
| PatchLoggerTests.TestLogpParameterizedLevelMethodsWithSingleParam | agent-bootstrap/src/test/java/io/opentelemetry/auto/bootstrap/PatchLoggerTest.java:423-460 | logp with one parameter produces query-then-emission pairs and nothing else |
| PatchLoggerTests.TestLogpParameterizedLevelMethodsWithArrayOfParams | agent-bootstrap/src/test/java/io/opentelemetry/auto/bootstrap/PatchLoggerTest.java:462-499 | logp with a parameter array produces query-then-emission pairs and nothing else |
| PatchLoggerTests.TestLogpParameterizedLevelMethodsWithThrowable | agent-bootstrap/src/test/java/io/opentelemetry/auto/bootstrap/PatchLoggerTest.java:501-533 | logp with a throwable produces exactly one emission per call, carrying its throwable |
| PatchLoggerTests.TestLogrbParameterizedLevelMethodsWithNoParams | agent-bootstrap/src/test/java/io/opentelemetry/auto/bootstrap/PatchLoggerTest.java:535-560 | logrb without parameters produces exactly the seven expected emissions |
| PatchLoggerTests.TestLogrbParameterizedLevelMethodsWithSingleParam | agent-bootstrap/src/test/java/io/opentelemetry/auto/bootstrap/PatchLoggerTest.java:562-599 | logrb with one parameter produces query-then-emission pairs and nothing else |
| PatchLoggerTests.TestLogrbParameterizedLevelMethodsWithArrayOfParams | agent-bootstrap/src/test/java/io/opentelemetry/auto/bootstrap/PatchLoggerTest.java:601-642 | logrb with a bundle name and a parameter array produces query-then-emission pairs and nothing else |
| PatchLoggerTests.TestLogrbParameterizedLevelMethodsWithVarArgsOfParams | agent-bootstrap/src/test/java/io/opentelemetry/auto/bootstrap/PatchLoggerTest.java:644-681 | logrb with a bundle object and varargs produces query-then-emission pairs and nothing else |
| PatchLoggerTests.TestLogrbParameterizedLevelMethodsWithVarArgsOfParams2 | agent-bootstrap/src/test/java/io/opentelemetry/auto/bootstrap/PatchLoggerTest.java:683-720 | logrb(level, bundle, msg, params...) produces query-then-emission pairs and nothing else |
| PatchLoggerTests.TestLogrbParameterizedLevelMethodsWithThrowable | agent-bootstrap/src/test/java/io/opentelemetry/auto/bootstrap/PatchLoggerTest.java:722-754 | logrb with a bundle name and a throwable produces exactly one emission per call |
| PatchLoggerTests.TestLogrbParameterizedLevelMethodsWithThrowable2 | agent-bootstrap/src/test/java/io/opentelemetry/auto/bootstrap/PatchLoggerTest.java:756-822 | logrb with a bundle object and a throwable produces exactly one emission per call |
| PatchLoggerTests.TestEnteringExitingThrowingMethods | agent-bootstrap/src/test/java/io/opentelemetry/auto/bootstrap/PatchLoggerTest.java:824-840 | entering, exiting and throwing leave the wrapped logger with no interaction |
| PatchLoggerTests.TestResourceBundle | agent-bootstrap/src/test/java/io/opentelemetry/auto/bootstrap/PatchLoggerTest.java:842-854 | both bundle accessors return null and the wrapped logger has no interaction |

## Left out

- The check that PatchLogger declares every public method of java.util.logging.Logger, and its MethodSignature helper. They work by reflection over JDK classes, which has no counterpart here.
- PatchLogger.getLogger(name): it looks the logger up through SLF4J's LoggerFactory, which is outside the adapter.
- Mockito itself: the mock is replaced by the recording Slf4j.Logger, whose predicate answers are fixed when it is created.
- MessageFormat.Format: does not model java.text.MessageFormat beyond plain `{d}` placeholders with one decimal digit. Quoting, format types, multi-digit indices and malformed patterns are left out: a malformed pattern is copied, where MessageFormat would throw. Quoting is triggered by any apostrophe: MessageFormat turns `"can't {0}"` with `x` into `"cant {0}"`, where the model gives `"can't x"`. Its ensures (`NoBrace(t) ==> r == t`, `params == [] ==> r == t`) therefore hold of MessageFormat only for templates without an apostrophe.
- Parameters, and the objects passed to entering/exiting, are modelled as their string forms. Throwables and resource bundles are identities. A null throwable is not modelled.
- Logging at OFF or ALL: the emitting methods take `Jul.Actionable` levels only. The tests never log at those levels.
- log(LogRecord), the Supplier overloads, logrb(level, bundle, msg, thrown), and the handler, filter and parent accessors: no test exercises them.
- Inputs the model's types cannot express: a null message, a null parameter array or null parameters (`string` and `seq<string>` have no null; the adapter forwards nulls), and a custom `Level` subclass with its own `intValue()` (`Jul.Level` has only the nine standard constants). The tests use none of these.
- Concurrency: the adapter has no synchronization of its own.
