# Log parser factory: a Dafny model

This project models `LogCharDataParserFactory`, the factory that builds a line
parser for log files. It covers five parts:

- **Registering defaults.** `registerConfigs` writes nine configuration keys with their default values.
- **Reading the configuration.** The constructor reads an untyped key/value map into final fields.
- **Line budget.** `getMaxStackTraceLines` turns the parse-error policy into the number of trailing lines a record may absorb as a stack trace.
- **Compile cache.** `createGrok` and `createPattern` compile a Grok expression or a regular expression. They share one string-keyed cache, which is filled only on a successful compilation.
- **Dispatch.** `getParser` first checks that the reader is at position 0. It then picks, for each log mode, the string to compile, the extra Grok dictionaries and the parser kind.

A null configuration value, log mode, error policy or field map is modelled as `Option.None`, and exceptions as `Result.Failure`. A null `configs` map or a null `reader` is not modelled (see "## Left out").
The cache is a `map<string, Compiled>` passed in and returned explicitly.
Several collaborators are not visible here:

- the Grok dictionary and compiler;
- `Pattern.compile`;
- the Apache and log4j layout translators;
- the values in the `Constants` class;
- the constructors of `GrokParser` and `RegexParser`.

All of them are fields of one `Library.Collaborators` value, so every property holds whatever they compute.

Modules: `Wrappers` (Option/Result), `LogTypes` (`LogMode`,
`OnParseError`, `int32`), `Library` (the collaborators), `Configs`
(`registerConfigs` and the constructor), `ErrorPolicy`
(`getMaxStackTraceLines`), `PatternCache` (`createGrok`, `createPattern`) and
`ParserFactory` (`getParser`, plus a sequence of calls on one factory).

Some facts about the code that the model keeps:

- The log4j layout key is `log.log4j.custom.log.format`, with the `log.` prefix.
- The sign of the trim length is never checked: a negative value is passed through as the line budget.
- The cache is a plain map with no locking.
- Only an `IOException` is wrapped into a `DataParserException`. Other failures reach the caller unwrapped, each as its own `ParserError`:
  - a compile failure or a cast failure from the cache (`CacheFailure`);
  - a null mode (`NullMode`) or a null error policy (`PolicyUnresolved`);
  - a failed check of the reader position (`IllegalState`);
  - a null layout, Grok pattern or regex that makes the translator or compiler throw (`NullSource`).

## Model

All source paths are under `commonlib/src/main/java/com/streamsets/pipeline/lib/parser/log/`; the table cites them in full.

| member | source | states |
|---|---|---|
| Configs.RegisterConfigs | commonlib/src/main/java/com/streamsets/pipeline/lib/parser/log/LogCharDataParserFactory.java:53-64 | the result has exactly the old keys plus the nine configuration keys; each of the nine holds its default (original text not retained, trim length 50, policy ERROR, empty field map, the default Apache, regex, Grok and log4j strings); every other key keeps its value |
| Configs.RegisterIdempotent | commonlib/src/main/java/com/streamsets/pipeline/lib/parser/log/LogCharDataParserFactory.java:53-64 | registering the defaults twice gives the same map as registering once |
| Configs.Capture | commonlib/src/main/java/com/streamsets/pipeline/lib/parser/log/LogCharDataParserFactory.java:81-97 | on success the record keeps the given mode and object length, the Grok dictionary list is empty, and encoding the record gives back exactly the nine configuration entries of the input map (absent keys read as null) |
| Configs.CaptureEncode | commonlib/src/main/java/com/streamsets/pipeline/lib/parser/log/LogCharDataParserFactory.java:81-97 | round trip: reading the encoding of a configuration record gives that record back, for any record with an empty Grok dictionary list, which is every record the constructor builds (line 92) |
| Configs.CaptureFailsAtFirstBadField | commonlib/src/main/java/com/streamsets/pipeline/lib/parser/log/LogCharDataParserFactory.java:86-95 | the constructor throws if and only if some key holds a value of the wrong class or a primitive field is null; the error names the first such key in reading order, as a null unboxing or a cast failure |
| Configs.CaptureRegistered | commonlib/src/main/java/com/streamsets/pipeline/lib/parser/log/LogCharDataParserFactory.java:53-97 | a factory built over any map after `registerConfigs` gets exactly the default configuration |
| ErrorPolicy.MaxStackTraceLines | commonlib/src/main/java/com/streamsets/pipeline/lib/parser/log/LogCharDataParserFactory.java:173-184 | ERROR gives -1, IGNORE gives 0, INCLUDE_AS_STACK_TRACE gives the trim length unchanged, whatever its sign; a null policy throws, and nothing else does |
| ErrorPolicy.PolicyRecoverableFromBudget | commonlib/src/main/java/com/streamsets/pipeline/lib/parser/log/LogCharDataParserFactory.java:173-184 | the budget determines the policy if and only if the trim length is neither -1 (then it matches ERROR) nor 0 (then it matches IGNORE) |
| PatternCache.DictionaryList | commonlib/src/main/java/com/streamsets/pipeline/lib/parser/log/LogCharDataParserFactory.java:145-155 | dictionaries are added in this order: the base patterns, the Java log patterns, the given list in order, and last the inline definition, only when it is neither null nor empty; nothing else is inline |
| PatternCache.CreateGrok | commonlib/src/main/java/com/streamsets/pipeline/lib/parser/log/LogCharDataParserFactory.java:141-161 | on a hit: the stored Grok matcher, no compilation, the cache unchanged, and a cast failure if the entry is a regex. On a miss: one compilation with the ordered dictionary list; on success the cache gains exactly that key; on failure nothing is inserted. The cache only grows, and only under the expression |
| PatternCache.CreatePattern | commonlib/src/main/java/com/streamsets/pipeline/lib/parser/log/LogCharDataParserFactory.java:164-171 | the same hit/miss behaviour for regular expressions |
| PatternCache.GrokSecondCallHits | commonlib/src/main/java/com/streamsets/pipeline/lib/parser/log/LogCharDataParserFactory.java:141-161 | after a successful call, a second call with the same expression returns the same matcher without compiling and leaves the cache alone, even with other dictionaries or another inline definition: the key is the expression alone |
| PatternCache.PatternSecondCallHits | commonlib/src/main/java/com/streamsets/pipeline/lib/parser/log/LogCharDataParserFactory.java:164-171 | after a successful call, the same regex is a hit that returns the same pattern |
| PatternCache.SharedKeyClash | commonlib/src/main/java/com/streamsets/pipeline/lib/parser/log/LogCharDataParserFactory.java:141-171 | because both kinds share one map, looking up a key cached by the other kind fails with a cast error |
| ParserFactory.BuildGrok | commonlib/src/main/java/com/streamsets/pipeline/lib/parser/log/LogCharDataParserFactory.java:105-131 | one Grok branch. A null policy fails before the string to compile is looked at (Java evaluates the budget argument first); then a null source fails without touching the cache. A null layout makes the translator throw before any compilation. A null Grok pattern misses the cache and reaches the compiler, so the call counts as compiling. A non-null string is compiled exactly on a miss, and the only key it can add is that string. A parser it returns is a Grok parser with the id, offset, object length, retain flag, resolved line budget and the given format name, and its string is in the cache afterwards |
| ParserFactory.BuildRegex | commonlib/src/main/java/com/streamsets/pipeline/lib/parser/log/LogCharDataParserFactory.java:121-123 | the REGEX branch: a null regex misses the cache and reaches `Pattern.compile`, which throws; the call counts as compiling and leaves the cache unchanged. Otherwise the call compiles exactly on a miss, the only key it can add is the regex, and the policy is never consulted. A parser it returns is a regex parser with the id, offset, object length, retain flag and the field-to-group map, and its regex is in the cache afterwards |
| ParserFactory.Open | commonlib/src/main/java/com/streamsets/pipeline/lib/parser/log/LogCharDataParserFactory.java:135-136 | an `IOException` from building the parser becomes a construction error carrying the record id and reader offset; otherwise the parser is returned |
| ParserFactory.GetParser | commonlib/src/main/java/com/streamsets/pipeline/lib/parser/log/LogCharDataParserFactory.java:99-138 | a reader not at position 0 fails with its position, before any compilation or cache change. At position 0, a null log mode fails in the mode switch and leaves the cache unchanged. The cache only grows. A parser carries the id, offset, object length and retain flag. It is a regex parser exactly in REGEX mode, and then carries the field-to-group map. Otherwise it is a Grok parser with the resolved line budget and the mode's format name. A wrapped `IOException` carries id and offset |
| ParserFactory.GetParserAddsOnlyItsKey | commonlib/src/main/java/com/streamsets/pipeline/lib/parser/log/LogCharDataParserFactory.java:104-131 | the only key a call can add is the mode's compiled string: a constant, the user's pattern or regex, or the translated layout (not the layout itself). When that string or the mode itself would be null, the call fails and the cache is unchanged |
| ParserFactory.GetParserCompilesOnMiss | commonlib/src/main/java/com/streamsets/pipeline/lib/parser/log/LogCharDataParserFactory.java:99-171 | a call runs a compiler if and only if it passes the reader check, the mode is non-null, and the policy is non-null or the mode is REGEX, and then either the string to compile is non-null and not yet in the cache, or it is a null Grok pattern or null regex, which misses the cache and goes to the compiler. A null layout stops at the translator and compiles nothing. A call that succeeds leaves its string in the cache |
| ParserFactory.PolicyFailureExactly | commonlib/src/main/java/com/streamsets/pipeline/lib/parser/log/LogCharDataParserFactory.java:104-131 | the policy switch fails exactly when the reader is at 0, the mode is non-null and builds a Grok parser, and the policy is null; REGEX mode never consults the policy |
| ParserFactory.GrokDispatchFollowsTable | commonlib/src/main/java/com/streamsets/pipeline/lib/parser/log/LogCharDataParserFactory.java:104-131 | on a miss in a Grok mode, the call compiles the mode's string with the base dictionaries plus the mode's list: none for COMMON, COMBINED and APACHE_CUSTOM, the error-log file for APACHE_ERROR, the log4j file for LOG4J, the always-empty configured list for GROK. It stores the result under that string and returns a Grok parser with the line budget and format name; a compile failure stores nothing |
| ParserFactory.RegexDispatchFollowsTable | commonlib/src/main/java/com/streamsets/pipeline/lib/parser/log/LogCharDataParserFactory.java:121-123 | on a miss in REGEX mode, the call compiles the configured regex, stores it and returns a regex parser with the field-to-group map and no line budget |
| ParserFactory.GetParserKeepsCoherent | commonlib/src/main/java/com/streamsets/pipeline/lib/parser/log/LogCharDataParserFactory.java:99-171 | if every cache entry equals a fresh compilation of the factory's one key, this still holds after a call; the call never hits an entry of the wrong kind, and any parser it returns uses that fresh compilation |
| ParserFactory.Serve | commonlib/src/main/java/com/streamsets/pipeline/lib/parser/log/LogCharDataParserFactory.java:99-138 | over any sequence of calls on one factory, the cache only grows and only under the factory's key |
| ParserFactory.ServeKeepsCoherent | commonlib/src/main/java/com/streamsets/pipeline/lib/parser/log/LogCharDataParserFactory.java:99-171 | coherence of the cache holds across any sequence of calls; no call fails with a cast error, and every parser returned uses the fresh compilation of the factory's key |
| ParserFactory.CachedKeyIsNeverRecompiled | commonlib/src/main/java/com/streamsets/pipeline/lib/parser/log/LogCharDataParserFactory.java:141-144 | once the factory's key is in the cache, no later call on that factory runs a compiler |
| ParserFactory.NoCompileAfterSuccess | commonlib/src/main/java/com/streamsets/pipeline/lib/parser/log/LogCharDataParserFactory.java:141-144 | the cache is reused: from any starting cache, no call after a successful one runs a compiler |
| ParserFactory.ServedParsersShareMatcher | commonlib/src/main/java/com/streamsets/pipeline/lib/parser/log/LogCharDataParserFactory.java:79-171 | starting from the constructor's empty cache, the cache never holds more than one entry and no call fails with a cast error. All parsers from one factory carry equal matchers (value equality). No call after the first successful one compiles again, so later parsers get their matcher from the cache |

## Left out

- Grok and regex compilation, dictionary loading and binding (`GrokDictionary`, `Pattern.compile`), the layout translators and the values in the `Constants` class: they are foreign or not part of this model. They are uninterpreted fields of `Library.Collaborators`. The translators are treated as total functions.
- Null sources: a null Apache layout or log4j layout is assumed to make the translator throw, before the cache is consulted. A null Grok pattern or regex passes the cache check, since no entry is ever stored under a null key, and is assumed to make the compiler throw. The model reports `NullSource` in each case; the exception's own type and message are not modelled.
- The `Stage.Context` and the `OverrunReader`: only the reader's position and offset are modelled. `long` widths are not modelled, because the position is only compared with 0 and the offset is only passed on.
- `GrokParser` and `RegexParser` internals: how lines are matched and how stack traces are absorbed happen downstream. Only the arguments they receive are modelled, plus whether their constructor throws `IOException`.
- The unreachable `default: return null` of the mode switch: the match over a non-null `LogMode` is exhaustive, and a null mode is the `NullMode` failure. The unreachable `default` of the policy switch is dropped for the same reason. The null policy is the only way that switch throws, and it throws `NullPointerException` rather than `IllegalArgumentException`.
- The Groups label enum of the log tail origin: UI labels with no behaviour.
- Thread safety: the source's `HashMap` has no locking, so the cache is modelled as sequential state.
- Java object identity: a cache hit returns the stored value. Whether it is the same object is not distinguished from value equality.
- ParserFactory.ServedParsersShareMatcher — it states equal matchers, not the same object. That later calls reuse the cached entry is stated by the `compiled` flag: after a successful call no call compiles again.
- Configs.RegisterConfigs — the source updates the caller's map in place and returns that same object; the model returns a new map value. The source also stores one shared mutable static map as the field-to-group default in every registered map, and every factory built from the defaults keeps a reference to it. The model's default is the value `FieldMapV(map[])`, so mutation through that shared map is not modelled.
- A null `configs` map: `registerConfigs` and the constructor throw `NullPointerException` at their first access. A null `reader`: `getParser` throws `NullPointerException` at the position check. Neither is modelled: the map is a value and the reader is given by its position.
- Generic erasure inside the field-to-group map (a non-`Integer` value) is not modelled: the map's values are `int32`.
