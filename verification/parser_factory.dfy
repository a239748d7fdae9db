/** `getParser`: checks the reader position, then chooses by log mode the
    expression to compile, the auxiliary dictionaries and the kind of parser,
    going through the shared compile cache. */
module ParserFactory {
  import opened Wrappers
  import opened LogTypes
  import opened Library
  import opened Configs
  import opened ErrorPolicy
  import opened PatternCache

  /** How `getParser` fails. `IllegalState` is the failed state check on the
      reader position; `NullMode` the switch over a null log mode;
      `PolicyUnresolved` the null error policy;
      `NullSource` a null layout, pattern or regex handed to a translator or
      compiler; `CacheFailure` a cast or compilation failure from the cache;
      `ConstructionFailed` the `DataParserException` wrapping an
      `IOException` from the parser's constructor. */
  datatype ParserError =
    | IllegalState(position: int)
    | NullMode
    | PolicyUnresolved
    | NullSource(key: string)
    | CacheFailure(cause: CacheError)
    | ConstructionFailed(id: string, readerOffset: int, message: string)

  /** The outcome of one `getParser` call, the cache after it, and whether
      the call ran a compiler. */
  datatype Built = Built(result: Result<Parser, ParserError>, cache: Cache, compiled: bool)

  /** Running the parser's constructor. */
  function Open(lib: Collaborators, p: Parser): (r: Result<Parser, ParserError>)
    ensures r.Success? <==> lib.openFailure(p).None?
    ensures r.Success? ==> r.value == p
    ensures r.Failure? ==> r.error == ConstructionFailed(p.id, p.readerOffset, lib.openFailure(p).value)
  {
    match lib.openFailure(p)
    case None => Success(p)
    case Some(message) => Failure(ConstructionFailed(p.id, p.readerOffset, message))
  }

  /** What a branch hands to `createGrok`: a string; a null string
      (`Absent`), which misses the cache, since no entry has a null key, and
      makes the compiler throw; or a null layout (`Untranslated`), on which
      the translator throws before the cache is consulted. `name` is the
      configuration key that held the null. */
  datatype Source = Expression(text: string) | Absent(name: string) | Untranslated(name: string)

  function Required(v: Option<string>, key: string): Source {
    match v
    case None => Absent(key)
    case Some(s) => Expression(s)
  }

  function Translated(translate: string -> string, layout: Option<string>, key: string): Source {
    match layout
    case None => Untranslated(key)
    case Some(s) => Expression(translate(s))
  }

  /** One Grok branch of the switch. The line budget is an earlier argument
      of the parser's constructor than the compiled expression, so it is
      evaluated first. */
  function BuildGrok(lib: Collaborators, f: FactoryConfig, cache: Cache, id: string, readerOffset: int,
                     source: Source, dictionaries: seq<string>, formatName: string): (b: Built)
    ensures f.onParseError.None? ==> b == Built(Failure(PolicyUnresolved), cache, false)
    ensures f.onParseError.Some? && !source.Expression? ==> b == Built(Failure(NullSource(source.name)), cache, source.Absent?)
    ensures f.onParseError.Some? ==> b.result != Failure(PolicyUnresolved)
    ensures Grows(cache, b.cache)
    ensures forall k :: k in b.cache && k !in cache ==> source == Expression(k)
    ensures b.compiled <==> f.onParseError.Some? && (source.Absent? || (source.Expression? && source.text !in cache))
    ensures b.result.Success? ==> source.Expression? && source.text in b.cache
    ensures b.result.Success? ==>
              && f.onParseError.Some? && source.Expression?
              && b.result.value.GrokParser?
              && b.result.value == GrokParser(id, readerOffset, f.maxObjectLen, f.retainOriginalText,
                                              Budget(f.onParseError.value, f.maxStackTraceLength),
                                              b.result.value.grok, formatName)
    ensures b.result.Failure? && b.result.error.ConstructionFailed? ==>
              b.result.error.id == id && b.result.error.readerOffset == readerOffset
  {
    match MaxStackTraceLines(f.onParseError, f.maxStackTraceLength)
    case Failure(_) => Built(Failure(PolicyUnresolved), cache, false)
    case Success(budget) =>
      match source
      case Untranslated(name) => Built(Failure(NullSource(name)), cache, false)
      case Absent(name) => Built(Failure(NullSource(name)), cache, true)
      case Expression(pattern) =>
        var s := CreateGrok(lib, f.grokPatternDefinition, cache, pattern, dictionaries);
        match s.result
        case Failure(e) => Built(Failure(CacheFailure(e)), s.cache, s.compiled)
        case Success(grok) =>
          Built(Open(lib, GrokParser(id, readerOffset, f.maxObjectLen, f.retainOriginalText, budget, grok, formatName)),
                s.cache, s.compiled)
  }

  /** The REGEX branch: no line budget, the field-to-group map passed on. */
  function BuildRegex(lib: Collaborators, f: FactoryConfig, cache: Cache, id: string, readerOffset: int): (b: Built)
    ensures f.regex.None? ==> b == Built(Failure(NullSource(RegexKey)), cache, true)
    ensures b.result != Failure(PolicyUnresolved)
    ensures Grows(cache, b.cache)
    ensures forall k :: k in b.cache && k !in cache ==> f.regex == Some(k)
    ensures b.compiled <==> f.regex.None? || f.regex.value !in cache
    ensures b.result.Success? ==> f.regex.Some? && f.regex.value in b.cache
    ensures b.result.Success? ==>
              && b.result.value.RegexParser?
              && b.result.value == RegexParser(id, readerOffset, f.maxObjectLen, f.retainOriginalText,
                                            b.result.value.pattern, f.fieldPathToGroup)
    ensures b.result.Failure? && b.result.error.ConstructionFailed? ==>
              b.result.error.id == id && b.result.error.readerOffset == readerOffset
  {
    match f.regex
    case None => Built(Failure(NullSource(RegexKey)), cache, true)
    case Some(regex) =>
      var s := CreatePattern(lib, cache, regex);
      match s.result
      case Failure(e) => Built(Failure(CacheFailure(e)), s.cache, s.compiled)
      case Success(pattern) =>
        Built(Open(lib, RegexParser(id, readerOffset, f.maxObjectLen, f.retainOriginalText, pattern, f.fieldPathToGroup)),
              s.cache, s.compiled)
  }

  /** `getParser(id, reader, readerOffset)` for a reader at `readerPosition`. */
  function GetParser(lib: Collaborators, f: FactoryConfig, cache: Cache,
                     id: string, readerPosition: int, readerOffset: int): (b: Built)
    ensures readerPosition != 0 ==> b == Built(Failure(IllegalState(readerPosition)), cache, false)
    ensures readerPosition == 0 && f.logMode.None? ==> b == Built(Failure(NullMode), cache, false)
    ensures Grows(cache, b.cache)
    ensures b.result.Success? ==>
              var p := b.result.value;
              && p.id == id && p.readerOffset == readerOffset
              && p.maxObjectLen == f.maxObjectLen && p.retainOriginalText == f.retainOriginalText
              && f.logMode.Some?
              && (p.RegexParser? <==> f.logMode == Some(Regex))
    ensures b.result.Success? && b.result.value.GrokParser? ==>
              && MaxStackTraceLines(f.onParseError, f.maxStackTraceLength) == Success(b.result.value.maxStackTraceLines)
              && b.result.value.formatName == DispatchTable(f.logMode.value).formatName
    ensures b.result.Success? && b.result.value.RegexParser? ==>
              b.result.value.fieldPathToGroup == f.fieldPathToGroup
    ensures b.result.Failure? && b.result.error.ConstructionFailed? ==>
              b.result.error.id == id && b.result.error.readerOffset == readerOffset
  {
    if readerPosition != 0 then Built(Failure(IllegalState(readerPosition)), cache, false)
    else
      var c := lib.constants;
      match f.logMode
      case None => Built(Failure(NullMode), cache, false)
      case Some(CommonLogFormat) =>
        BuildGrok(lib, f, cache, id, readerOffset, Expression(c.commonApacheLogFormat), [], "Common Log Format")
      case Some(CombinedLogFormat) =>
        BuildGrok(lib, f, cache, id, readerOffset, Expression(c.combinedApacheLogFormat), [], "Combined Log Format")
      case Some(ApacheCustomLogFormat) =>
        BuildGrok(lib, f, cache, id, readerOffset,
                  Translated(lib.translateApacheLayout, f.customLogFormat, ApacheCustomLogFormatKey),
                  [], "Apache Access Log Format")
      case Some(ApacheErrorLogFormat) =>
        BuildGrok(lib, f, cache, id, readerOffset, Expression(c.apacheErrorLogFormat),
                  [c.apacheErrorLogPatternsFile], "Apache Error Log Format")
      case Some(Regex) =>
        BuildRegex(lib, f, cache, id, readerOffset)
      case Some(Grok) =>
        BuildGrok(lib, f, cache, id, readerOffset, Required(f.grokPattern, GrokPatternKey),
                  f.grokDictionaries, "Grok Format")
      case Some(Log4j) =>
        BuildGrok(lib, f, cache, id, readerOffset,
                  Translated(lib.translateLog4jLayout, f.log4jCustomLogFormat, Log4jFormatKey),
                  [c.log4jLogPatternsFile], "Log4j Log Format")
  }

  // The dispatch table of the log modes, as data.

  /** Where the expression that is compiled comes from. */
  datatype PatternOrigin =
    | CommonConstant | CombinedConstant | ApacheErrorConstant
    | ApacheLayout | Log4jLayout
    | UserGrok | UserRegex

  /** Which dictionaries are added after the two base ones. */
  datatype Auxiliary = NoAuxiliary | ErrorLogPatterns | Log4jPatterns | ConfiguredDictionaries

  /** One row of the table; `formatName` is the name a Grok parser reports
      and is empty for the regex row, whose parser takes none. */
  datatype DispatchEntry = DispatchEntry(origin: PatternOrigin, auxiliary: Auxiliary, regexBased: bool, formatName: string)

  function DispatchTable(mode: LogMode): DispatchEntry {
    match mode
    case CommonLogFormat => DispatchEntry(CommonConstant, NoAuxiliary, false, "Common Log Format")
    case CombinedLogFormat => DispatchEntry(CombinedConstant, NoAuxiliary, false, "Combined Log Format")
    case ApacheCustomLogFormat => DispatchEntry(ApacheLayout, NoAuxiliary, false, "Apache Access Log Format")
    case ApacheErrorLogFormat => DispatchEntry(ApacheErrorConstant, ErrorLogPatterns, false, "Apache Error Log Format")
    case Regex => DispatchEntry(UserRegex, NoAuxiliary, true, "")
    case Grok => DispatchEntry(UserGrok, ConfiguredDictionaries, false, "Grok Format")
    case Log4j => DispatchEntry(Log4jLayout, Log4jPatterns, false, "Log4j Log Format")
  }

  /** The string handed to the compiler, `None` when it would be null. */
  function SourceOf(lib: Collaborators, f: FactoryConfig, origin: PatternOrigin): Option<string> {
    match origin
    case CommonConstant => Some(lib.constants.commonApacheLogFormat)
    case CombinedConstant => Some(lib.constants.combinedApacheLogFormat)
    case ApacheErrorConstant => Some(lib.constants.apacheErrorLogFormat)
    case ApacheLayout => if f.customLogFormat.Some? then Some(lib.translateApacheLayout(f.customLogFormat.value)) else None
    case Log4jLayout => if f.log4jCustomLogFormat.Some? then Some(lib.translateLog4jLayout(f.log4jCustomLogFormat.value)) else None
    case UserGrok => f.grokPattern
    case UserRegex => f.regex
  }

  function AuxiliaryNames(lib: Collaborators, f: FactoryConfig, auxiliary: Auxiliary): seq<string> {
    match auxiliary
    case NoAuxiliary => []
    case ErrorLogPatterns => [lib.constants.apacheErrorLogPatternsFile]
    case Log4jPatterns => [lib.constants.log4jLogPatternsFile]
    case ConfiguredDictionaries => f.grokDictionaries
  }

  /** The cache key a factory uses: the same for every call; `None` when
      the mode or the string to compile is null. */
  function CompiledKey(lib: Collaborators, f: FactoryConfig): Option<string> {
    match f.logMode
    case None => None
    case Some(mode) => SourceOf(lib, f, DispatchTable(mode).origin)
  }

  /** What compiling `key` the way this factory compiles gives. */
  function FreshCompile(lib: Collaborators, f: FactoryConfig, key: string): Result<Compiled, string>
    requires f.logMode.Some?
  {
    var entry := DispatchTable(f.logMode.value);
    if entry.regexBased then
      match lib.compileRegex(key)
      case Success(p) => Success(RegexC(p))
      case Failure(msg) => Failure(msg)
    else
      match lib.compileGrok(key, DictionaryList(lib.constants, AuxiliaryNames(lib, f, entry.auxiliary), f.grokPatternDefinition))
      case Success(g) => Success(GrokC(g))
      case Failure(msg) => Failure(msg)
  }

  function MatcherOf(p: Parser): Compiled {
    match p
    case GrokParser(_, _, _, _, _, grok, _) => GrokC(grok)
    case RegexParser(_, _, _, _, pattern, _) => RegexC(pattern)
  }

  /** `getParser` adds at most one entry, under the key the table names,
      and leaves the cache alone when that key would be null. */
  lemma GetParserAddsOnlyItsKey(lib: Collaborators, f: FactoryConfig, cache: Cache,
                                id: string, readerPosition: int, readerOffset: int)
    ensures var b := GetParser(lib, f, cache, id, readerPosition, readerOffset);
            && (forall k :: k in b.cache && k !in cache ==> CompiledKey(lib, f) == Some(k))
            && (CompiledKey(lib, f).None? ==> b.cache == cache && b.result.Failure?)
  {
    if readerPosition == 0 && f.logMode.Some? {
      match f.logMode.value
      case CommonLogFormat =>
      case CombinedLogFormat =>
      case ApacheCustomLogFormat =>
      case ApacheErrorLogFormat =>
      case Regex =>
      case Grok =>
      case Log4j =>
    }
  }

  /** `getParser` fails on the line budget exactly when the reader is at 0,
      the mode is a Grok mode and the error policy is null. */
  lemma PolicyFailureExactly(lib: Collaborators, f: FactoryConfig, cache: Cache,
                             id: string, readerPosition: int, readerOffset: int)
    ensures var b := GetParser(lib, f, cache, id, readerPosition, readerOffset);
            b.result == Failure(PolicyUnresolved) <==>
              readerPosition == 0 && f.logMode.Some? && !DispatchTable(f.logMode.value).regexBased
              && f.onParseError.None?
  {
  }

  /** Whether the mode's string comes from a layout translator, which
      throws on a null layout before the cache is consulted. */
  predicate ThroughTranslator(origin: PatternOrigin) {
    origin == ApacheLayout || origin == Log4jLayout
  }

  /** A call runs a compiler exactly when it gets past the reader check,
      the mode and the policy, and then either misses the cache with its
      key or hands a null pattern or regex straight to the compiler; a call
      that succeeds leaves its key in the cache. */
  lemma GetParserCompilesOnMiss(lib: Collaborators, f: FactoryConfig, cache: Cache,
                                id: string, readerPosition: int, readerOffset: int)
    ensures var b := GetParser(lib, f, cache, id, readerPosition, readerOffset);
            && (b.compiled <==>
                  readerPosition == 0 && f.logMode.Some?
                  && (DispatchTable(f.logMode.value).regexBased || f.onParseError.Some?)
                  && match CompiledKey(lib, f)
                     case Some(key) => key !in cache
                     case None => !ThroughTranslator(DispatchTable(f.logMode.value).origin))
            && (b.result.Success? ==> CompiledKey(lib, f).Some? && CompiledKey(lib, f).value in b.cache)
  {
    if readerPosition == 0 && f.logMode.Some? {
      match f.logMode.value
      case CommonLogFormat =>
      case CombinedLogFormat =>
      case ApacheCustomLogFormat =>
      case ApacheErrorLogFormat =>
      case Regex =>
      case Grok =>
      case Log4j =>
    }
  }

  lemma BuildGrokMiss(lib: Collaborators, f: FactoryConfig, cache: Cache, id: string, readerOffset: int,
                      pattern: string, dictionaries: seq<string>, formatName: string)
    requires f.onParseError.Some? && pattern !in cache
    ensures var b := BuildGrok(lib, f, cache, id, readerOffset, Expression(pattern), dictionaries, formatName);
            match lib.compileGrok(pattern, DictionaryList(lib.constants, dictionaries, f.grokPatternDefinition))
            case Failure(msg) => b == Built(Failure(CacheFailure(CompileFailed(msg))), cache, true)
            case Success(g) =>
              && b.cache == cache[pattern := GrokC(g)] && b.compiled
              && b.result == Open(lib, GrokParser(id, readerOffset, f.maxObjectLen, f.retainOriginalText,
                                                  Budget(f.onParseError.value, f.maxStackTraceLength), g, formatName))
  {
  }

  /** On a miss in a Grok mode, `getParser` compiles exactly the key the
      table names with exactly the dictionaries the table names, stores the
      result under that key, and wraps it in a Grok parser with the resolved
      line budget and the table's format name. */
  lemma GrokDispatchFollowsTable(lib: Collaborators, f: FactoryConfig, cache: Cache, id: string, readerOffset: int)
    requires f.logMode.Some? && !DispatchTable(f.logMode.value).regexBased && f.onParseError.Some?
    requires CompiledKey(lib, f).Some? && CompiledKey(lib, f).value !in cache
    ensures var b := GetParser(lib, f, cache, id, 0, readerOffset);
            var key := CompiledKey(lib, f).value;
            match FreshCompile(lib, f, key)
            case Failure(msg) => b == Built(Failure(CacheFailure(CompileFailed(msg))), cache, true)
            case Success(m) =>
              && m.GrokC?
              && b.cache == cache[key := m] && b.compiled
              && b.result == Open(lib, GrokParser(id, readerOffset, f.maxObjectLen, f.retainOriginalText,
                                                  Budget(f.onParseError.value, f.maxStackTraceLength),
                                                  m.grok, DispatchTable(f.logMode.value).formatName))
  {
    var entry := DispatchTable(f.logMode.value);
    BuildGrokMiss(lib, f, cache, id, readerOffset, CompiledKey(lib, f).value,
                  AuxiliaryNames(lib, f, entry.auxiliary), entry.formatName);
  }

  /** On a miss in REGEX mode, `getParser` compiles the configured regex,
      stores it, and wraps it in a regex parser with the field-to-group map. */
  lemma RegexDispatchFollowsTable(lib: Collaborators, f: FactoryConfig, cache: Cache, id: string, readerOffset: int)
    requires f.logMode == Some(Regex)
    requires CompiledKey(lib, f).Some? && CompiledKey(lib, f).value !in cache
    ensures var b := GetParser(lib, f, cache, id, 0, readerOffset);
            var key := CompiledKey(lib, f).value;
            match FreshCompile(lib, f, key)
            case Failure(msg) => b == Built(Failure(CacheFailure(CompileFailed(msg))), cache, true)
            case Success(m) =>
              && m.RegexC?
              && b.cache == cache[key := m] && b.compiled
              && b.result == Open(lib, RegexParser(id, readerOffset, f.maxObjectLen, f.retainOriginalText,
                                                   m.pattern, f.fieldPathToGroup))
  {
  }

  /** Every entry of the cache is what this factory gets by compiling its
      one key afresh. */
  ghost predicate Coherent(lib: Collaborators, f: FactoryConfig, cache: Cache) {
    forall k :: k in cache ==> CompiledKey(lib, f) == Some(k) && FreshCompile(lib, f, k) == Success(cache[k])
  }

  ghost predicate FromFreshCompile(lib: Collaborators, f: FactoryConfig, p: Parser) {
    CompiledKey(lib, f).Some? && FreshCompile(lib, f, CompiledKey(lib, f).value) == Success(MatcherOf(p))
  }

  predicate IsTypeClash(r: Result<Parser, ParserError>) {
    r.Failure? && r.error.CacheFailure? && r.error.cause.TypeClash?
  }

  lemma BuildGrokKeepsCoherent(lib: Collaborators, f: FactoryConfig, cache: Cache, id: string, readerOffset: int,
                               source: Source, dictionaries: seq<string>, formatName: string)
    requires Coherent(lib, f, cache)
    requires f.logMode.Some? && !DispatchTable(f.logMode.value).regexBased
    requires dictionaries == AuxiliaryNames(lib, f, DispatchTable(f.logMode.value).auxiliary)
    requires source.Expression? ==> CompiledKey(lib, f) == Some(source.text)
    ensures var b := BuildGrok(lib, f, cache, id, readerOffset, source, dictionaries, formatName);
            && Coherent(lib, f, b.cache)
            && !IsTypeClash(b.result)
            && (b.result.Success? ==> FromFreshCompile(lib, f, b.result.value))
  {
  }

  lemma BuildRegexKeepsCoherent(lib: Collaborators, f: FactoryConfig, cache: Cache, id: string, readerOffset: int)
    requires Coherent(lib, f, cache)
    requires f.logMode == Some(Regex)
    ensures var b := BuildRegex(lib, f, cache, id, readerOffset);
            && Coherent(lib, f, b.cache)
            && !IsTypeClash(b.result)
            && (b.result.Success? ==> FromFreshCompile(lib, f, b.result.value))
  {
  }

  /** One call keeps the cache coherent, never hits an entry of the wrong
      kind, and hands out the matcher a fresh compilation would give. */
  lemma GetParserKeepsCoherent(lib: Collaborators, f: FactoryConfig, cache: Cache,
                               id: string, readerPosition: int, readerOffset: int)
    requires Coherent(lib, f, cache)
    ensures var b := GetParser(lib, f, cache, id, readerPosition, readerOffset);
            && Coherent(lib, f, b.cache)
            && !IsTypeClash(b.result)
            && (b.result.Success? ==> FromFreshCompile(lib, f, b.result.value))
  {
    if readerPosition == 0 {
      var c := lib.constants;
      match f.logMode
      case None =>
      case Some(CommonLogFormat) =>
        BuildGrokKeepsCoherent(lib, f, cache, id, readerOffset, Expression(c.commonApacheLogFormat), [], "Common Log Format");
      case Some(CombinedLogFormat) =>
        BuildGrokKeepsCoherent(lib, f, cache, id, readerOffset, Expression(c.combinedApacheLogFormat), [], "Combined Log Format");
      case Some(ApacheCustomLogFormat) =>
        BuildGrokKeepsCoherent(lib, f, cache, id, readerOffset,
                               Translated(lib.translateApacheLayout, f.customLogFormat, ApacheCustomLogFormatKey),
                               [], "Apache Access Log Format");
      case Some(ApacheErrorLogFormat) =>
        BuildGrokKeepsCoherent(lib, f, cache, id, readerOffset, Expression(c.apacheErrorLogFormat),
                               [c.apacheErrorLogPatternsFile], "Apache Error Log Format");
      case Some(Regex) =>
        BuildRegexKeepsCoherent(lib, f, cache, id, readerOffset);
      case Some(Grok) =>
        BuildGrokKeepsCoherent(lib, f, cache, id, readerOffset, Required(f.grokPattern, GrokPatternKey),
                               f.grokDictionaries, "Grok Format");
      case Some(Log4j) =>
        BuildGrokKeepsCoherent(lib, f, cache, id, readerOffset,
                               Translated(lib.translateLog4jLayout, f.log4jCustomLogFormat, Log4jFormatKey),
                               [c.log4jLogPatternsFile], "Log4j Log Format");
    }
  }

  /** A call to `getParser` with the reader it reads from. */
  datatype Request = Request(id: string, readerPosition: int, readerOffset: int)

  /** The results of a sequence of calls, the cache after them, and for each
      call whether it ran a compiler. */
  datatype Served = Served(results: seq<Result<Parser, ParserError>>, cache: Cache, compiled: seq<bool>)

  /** A sequence of `getParser` calls on one factory. */
  function Serve(lib: Collaborators, f: FactoryConfig, cache: Cache, requests: seq<Request>): (r: Served)
    ensures |r.results| == |requests| && |r.compiled| == |requests|
    ensures Grows(cache, r.cache)
    ensures forall k :: k in r.cache && k !in cache ==> CompiledKey(lib, f) == Some(k)
    decreases |requests|
  {
    if requests == [] then Served([], cache, [])
    else
      var q := requests[0];
      var b := GetParser(lib, f, cache, q.id, q.readerPosition, q.readerOffset);
      GetParserAddsOnlyItsKey(lib, f, cache, q.id, q.readerPosition, q.readerOffset);
      var rest := Serve(lib, f, b.cache, requests[1..]);
      Served([b.result] + rest.results, rest.cache, [b.compiled] + rest.compiled)
  }

  lemma {:induction false} ServeKeepsCoherent(lib: Collaborators, f: FactoryConfig, cache: Cache, requests: seq<Request>)
    requires Coherent(lib, f, cache)
    ensures var r := Serve(lib, f, cache, requests);
            && Coherent(lib, f, r.cache)
            && (forall i :: 0 <= i < |r.results| ==> !IsTypeClash(r.results[i]))
            && (forall i :: 0 <= i < |r.results| && r.results[i].Success? ==>
                  FromFreshCompile(lib, f, r.results[i].value))
    decreases |requests|
  {
    if requests != [] {
      var q := requests[0];
      var b := GetParser(lib, f, cache, q.id, q.readerPosition, q.readerOffset);
      GetParserKeepsCoherent(lib, f, cache, q.id, q.readerPosition, q.readerOffset);
      ServeKeepsCoherent(lib, f, b.cache, requests[1..]);
      var r := Serve(lib, f, cache, requests);
      var rest := Serve(lib, f, b.cache, requests[1..]);
      assert r.results == [b.result] + rest.results;
      forall i | 0 <= i < |r.results|
        ensures !IsTypeClash(r.results[i])
        ensures r.results[i].Success? ==> FromFreshCompile(lib, f, r.results[i].value)
      {
        if i > 0 {
          assert r.results[i] == rest.results[i - 1];
        }
      }
    }
  }

  /** No call of a sequence ran a compiler. */
  predicate NoneCompiled(compiled: seq<bool>) {
    forall j :: 0 <= j < |compiled| ==> !compiled[j]
  }

  /** No call after a successful one ran a compiler. */
  predicate NoCompileAfterSuccessIn(r: Served) {
    forall i, j :: 0 <= i < j < |r.results| && j < |r.compiled| && r.results[i].Success? ==> !r.compiled[j]
  }

  /** Once the factory's key is cached, no call compiles again. */
  lemma {:induction false} CachedKeyIsNeverRecompiled(lib: Collaborators, f: FactoryConfig, cache: Cache,
                                                      requests: seq<Request>)
    requires CompiledKey(lib, f).Some? && CompiledKey(lib, f).value in cache
    ensures NoneCompiled(Serve(lib, f, cache, requests).compiled)
    decreases |requests|
  {
    if requests != [] {
      var q := requests[0];
      var b := GetParser(lib, f, cache, q.id, q.readerPosition, q.readerOffset);
      GetParserCompilesOnMiss(lib, f, cache, q.id, q.readerPosition, q.readerOffset);
      CachedKeyIsNeverRecompiled(lib, f, b.cache, requests[1..]);
      var rest := Serve(lib, f, b.cache, requests[1..]);
      assert Serve(lib, f, cache, requests).compiled == [b.compiled] + rest.compiled;
    }
  }

  /** The cache is reused: after a call that succeeds, no later call on the
      same factory runs a compiler. */
  lemma {:induction false} NoCompileAfterSuccess(lib: Collaborators, f: FactoryConfig, cache: Cache,
                                                 requests: seq<Request>)
    ensures NoCompileAfterSuccessIn(Serve(lib, f, cache, requests))
    decreases |requests|
  {
    if requests != [] {
      var q := requests[0];
      var b := GetParser(lib, f, cache, q.id, q.readerPosition, q.readerOffset);
      var r := Serve(lib, f, cache, requests);
      var rest := Serve(lib, f, b.cache, requests[1..]);
      assert r.results == [b.result] + rest.results;
      assert r.compiled == [b.compiled] + rest.compiled;
      NoCompileAfterSuccess(lib, f, b.cache, requests[1..]);
      if b.result.Success? {
        GetParserCompilesOnMiss(lib, f, cache, q.id, q.readerPosition, q.readerOffset);
        CachedKeyIsNeverRecompiled(lib, f, b.cache, requests[1..]);
      }
      forall i, j | 0 <= i < j < |r.results| && j < |r.compiled| && r.results[i].Success?
        ensures !r.compiled[j]
      {
        assert r.compiled[j] == rest.compiled[j - 1];
        if i > 0 {
          assert r.results[i] == rest.results[i - 1];
        }
      }
    }
  }

  /** A coherent cache holds at most the factory's one key. */
  lemma CoherentCacheIsSmall(lib: Collaborators, f: FactoryConfig, cache: Cache)
    requires Coherent(lib, f, cache)
    ensures |cache| <= 1
  {
    if cache != map[] {
      var key := CompiledKey(lib, f).value;
      assert cache == map[key := cache[key]];
    }
  }

  /** All parsers one factory hands out carry equal compiled matchers, the
      cache of a new factory never holds more than one entry, no lookup ever
      fails on an entry of the other kind, and no call after a successful one
      compiles again, so later parsers take the matcher from the cache. */
  lemma ServedParsersShareMatcher(lib: Collaborators, f: FactoryConfig, requests: seq<Request>)
    ensures var r := Serve(lib, f, map[], requests);
            && |r.cache| <= 1
            && (forall i :: 0 <= i < |r.results| ==> !IsTypeClash(r.results[i]))
            && (forall i, j ::
                  (0 <= i < |r.results| && 0 <= j < |r.results| && r.results[i].Success? && r.results[j].Success?) ==>
                  MatcherOf(r.results[i].value) == MatcherOf(r.results[j].value))
            && NoCompileAfterSuccessIn(r)
  {
    ServeKeepsCoherent(lib, f, map[], requests);
    NoCompileAfterSuccess(lib, f, map[], requests);
    CoherentCacheIsSmall(lib, f, Serve(lib, f, map[], requests).cache);
  }
}
