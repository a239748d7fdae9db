/** The collaborators of the factory whose code is not part of this model:
    the Grok dictionary and compiler, `java.util.regex.Pattern`, the two
    layout translators, the resource names and fixed expressions of the
    `Constants` class, and the constructors of the two concrete parsers.
    They are gathered in one record of values, so every property proved
    about the factory holds whatever they compute. */
module Library {
  import opened Wrappers
  import opened LogTypes

  /** A compiled Grok expression. */
  type GrokMatcher(==)

  /** A compiled regular expression. */
  type RegexMatcher(==)

  /** One dictionary handed to the Grok dictionary, in the order added:
      a named classpath resource or inline pattern-definition text. */
  datatype DictSource = Resource(name: string) | Inline(text: string)

  /** Values of the `Constants` class used by the factory. */
  datatype Constants = Constants(
    grokPatternsFile: string,
    javaLogPatternsFile: string,
    apacheErrorLogPatternsFile: string,
    log4jLogPatternsFile: string,
    commonApacheLogFormat: string,
    combinedApacheLogFormat: string,
    apacheErrorLogFormat: string)

  /** The parser the factory hands out, with the arguments it was built
      from (the stage context and the reader are left out). */
  datatype Parser =
    | GrokParser(id: string, readerOffset: int, maxObjectLen: int32, retainOriginalText: bool,
                 maxStackTraceLines: int32, grok: GrokMatcher, formatName: string)
    | RegexParser(id: string, readerOffset: int, maxObjectLen: int32, retainOriginalText: bool,
                  pattern: RegexMatcher, fieldPathToGroup: Option<map<string, int32>>)

  datatype Collaborators = Collaborators(
    constants: Constants,
    /** Loads the dictionaries in order, binds them and compiles the
        expression, or fails with a message. */
    compileGrok: (string, seq<DictSource>) -> Result<GrokMatcher, string>,
    /** `Pattern.compile`. */
    compileRegex: string -> Result<RegexMatcher, string>,
    /** `ApacheCustomLogHelper.translateApacheLayoutToGrok`. */
    translateApacheLayout: string -> string,
    /** `Log4jHelper.translateLog4jLayoutToGrok`. */
    translateLog4jLayout: string -> string,
    /** The message of the `IOException` thrown while constructing the
        given parser, if any. */
    openFailure: Parser -> Option<string>)
}
