/** The enumerations the log parser factory is configured with, and Java's
    32-bit `int`. */
module LogTypes {

  /** Java `int`. */
  newtype int32 = x: int | -0x8000_0000 <= x < 0x8000_0000

  /** The log formats a factory can be built for. */
  datatype LogMode =
    | CommonLogFormat
    | CombinedLogFormat
    | ApacheCustomLogFormat
    | ApacheErrorLogFormat
    | Regex
    | Grok
    | Log4j

  /** What a parser does with a line its pattern does not match. */
  datatype OnParseError = Error | Ignore | IncludeAsStackTrace
}
