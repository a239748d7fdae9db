/** The factory's configuration keys and their defaults
    (`registerConfigs`), and the constructor that reads them into an
    immutable configuration record. */
module Configs {
  import opened Wrappers
  import opened LogTypes

  // Every key carries the prefix "log.".
  const RetainOriginalTextKey := "log.retain.original.text"
  const ApacheCustomLogFormatKey := "log.apache.custom.log.format"
  const RegexKey := "log.regex"
  const RegexFieldPathToGroupKey := "log.regex.fieldPath.to.group.name"
  const GrokPatternKey := "log.grok.pattern"
  const GrokPatternDefinitionKey := "log.grok.pattern.definition"
  const Log4jFormatKey := "log.log4j.custom.log.format"
  const OnParseErrorKey := "log.on.parse.error"
  const Log4jTrimStackTracesToLengthKey := "log.log4j.trim.stack.trace.to.length"

  const RetainOriginalTextDefault := false
  const ApacheCustomLogFormatDefault := "%h %l %u %t \"%r\" %>s %b"
  const RegexDefault :=
    "^(\\S+) (\\S+) (\\S+) \\[([\\w:/]+\\s[+\\-]\\d{4})\\] \"(\\S+) (\\S+) (\\S+)\" (\\d{3}) (\\d+)"
  const RegexFieldPathToGroupDefault: map<string, int32> := map[]
  const GrokPatternDefault := "%{COMMONAPACHELOG}"
  const GrokPatternDefinitionDefault := ""
  const Log4jFormatDefault := "%d{ISO8601} %-5p %c{1} - %m"
  const OnParseErrorDefault := Error
  const Log4jTrimStackTracesToLengthDefault: int32 := 50

  /** The keys in the order the constructor reads them. */
  const CaptureOrder := [
    RetainOriginalTextKey, ApacheCustomLogFormatKey, RegexKey, RegexFieldPathToGroupKey,
    GrokPatternDefinitionKey, GrokPatternKey, Log4jFormatKey, OnParseErrorKey,
    Log4jTrimStackTracesToLengthKey]

  const ConfigKeys := {
    RetainOriginalTextKey, ApacheCustomLogFormatKey, RegexKey, RegexFieldPathToGroupKey,
    GrokPatternDefinitionKey, GrokPatternKey, Log4jFormatKey, OnParseErrorKey,
    Log4jTrimStackTracesToLengthKey}

  /** The key set is exactly the keys of the reading order. */
  lemma ConfigKeysAreCaptureOrder()
    ensures ConfigKeys == set k | k in CaptureOrder
  {
  }

  /** A value stored in the untyped configuration map. A key that is absent
      reads as Java `null`. */
  datatype ConfigValue =
    | BoolV(b: bool)
    | StringV(s: string)
    | IntV(i: int32)
    | FieldMapV(m: map<string, int32>)
    | PolicyV(p: OnParseError)

  type ConfigMap = map<string, ConfigValue>

  /** The state the constructor captures. The mode parameter and the fields
      read through a reference cast may be null (`None`); the two fields read
      through unboxing may not. */
  datatype FactoryConfig = FactoryConfig(
    logMode: Option<LogMode>,
    maxObjectLen: int32,
    retainOriginalText: bool,
    customLogFormat: Option<string>,
    regex: Option<string>,
    fieldPathToGroup: Option<map<string, int32>>,
    grokPatternDefinition: Option<string>,
    grokPattern: Option<string>,
    grokDictionaries: seq<string>,
    log4jCustomLogFormat: Option<string>,
    onParseError: Option<OnParseError>,
    maxStackTraceLength: int32)

  /** Why the constructor throws: unboxing a null (`NullPointerException`)
      or a value of the wrong class (`ClassCastException`). */
  datatype ConfigError = NullUnboxed(key: string) | WrongType(key: string)

  /** Writes the nine keys with their defaults and returns the map. */
  function RegisterConfigs(configs: ConfigMap): (r: ConfigMap)
    ensures r.Keys == configs.Keys + ConfigKeys
    ensures forall k :: k in configs && k !in ConfigKeys ==> r[k] == configs[k]
    ensures r[RetainOriginalTextKey] == BoolV(false)
    ensures r[ApacheCustomLogFormatKey] == StringV("%h %l %u %t \"%r\" %>s %b")
    ensures r[GrokPatternDefinitionKey] == StringV("")
    ensures r[GrokPatternKey] == StringV("%{COMMONAPACHELOG}")
    ensures r[Log4jFormatKey] == StringV("%d{ISO8601} %-5p %c{1} - %m")
    ensures r[OnParseErrorKey] == PolicyV(Error)
    ensures r[Log4jTrimStackTracesToLengthKey] == IntV(50)
    ensures r[RegexFieldPathToGroupKey] == FieldMapV(map[])
    ensures r[RegexKey] == StringV(RegexDefault)
  {
    configs[RetainOriginalTextKey := BoolV(RetainOriginalTextDefault)]
           [ApacheCustomLogFormatKey := StringV(ApacheCustomLogFormatDefault)]
           [RegexKey := StringV(RegexDefault)]
           [RegexFieldPathToGroupKey := FieldMapV(RegexFieldPathToGroupDefault)]
           [GrokPatternDefinitionKey := StringV(GrokPatternDefinitionDefault)]
           [GrokPatternKey := StringV(GrokPatternDefault)]
           [Log4jFormatKey := StringV(Log4jFormatDefault)]
           [OnParseErrorKey := PolicyV(OnParseErrorDefault)]
           [Log4jTrimStackTracesToLengthKey := IntV(Log4jTrimStackTracesToLengthDefault)]
  }

  // Readers, one per Java cast in the constructor.

  function ReadBool(configs: ConfigMap, key: string): Result<bool, ConfigError> {
    if key !in configs then Failure(NullUnboxed(key))
    else match configs[key]
      case BoolV(b) => Success(b)
      case _ => Failure(WrongType(key))
  }

  function ReadInt(configs: ConfigMap, key: string): Result<int32, ConfigError> {
    if key !in configs then Failure(NullUnboxed(key))
    else match configs[key]
      case IntV(i) => Success(i)
      case _ => Failure(WrongType(key))
  }

  function ReadString(configs: ConfigMap, key: string): Result<Option<string>, ConfigError> {
    if key !in configs then Success(None)
    else match configs[key]
      case StringV(s) => Success(Some(s))
      case _ => Failure(WrongType(key))
  }

  function ReadFieldMap(configs: ConfigMap, key: string): Result<Option<map<string, int32>>, ConfigError> {
    if key !in configs then Success(None)
    else match configs[key]
      case FieldMapV(m) => Success(Some(m))
      case _ => Failure(WrongType(key))
  }

  function ReadPolicy(configs: ConfigMap, key: string): Result<Option<OnParseError>, ConfigError> {
    if key !in configs then Success(None)
    else match configs[key]
      case PolicyV(p) => Success(Some(p))
      case _ => Failure(WrongType(key))
  }

  // A reference description of which stored values the constructor accepts.

  datatype ValueKind = BoolKind | StringKind | IntKind | FieldMapKind | PolicyKind

  function KindOf(key: string): ValueKind {
    if key == RetainOriginalTextKey then BoolKind
    else if key == Log4jTrimStackTracesToLengthKey then IntKind
    else if key == RegexFieldPathToGroupKey then FieldMapKind
    else if key == OnParseErrorKey then PolicyKind
    else StringKind
  }

  predicate HasKind(v: ConfigValue, kind: ValueKind) {
    match kind
    case BoolKind => v.BoolV?
    case StringKind => v.StringV?
    case IntKind => v.IntV?
    case FieldMapKind => v.FieldMapV?
    case PolicyKind => v.PolicyV?
  }

  /** Primitive-typed fields are unboxed, so null is not acceptable there. */
  predicate Unboxed(key: string) {
    KindOf(key) == BoolKind || KindOf(key) == IntKind
  }

  predicate FieldOk(configs: ConfigMap, key: string) {
    if key in configs then HasKind(configs[key], KindOf(key)) else !Unboxed(key)
  }

  /** The error of the first key, in reading order, whose value is not
      acceptable. */
  function FirstBadField(configs: ConfigMap, keys: seq<string>): Option<ConfigError> {
    if keys == [] then None
    else if !FieldOk(configs, keys[0]) then
      Some(if keys[0] in configs then WrongType(keys[0]) else NullUnboxed(keys[0]))
    else FirstBadField(configs, keys[1..])
  }

  /** The inverse of construction: the configuration map holding exactly the
      keys that a configuration record was read from; a null field is an
      absent key. */
  function Encode(c: FactoryConfig): ConfigMap {
    map k | k in ConfigKeys && Field(c, k).Some? :: Field(c, k).value
  }

  /** The stored value a field was read from, `None` for null. */
  function Field(c: FactoryConfig, key: string): Option<ConfigValue> {
    if key == RetainOriginalTextKey then Some(BoolV(c.retainOriginalText))
    else if key == ApacheCustomLogFormatKey then StringField(c.customLogFormat)
    else if key == RegexKey then StringField(c.regex)
    else if key == RegexFieldPathToGroupKey then
      (if c.fieldPathToGroup.Some? then Some(FieldMapV(c.fieldPathToGroup.value)) else None)
    else if key == GrokPatternDefinitionKey then StringField(c.grokPatternDefinition)
    else if key == GrokPatternKey then StringField(c.grokPattern)
    else if key == Log4jFormatKey then StringField(c.log4jCustomLogFormat)
    else if key == OnParseErrorKey then
      (if c.onParseError.Some? then Some(PolicyV(c.onParseError.value)) else None)
    else if key == Log4jTrimStackTracesToLengthKey then Some(IntV(c.maxStackTraceLength))
    else None
  }

  function StringField(v: Option<string>): Option<ConfigValue> {
    if v.Some? then Some(StringV(v.value)) else None
  }

  function Restrict(configs: ConfigMap, keys: set<string>): ConfigMap {
    map k | k in configs && k in keys :: configs[k]
  }

  /** What a key holds, `None` when it is absent. */
  function ValueAt(configs: ConfigMap, key: string): Option<ConfigValue> {
    if key in configs then Some(configs[key]) else None
  }

  lemma ReadBack(configs: ConfigMap, c: FactoryConfig)
    requires forall k | k in ConfigKeys :: Field(c, k) == ValueAt(configs, k)
    ensures Encode(c) == Restrict(configs, ConfigKeys)
  {
  }

  function ErrorAt(configs: ConfigMap, key: string): ConfigError {
    if key in configs then WrongType(key) else NullUnboxed(key)
  }

  lemma FirstBadStep(configs: ConfigMap, keys: seq<string>, i: nat)
    requires i < |keys|
    ensures FirstBadField(configs, keys[i..])
         == if !FieldOk(configs, keys[i]) then Some(ErrorAt(configs, keys[i]))
            else FirstBadField(configs, keys[i + 1..])
  {
    assert keys[i..][0] == keys[i];
    assert keys[i..][1..] == keys[i + 1..];
  }

  /** The reference scan over the reading order, written out key by key. */
  lemma UnrollCaptureOrder(configs: ConfigMap)
    ensures FirstBadField(configs, CaptureOrder)
         == if !FieldOk(configs, RetainOriginalTextKey) then Some(ErrorAt(configs, RetainOriginalTextKey))
            else if !FieldOk(configs, ApacheCustomLogFormatKey) then Some(ErrorAt(configs, ApacheCustomLogFormatKey))
            else if !FieldOk(configs, RegexKey) then Some(ErrorAt(configs, RegexKey))
            else if !FieldOk(configs, RegexFieldPathToGroupKey) then Some(ErrorAt(configs, RegexFieldPathToGroupKey))
            else if !FieldOk(configs, GrokPatternDefinitionKey) then Some(ErrorAt(configs, GrokPatternDefinitionKey))
            else if !FieldOk(configs, GrokPatternKey) then Some(ErrorAt(configs, GrokPatternKey))
            else if !FieldOk(configs, Log4jFormatKey) then Some(ErrorAt(configs, Log4jFormatKey))
            else if !FieldOk(configs, OnParseErrorKey) then Some(ErrorAt(configs, OnParseErrorKey))
            else if !FieldOk(configs, Log4jTrimStackTracesToLengthKey) then Some(ErrorAt(configs, Log4jTrimStackTracesToLengthKey))
            else None
  {
    var keys := CaptureOrder;
    assert keys[0..] == keys;
    FirstBadStep(configs, keys, 0);
    FirstBadStep(configs, keys, 1);
    FirstBadStep(configs, keys, 2);
    FirstBadStep(configs, keys, 3);
    FirstBadStep(configs, keys, 4);
    FirstBadStep(configs, keys, 5);
    FirstBadStep(configs, keys, 6);
    FirstBadStep(configs, keys, 7);
    FirstBadStep(configs, keys, 8);
    assert keys[9..] == [];
  }

  /** The constructor: reads the nine fields in order; the first cast that
      fails throws. `grokDictionaries` is always the empty list. */
  function Capture(logMode: Option<LogMode>, maxObjectLen: int32, configs: ConfigMap): (r: Result<FactoryConfig, ConfigError>)
    ensures r.Success? ==> r.value.logMode == logMode && r.value.maxObjectLen == maxObjectLen
    ensures r.Success? ==> r.value.grokDictionaries == []
    ensures r.Success? ==> Encode(r.value) == Restrict(configs, ConfigKeys)
  {
    var retainOriginalText :- ReadBool(configs, RetainOriginalTextKey);
    var customLogFormat :- ReadString(configs, ApacheCustomLogFormatKey);
    var regex :- ReadString(configs, RegexKey);
    var fieldPathToGroup :- ReadFieldMap(configs, RegexFieldPathToGroupKey);
    var grokPatternDefinition :- ReadString(configs, GrokPatternDefinitionKey);
    var grokPattern :- ReadString(configs, GrokPatternKey);
    var log4jCustomLogFormat :- ReadString(configs, Log4jFormatKey);
    var onParseError :- ReadPolicy(configs, OnParseErrorKey);
    var maxStackTraceLength :- ReadInt(configs, Log4jTrimStackTracesToLengthKey);
    var c := FactoryConfig(logMode, maxObjectLen, retainOriginalText, customLogFormat, regex,
                           fieldPathToGroup, grokPatternDefinition, grokPattern, [],
                           log4jCustomLogFormat, onParseError, maxStackTraceLength);
    ReadBack(configs, c);
    Success(c)
  }

  /** The constructor throws exactly when some key holds an unacceptable
      value, and the exception names the first such key in reading order. */
  lemma CaptureFailsAtFirstBadField(logMode: Option<LogMode>, maxObjectLen: int32, configs: ConfigMap)
    ensures Capture(logMode, maxObjectLen, configs).Success? <==> FirstBadField(configs, CaptureOrder) == None
    ensures Capture(logMode, maxObjectLen, configs).Failure? ==>
              FirstBadField(configs, CaptureOrder) == Some(Capture(logMode, maxObjectLen, configs).error)
  {
    UnrollCaptureOrder(configs);
  }

  /** The configuration a factory gets from the registered defaults. */
  function DefaultConfig(logMode: Option<LogMode>, maxObjectLen: int32): FactoryConfig {
    FactoryConfig(logMode, maxObjectLen, false, Some(ApacheCustomLogFormatDefault), Some(RegexDefault),
                  Some(map[]), Some(""), Some(GrokPatternDefault), [], Some(Log4jFormatDefault),
                  Some(Error), 50)
  }

  /** Reading back an encoded configuration gives the configuration. */
  lemma CaptureEncode(c: FactoryConfig)
    requires c.grokDictionaries == []
    ensures Capture(c.logMode, c.maxObjectLen, Encode(c)) == Success(c)
  {
    // The proof also goes through without these steps; spelling out each read keeps it cheap.
    var m := Encode(c);
    forall k | k in CaptureOrder
      ensures ValueAt(m, k) == Field(c, k)
    {
      assert k in ConfigKeys;
    }
    assert ReadBool(m, RetainOriginalTextKey) == Success(c.retainOriginalText);
    assert ReadString(m, ApacheCustomLogFormatKey) == Success(c.customLogFormat);
    assert ReadString(m, RegexKey) == Success(c.regex);
    assert ReadFieldMap(m, RegexFieldPathToGroupKey) == Success(c.fieldPathToGroup);
    assert ReadString(m, GrokPatternDefinitionKey) == Success(c.grokPatternDefinition);
    assert ReadString(m, GrokPatternKey) == Success(c.grokPattern);
    assert ReadString(m, Log4jFormatKey) == Success(c.log4jCustomLogFormat);
    assert ReadPolicy(m, OnParseErrorKey) == Success(c.onParseError);
    assert ReadInt(m, Log4jTrimStackTracesToLengthKey) == Success(c.maxStackTraceLength);
  }

  /** A factory built over registered defaults gets exactly the defaults,
      whatever else the map holds. */
  lemma CaptureRegistered(logMode: Option<LogMode>, maxObjectLen: int32, configs: ConfigMap)
    ensures Capture(logMode, maxObjectLen, RegisterConfigs(configs)) == Success(DefaultConfig(logMode, maxObjectLen))
  {
  }

  /** Registering twice is registering once. */
  lemma RegisterIdempotent(configs: ConfigMap)
    ensures RegisterConfigs(RegisterConfigs(configs)) == RegisterConfigs(configs)
  {
  }
}
