/**
  ModelInfo and its JSON form (sdk_v2/cpp/src/model_info.cc).

  A ModelInfo is written twice into its JSON object, once as two property bags
  and once as named fields, and read back with the named fields on top.  JSON is
  modelled as a tree whose objects are maps (section 4 of RFC 8259).
*/
module ModelInfoJson {
  import opened StringOrder

  datatype Option<+T> = None | Some(value: T)

  datatype Json =
    | Null
    | Bool(b: bool)
    | Int(n: int)
    | Str(s: string)
    | Arr(items: seq<Json>)
    | Obj(fields: map<string, Json>)

  type Int32 = n: int | -0x8000_0000 <= n < 0x8000_0000

  type Int64 = n: int | -0x8000_0000_0000_0000 <= n < 0x8000_0000_0000_0000

  /** Conversion of an integer that does not fit, as a C++ cast does it. */
  function ToInt32(n: int): (r: Int32)
    ensures (n - r) % 0x1_0000_0000 == 0
  {
    (n + 0x8000_0000) % 0x1_0000_0000 - 0x8000_0000
  }

  function ToInt64(n: int): (r: Int64)
    ensures (n - r) % 0x1_0000_0000_0000_0000 == 0
  {
    (n + 0x8000_0000_0000_0000) % 0x1_0000_0000_0000_0000 - 0x8000_0000_0000_0000
  }

  datatype DeviceType = NotSet | CPU | GPU | NPU

  datatype ModelInfo = ModelInfo(
    modelId: string,
    name: string,
    version: Int32,
    alias: string,
    uri: string,
    deviceType: DeviceType,
    executionProvider: string,
    task: string,
    detectedRegion: string,
    promptTemplates: map<string, string>,
    modelSettings: map<string, string>,
    strings: map<string, string>,
    ints: map<string, Int64>)

  const EMPTY_INFO := ModelInfo("", "", 0, "", "", NotSet, "", "", "", map[], map[], map[], map[])

  // Well-known property keys (sdk_v2/cpp/include/foundry_local/foundry_local_c.h:259-285)
  const DISPLAY_NAME := "display_name"
  const MODEL_TYPE := "type"
  const PUBLISHER := "publisher"
  const LICENSE := "license"
  const LICENSE_DESCRIPTION := "license_description"
  const TASK := "task"
  const MODEL_PROVIDER := "model_provider"
  const MIN_FL_VERSION := "min_fl_version"
  const PARENT_URI := "parent_uri"
  const TOOL_CALL_START := "tool_call_start"
  const TOOL_CALL_END := "tool_call_end"
  const REASONING_START := "reasoning_start"
  const REASONING_END := "reasoning_end"
  const DEVICE_TYPE := "device_type"
  const EP := "execution_provider"
  const SUPPORTS_TOOL_CALLING := "supports_tool_calling"
  const SUPPORTS_REASONING := "supports_reasoning"
  const FILESIZE_MB := "filesize_mb"
  const MAX_OUTPUT_TOKENS := "max_output_tokens"
  const CREATED_AT_UNIX := "created_at_unix"
  const IS_TEST_MODEL := "is_test_model"

  /** The named fields of the JSON object. */
  datatype Field =
    | FId
    | FName
    | FVersion
    | FAlias
    | FUri
    | FDetectedRegion
    | FStringProperties
    | FIntProperties
    | FProviderType
    | FModelType
    | FDisplayName
    | FPublisher
    | FLicense
    | FLicenseDescription
    | FTask
    | FMinFLVersion
    | FParentModelUri
    | FToolCallStart
    | FToolCallEnd
    | FReasoningStart
    | FReasoningEnd
    | FRuntime
    | FPromptTemplate
    | FModelSettings
    | FFileSizeMb
    | FMaxOutputTokens
    | FCreatedAt
    | FSupportsToolCalling
    | FSupportsReasoning
    | FTestModel
    | FFoundryLocal

  function Key(f: Field): string {
    match f
    case FId => "id"
    case FName => "name"
    case FVersion => "version"
    case FAlias => "alias"
    case FUri => "uri"
    case FDetectedRegion => "detectedRegion"
    case FStringProperties => "stringProperties"
    case FIntProperties => "intProperties"
    case FProviderType => "providerType"
    case FModelType => "modelType"
    case FDisplayName => "displayName"
    case FPublisher => "publisher"
    case FLicense => "license"
    case FLicenseDescription => "licenseDescription"
    case FTask => "task"
    case FMinFLVersion => "minFLVersion"
    case FParentModelUri => "parentModelUri"
    case FToolCallStart => "toolCallStart"
    case FToolCallEnd => "toolCallEnd"
    case FReasoningStart => "reasoningStart"
    case FReasoningEnd => "reasoningEnd"
    case FRuntime => "runtime"
    case FPromptTemplate => "promptTemplate"
    case FModelSettings => "modelSettings"
    case FFileSizeMb => "fileSizeMb"
    case FMaxOutputTokens => "maxOutputTokens"
    case FCreatedAt => "createdAt"
    case FSupportsToolCalling => "supportsToolCalling"
    case FSupportsReasoning => "supportsReasoning"
    case FTestModel => "testModel"
    case FFoundryLocal => "foundryLocal"
  }

  /** The field with a given key. */
  ghost function FieldOf(key: string): Field
    requires exists f :: Key(f) == key
  {
    var f :| Key(f) == key;
    f
  }

  /** Length, first and last letter tell the keys apart. */
  function ToldBy(key: string): Field
    requires key != []
  {
    var length, first, last := |key|, key[0], key[|key| - 1];
    if length == 2 then FId
    else if length == 3 then FUri
    else if length == 4 then if first == 'n' && last == 'e' then FName else FTask
    else if length == 5 then FAlias
    else if length == 7 then
      if first == 'v' && last == 'n' then FVersion
      else if first == 'l' && last == 'e' then FLicense
      else FRuntime
    else if length == 9 then
      if first == 'm' && last == 'e' then FModelType
      else if first == 'p' && last == 'r' then FPublisher
      else if first == 'c' && last == 't' then FCreatedAt
      else FTestModel
    else if length == 10 then FFileSizeMb
    else if length == 11 then if first == 'd' && last == 'e' then FDisplayName else FToolCallEnd
    else if length == 12 then
      if first == 'p' && last == 'e' then FProviderType
      else if first == 'm' && last == 'n' then FMinFLVersion
      else if first == 'r' && last == 'd' then FReasoningEnd
      else FFoundryLocal
    else if length == 13 then
      if first == 'i' && last == 's' then FIntProperties
      else if first == 't' && last == 't' then FToolCallStart
      else FModelSettings
    else if length == 14 then
      if first == 'd' && last == 'n' then FDetectedRegion
      else if first == 'p' && last == 'i' then FParentModelUri
      else if first == 'r' && last == 't' then FReasoningStart
      else FPromptTemplate
    else if length == 15 then FMaxOutputTokens
    else if length == 16 then FStringProperties
    else if length == 17 then FSupportsReasoning
    else if length == 18 then FLicenseDescription
    else if length == 19 then FSupportsToolCalling
    else FId
  }

  lemma IdentityKeysAreTold(f: Field)
    requires f.FId? || f.FName? || f.FVersion? || f.FAlias? || f.FUri? || f.FDetectedRegion?
      || f.FStringProperties? || f.FIntProperties?
    ensures Key(f) != [] && ToldBy(Key(f)) == f
  {
  }

  lemma LicenseKeysAreTold(f: Field)
    requires f.FProviderType? || f.FModelType? || f.FDisplayName? || f.FPublisher?
      || f.FLicense? || f.FLicenseDescription? || f.FTask? || f.FMinFLVersion?
    ensures Key(f) != [] && ToldBy(Key(f)) == f
  {
  }

  lemma PromptKeysAreTold(f: Field)
    requires f.FParentModelUri? || f.FToolCallStart? || f.FToolCallEnd? || f.FReasoningStart?
      || f.FReasoningEnd? || f.FRuntime? || f.FPromptTemplate? || f.FModelSettings?
    ensures Key(f) != [] && ToldBy(Key(f)) == f
  {
  }

  lemma FlagKeysAreTold(f: Field)
    requires f.FFileSizeMb? || f.FMaxOutputTokens? || f.FCreatedAt? || f.FSupportsToolCalling?
      || f.FSupportsReasoning? || f.FTestModel? || f.FFoundryLocal?
    ensures Key(f) != [] && ToldBy(Key(f)) == f
  {
  }

  lemma KeyIsTold(f: Field)
    ensures Key(f) != [] && ToldBy(Key(f)) == f
  {
    hide Key, ToldBy;
    match f
    case FId | FName | FVersion | FAlias | FUri | FDetectedRegion | FStringProperties | FIntProperties =>
        IdentityKeysAreTold(f);
    case FProviderType | FModelType | FDisplayName | FPublisher | FLicense | FLicenseDescription | FTask |
        FMinFLVersion => LicenseKeysAreTold(f);
    case FParentModelUri | FToolCallStart | FToolCallEnd | FReasoningStart | FReasoningEnd | FRuntime | FPromptTemplate
        | FModelSettings => PromptKeysAreTold(f);
    case FFileSizeMb | FMaxOutputTokens | FCreatedAt | FSupportsToolCalling | FSupportsReasoning | FTestModel |
        FFoundryLocal => FlagKeysAreTold(f);
  }

  lemma KeysDiffer()
    ensures forall f {:trigger Key(f)} :: Key(f) != [] && FieldOf(Key(f)) == f
  {
    forall f
      ensures Key(f) != [] && FieldOf(Key(f)) == f
    {
      hide Key, ToldBy;
      KeyIsTold(f);
      KeyIsTold(FieldOf(Key(f)));
    }
  }

  /** The string property that a named field carries. */
  function StringProperty(f: Field): Option<string> {
    match f
    case FProviderType => Some(MODEL_PROVIDER)
    case FModelType => Some(MODEL_TYPE)
    case FDisplayName => Some(DISPLAY_NAME)
    case FPublisher => Some(PUBLISHER)
    case FLicense => Some(LICENSE)
    case FLicenseDescription => Some(LICENSE_DESCRIPTION)
    case FTask => Some(TASK)
    case FMinFLVersion => Some(MIN_FL_VERSION)
    case FParentModelUri => Some(PARENT_URI)
    case FToolCallStart => Some(TOOL_CALL_START)
    case FToolCallEnd => Some(TOOL_CALL_END)
    case FReasoningStart => Some(REASONING_START)
    case FReasoningEnd => Some(REASONING_END)
    case _ => None
  }

  function IntProperty(f: Field): Option<string> {
    match f
    case FFileSizeMb => Some(FILESIZE_MB)
    case FMaxOutputTokens => Some(MAX_OUTPUT_TOKENS)
    case FCreatedAt => Some(CREATED_AT_UNIX)
    case _ => None
  }

  function Lookup<V>(m: map<string, V>, k: string, default: V): V { if k in m then m[k] else default }

  function DeviceTypeToString(d: DeviceType): string {
    match d
    case CPU => "CPU"
    case GPU => "GPU"
    case NPU => "NPU"
    case NotSet => "Invalid"
  }

  function DeviceTypeFromString(s: string): DeviceType {
    var l := Lower(s);
    if l == "cpu" then CPU else if l == "gpu" then GPU else if l == "npu" then NPU else NotSet
  }

  // ---------------------------------------------------------------------
  // Writing
  // ---------------------------------------------------------------------

  function StringsToJson(m: map<string, string>): Json { Obj(map k | k in m :: Str(m[k])) }

  function IntsToJson(m: map<string, Int64>): Json { Obj(map k | k in m :: Int(m[k])) }

  function Parameter(name: string, value: string): Json {
    if value == "" then Obj(map["Name" := Str(name)]) else Obj(map["Name" := Str(name), "Value" := Str(value)])
  }

  function Parameters(keys: seq<string>, m: map<string, string>): seq<Json>
    requires forall k :: k in keys ==> k in m
  {
    if keys == [] then [] else [Parameter(keys[0], m[keys[0]])] + Parameters(keys[1..], m)
  }

  function RuntimeToJson(info: ModelInfo): Json {
    var device := map["deviceType" := Str(DeviceTypeToString(info.deviceType))];
    Obj(if info.executionProvider == "" then device else device["executionProvider" := Str(info.executionProvider)])
  }

  /** -1 stands for "unknown" in the boolean-like integer properties. */
  function FlagToJson(ints: map<string, Int64>, key: string): Option<Json> {
    if key in ints && ints[key] >= 0 then Some(Bool(ints[key] != 0)) else None
  }

  /** What ModelInfoToJson puts under a named field, if it writes the field. */
  ghost function FieldValue(info: ModelInfo, f: Field): Option<Json> {
    match f
    case FId => Some(Str(info.modelId))
    case FName => Some(Str(info.name))
    case FVersion => Some(Int(info.version))
    case FAlias => Some(Str(info.alias))
    case FUri => Some(Str(info.uri))
    case FDetectedRegion => if info.detectedRegion == "" then None else Some(Str(info.detectedRegion))
    case FStringProperties => if info.strings == map[] then None else Some(StringsToJson(info.strings))
    case FIntProperties => if info.ints == map[] then None else Some(IntsToJson(info.ints))
    case FProviderType => Some(Str(Lookup(info.strings, MODEL_PROVIDER, "")))
    case FModelType => Some(Str(Lookup(info.strings, MODEL_TYPE, "")))
    case FRuntime =>
      if info.deviceType == NotSet && info.executionProvider == "" then None else Some(RuntimeToJson(info))
    case FPromptTemplate => if info.promptTemplates == map[] then None else Some(StringsToJson(info.promptTemplates))
    case FModelSettings =>
      if info.modelSettings == map[] then None
      else Some(Obj(map["parameters" := Arr(Parameters(SortedKeys(info.modelSettings.Keys), info.modelSettings))]))
    case FSupportsToolCalling => FlagToJson(info.ints, SUPPORTS_TOOL_CALLING)
    case FSupportsReasoning => FlagToJson(info.ints, SUPPORTS_REASONING)
    case FTestModel => if IS_TEST_MODEL in info.ints then Some(Bool(info.ints[IS_TEST_MODEL] != 0)) else None
    case FFoundryLocal => None
    case _ =>
      if StringProperty(f).Some? then
        var v := Lookup(info.strings, StringProperty(f).value, "");
        if v == "" then None else Some(Str(v))
      else if IntProperty(f).Some? && IntProperty(f).value in info.ints then Some(Int(info.ints[IntProperty(f).value]))
      else None
  }

  /** The object with the given named fields. */
  ghost function Collect(value: Field -> Option<Json>): (fields: map<string, Json>)
    ensures forall f :: value(f).Some? ==> Key(f) in fields && fields[Key(f)] == value(f).value
    ensures forall k :: k in fields ==> exists f :: value(f).Some? && Key(f) == k
  {
    KeysDiffer();
    var keys := set f: Field | value(f).Some? :: Key(f);
    map k | k in keys :: value(FieldOf(k)).value
  }

  ghost function ToJson(info: ModelInfo): Json {
    Obj(Collect(f => FieldValue(info, f)))
  }

  // ---------------------------------------------------------------------
  // Reading
  // ---------------------------------------------------------------------

  function At(j: Json, k: string): Option<Json> {
    if j.Obj? && k in j.fields then Some(j.fields[k]) else None
  }

  function Get(j: Json, f: Field): Option<Json> { At(j, Key(f)) }

  function StringOr(v: Option<Json>, default: string): string {
    if v.Some? && v.value.Str? then v.value.s else default
  }

  function StringsFromJson(v: Option<Json>): map<string, string> {
    if v.Some? && v.value.Obj? then
      map k | k in v.value.fields && v.value.fields[k].Str? :: v.value.fields[k].s
    else map[]
  }

  function IntsFromJson(v: Option<Json>): map<string, Int64> {
    if v.Some? && v.value.Obj? then
      map k | k in v.value.fields && v.value.fields[k].Int? :: ToInt64(v.value.fields[k].n)
    else map[]
  }

  /** KeyValuePairs::Add: an empty key is ignored. */
  function Add(m: map<string, string>, k: string, v: string): map<string, string> {
    if k == "" then m else m[k := v]
  }

  function AddParameters(m: map<string, string>, items: seq<Json>): map<string, string>
    decreases |items|
  {
    if items == [] then m
    else
      var name := At(items[0], "Name");
      var named := name.Some? && name.value.Str?;
      AddParameters(if named then Add(m, name.value.s, StringOr(At(items[0], "Value"), "")) else m, items[1..])
  }

  function SettingsFromJson(v: Option<Json>): map<string, string> {
    if v.None? then map[] else
      var parameters := At(v.value, "parameters");
      if parameters.Some? && parameters.value.Arr? then AddParameters(map[], parameters.value.items) else map[]
  }

  /** ReadStringProp for a list of named fields. */
  function ReadStrings(j: Json, fs: seq<Field>, props: map<string, string>): map<string, string>
    decreases |fs|
  {
    if fs == [] then props
    else
      var v := StringOr(Get(j, fs[0]), "");
      var named := StringProperty(fs[0]);
      ReadStrings(j, fs[1..], if named.Some? && v != "" then props[named.value := v] else props)
  }

  function ReadInts(j: Json, fs: seq<Field>, props: map<string, Int64>): map<string, Int64>
    decreases |fs|
  {
    if fs == [] then props
    else
      var v := Get(j, fs[0]);
      var named := IntProperty(fs[0]);
      var read := if named.Some? && v.Some? && v.value.Int? then props[named.value := ToInt64(v.value.n)] else props;
      ReadInts(j, fs[1..], read)
  }

  function ReadFlag(v: Option<Json>, props: map<string, Int64>, key: string): map<string, Int64> {
    if v.Some? && v.value.Bool? then props[key := if v.value.b then 1 else 0] else props
  }

  const STRING_FIELDS := [FProviderType, FModelType, FDisplayName, FPublisher, FLicense, FLicenseDescription, FTask,
      FMinFLVersion, FParentModelUri, FToolCallStart, FToolCallEnd, FReasoningStart, FReasoningEnd]

  const INT_FIELDS := [FFileSizeMb, FMaxOutputTokens, FCreatedAt]

  function ReadBag(j: Json): map<string, string> { StringsFromJson(Get(j, FStringProperties)) }

  function ReadStringProperties(j: Json): map<string, string> { ReadStrings(j, STRING_FIELDS, ReadBag(j)) }

  function ReadIntProperties(j: Json): map<string, Int64> {
    var ints := ReadInts(j, INT_FIELDS, IntsFromJson(Get(j, FIntProperties)));
    var flags := ReadFlag(Get(j, FSupportsReasoning),
                          ReadFlag(Get(j, FSupportsToolCalling), ints, SUPPORTS_TOOL_CALLING), SUPPORTS_REASONING);
    if StringOr(Get(j, FFoundryLocal), "") == "test" then flags[IS_TEST_MODEL := 1] else flags
  }

  /** The property bag sets the task field through SetPropertyStr, the named field overrides it. */
  function ReadTask(j: Json): string {
    var named := Lookup(ReadStringProperties(j), TASK, "");
    if named != "" then named else Lookup(ReadBag(j), TASK, "")
  }

  function ReadRuntime(j: Json, key: string): Option<Json> {
    var runtime := Get(j, FRuntime);
    if runtime.Some? then At(runtime.value, key) else None
  }

  function ReadDevice(j: Json): DeviceType {
    DeviceTypeFromString(StringOr(ReadRuntime(j, "deviceType"), Lookup(ReadBag(j), DEVICE_TYPE, "")))
  }

  function ReadProvider(j: Json): string { StringOr(ReadRuntime(j, "executionProvider"), Lookup(ReadBag(j), EP, "")) }

  function ReadVersion(j: Json): Int32 {
    var v := Get(j, FVersion);
    if v.Some? && v.value.Int? then ToInt32(v.value.n) else 0
  }

  function FromJson(j: Json): ModelInfo {
    ModelInfo(
      StringOr(Get(j, FId), ""),
      StringOr(Get(j, FName), ""),
      ReadVersion(j),
      StringOr(Get(j, FAlias), ""),
      StringOr(Get(j, FUri), ""),
      ReadDevice(j),
      ReadProvider(j),
      ReadTask(j),
      StringOr(Get(j, FDetectedRegion), ""),
      StringsFromJson(Get(j, FPromptTemplate)) - {""},
      SettingsFromJson(Get(j, FModelSettings)),
      ReadStringProperties(j),
      ReadIntProperties(j))
  }

  // ---------------------------------------------------------------------
  // One trip through JSON
  // ---------------------------------------------------------------------

  function Flag(ints: map<string, Int64>, key: string): map<string, Int64> {
    if key in ints && ints[key] > 1 then ints[key := 1] else ints
  }

  /** What is left of a ModelInfo after it has been written and read back. */
  function Normalised(info: ModelInfo): ModelInfo {
    info.(
      task := Lookup(info.strings, TASK, ""),
      executionProvider := if info.executionProvider != "" then info.executionProvider
                           else Lookup(info.strings, EP, ""),
      deviceType := if info.deviceType != NotSet || info.executionProvider != "" then info.deviceType
                    else DeviceTypeFromString(Lookup(info.strings, DEVICE_TYPE, "")),
      promptTemplates := info.promptTemplates - {""},
      modelSettings := info.modelSettings - {""},
      ints := Flag(Flag(info.ints, SUPPORTS_TOOL_CALLING), SUPPORTS_REASONING))
  }

  lemma FieldIsFound(info: ModelInfo, f: Field)
    ensures Get(ToJson(info), f) == FieldValue(info, f)
  {
    KeysDiffer();
    hide Key, FieldValue;
  }

  lemma StringsTrip(m: map<string, string>)
    ensures StringsFromJson(Some(StringsToJson(m))) == m
  {
  }

  lemma IntsTrip(m: map<string, Int64>)
    ensures IntsFromJson(Some(IntsToJson(m))) == m
  {
  }

  lemma {:induction false} StringReadsIdle(j: Json, fs: seq<Field>, props: map<string, string>)
    requires forall f :: f in fs && StringProperty(f).Some? ==>
               StringOr(Get(j, f), "") == Lookup(props, StringProperty(f).value, "")
    ensures ReadStrings(j, fs, props) == props
    decreases |fs|
  {
    if fs != [] {
      var f := fs[0];
      if StringProperty(f).Some? && StringOr(Get(j, f), "") != "" {
        var p := StringProperty(f).value;
        assert props[p := props[p]] == props;
      }
      StringReadsIdle(j, fs[1..], props);
    }
  }

  lemma {:induction false} IntReadsIdle(j: Json, fs: seq<Field>, props: map<string, Int64>)
    requires forall f :: f in fs && IntProperty(f).Some? && Get(j, f).Some? ==>
               IntProperty(f).value in props && Get(j, f).value == Int(props[IntProperty(f).value])
    ensures ReadInts(j, fs, props) == props
    decreases |fs|
  {
    if fs != [] {
      var f := fs[0];
      if IntProperty(f).Some? && Get(j, f).Some? {
        var p := IntProperty(f).value;
        assert props[p := props[p]] == props;
      }
      IntReadsIdle(j, fs[1..], props);
    }
  }

  lemma ParameterTrip(m: map<string, string>, k: string, v: string, rest: seq<Json>)
    ensures AddParameters(m, [Parameter(k, v)] + rest) == AddParameters(Add(m, k, v), rest)
  {
    var items := [Parameter(k, v)] + rest;
    assert items[1..] == rest;
    assert At(items[0], "Name") == Some(Str(k));
    assert StringOr(At(items[0], "Value"), "") == v;
  }

  ghost function Named(keys: seq<string>, m: map<string, string>): map<string, string> {
    map k | k in keys && k in m && k != "" :: m[k]
  }

  lemma NamedGrows(acc: map<string, string>, k: string, rest: seq<string>, m: map<string, string>)
    requires k in m
    ensures Add(acc, k, m[k]) + Named(rest, m) == acc + Named([k] + rest, m)
  {
  }

  lemma {:induction false} ParametersTrip(acc: map<string, string>, keys: seq<string>, m: map<string, string>)
    requires forall k :: k in keys ==> k in m
    ensures AddParameters(acc, Parameters(keys, m)) == acc + Named(keys, m)
    decreases |keys|
  {
    if keys == [] {
      assert acc + Named(keys, m) == acc;
    } else {
      hide AddParameters, Parameter, Named, Add;
      var k, rest := keys[0], keys[1..];
      assert keys == [k] + rest;
      ParameterTrip(acc, k, m[k], Parameters(rest, m));
      ParametersTrip(Add(acc, k, m[k]), rest, m);
      NamedGrows(acc, k, rest, m);
    }
  }

  lemma SettingsTrip(info: ModelInfo)
    ensures SettingsFromJson(FieldValue(info, FModelSettings)) == info.modelSettings - {""}
  {
    var keys := SortedKeys(info.modelSettings.Keys);
    ParametersTrip(map[], keys, info.modelSettings);
    assert map[] + Named(keys, info.modelSettings) == info.modelSettings - {""};
  }

  lemma BagAfterTrip(info: ModelInfo)
    ensures ReadBag(ToJson(info)) == info.strings
  {
    hide ToJson, Get;
    FieldIsFound(info, FStringProperties);
    StringsTrip(info.strings);
  }

  lemma StringFieldValue(info: ModelInfo, f: Field)
    requires StringProperty(f).Some?
    ensures StringOr(FieldValue(info, f), "") == Lookup(info.strings, StringProperty(f).value, "")
  {
  }

  lemma StringsAfterTrip(info: ModelInfo)
    ensures ReadStringProperties(ToJson(info)) == info.strings
  {
    hide ToJson, Get, FieldValue, StringProperty, ReadStrings, ReadBag, STRING_FIELDS;
    var j := ToJson(info);
    BagAfterTrip(info);
    forall f | f in STRING_FIELDS && StringProperty(f).Some?
      ensures StringOr(Get(j, f), "") == Lookup(info.strings, StringProperty(f).value, "")
    {
      FieldIsFound(info, f);
      StringFieldValue(info, f);
    }
    StringReadsIdle(j, STRING_FIELDS, info.strings);
  }

  lemma IntFieldValue(info: ModelInfo, f: Field)
    requires IntProperty(f).Some? && FieldValue(info, f).Some?
    ensures IntProperty(f).value in info.ints && FieldValue(info, f).value == Int(info.ints[IntProperty(f).value])
  {
  }

  lemma PlainIntsAfterTrip(info: ModelInfo)
    ensures ReadInts(ToJson(info), INT_FIELDS, IntsFromJson(Get(ToJson(info), FIntProperties))) == info.ints
  {
    var j := ToJson(info);
    assert IntsFromJson(FieldValue(info, FIntProperties)) == info.ints by {
      IntsTrip(info.ints);
    }
    hide ToJson, Get, FieldValue, IntProperty, ReadInts, INT_FIELDS;
    FieldIsFound(info, FIntProperties);
    forall f | f in INT_FIELDS && IntProperty(f).Some? && Get(j, f).Some?
      ensures IntProperty(f).value in info.ints && Get(j, f).value == Int(info.ints[IntProperty(f).value])
    {
      FieldIsFound(info, f);
      IntFieldValue(info, f);
    }
    IntReadsIdle(j, INT_FIELDS, info.ints);
  }

  lemma FlagTrip(ints: map<string, Int64>, key: string)
    ensures ReadFlag(FlagToJson(ints, key), ints, key) == Flag(ints, key)
  {
  }

  lemma FlagPropertiesDiffer()
    ensures SUPPORTS_TOOL_CALLING != SUPPORTS_REASONING
  {
    assert |SUPPORTS_TOOL_CALLING| != |SUPPORTS_REASONING|;
  }

  lemma FlagFieldValues(info: ModelInfo)
    ensures FieldValue(info, FSupportsToolCalling) == FlagToJson(info.ints, SUPPORTS_TOOL_CALLING)
    ensures FieldValue(info, FSupportsReasoning) == FlagToJson(info.ints, SUPPORTS_REASONING)
    ensures FieldValue(info, FFoundryLocal) == None
  {
  }

  lemma FlagsAreIndependent(ints: map<string, Int64>)
    ensures FlagToJson(Flag(ints, SUPPORTS_TOOL_CALLING), SUPPORTS_REASONING) == FlagToJson(ints, SUPPORTS_REASONING)
  {
    FlagPropertiesDiffer();
  }

  lemma IntsAfterTrip(info: ModelInfo)
    ensures ReadIntProperties(ToJson(info)) == Normalised(info).ints
  {
    hide ToJson, Get, ReadInts, FieldValue, Flag, FlagToJson, ReadFlag, IntsFromJson, Key;
    PlainIntsAfterTrip(info);
    FieldIsFound(info, FSupportsToolCalling);
    FieldIsFound(info, FSupportsReasoning);
    FieldIsFound(info, FFoundryLocal);
    FlagFieldValues(info);
    FlagsAreIndependent(info.ints);
    FlagTrip(info.ints, SUPPORTS_TOOL_CALLING);
    FlagTrip(Flag(info.ints, SUPPORTS_TOOL_CALLING), SUPPORTS_REASONING);
    assert StringOr(None, "") != "test";
  }

  lemma RuntimeTrip(info: ModelInfo)
    ensures At(RuntimeToJson(info), "deviceType") == Some(Str(DeviceTypeToString(info.deviceType)))
    ensures At(RuntimeToJson(info), "executionProvider")
            == if info.executionProvider == "" then None else Some(Str(info.executionProvider))
  {
    assert |"deviceType"| != |"executionProvider"|;
  }

  lemma DeviceTrip(d: DeviceType)
    ensures DeviceTypeFromString(DeviceTypeToString(d)) == d
  {
    match d
    case CPU => assert Lower("CPU") == "cpu";
    case GPU => assert Lower("GPU") == "gpu" && "gpu"[0] != "cpu"[0];
    case NPU => assert Lower("NPU") == "npu" && "npu"[0] != "cpu"[0] && "npu"[0] != "gpu"[0];
    case NotSet => assert |Lower("Invalid")| == 7;
  }

  lemma TypedAfterTrip(info: ModelInfo)
    ensures ReadDevice(ToJson(info)) == Normalised(info).deviceType
    ensures ReadProvider(ToJson(info)) == Normalised(info).executionProvider
    ensures ReadTask(ToJson(info)) == Normalised(info).task
  {
    hide ToJson, Get, ReadBag, ReadStringProperties, RuntimeToJson, DeviceTypeFromString, DeviceTypeToString, At;
    BagAfterTrip(info);
    StringsAfterTrip(info);
    FieldIsFound(info, FRuntime);
    RuntimeTrip(info);
    DeviceTrip(info.deviceType);
  }

  lemma MapsAfterTrip(info: ModelInfo)
    ensures StringsFromJson(Get(ToJson(info), FPromptTemplate)) - {""} == Normalised(info).promptTemplates
    ensures SettingsFromJson(Get(ToJson(info), FModelSettings)) == Normalised(info).modelSettings
  {
    hide ToJson, Get, SettingsFromJson;
    FieldIsFound(info, FPromptTemplate);
    FieldIsFound(info, FModelSettings);
    StringsTrip(info.promptTemplates);
    SettingsTrip(info);
  }

  lemma PlainFieldsAfterTrip(info: ModelInfo)
    ensures var j := ToJson(info);
            && StringOr(Get(j, FId), "") == info.modelId
            && StringOr(Get(j, FName), "") == info.name
            && StringOr(Get(j, FAlias), "") == info.alias
            && StringOr(Get(j, FUri), "") == info.uri
            && StringOr(Get(j, FDetectedRegion), "") == info.detectedRegion
            && ReadVersion(j) == info.version
  {
    hide ToJson, Get;
    FieldIsFound(info, FId);
    FieldIsFound(info, FName);
    FieldIsFound(info, FVersion);
    FieldIsFound(info, FAlias);
    FieldIsFound(info, FUri);
    FieldIsFound(info, FDetectedRegion);
  }

  /** Writing and reading back loses exactly what Normalised says. */
  lemma TripNormalises(info: ModelInfo)
    ensures FromJson(ToJson(info)) == Normalised(info)
  {
    hide ToJson, Get, StringsFromJson, SettingsFromJson, StringOr, ReadVersion, ReadDevice, ReadProvider, ReadTask,
         ReadStringProperties, ReadIntProperties;
    PlainFieldsAfterTrip(info);
    StringsAfterTrip(info);
    IntsAfterTrip(info);
    TypedAfterTrip(info);
    MapsAfterTrip(info);
  }

  ghost predicate FlagNormal(ints: map<string, Int64>, key: string) { key in ints ==> ints[key] <= 1 }

  /** What a ModelInfo must look like to survive a trip unchanged: the task field is the
      one in the string properties, the execution provider and the device are
      not left to be refilled from there, no pair has an empty key, and the
      boolean-like integers are unknown, 0 or 1. */
  ghost predicate NormalForm(info: ModelInfo) {
    && info.task == Lookup(info.strings, TASK, "")
    && (info.executionProvider == "" ==> Lookup(info.strings, EP, "") == "")
    && (info.executionProvider == "" && info.deviceType == NotSet ==>
          DeviceTypeFromString(Lookup(info.strings, DEVICE_TYPE, "")) == NotSet)
    && "" !in info.promptTemplates && "" !in info.modelSettings
    && FlagNormal(info.ints, SUPPORTS_TOOL_CALLING) && FlagNormal(info.ints, SUPPORTS_REASONING)
  }

  ghost function Trip(info: ModelInfo): ModelInfo { FromJson(ToJson(info)) }

  lemma DroppedKey<V>(m: map<string, V>, k: string)
    ensures m - {k} == m <==> k !in m
  {
    if k !in m { assert m - {k} == m; }
  }

  lemma FlagsFixed(ints: map<string, Int64>)
    ensures Flag(Flag(ints, SUPPORTS_TOOL_CALLING), SUPPORTS_REASONING) == ints
            <==> FlagNormal(ints, SUPPORTS_TOOL_CALLING) && FlagNormal(ints, SUPPORTS_REASONING)
  {
    FlagPropertiesDiffer();
    var once := Flag(ints, SUPPORTS_TOOL_CALLING);
    if !FlagNormal(ints, SUPPORTS_TOOL_CALLING) {
      assert Flag(once, SUPPORTS_REASONING)[SUPPORTS_TOOL_CALLING] == 1;
    } else if !FlagNormal(ints, SUPPORTS_REASONING) {
      assert Flag(once, SUPPORTS_REASONING)[SUPPORTS_REASONING] == 1;
    }
  }

  /** A trip through JSON changes nothing exactly on the normal form. */
  lemma NormalFormIsFixed(info: ModelInfo)
    ensures Trip(info) == info <==> NormalForm(info)
  {
    hide FromJson, ToJson;
    TripNormalises(info);
    DroppedKey(info.promptTemplates, "");
    DroppedKey(info.modelSettings, "");
    FlagsFixed(info.ints);
  }

  lemma NormalisedIsNormal(info: ModelInfo)
    ensures NormalForm(Normalised(info))
  {
    FlagPropertiesDiffer();
  }

  /** One trip normalises; every later one is the identity. */
  lemma SecondTripIsIdentity(info: ModelInfo)
    ensures NormalForm(Trip(info)) && Trip(Trip(info)) == Trip(info)
  {
    hide FromJson, ToJson, NormalForm, Normalised;
    TripNormalises(info);
    NormalisedIsNormal(info);
    NormalFormIsFixed(Trip(info));
  }

  /** The first trip is not the identity: an integer of 5 comes back as 1. */
  lemma FirstTripMayChange(info: ModelInfo)
    requires SUPPORTS_TOOL_CALLING in info.ints && info.ints[SUPPORTS_TOOL_CALLING] == 5
    ensures SUPPORTS_TOOL_CALLING in Trip(info).ints && Trip(info).ints[SUPPORTS_TOOL_CALLING] == 1
  {
    hide FromJson, ToJson;
    TripNormalises(info);
    FlagPropertiesDiffer();
  }
}
