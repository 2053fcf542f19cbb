/**
  What reading and writing a ModelInfo does, key by key (sdk_v2/cpp/src/model_info.cc:
  83-379), for every JSON value and every ModelInfo.
*/
module ModelInfoShape {
  import opened StringOrder
  import opened ModelInfoJson

  // ---------------------------------------------------------------------
  // JSON by key
  // ---------------------------------------------------------------------

  function ValueOf<V>(m: map<string, V>, k: string): Option<V> { if k in m then Some(m[k]) else None }

  function Text(j: Json, key: string): Option<string> {
    if j.Obj? && key in j.fields && j.fields[key].Str? then Some(j.fields[key].s) else None
  }

  function TextOr(j: Json, key: string): string { if Text(j, key).Some? then Text(j, key).value else "" }

  function Number(j: Json, key: string): Option<int> {
    if j.Obj? && key in j.fields && j.fields[key].Int? then Some(j.fields[key].n) else None
  }

  function Truth(j: Json, key: string): Option<bool> {
    if j.Obj? && key in j.fields && j.fields[key].Bool? then Some(j.fields[key].b) else None
  }

  /** The value under a key; what is not there holds nothing. */
  function Child(j: Json, key: string): Json { if j.Obj? && key in j.fields then j.fields[key] else Null }

  function Items(j: Json): seq<Json> { if j.Arr? then j.items else [] }

  /** The named string fields and their properties. */
  predicate NamesString(key: string, property: string) {
    || (key == "providerType" && property == "model_provider")
    || (key == "modelType" && property == "type")
    || (key == "displayName" && property == "display_name")
    || (key == "publisher" && property == "publisher")
    || (key == "license" && property == "license")
    || (key == "licenseDescription" && property == "license_description")
    || (key == "task" && property == "task")
    || (key == "minFLVersion" && property == "min_fl_version")
    || (key == "parentModelUri" && property == "parent_uri")
    || (key == "toolCallStart" && property == "tool_call_start")
    || (key == "toolCallEnd" && property == "tool_call_end")
    || (key == "reasoningStart" && property == "reasoning_start")
    || (key == "reasoningEnd" && property == "reasoning_end")
  }

  predicate NamesInt(key: string, property: string) {
    || (key == "fileSizeMb" && property == "filesize_mb")
    || (key == "maxOutputTokens" && property == "max_output_tokens")
    || (key == "createdAt" && property == "created_at_unix")
  }

  predicate NamesFlag(key: string, property: string) {
    || (key == "supportsToolCalling" && property == "supports_tool_calling")
    || (key == "supportsReasoning" && property == "supports_reasoning")
  }

  // ---------------------------------------------------------------------
  // Reading
  // ---------------------------------------------------------------------

  /** A non-empty named string wins, every other property is the bag's. */
  ghost predicate StringsRead(j: Json, strings: map<string, string>) {
    && (forall key, property :: NamesString(key, property) && TextOr(j, key) != "" ==>
          ValueOf(strings, property) == Some(TextOr(j, key)))
    && (forall property :: (forall key :: NamesString(key, property) ==> TextOr(j, key) == "") ==>
          ValueOf(strings, property) == Text(Child(j, "stringProperties"), property))
  }

  function Wide(n: Option<int>): Option<Int64> { if n.Some? then Some(ToInt64(n.value)) else None }

  /** A named number or truth value wins, "test" marks a test model, every other property is the bag's. */
  ghost predicate IntsRead(j: Json, ints: map<string, Int64>) {
    && (forall key, property :: NamesInt(key, property) && Number(j, key).Some? ==>
          ValueOf(ints, property) == Wide(Number(j, key)))
    && (forall key, property :: NamesFlag(key, property) && Truth(j, key).Some? ==>
          ValueOf(ints, property) == Some(if Truth(j, key).value then 1 else 0))
    && (Text(j, "foundryLocal") == Some("test") ==> ValueOf(ints, "is_test_model") == Some(1))
    && (forall property :: LeftToBag(j, property) ==>
          ValueOf(ints, property) == Wide(Number(Child(j, "intProperties"), property)))
  }

  ghost predicate LeftToBag(j: Json, property: string) {
    && (forall key :: NamesInt(key, property) ==> Number(j, key) == None)
    && (forall key :: NamesFlag(key, property) ==> Truth(j, key) == None)
    && (property == "is_test_model" ==> Text(j, "foundryLocal") != Some("test"))
  }

  predicate IsDevice(d: DeviceType, text: string) {
    match d
    case CPU => Lower(text) == "cpu"
    case GPU => Lower(text) == "gpu"
    case NPU => Lower(text) == "npu"
    case NotSet => Lower(text) != "cpu" && Lower(text) != "gpu" && Lower(text) != "npu"
  }

  /** The runtime's text, else the bag's. */
  function RuntimeText(j: Json, key: string, property: string): string {
    if Text(Child(j, "runtime"), key).Some? then TextOr(Child(j, "runtime"), key)
    else TextOr(Child(j, "stringProperties"), property)
  }

  ghost predicate TypedRead(j: Json, info: ModelInfo) {
    && IsDevice(info.deviceType, RuntimeText(j, "deviceType", "device_type"))
    && info.executionProvider == RuntimeText(j, "executionProvider", "execution_provider")
    && info.task == if TextOr(j, "task") != "" then TextOr(j, "task")
                    else TextOr(Child(j, "stringProperties"), "task")
  }

  ghost predicate PlainRead(j: Json, info: ModelInfo) {
    && info.modelId == TextOr(j, "id") && info.name == TextOr(j, "name") && info.alias == TextOr(j, "alias")
    && info.uri == TextOr(j, "uri") && info.detectedRegion == TextOr(j, "detectedRegion")
    && info.version == (if Number(j, "version").Some? then ToInt32(Number(j, "version").value) else 0)
  }

  ghost predicate TemplatesRead(j: Json, templates: map<string, string>) {
    forall k :: ValueOf(templates, k) == if k == "" then None else Text(Child(j, "promptTemplate"), k)
  }

  ghost predicate NamedAt(items: seq<Json>, i: int, name: string) {
    0 <= i < |items| && Text(items[i], "Name") == Some(name)
  }

  /** Of several parameters with one name the last wins; no name is no parameter. */
  ghost predicate SettingsRead(items: seq<Json>, settings: map<string, string>) {
    && (forall name :: name in settings ==> name != "" && exists i :: NamedAt(items, i, name))
    && (forall name, i :: NamedAt(items, i, name) && name != "" && (forall k :: i < k ==> !NamedAt(items, k, name)) ==>
          ValueOf(settings, name) == Some(TextOr(items[i], "Value")))
  }

  ghost predicate ReadAs(j: Json, info: ModelInfo) {
    && PlainRead(j, info) && TypedRead(j, info) && StringsRead(j, info.strings) && IntsRead(j, info.ints)
    && TemplatesRead(j, info.promptTemplates)
    && SettingsRead(Items(Child(Child(j, "modelSettings"), "parameters")), info.modelSettings)
  }

  lemma TextIsStringOr(j: Json, key: string)
    ensures StringOr(At(j, key), "") == TextOr(j, key)
  {
  }

  // Named strings

  /** The property names as fields; length and two letters tell them apart. */
  function PropertyField(property: string): Field {
    if |property| == 4 then if property[1] == 'y' then FModelType else FTask
    else if |property| == 7 then FLicense
    else if |property| == 9 then FPublisher
    else if |property| == 10 then FParentModelUri
    else if |property| == 12 then FDisplayName
    else if |property| == 13 then if property[0] == 't' then FToolCallEnd else FReasoningEnd
    else if |property| == 14 then if property[1] == 'o' then FProviderType else FMinFLVersion
    else if |property| == 15 then if property[0] == 't' then FToolCallStart else FReasoningStart
    else FLicenseDescription
  }

  lemma PropertyTellsField(f: Field)
    ensures StringProperty(f).Some? ==> PropertyField(StringProperty(f).value) == f
  {
  }

  lemma OneFieldAProperty(f: Field)
    requires StringProperty(f).Some?
    ensures forall g :: StringProperty(g) == StringProperty(f) ==> g == f
  {
    PropertyTellsField(f);
    forall g
      ensures StringProperty(g) == StringProperty(f) ==> g == f
    {
      PropertyTellsField(g);
      hide StringProperty, PropertyField;
    }
  }

  lemma StringFieldsAreListed(f: Field)
    ensures f in STRING_FIELDS <==> StringProperty(f).Some?
  {
    hide MODEL_PROVIDER, MODEL_TYPE, DISPLAY_NAME, PUBLISHER, LICENSE, LICENSE_DESCRIPTION, TASK, MIN_FL_VERSION,
      PARENT_URI, TOOL_CALL_START, TOOL_CALL_END, REASONING_START, REASONING_END;
  }

  lemma CatalogFieldIsNamed(f: Field)
    requires f.FProviderType? || f.FModelType? || f.FDisplayName? || f.FPublisher? || f.FLicense?
      || f.FLicenseDescription? || f.FTask?
    ensures StringProperty(f).Some? && NamesString(Key(f), StringProperty(f).value)
  {
  }

  lemma MarkerFieldIsNamed(f: Field)
    requires f.FMinFLVersion? || f.FParentModelUri? || f.FToolCallStart? || f.FToolCallEnd? || f.FReasoningStart?
      || f.FReasoningEnd?
    ensures StringProperty(f).Some? && NamesString(Key(f), StringProperty(f).value)
  {
  }

  lemma StringFieldsAreNamed(f: Field)
    ensures f in STRING_FIELDS <==> StringProperty(f).Some?
    ensures StringProperty(f).Some? ==> NamesString(Key(f), StringProperty(f).value)
  {
    StringFieldsAreListed(f);
    hide NamesString, Key, StringProperty;
    match f
    case FProviderType | FModelType | FDisplayName | FPublisher | FLicense | FLicenseDescription | FTask =>
      CatalogFieldIsNamed(f);
    case FMinFLVersion | FParentModelUri | FToolCallStart | FToolCallEnd | FReasoningStart | FReasoningEnd =>
      MarkerFieldIsNamed(f);
    case _ => OtherFieldIsUnnamed(f);
  }

  lemma OtherFieldIsUnnamed(f: Field)
    requires !f.FProviderType? && !f.FModelType? && !f.FDisplayName? && !f.FPublisher? && !f.FLicense?
    requires !f.FLicenseDescription? && !f.FTask? && !f.FMinFLVersion? && !f.FParentModelUri? && !f.FToolCallStart?
    requires !f.FToolCallEnd? && !f.FReasoningStart? && !f.FReasoningEnd?
    ensures StringProperty(f).None?
  {
  }

  lemma NamedIsStringField(key: string, property: string)
    requires NamesString(key, property)
    ensures exists f :: Key(f) == key && StringProperty(f) == Some(property)
  {
    if key == "providerType" && property == "model_provider" {
      assert Key(FProviderType) == key && StringProperty(FProviderType) == Some(property);
    } else if key == "modelType" && property == "type" {
      assert Key(FModelType) == key && StringProperty(FModelType) == Some(property);
    } else if key == "displayName" && property == "display_name" {
      assert Key(FDisplayName) == key && StringProperty(FDisplayName) == Some(property);
    } else if key == "publisher" && property == "publisher" {
      assert Key(FPublisher) == key && StringProperty(FPublisher) == Some(property);
    } else if key == "license" && property == "license" {
      assert Key(FLicense) == key && StringProperty(FLicense) == Some(property);
    } else if key == "licenseDescription" && property == "license_description" {
      assert Key(FLicenseDescription) == key && StringProperty(FLicenseDescription) == Some(property);
    } else if key == "task" && property == "task" {
      assert Key(FTask) == key && StringProperty(FTask) == Some(property);
    } else if key == "minFLVersion" && property == "min_fl_version" {
      assert Key(FMinFLVersion) == key && StringProperty(FMinFLVersion) == Some(property);
    } else if key == "parentModelUri" && property == "parent_uri" {
      assert Key(FParentModelUri) == key && StringProperty(FParentModelUri) == Some(property);
    } else if key == "toolCallStart" && property == "tool_call_start" {
      assert Key(FToolCallStart) == key && StringProperty(FToolCallStart) == Some(property);
    } else if key == "toolCallEnd" && property == "tool_call_end" {
      assert Key(FToolCallEnd) == key && StringProperty(FToolCallEnd) == Some(property);
    } else if key == "reasoningStart" && property == "reasoning_start" {
      assert Key(FReasoningStart) == key && StringProperty(FReasoningStart) == Some(property);
    } else {
      assert Key(FReasoningEnd) == key && StringProperty(FReasoningEnd) == Some(property);
    }
  }

  lemma {:induction false} NamedStringWins(j: Json, fs: seq<Field>, props: map<string, string>, f: Field)
    requires f in fs && StringProperty(f).Some? && StringOr(Get(j, f), "") != ""
    ensures ValueOf(ReadStrings(j, fs, props), StringProperty(f).value) == Some(StringOr(Get(j, f), ""))
    decreases |fs|
  {
    var p, v := StringProperty(f).value, StringOr(Get(j, fs[0]), "");
    OneFieldAProperty(f);
    hide StringProperty, Get;
    var named := StringProperty(fs[0]);
    var next := if named.Some? && v != "" then props[named.value := v] else props;
    if f in fs[1..] {
      NamedStringWins(j, fs[1..], next, f);
    } else {
      assert fs[0] == f;
      NamedStringStays(j, fs[1..], next, p);
    }
  }

  lemma {:induction false} NamedStringStays(j: Json, fs: seq<Field>, props: map<string, string>, p: string)
    requires forall f :: f in fs && StringProperty(f) == Some(p) ==> StringOr(Get(j, f), "") == ""
    ensures ValueOf(ReadStrings(j, fs, props), p) == ValueOf(props, p)
    decreases |fs|
  {
    hide StringProperty, Get;
    if fs != [] {
      var v, named := StringOr(Get(j, fs[0]), ""), StringProperty(fs[0]);
      var next := if named.Some? && v != "" then props[named.value := v] else props;
      assert fs[0] in fs;
      NamedStringStays(j, fs[1..], next, p);
    }
  }

  lemma FieldsOfString(j: Json, f: Field)
    ensures StringOr(Get(j, f), "") == TextOr(j, Key(f))
  {
  }

  lemma BagIsChild(j: Json, property: string)
    ensures ValueOf(ReadBag(j), property) == Text(Child(j, "stringProperties"), property)
  {
    assert Key(FStringProperties) == "stringProperties";
    hide Key;
  }

  lemma StringsAreRead(j: Json)
    ensures StringsRead(j, ReadStringProperties(j))
  {
    hide NamesString, Key, StringProperty, ReadStrings, ReadBag, Get, TextOr, STRING_FIELDS;
    var strings := ReadStringProperties(j);
    forall key, property | NamesString(key, property) && TextOr(j, key) != ""
      ensures ValueOf(strings, property) == Some(TextOr(j, key))
    {
      NamedIsStringField(key, property);
      var f :| Key(f) == key && StringProperty(f) == Some(property);
      StringFieldsAreNamed(f);
      FieldsOfString(j, f);
      NamedStringWins(j, STRING_FIELDS, ReadBag(j), f);
    }
    forall property | forall key :: NamesString(key, property) ==> TextOr(j, key) == ""
      ensures ValueOf(strings, property) == Text(Child(j, "stringProperties"), property)
    {
      forall f | f in STRING_FIELDS && StringProperty(f) == Some(property)
        ensures StringOr(Get(j, f), "") == ""
      {
        StringFieldsAreNamed(f);
        FieldsOfString(j, f);
      }
      NamedStringStays(j, STRING_FIELDS, ReadBag(j), property);
      BagIsChild(j, property);
    }
  }

  // Named numbers and truth values

  /** The integer properties have names of different lengths. */
  lemma IntPropertiesDiffer(property: string)
    ensures property == FILESIZE_MB ==> |property| == 11
    ensures property == MAX_OUTPUT_TOKENS ==> |property| == 17
    ensures property == CREATED_AT_UNIX ==> |property| == 15
    ensures property == SUPPORTS_TOOL_CALLING ==> |property| == 21
    ensures property == SUPPORTS_REASONING ==> |property| == 18
    ensures property == IS_TEST_MODEL ==> |property| == 13
  {
  }

  /** What the three named numbers leave behind. */
  lemma NumbersRead(j: Json, props: map<string, Int64>)
    ensures var r := ReadInts(j, INT_FIELDS, props);
            && (Number(j, "fileSizeMb").Some? ==> ValueOf(r, FILESIZE_MB) == Wide(Number(j, "fileSizeMb")))
            && (Number(j, "maxOutputTokens").Some? ==>
                  ValueOf(r, MAX_OUTPUT_TOKENS) == Wide(Number(j, "maxOutputTokens")))
            && (Number(j, "createdAt").Some? ==> ValueOf(r, CREATED_AT_UNIX) == Wide(Number(j, "createdAt")))
    ensures forall property :: (forall key :: NamesInt(key, property) ==> Number(j, key) == None) ==>
              ValueOf(ReadInts(j, INT_FIELDS, props), property) == ValueOf(props, property)
  {
    var size, tokens, created := Number(j, "fileSizeMb"), Number(j, "maxOutputTokens"), Number(j, "createdAt");
    var one := if size.Some? then props[FILESIZE_MB := ToInt64(size.value)] else props;
    var two := if tokens.Some? then one[MAX_OUTPUT_TOKENS := ToInt64(tokens.value)] else one;
    var three := if created.Some? then two[CREATED_AT_UNIX := ToInt64(created.value)] else two;
    IntsInTurn(j, props);
    IntPropertiesDiffer(FILESIZE_MB);
    IntPropertiesDiffer(MAX_OUTPUT_TOKENS);
    IntPropertiesDiffer(CREATED_AT_UNIX);
    hide ReadInts, INT_FIELDS, ToInt64;
    forall property | forall key :: NamesInt(key, property) ==> Number(j, key) == None
      ensures ValueOf(three, property) == ValueOf(props, property)
    {
      assert NamesInt("fileSizeMb", FILESIZE_MB) && NamesInt("maxOutputTokens", MAX_OUTPUT_TOKENS);
      assert NamesInt("createdAt", CREATED_AT_UNIX);
    }
  }

  lemma IntsInTurn(j: Json, props: map<string, Int64>)
    ensures var size, tokens, created := Number(j, "fileSizeMb"), Number(j, "maxOutputTokens"), Number(j, "createdAt");
            var one := if size.Some? then props[FILESIZE_MB := ToInt64(size.value)] else props;
            var two := if tokens.Some? then one[MAX_OUTPUT_TOKENS := ToInt64(tokens.value)] else one;
            var three := if created.Some? then two[CREATED_AT_UNIX := ToInt64(created.value)] else two;
            ReadInts(j, INT_FIELDS, props) == three
  {
    assert INT_FIELDS[1..] == [FMaxOutputTokens, FCreatedAt] && INT_FIELDS[1..][1..] == [FCreatedAt];
    assert INT_FIELDS[1..][1..][1..] == [];
    assert Key(FFileSizeMb) == "fileSizeMb" && Key(FMaxOutputTokens) == "maxOutputTokens";
    assert Key(FCreatedAt) == "createdAt";
    hide Key, ToInt64;
  }

  lemma FlagIsRead(j: Json, f: Field, key: string, props: map<string, Int64>, flag: string)
    requires Key(f) == key
    ensures ReadFlag(Get(j, f), props, flag)
         == if Truth(j, key).Some? then props[flag := if Truth(j, key).value then 1 else 0] else props
  {
    hide Key;
  }

  lemma IntBagIsChild(j: Json, property: string)
    ensures ValueOf(IntsFromJson(Get(j, FIntProperties)), property)
         == Wide(Number(Child(j, "intProperties"), property))
  {
    assert Key(FIntProperties) == "intProperties";
    hide Key, ToInt64;
  }

  /** The integers as they are read: numbers, then the two flags, then the test mark. */
  ghost function IntsInOrder(j: Json): map<string, Int64> {
    var ints := ReadInts(j, INT_FIELDS, IntsFromJson(Get(j, FIntProperties)));
    var tools, reasons := Truth(j, "supportsToolCalling"), Truth(j, "supportsReasoning");
    var one := if tools.Some? then ints[SUPPORTS_TOOL_CALLING := if tools.value then 1 else 0] else ints;
    var two := if reasons.Some? then one[SUPPORTS_REASONING := if reasons.value then 1 else 0] else one;
    if Text(j, "foundryLocal") == Some("test") then two[IS_TEST_MODEL := 1] else two
  }

  lemma IntsComeInOrder(j: Json)
    ensures ReadIntProperties(j) == IntsInOrder(j)
  {
    hide ReadInts, IntsFromJson, INT_FIELDS, ReadFlag;
    var ints := ReadInts(j, INT_FIELDS, IntsFromJson(Get(j, FIntProperties)));
    var tools := Truth(j, "supportsToolCalling");
    var one := if tools.Some? then ints[SUPPORTS_TOOL_CALLING := if tools.value then 1 else 0] else ints;
    FlagIsRead(j, FSupportsToolCalling, "supportsToolCalling", ints, SUPPORTS_TOOL_CALLING);
    FlagIsRead(j, FSupportsReasoning, "supportsReasoning", one, SUPPORTS_REASONING);
    TestIsText(j);
  }

  lemma TestIsText(j: Json)
    ensures StringOr(Get(j, FFoundryLocal), "") == "test" <==> Text(j, "foundryLocal") == Some("test")
  {
    assert Key(FFoundryLocal) == "foundryLocal";
    hide Key;
  }

  /** Flags and test mark on top of other integers. */
  function OnTop(ints: map<string, Int64>, tools: Option<bool>, reasons: Option<bool>, test: bool): map<string, Int64> {
    var one := if tools.Some? then ints[SUPPORTS_TOOL_CALLING := if tools.value then 1 else 0] else ints;
    var two := if reasons.Some? then one[SUPPORTS_REASONING := if reasons.value then 1 else 0] else one;
    if test then two[IS_TEST_MODEL := 1] else two
  }

  lemma FlagsOnTop(ints: map<string, Int64>, tools: Option<bool>, reasons: Option<bool>, test: bool)
    ensures var r := OnTop(ints, tools, reasons, test);
            && (tools.Some? ==> ValueOf(r, SUPPORTS_TOOL_CALLING) == Some(if tools.value then 1 else 0))
            && (reasons.Some? ==> ValueOf(r, SUPPORTS_REASONING) == Some(if reasons.value then 1 else 0))
            && (test ==> ValueOf(r, IS_TEST_MODEL) == Some(1))
    ensures forall p :: (tools.Some? ==> p != SUPPORTS_TOOL_CALLING) && (reasons.Some? ==> p != SUPPORTS_REASONING)
                        && (test ==> p != IS_TEST_MODEL) ==>
              ValueOf(OnTop(ints, tools, reasons, test), p) == ValueOf(ints, p)
  {
    IntPropertiesDiffer(SUPPORTS_TOOL_CALLING);
    IntPropertiesDiffer(SUPPORTS_REASONING);
    IntPropertiesDiffer(IS_TEST_MODEL);
    hide SUPPORTS_TOOL_CALLING, SUPPORTS_REASONING, IS_TEST_MODEL;
  }

  lemma NumberIsNoFlag(key: string, property: string)
    requires NamesInt(key, property)
    ensures property != SUPPORTS_TOOL_CALLING && property != SUPPORTS_REASONING && property != IS_TEST_MODEL
    ensures (key == "fileSizeMb" && property == FILESIZE_MB)
         || (key == "maxOutputTokens" && property == MAX_OUTPUT_TOKENS)
         || (key == "createdAt" && property == CREATED_AT_UNIX)
  {
    IntPropertiesDiffer(property);
  }

  lemma FlagIsNamed(key: string, property: string)
    ensures NamesFlag(key, property) <==>
            (key == "supportsToolCalling" && property == SUPPORTS_TOOL_CALLING)
            || (key == "supportsReasoning" && property == SUPPORTS_REASONING)
  {
  }

  lemma IntsAreRead(j: Json)
    ensures IntsRead(j, ReadIntProperties(j))
  {
    var bag := IntsFromJson(Get(j, FIntProperties));
    var ints := ReadInts(j, INT_FIELDS, bag);
    var tools, reasons := Truth(j, "supportsToolCalling"), Truth(j, "supportsReasoning");
    var test := Text(j, "foundryLocal") == Some("test");
    IntsComeInOrder(j);
    NumbersRead(j, bag);
    FlagsOnTop(ints, tools, reasons, test);
    hide NamesInt, NamesFlag, ReadInts, INT_FIELDS, IntsFromJson, ReadIntProperties, Number, Truth, Text, Child, Get,
      Wide, ValueOf, SUPPORTS_TOOL_CALLING, SUPPORTS_REASONING, IS_TEST_MODEL, FILESIZE_MB, MAX_OUTPUT_TOKENS,
      CREATED_AT_UNIX;
    var r := ReadIntProperties(j);
    assert r == OnTop(ints, tools, reasons, test);
    hide OnTop, IntsInOrder;
    forall key, property | NamesInt(key, property) && Number(j, key).Some?
      ensures ValueOf(r, property) == Wide(Number(j, key))
    {
      NumberIsNoFlag(key, property);
    }
    forall key, property | NamesFlag(key, property) && Truth(j, key).Some?
      ensures ValueOf(r, property) == Some(if Truth(j, key).value then 1 else 0)
    {
      FlagIsNamed(key, property);
    }
    forall property | LeftToBag(j, property)
      ensures ValueOf(r, property) == Wide(Number(Child(j, "intProperties"), property))
    {
      FlagIsNamed("supportsToolCalling", property);
      FlagIsNamed("supportsReasoning", property);
      TestIsNamed();
      IntBagIsChild(j, property);
    }
    TestIsNamed();
  }

  lemma TestIsNamed()
    ensures IS_TEST_MODEL == "is_test_model"
  {
  }

  // The other fields

  lemma DeviceIsNamed(text: string)
    ensures IsDevice(DeviceTypeFromString(text), text)
  {
  }

  lemma RuntimeIsRead(j: Json, key: string, property: string)
    ensures StringOr(ReadRuntime(j, key), Lookup(ReadBag(j), property, "")) == RuntimeText(j, key, property)
  {
    BagIsChild(j, property);
    assert Key(FRuntime) == "runtime";
    hide Key, ReadBag;
  }

  lemma TypedIsRead(j: Json)
    ensures TypedRead(j, FromJson(j))
  {
    RuntimeIsRead(j, "deviceType", DEVICE_TYPE);
    RuntimeIsRead(j, "executionProvider", EP);
    DeviceIsNamed(RuntimeText(j, "deviceType", DEVICE_TYPE));
    StringsAreRead(j);
    BagIsChild(j, TASK);
    TaskIsNamed();
    hide ReadBag, ReadRuntime, ReadStringProperties, RuntimeText, DeviceTypeFromString, IsDevice, NamesString, Child,
      Text;
  }

  lemma TaskIsNamed()
    ensures NamesString("task", TASK) && forall key :: NamesString(key, TASK) ==> key == "task"
  {
    assert |TASK| == 4 && TASK[1] == 'a';
    assert |"type"| == 4 && "type"[1] == 'y';
  }

  lemma PlainKeys()
    ensures Key(FId) == "id" && Key(FName) == "name" && Key(FAlias) == "alias" && Key(FUri) == "uri"
    ensures Key(FDetectedRegion) == "detectedRegion" && Key(FVersion) == "version"
  {
  }

  lemma VersionIsRead(j: Json)
    ensures ReadVersion(j) == if Number(j, "version").Some? then ToInt32(Number(j, "version").value) else 0
  {
    PlainKeys();
    hide Key, ToInt32;
  }

  lemma PlainIsRead(j: Json)
    ensures PlainRead(j, FromJson(j))
  {
    PlainKeys();
    VersionIsRead(j);
    hide Key, ReadVersion, ReadDevice, ReadProvider, ReadTask, ReadStringProperties, ReadIntProperties,
      SettingsFromJson, StringsFromJson, ToInt32, StringOr, At, TextOr, Number;
    TextIsStringOr(j, "id");
    TextIsStringOr(j, "name");
    TextIsStringOr(j, "alias");
    TextIsStringOr(j, "uri");
    TextIsStringOr(j, "detectedRegion");
  }

  lemma TemplatesAreRead(j: Json)
    ensures TemplatesRead(j, StringsFromJson(Get(j, FPromptTemplate)) - {""})
  {
    assert Key(FPromptTemplate) == "promptTemplate";
    hide Key;
  }

  /** What a list of parameters adds to those already read. */
  ghost predicate AddedAs(items: seq<Json>, before: map<string, string>, after: map<string, string>) {
    && (forall name :: name in after ==> name in before || (name != "" && exists i :: NamedAt(items, i, name)))
    && (forall name :: (forall i :: !NamedAt(items, i, name)) ==> ValueOf(after, name) == ValueOf(before, name))
    && (forall name, i :: NamedAt(items, i, name) && name != "" && (forall k :: i < k ==> !NamedAt(items, k, name)) ==>
          ValueOf(after, name) == Some(TextOr(items[i], "Value")))
  }

  lemma NamedInRest(items: seq<Json>, name: string)
    requires items != []
    ensures forall i :: NamedAt(items[1..], i, name) <==> i >= 0 && NamedAt(items, i + 1, name)
  {
  }

  lemma FirstParameter(m: map<string, string>, item: Json) returns (next: map<string, string>)
    ensures forall rest :: AddParameters(m, [item] + rest) == AddParameters(next, rest)
    ensures next == if Text(item, "Name").Some? && Text(item, "Name").value != ""
                    then m[Text(item, "Name").value := TextOr(item, "Value")] else m
  {
    var name := At(item, "Name");
    var named := name.Some? && name.value.Str?;
    next := if named then Add(m, name.value.s, StringOr(At(item, "Value"), "")) else m;
    forall rest
      ensures AddParameters(m, [item] + rest) == AddParameters(next, rest)
    {
      assert ([item] + rest)[1..] == rest;
    }
  }

  lemma {:induction false} ParametersAreAdded(m: map<string, string>, items: seq<Json>)
    ensures AddedAs(items, m, AddParameters(m, items))
    decreases |items|
  {
    if items != [] {
      assert items == [items[0]] + items[1..];
      var next := FirstParameter(m, items[0]);
      ParametersAreAdded(next, items[1..]);
      AddedInTurn(m, items, next, AddParameters(next, items[1..]));
    }
  }

  lemma AddedInTurn(m: map<string, string>, items: seq<Json>, next: map<string, string>, after: map<string, string>)
    requires items != [] && AddedAs(items[1..], next, after)
    requires next == if Text(items[0], "Name").Some? && Text(items[0], "Name").value != ""
                     then m[Text(items[0], "Name").value := TextOr(items[0], "Value")] else m
    ensures AddedAs(items, m, after)
  {
    var rest := items[1..];
    forall name | name in after
      ensures name in m || (name != "" && exists i :: NamedAt(items, i, name))
    {
      NamedInRest(items, name);
      if name in next && name !in m { assert NamedAt(items, 0, name); }
      if i :| NamedAt(rest, i, name) { assert NamedAt(items, i + 1, name); }
    }
    forall name | forall i :: !NamedAt(items, i, name)
      ensures ValueOf(after, name) == ValueOf(m, name)
    {
      NamedInRest(items, name);
      assert !NamedAt(items, 0, name);
    }
    forall name, i | NamedAt(items, i, name) && name != "" && (forall k :: i < k ==> !NamedAt(items, k, name))
      ensures ValueOf(after, name) == Some(TextOr(items[i], "Value"))
    {
      NamedInRest(items, name);
      if i > 0 {
        assert NamedAt(rest, i - 1, name);
        assert rest[i - 1] == items[i];
        forall k | i - 1 < k
          ensures !NamedAt(rest, k, name)
        {
          assert !NamedAt(items, k + 1, name);
        }
      } else {
        forall k
          ensures !NamedAt(rest, k, name)
        {
          assert k >= 0 ==> !NamedAt(items, k + 1, name);
        }
      }
    }
  }

  lemma SettingsAreRead(j: Json)
    ensures SettingsRead(Items(Child(Child(j, "modelSettings"), "parameters")),
                         SettingsFromJson(Get(j, FModelSettings)))
  {
    assert Key(FModelSettings) == "modelSettings";
    var items := Items(Child(Child(j, "modelSettings"), "parameters"));
    ParametersAreAdded(map[], items);
    hide Key, AddParameters;
    assert AddParameters(map[], []) == map[] by { NoParameters(); }
    assert SettingsFromJson(Get(j, FModelSettings)) == AddParameters(map[], items);
  }

  lemma NoParameters()
    ensures AddParameters(map[], []) == map[]
  {
  }

  /** Every JSON value is read like this. */
  lemma FromJsonReads(j: Json)
    ensures ReadAs(j, FromJson(j))
  {
    PlainIsRead(j);
    TypedIsRead(j);
    StringsAreRead(j);
    IntsAreRead(j);
    TemplatesAreRead(j);
    SettingsAreRead(j);
    hide PlainRead, TypedRead, StringsRead, IntsRead, TemplatesRead, SettingsRead, Get, Child;
  }

  // ---------------------------------------------------------------------
  // Writing
  // ---------------------------------------------------------------------

  /** A string that is written only if there is something to write. */
  function TextIfAny(text: string): Option<Json> { if text == "" then None else Some(Str(text)) }

  ghost predicate StringBagWritten(v: Option<Json>, m: map<string, string>) {
    if m == map[] then v == None
    else v.Some? && v.value.Obj? && v.value.fields.Keys == m.Keys
         && forall k :: k in m ==> Text(v.value, k) == Some(m[k])
  }

  ghost predicate IntBagWritten(v: Option<Json>, m: map<string, Int64>) {
    if m == map[] then v == None
    else v.Some? && v.value.Obj? && v.value.fields.Keys == m.Keys
         && forall k :: k in m ==> Number(v.value, k) == Some(m[k])
  }

  ghost predicate PlainWritten(info: ModelInfo, j: Json) {
    && At(j, "id") == Some(Str(info.modelId)) && At(j, "name") == Some(Str(info.name))
    && At(j, "version") == Some(Int(info.version)) && At(j, "alias") == Some(Str(info.alias))
    && At(j, "uri") == Some(Str(info.uri)) && At(j, "detectedRegion") == TextIfAny(info.detectedRegion)
  }

  /** Provider and type are always written, the other named strings if they are not empty. */
  ghost predicate StringsWritten(info: ModelInfo, j: Json) {
    && At(j, "providerType") == Some(Str(Lookup(info.strings, "model_provider", "")))
    && At(j, "modelType") == Some(Str(Lookup(info.strings, "type", "")))
    && (forall key, property :: NamesString(key, property) && key != "providerType" && key != "modelType" ==>
          At(j, key) == TextIfAny(Lookup(info.strings, property, "")))
    && StringBagWritten(At(j, "stringProperties"), info.strings)
  }

  /** A flag of -1 is unknown and not written. */
  ghost predicate IntsWritten(info: ModelInfo, j: Json) {
    && (forall key, property :: NamesInt(key, property) ==>
          At(j, key) == if property in info.ints then Some(Int(info.ints[property])) else None)
    && (forall key, property :: NamesFlag(key, property) ==>
          At(j, key) == if property in info.ints && info.ints[property] >= 0 then Some(Bool(info.ints[property] != 0))
                        else None)
    && At(j, "testModel") == (if "is_test_model" in info.ints then Some(Bool(info.ints["is_test_model"] != 0))
                              else None)
    && At(j, "foundryLocal") == None
    && IntBagWritten(At(j, "intProperties"), info.ints)
  }

  ghost predicate RuntimeWritten(info: ModelInfo, v: Option<Json>) {
    if info.deviceType == NotSet && info.executionProvider == "" then v == None
    else
      && v.Some? && v.value.Obj?
      && Text(v.value, "deviceType") == Some(match info.deviceType case CPU => "CPU" case GPU => "GPU"
                                             case NPU => "NPU" case NotSet => "Invalid")
      && At(v.value, "executionProvider") == TextIfAny(info.executionProvider)
      && forall k :: k in v.value.fields ==> k == "deviceType" || k == "executionProvider"
  }

  ghost predicate Ascending(keys: seq<string>) { forall i, k :: 0 <= i < k < |keys| ==> Less(keys[i], keys[k]) }

  ghost predicate IsParameter(item: Json, name: string, value: string) {
    && item.Obj? && At(item, "Name") == Some(Str(name)) && At(item, "Value") == TextIfAny(value)
    && forall k :: k in item.fields ==> k == "Name" || k == "Value"
  }

  /** One parameter for each setting, in the order of the keys. */
  ghost predicate SettingsWritten(v: Option<Json>, m: map<string, string>) {
    if m == map[] then v == None
    else
      && v.Some? && v.value.Obj? && v.value.fields.Keys == {"parameters"}
      && ParametersWritten(v.value.fields["parameters"], m)
  }

  ghost predicate ParametersWritten(v: Json, m: map<string, string>) {
    v.Arr? && exists keys: seq<string> ::
      && Ascending(keys) && (forall k :: k in keys <==> k in m) && |keys| == |v.items|
      && forall i :: 0 <= i < |keys| ==> IsParameter(v.items[i], keys[i], m[keys[i]])
  }

  ghost predicate WrittenAs(info: ModelInfo, j: Json) {
    && j.Obj? && PlainWritten(info, j) && StringsWritten(info, j) && IntsWritten(info, j)
    && StringBagWritten(At(j, "promptTemplate"), info.promptTemplates)
    && SettingsWritten(At(j, "modelSettings"), info.modelSettings) && RuntimeWritten(info, At(j, "runtime"))
    && forall k :: k in j.fields ==> IsKey(k)
  }

  /** The keys that are ever written. */
  predicate IsKey(key: string) {
    || key == "id" || key == "name" || key == "version" || key == "alias" || key == "uri" || key == "detectedRegion"
    || key == "stringProperties" || key == "intProperties" || key == "testModel" || key == "promptTemplate"
    || key == "modelSettings" || key == "runtime" || key == "fileSizeMb" || key == "maxOutputTokens"
    || key == "createdAt" || key == "supportsToolCalling" || key == "supportsReasoning" || key == "providerType"
    || key == "modelType" || key == "displayName" || key == "publisher" || key == "license"
    || key == "licenseDescription" || key == "task" || key == "minFLVersion" || key == "parentModelUri"
    || key == "toolCallStart" || key == "toolCallEnd" || key == "reasoningStart" || key == "reasoningEnd"
  }

  lemma FieldAt(info: ModelInfo, f: Field, key: string)
    requires Key(f) == key
    ensures At(ToJson(info), key) == FieldValue(info, f)
  {
    FieldIsFound(info, f);
  }

  lemma PlainIsWritten(info: ModelInfo)
    ensures PlainWritten(info, ToJson(info))
  {
    PlainKeys();
    FieldAt(info, FId, "id");
    FieldAt(info, FName, "name");
    FieldAt(info, FVersion, "version");
    FieldAt(info, FAlias, "alias");
    FieldAt(info, FUri, "uri");
    FieldAt(info, FDetectedRegion, "detectedRegion");
    hide ToJson, Key, At;
  }

  lemma NamedStringValue(info: ModelInfo, f: Field)
    requires StringProperty(f).Some? && f != FProviderType && f != FModelType
    ensures FieldValue(info, f) == TextIfAny(Lookup(info.strings, StringProperty(f).value, ""))
  {
  }

  lemma ProviderAndType(f: Field)
    ensures Key(FProviderType) == "providerType" && Key(FModelType) == "modelType"
    ensures StringProperty(FProviderType) == Some("model_provider") && StringProperty(FModelType) == Some("type")
  {
  }

  lemma StringsAreWritten(info: ModelInfo)
    ensures StringsWritten(info, ToJson(info))
  {
    ProviderAndType(FTask);
    FieldAt(info, FProviderType, "providerType");
    FieldAt(info, FModelType, "modelType");
    BagIsWritten(info);
    var j := ToJson(info);
    hide ToJson, At, Key, NamesString, StringBagWritten, StringProperty, TextIfAny;
    forall key, property | NamesString(key, property) && key != "providerType" && key != "modelType"
      ensures At(j, key) == TextIfAny(Lookup(info.strings, property, ""))
    {
      NamedIsStringField(key, property);
      var f :| Key(f) == key && StringProperty(f) == Some(property);
      FieldAt(info, f, key);
      NamedStringValue(info, f);
    }
  }

  lemma BagIsWritten(info: ModelInfo)
    ensures StringBagWritten(At(ToJson(info), "stringProperties"), info.strings)
    ensures StringBagWritten(At(ToJson(info), "promptTemplate"), info.promptTemplates)
    ensures IntBagWritten(At(ToJson(info), "intProperties"), info.ints)
  {
    BagKeys();
    FieldAt(info, FStringProperties, "stringProperties");
    FieldAt(info, FPromptTemplate, "promptTemplate");
    FieldAt(info, FIntProperties, "intProperties");
    OneStringBag(info.strings);
    OneStringBag(info.promptTemplates);
    OneIntBag(info.ints);
    hide ToJson, At, Key, StringBagWritten, IntBagWritten, StringsToJson, IntsToJson;
  }

  lemma OneStringBag(m: map<string, string>)
    ensures StringBagWritten(if m == map[] then None else Some(StringsToJson(m)), m)
  {
  }

  lemma OneIntBag(m: map<string, Int64>)
    ensures IntBagWritten(if m == map[] then None else Some(IntsToJson(m)), m)
  {
  }

  lemma BagKeys()
    ensures Key(FStringProperties) == "stringProperties" && Key(FPromptTemplate) == "promptTemplate"
    ensures Key(FIntProperties) == "intProperties" && Key(FRuntime) == "runtime" && Key(FTestModel) == "testModel"
    ensures Key(FFoundryLocal) == "foundryLocal" && Key(FModelSettings) == "modelSettings"
  {
  }

  lemma NumberKeys()
    ensures Key(FFileSizeMb) == "fileSizeMb" && Key(FMaxOutputTokens) == "maxOutputTokens"
    ensures Key(FCreatedAt) == "createdAt"
    ensures Key(FSupportsToolCalling) == "supportsToolCalling" && Key(FSupportsReasoning) == "supportsReasoning"
  {
  }

  lemma NumberValues(info: ModelInfo)
    ensures FieldValue(info, FFileSizeMb)
         == if FILESIZE_MB in info.ints then Some(Int(info.ints[FILESIZE_MB])) else None
    ensures FieldValue(info, FMaxOutputTokens)
         == if MAX_OUTPUT_TOKENS in info.ints then Some(Int(info.ints[MAX_OUTPUT_TOKENS])) else None
    ensures FieldValue(info, FCreatedAt)
         == if CREATED_AT_UNIX in info.ints then Some(Int(info.ints[CREATED_AT_UNIX])) else None
    ensures FieldValue(info, FTestModel)
         == if IS_TEST_MODEL in info.ints then Some(Bool(info.ints[IS_TEST_MODEL] != 0)) else None
  {
  }

  lemma IntsAreWritten(info: ModelInfo)
    ensures IntsWritten(info, ToJson(info))
  {
    BagKeys();
    NumberKeys();
    FieldAt(info, FFileSizeMb, "fileSizeMb");
    FieldAt(info, FMaxOutputTokens, "maxOutputTokens");
    FieldAt(info, FCreatedAt, "createdAt");
    FieldAt(info, FSupportsToolCalling, "supportsToolCalling");
    FieldAt(info, FSupportsReasoning, "supportsReasoning");
    FieldAt(info, FTestModel, "testModel");
    FieldAt(info, FFoundryLocal, "foundryLocal");
    FlagFieldValues(info);
    NumberValues(info);
    BagIsWritten(info);
    TestIsNamed();
    hide ToJson, At, Key, FieldValue, NamesInt, NamesFlag, StringBagWritten, IntBagWritten, FILESIZE_MB,
      MAX_OUTPUT_TOKENS, CREATED_AT_UNIX, SUPPORTS_TOOL_CALLING, SUPPORTS_REASONING;
    forall key, property | NamesInt(key, property)
      ensures At(ToJson(info), key) == if property in info.ints then Some(Int(info.ints[property])) else None
    {
      NumberIsNoFlag(key, property);
    }
    forall key, property | NamesFlag(key, property)
      ensures At(ToJson(info), key) == if property in info.ints && info.ints[property] >= 0
                                       then Some(Bool(info.ints[property] != 0)) else None
    {
      FlagIsNamed(key, property);
    }
  }

  lemma RuntimeIsWritten(info: ModelInfo)
    ensures RuntimeWritten(info, At(ToJson(info), "runtime"))
  {
    BagKeys();
    FieldAt(info, FRuntime, "runtime");
    RuntimeTrip(info);
    hide ToJson, Key;
  }

  lemma {:induction false} SortedKeysAscend(s: set<string>)
    ensures Ascending(SortedKeys(s))
    decreases s
  {
    if s != {} {
      LeastExists(s);
      var k :| IsLeast(k, s) && SortedKeys(s) == [k] + SortedKeys(s - {k});
      SortedKeysAscend(s - {k});
      var keys := SortedKeys(s - {k});
      forall i | 0 <= i < |keys|
        ensures Less(k, keys[i])
      {
        assert keys[i] in s - {k};
      }
      hide SortedKeys, Less;
    }
  }

  lemma {:induction false} ParametersInOrder(keys: seq<string>, m: map<string, string>)
    requires forall k :: k in keys ==> k in m
    ensures |Parameters(keys, m)| == |keys|
    ensures forall i :: 0 <= i < |keys| ==> IsParameter(Parameters(keys, m)[i], keys[i], m[keys[i]])
    decreases |keys|
  {
    if keys != [] {
      ParameterIsParameter(keys[0], m[keys[0]]);
      ParametersInOrder(keys[1..], m);
      hide IsParameter, Parameter;
    }
  }

  lemma ParameterIsParameter(name: string, value: string)
    ensures IsParameter(Parameter(name, value), name, value)
  {
    assert |"Name"| != |"Value"|;
  }

  lemma SettingsAreWritten(info: ModelInfo)
    ensures SettingsWritten(At(ToJson(info), "modelSettings"), info.modelSettings)
  {
    BagKeys();
    FieldAt(info, FModelSettings, "modelSettings");
    SettingsValue(info);
    hide ToJson, At, Key, SortedKeys, Parameters, SettingsWritten, ParametersWritten, FieldValue;
    var m := info.modelSettings;
    ParametersAreWritten(m);
    SettingsObject(SortedItems(m), m);
  }

  ghost function SortedItems(m: map<string, string>): Json { Arr(Parameters(SortedKeys(m.Keys), m)) }

  lemma SettingsValue(info: ModelInfo)
    ensures FieldValue(info, FModelSettings)
         == if info.modelSettings == map[] then None
            else Some(Obj(map["parameters" := SortedItems(info.modelSettings)]))
  {
  }

  lemma SettingsObject(items: Json, m: map<string, string>)
    requires ParametersWritten(items, m)
    ensures SettingsWritten(if m == map[] then None else Some(Obj(map["parameters" := items])), m)
  {
    hide ParametersWritten;
  }

  lemma ParametersAreWritten(m: map<string, string>)
    ensures ParametersWritten(Arr(Parameters(SortedKeys(m.Keys), m)), m)
  {
    var keys := SortedKeys(m.Keys);
    SortedKeysAscend(m.Keys);
    ParametersInOrder(keys, m);
    var v := Arr(Parameters(keys, m));
    hide SortedKeys, Parameters, IsParameter, Ascending;
    assert forall i :: 0 <= i < |keys| ==> IsParameter(v.items[i], keys[i], m[keys[i]]);
  }

  lemma KeyIsKey(f: Field)
    requires f != FFoundryLocal
    ensures IsKey(Key(f))
  {
  }

  lemma OnlyKeys(info: ModelInfo)
    ensures forall k :: k in ToJson(info).fields ==> IsKey(k)
  {
    forall k | k in ToJson(info).fields
      ensures IsKey(k)
    {
      var f :| FieldValue(info, f).Some? && Key(f) == k;
      assert f != FFoundryLocal by { FlagFieldValues(info); }
      KeyIsKey(f);
    }
  }

  /** Every ModelInfo is written like this. */
  lemma ToJsonWrites(info: ModelInfo)
    ensures WrittenAs(info, ToJson(info))
  {
    PlainIsWritten(info);
    StringsAreWritten(info);
    IntsAreWritten(info);
    BagIsWritten(info);
    SettingsAreWritten(info);
    RuntimeIsWritten(info);
    OnlyKeys(info);
    assert ToJson(info).Obj?;
    hide ToJson, At, PlainWritten, StringsWritten, IntsWritten, StringBagWritten, SettingsWritten, RuntimeWritten,
      IsKey;
  }
}
