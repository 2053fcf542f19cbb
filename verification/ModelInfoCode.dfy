/**
  The two conversions of sdk_v2/cpp/src/model_info.cc as the program writes them,
  statement by statement, and SetPropertyStr.
*/
module ModelInfoCode {
  import opened StringOrder
  import opened ModelInfoJson
  import opened ModelInfoShape

  /** The fields in the order in which ModelInfoToJson deals with them. */
  const WRITE_ORDER := [FId, FName, FVersion, FAlias, FUri, FDetectedRegion, FStringProperties, FIntProperties,
      FProviderType, FModelType, FDisplayName, FPublisher, FLicense, FLicenseDescription, FTask, FMinFLVersion,
      FParentModelUri, FToolCallStart, FToolCallEnd, FReasoningStart, FReasoningEnd, FPromptTemplate,
      FModelSettings, FRuntime, FFileSizeMb, FMaxOutputTokens, FCreatedAt, FSupportsToolCalling,
      FSupportsReasoning, FTestModel, FFoundryLocal]

  function Rank(f: Field): nat {
    match f
    case FId => 0
    case FName => 1
    case FVersion => 2
    case FAlias => 3
    case FUri => 4
    case FDetectedRegion => 5
    case FStringProperties => 6
    case FIntProperties => 7
    case FProviderType => 8
    case FModelType => 9
    case FDisplayName => 10
    case FPublisher => 11
    case FLicense => 12
    case FLicenseDescription => 13
    case FTask => 14
    case FMinFLVersion => 15
    case FParentModelUri => 16
    case FToolCallStart => 17
    case FToolCallEnd => 18
    case FReasoningStart => 19
    case FReasoningEnd => 20
    case FPromptTemplate => 21
    case FModelSettings => 22
    case FRuntime => 23
    case FFileSizeMb => 24
    case FMaxOutputTokens => 25
    case FCreatedAt => 26
    case FSupportsToolCalling => 27
    case FSupportsReasoning => 28
    case FTestModel => 29
    case FFoundryLocal => 30
  }

  lemma RankIsIndex(f: Field)
    ensures Rank(f) < |WRITE_ORDER| && WRITE_ORDER[Rank(f)] == f
  {
  }

  /** The first n fields have been dealt with, and nothing else. */
  ghost predicate Written(fields: map<string, Json>, info: ModelInfo, n: nat) {
    && (forall f {:trigger Rank(f)} :: Rank(f) < n ==> At(Obj(fields), Key(f)) == FieldValue(info, f))
    && (forall k :: k in fields ==> exists f {:trigger Rank(f)} :: Rank(f) < n && Key(f) == k)
  }

  lemma NothingWritten(info: ModelInfo)
    ensures Written(map[], info, 0)
  {
  }

  lemma KeysAndRanksDiffer(f: Field, g: Field)
    ensures Key(f) == Key(g) ==> f == g
    ensures Rank(f) == Rank(g) ==> f == g
  {
    KeyIsTold(f);
    KeyIsTold(g);
    RankIsIndex(f);
    RankIsIndex(g);
  }

  lemma FreshKey(fields: map<string, Json>, f: Field, info: ModelInfo)
    requires Written(fields, info, Rank(f))
    ensures Key(f) !in fields
  {
    hide Key, Rank, FieldValue;
    if Key(f) in fields {
      var g :| Rank(g) < Rank(f) && Key(g) == Key(f);
      KeysAndRanksDiffer(f, g);
    }
  }

  /** `j[key] = value`, or nothing where the program skips the field. */
  method Put(fields: map<string, Json>, f: Field, value: Option<Json>, ghost info: ModelInfo)
    returns (r: map<string, Json>)
    requires Written(fields, info, Rank(f)) && value == FieldValue(info, f)
    ensures Written(r, info, Rank(f) + 1)
  {
    hide Key, FieldValue, FieldOf, Rank, WRITE_ORDER;
    FreshKey(fields, f, info);
    r := if value.Some? then fields[Key(f) := value.value] else fields;
    forall g {:trigger Rank(g)} | Rank(g) < Rank(f) + 1
      ensures At(Obj(r), Key(g)) == FieldValue(info, g)
    {
      KeysAndRanksDiffer(f, g);
    }
    forall k | k in r
      ensures exists g {:trigger Rank(g)} :: Rank(g) < Rank(f) + 1 && Key(g) == k
    {
      if k in fields {
        var g :| Rank(g) < Rank(f) && Key(g) == k;
      } else {
        assert Rank(f) < Rank(f) + 1;
      }
    }
  }

  lemma AllWritten(fields: map<string, Json>, info: ModelInfo)
    requires Written(fields, info, Rank(FFoundryLocal))
    ensures Obj(fields) == ToJson(info)
  {
    assert FieldValue(info, FFoundryLocal) == None;
    var other := ToJson(info).fields;
    forall k | k in fields || k in other
      ensures k in fields && k in other && fields[k] == other[k]
    {
      var f :| Key(f) == k;
      LastIsFoundryLocal(f);
      hide Key, FieldValue, Rank;
      FieldIsFound(info, f);
    }
    assert fields == other;
  }

  lemma LastIsFoundryLocal(f: Field)
    ensures Rank(f) < Rank(FFoundryLocal) || f == FFoundryLocal
  {
  }

  lemma LeastIsUnique(k: string, x: string, s: set<string>)
    requires IsLeast(k, s) && IsLeast(x, s)
    ensures k == x
  {
    if k != x {
      LessTotal(k, x);
    }
  }

  method StringBag(m: map<string, string>) returns (j: Json)
    ensures j == StringsToJson(m)
  {
    var properties: map<string, Json> := map[];
    var rest := m.Keys;
    while rest != {}
      invariant rest <= m.Keys && properties == map k | k in m.Keys - rest :: Str(m[k])
      decreases rest
    {
      var k :| k in rest;
      properties := properties[k := Str(m[k])];
      rest := rest - {k};
    }
    j := Obj(properties);
  }

  method IntBag(m: map<string, Int64>) returns (j: Json)
    ensures j == IntsToJson(m)
  {
    var properties: map<string, Json> := map[];
    var rest := m.Keys;
    while rest != {}
      invariant rest <= m.Keys && properties == map k | k in m.Keys - rest :: Int(m[k])
      decreases rest
    {
      var k :| k in rest;
      properties := properties[k := Int(m[k])];
      rest := rest - {k};
    }
    j := Obj(properties);
  }

  lemma SortedKeysUnfold(rest: set<string>, k: string)
    requires IsLeast(k, rest)
    ensures SortedKeys(rest) == [k] + SortedKeys(rest - {k})
  {
    forall x | IsLeast(x, rest)
      ensures x == k
    {
      LeastIsUnique(k, x, rest);
    }
  }

  lemma {:induction false} ParametersGrow(done: seq<string>, k: string, m: map<string, string>)
    requires k in m && forall x :: x in done ==> x in m
    ensures Parameters(done + [k], m) == Parameters(done, m) + [Parameter(k, m[k])]
    decreases |done|
  {
    if done != [] {
      assert (done + [k])[1..] == done[1..] + [k];
      ParametersGrow(done[1..], k, m);
    }
  }

  lemma ConcatStep(done: seq<string>, k: string, rest: seq<string>)
    ensures (done + [k]) + rest == done + ([k] + rest)
  {
  }

  /** The parameter list in the order of the sorted map. */
  method ParameterList(m: map<string, string>) returns (items: seq<Json>)
    ensures items == Parameters(SortedKeys(m.Keys), m)
  {
    items := [];
    var rest := m.Keys;
    ghost var done: seq<string> := [];
    assert done + SortedKeys(rest) == SortedKeys(m.Keys);
    assert SortedKeys({}) == [];
    while rest != {}
      invariant rest <= m.Keys && (forall k :: k in done ==> k in m)
      invariant done + SortedKeys(rest) == SortedKeys(m.Keys)
      invariant items == Parameters(done, m)
      decreases rest
    {
      LeastExists(rest);
      var k :| k in rest && forall x :: x in rest && x != k ==> Less(k, x);
      assert IsLeast(k, rest);
      hide SortedKeys, Parameters, Parameter, IsLeast;
      SortedKeysUnfold(rest, k);
      ParametersGrow(done, k, m);
      ConcatStep(done, k, SortedKeys(rest - {k}));
      items := items + [Parameter(k, m[k])];
      done := done + [k];
      rest := rest - {k};
    }
    assert done + SortedKeys(rest) == done;
  }

  method PutString(fields: map<string, Json>, f: Field, property: string, info: ModelInfo)
    returns (r: map<string, Json>)
    requires Written(fields, info, Rank(f))
    requires StringProperty(f) == Some(property) && f != FProviderType && f != FModelType
    ensures Written(r, info, Rank(f) + 1)
  {
    var v := Lookup(info.strings, property, "");
    hide Written;
    r := Put(fields, f, if v == "" then None else Some(Str(v)), info);
  }

  method PutInt(fields: map<string, Json>, f: Field, property: string, info: ModelInfo) returns (r: map<string, Json>)
    requires Written(fields, info, Rank(f)) && IntProperty(f) == Some(property)
    ensures Written(r, info, Rank(f) + 1)
  {
    hide Written;
    r := Put(fields, f, if property in info.ints then Some(Int(info.ints[property])) else None, info);
  }

  method WriteIdentity(info: ModelInfo) returns (r: map<string, Json>)
    ensures Written(r, info, Rank(FStringProperties))
  {
    NothingWritten(info);
    hide Written, Key;
    r := Put(map[], FId, Some(Str(info.modelId)), info);
    r := Put(r, FName, Some(Str(info.name)), info);
    r := Put(r, FVersion, Some(Int(info.version)), info);
    r := Put(r, FAlias, Some(Str(info.alias)), info);
    r := Put(r, FUri, Some(Str(info.uri)), info);
    r := Put(r, FDetectedRegion, if info.detectedRegion == "" then None else Some(Str(info.detectedRegion)), info);
  }

  method WriteBags(fields: map<string, Json>, info: ModelInfo) returns (r: map<string, Json>)
    requires Written(fields, info, Rank(FStringProperties))
    ensures Written(r, info, Rank(FDisplayName))
  {
    hide Written, Key;
    var bag := StringBag(info.strings);
    r := Put(fields, FStringProperties, if info.strings == map[] then None else Some(bag), info);
    bag := IntBag(info.ints);
    r := Put(r, FIntProperties, if info.ints == map[] then None else Some(bag), info);
    r := Put(r, FProviderType, Some(Str(Lookup(info.strings, MODEL_PROVIDER, ""))), info);
    r := Put(r, FModelType, Some(Str(Lookup(info.strings, MODEL_TYPE, ""))), info);
  }

  method WriteStrings(fields: map<string, Json>, info: ModelInfo) returns (r: map<string, Json>)
    requires Written(fields, info, Rank(FDisplayName))
    ensures Written(r, info, Rank(FPromptTemplate))
  {
    hide Written, FieldValue;
    r := PutString(fields, FDisplayName, DISPLAY_NAME, info);
    r := PutString(r, FPublisher, PUBLISHER, info);
    r := PutString(r, FLicense, LICENSE, info);
    r := PutString(r, FLicenseDescription, LICENSE_DESCRIPTION, info);
    r := PutString(r, FTask, TASK, info);
    r := PutString(r, FMinFLVersion, MIN_FL_VERSION, info);
    r := PutString(r, FParentModelUri, PARENT_URI, info);
    r := PutString(r, FToolCallStart, TOOL_CALL_START, info);
    r := PutString(r, FToolCallEnd, TOOL_CALL_END, info);
    r := PutString(r, FReasoningStart, REASONING_START, info);
    r := PutString(r, FReasoningEnd, REASONING_END, info);
  }

  method WritePairs(fields: map<string, Json>, info: ModelInfo) returns (r: map<string, Json>)
    requires Written(fields, info, Rank(FPromptTemplate))
    ensures Written(r, info, Rank(FRuntime))
  {
    hide Written, Key, SortedKeys, Parameters;
    var templates := StringBag(info.promptTemplates);
    r := Put(fields, FPromptTemplate, if info.promptTemplates == map[] then None else Some(templates), info);
    var parameters := ParameterList(info.modelSettings);
    var settings := Obj(map["parameters" := Arr(parameters)]);
    r := Put(r, FModelSettings, if info.modelSettings == map[] then None else Some(settings), info);
  }

  method WriteRuntime(fields: map<string, Json>, info: ModelInfo) returns (r: map<string, Json>)
    requires Written(fields, info, Rank(FRuntime))
    ensures Written(r, info, Rank(FFileSizeMb))
  {
    var runtime := None;
    if info.deviceType != NotSet || info.executionProvider != "" {
      var rt := map["deviceType" := Str(DeviceTypeToString(info.deviceType))];
      if info.executionProvider != "" {
        rt := rt["executionProvider" := Str(info.executionProvider)];
      }
      runtime := Some(Obj(rt));
    }
    hide Written, Key, DeviceTypeToString;
    r := Put(fields, FRuntime, runtime, info);
  }

  method WriteInts(fields: map<string, Json>, info: ModelInfo) returns (r: map<string, Json>)
    requires Written(fields, info, Rank(FFileSizeMb))
    ensures Written(r, info, Rank(FFoundryLocal))
  {
    hide Written, Key;
    r := PutInt(fields, FFileSizeMb, FILESIZE_MB, info);
    r := PutInt(r, FMaxOutputTokens, MAX_OUTPUT_TOKENS, info);
    r := PutInt(r, FCreatedAt, CREATED_AT_UNIX, info);
    r := Put(r, FSupportsToolCalling, FlagToJson(info.ints, SUPPORTS_TOOL_CALLING), info);
    r := Put(r, FSupportsReasoning, FlagToJson(info.ints, SUPPORTS_REASONING), info);
    var test := if IS_TEST_MODEL in info.ints then Some(Bool(info.ints[IS_TEST_MODEL] != 0)) else None;
    r := Put(r, FTestModel, test, info);
  }

  /** ModelInfoToJson, statement by statement. */
  method WriteModelInfo(info: ModelInfo) returns (j: Json)
    ensures j == ToJson(info) && WrittenAs(info, j)
  {
    hide Written, ToJson, Rank, WrittenAs;
    ToJsonWrites(info);
    var fields := WriteIdentity(info);
    fields := WriteBags(fields, info);
    fields := WriteStrings(fields, info);
    fields := WritePairs(fields, info);
    fields := WriteRuntime(fields, info);
    fields := WriteInts(fields, info);
    AllWritten(fields, info);
    j := Obj(fields);
  }

  /** SetPropertyStr keeps three typed fields in step with the string properties. */
  function SetPropertyStr(info: ModelInfo, key: string, value: string): ModelInfo {
    var typed :=
      if key == TASK then info.(task := value)
      else if key == EP then info.(executionProvider := value)
      else if key == DEVICE_TYPE then info.(deviceType := DeviceTypeFromString(value))
      else info;
    typed.(strings := info.strings[key := value])
  }

  ghost predicate InStep(info: ModelInfo) {
    && info.task == Lookup(info.strings, TASK, "")
    && info.executionProvider == Lookup(info.strings, EP, "")
    && info.deviceType == DeviceTypeFromString(Lookup(info.strings, DEVICE_TYPE, ""))
  }

  lemma SetKeepsInStep(info: ModelInfo, key: string, value: string)
    requires InStep(info)
    ensures InStep(SetPropertyStr(info, key, value))
  {
    assert TASK != EP && EP != DEVICE_TYPE && TASK != DEVICE_TYPE by {
      assert |TASK| == 4 && |EP| == 18 && |DEVICE_TYPE| == 11;
    }
    hide DeviceTypeFromString, TASK, EP, DEVICE_TYPE;
  }

  lemma SetKeepsRest(info: ModelInfo, key: string, value: string)
    ensures var r := SetPropertyStr(info, key, value);
            && r.strings == info.strings[key := value]
            && r == info.(strings := r.strings, task := r.task, executionProvider := r.executionProvider,
                          deviceType := r.deviceType)
  {
    hide TASK, EP, DEVICE_TYPE, DeviceTypeFromString;
  }

  method ReadStringBag(bag: map<string, Json>, start: ModelInfo) returns (info: ModelInfo)
    requires start.strings == map[] && InStep(start)
    ensures info.strings == StringsFromJson(Some(Obj(bag))) && InStep(info)
    ensures info == start.(strings := info.strings, task := info.task,
                           executionProvider := info.executionProvider, deviceType := info.deviceType)
  {
    info := start;
    var rest := bag.Keys;
    while rest != {}
      invariant rest <= bag.Keys && InStep(info)
      invariant info.strings == map k | k in bag.Keys - rest && bag[k].Str? :: bag[k].s
      invariant info == start.(strings := info.strings, task := info.task,
                               executionProvider := info.executionProvider, deviceType := info.deviceType)
      decreases rest
    {
      var k :| k in rest;
      if bag[k].Str? {
        hide InStep, SetPropertyStr;
        SetKeepsInStep(info, k, bag[k].s);
        SetKeepsRest(info, k, bag[k].s);
        info := SetPropertyStr(info, k, bag[k].s);
      }
      rest := rest - {k};
    }
  }

  method ReadIntBag(bag: map<string, Json>) returns (ints: map<string, Int64>)
    ensures ints == IntsFromJson(Some(Obj(bag)))
  {
    ints := map[];
    var rest := bag.Keys;
    while rest != {}
      invariant rest <= bag.Keys
      invariant ints == map k | k in bag.Keys - rest && bag[k].Int? :: ToInt64(bag[k].n)
      decreases rest
    {
      var k :| k in rest;
      if bag[k].Int? {
        ints := ints[k := ToInt64(bag[k].n)];
      }
      rest := rest - {k};
    }
  }

  method ReadTemplates(bag: map<string, Json>) returns (pairs: map<string, string>)
    ensures pairs == StringsFromJson(Some(Obj(bag))) - {""}
  {
    pairs := map[];
    var rest := bag.Keys;
    while rest != {}
      invariant rest <= bag.Keys
      invariant pairs == map k | k in bag.Keys - rest && bag[k].Str? && k != "" :: bag[k].s
      decreases rest
    {
      var k :| k in rest;
      if bag[k].Str? {
        pairs := Add(pairs, k, bag[k].s);
      }
      rest := rest - {k};
    }
  }

  method ReadSettings(items: seq<Json>) returns (pairs: map<string, string>)
    ensures pairs == AddParameters(map[], items)
  {
    pairs := map[];
    for i := 0 to |items|
      invariant AddParameters(pairs, items[i..]) == AddParameters(map[], items)
    {
      assert items[i..][1..] == items[i + 1..];
      var name := At(items[i], "Name");
      if name.Some? && name.value.Str? {
        pairs := Add(pairs, name.value.s, StringOr(At(items[i], "Value"), ""));
      }
    }
  }

  method ReadNamedStrings(j: Json, bag: map<string, string>) returns (strings: map<string, string>)
    ensures strings == ReadStrings(j, STRING_FIELDS, bag)
  {
    strings := bag;
    var fields := STRING_FIELDS;
    hide STRING_FIELDS, StringProperty, Get;
    while fields != []
      invariant ReadStrings(j, fields, strings) == ReadStrings(j, STRING_FIELDS, bag)
      decreases |fields|
    {
      var property, value := StringProperty(fields[0]), StringOr(Get(j, fields[0]), "");
      if property.Some? && value != "" {
        strings := strings[property.value := value];
      }
      fields := fields[1..];
    }
  }

  method ReadNamedInts(j: Json, bag: map<string, Int64>) returns (ints: map<string, Int64>)
    ensures ints == ReadInts(j, INT_FIELDS, bag)
  {
    ints := bag;
    var fields := INT_FIELDS;
    hide INT_FIELDS, IntProperty, Get;
    while fields != []
      invariant ReadInts(j, fields, ints) == ReadInts(j, INT_FIELDS, bag)
      decreases |fields|
    {
      var property, value := IntProperty(fields[0]), Get(j, fields[0]);
      if property.Some? && value.Some? && value.value.Int? {
        ints := ints[property.value := ToInt64(value.value.n)];
      }
      fields := fields[1..];
    }
  }

  lemma NothingSet(info: ModelInfo)
    requires info.strings == map[] && info.task == "" && info.executionProvider == "" && info.deviceType == NotSet
    ensures InStep(info)
  {
    assert Lower("") == "";
  }

  method ReadIdentity(j: Json) returns (info: ModelInfo)
    ensures info == EMPTY_INFO.(
              modelId := StringOr(Get(j, FId), ""), name := StringOr(Get(j, FName), ""), version := ReadVersion(j),
              alias := StringOr(Get(j, FAlias), ""), uri := StringOr(Get(j, FUri), ""),
              detectedRegion := StringOr(Get(j, FDetectedRegion), ""))
  {
    hide Get;
    info := EMPTY_INFO;
    var id := Get(j, FId);
    if id.Some? && id.value.Str? { info := info.(modelId := id.value.s); }
    var name := Get(j, FName);
    if name.Some? && name.value.Str? { info := info.(name := name.value.s); }
    var version := Get(j, FVersion);
    if version.Some? && version.value.Int? { info := info.(version := ToInt32(version.value.n)); }
    var alias := Get(j, FAlias);
    if alias.Some? && alias.value.Str? { info := info.(alias := alias.value.s); }
    var uri := Get(j, FUri);
    if uri.Some? && uri.value.Str? { info := info.(uri := uri.value.s); }
    var region := Get(j, FDetectedRegion);
    if region.Some? && region.value.Str? { info := info.(detectedRegion := region.value.s); }
  }

  /** The property bags, and the typed fields that SetPropertyStr derives from them. */
  method ReadBags(j: Json, start: ModelInfo) returns (info: ModelInfo)
    requires start.strings == map[] && start.ints == map[] && InStep(start)
    ensures info.strings == ReadBag(j) && InStep(info)
    ensures info == start.(strings := info.strings, ints := IntsFromJson(Get(j, FIntProperties)), task := info.task,
                           executionProvider := info.executionProvider, deviceType := info.deviceType)
  {
    hide Get;
    info := start;
    var bag := Get(j, FStringProperties);
    if bag.Some? && bag.value.Obj? {
      info := ReadStringBag(bag.value.fields, info);
    }
    bag := Get(j, FIntProperties);
    if bag.Some? && bag.value.Obj? {
      var ints := ReadIntBag(bag.value.fields);
      info := info.(ints := ints);
    }
  }

  /** The named string fields and the runtime, on top of what the bags gave. */
  method ReadTyped(j: Json, start: ModelInfo) returns (info: ModelInfo)
    requires start.strings == ReadBag(j) && InStep(start)
    ensures info == start.(strings := ReadStringProperties(j), task := ReadTask(j),
                           deviceType := ReadDevice(j), executionProvider := ReadProvider(j))
  {
    hide DeviceTypeFromString, ReadStrings, STRING_FIELDS, ReadBag, ReadRuntime;
    var strings := ReadNamedStrings(j, start.strings);
    info := start.(strings := strings);
    if TASK in strings && strings[TASK] != "" {
      info := info.(task := strings[TASK]);
    }
    var device := ReadRuntime(j, "deviceType");
    if device.Some? && device.value.Str? {
      info := info.(deviceType := DeviceTypeFromString(device.value.s));
    }
    var provider := ReadRuntime(j, "executionProvider");
    if provider.Some? && provider.value.Str? {
      info := info.(executionProvider := provider.value.s);
    }
  }

  method ReadPairs(j: Json) returns (templates: map<string, string>, settings: map<string, string>)
    ensures templates == StringsFromJson(Get(j, FPromptTemplate)) - {""}
    ensures settings == SettingsFromJson(Get(j, FModelSettings))
  {
    hide Get, AddParameters, At;
    templates, settings := map[], map[];
    var bag := Get(j, FPromptTemplate);
    if bag.Some? && bag.value.Obj? {
      templates := ReadTemplates(bag.value.fields);
    }
    bag := Get(j, FModelSettings);
    if bag.Some? {
      var parameters := At(bag.value, "parameters");
      if parameters.Some? && parameters.value.Arr? {
        settings := ReadSettings(parameters.value.items);
      }
    }
  }

  method ReadIntFields(j: Json, bag: map<string, Int64>) returns (ints: map<string, Int64>)
    requires bag == IntsFromJson(Get(j, FIntProperties))
    ensures ints == ReadIntProperties(j)
  {
    hide Get, ReadInts, INT_FIELDS, IntsFromJson;
    ints := ReadNamedInts(j, bag);
    ints := ReadFlag(Get(j, FSupportsToolCalling), ints, SUPPORTS_TOOL_CALLING);
    ints := ReadFlag(Get(j, FSupportsReasoning), ints, SUPPORTS_REASONING);
    if StringOr(Get(j, FFoundryLocal), "") == "test" {
      ints := ints[IS_TEST_MODEL := 1];
    }
  }

  /** ModelInfoFromJson: accepts every JSON value and skips what has the wrong type. */
  method ReadModelInfo(j: Json) returns (info: ModelInfo)
    ensures info == FromJson(j) && ReadAs(j, info)
  {
    FromJsonReads(j);
    hide ReadAs, Get, ReadBag, ReadVersion, ReadDevice, ReadProvider, ReadTask, ReadStringProperties, ReadIntProperties,
         StringsFromJson, SettingsFromJson, IntsFromJson, InStep, StringOr;
    info := ReadIdentity(j);
    NothingSet(info);
    info := ReadBags(j, info);
    info := ReadTyped(j, info);
    var templates, settings := ReadPairs(j);
    var ints := ReadIntFields(j, info.ints);
    info := info.(promptTemplates := templates, modelSettings := settings, ints := ints);
  }

  /** The two methods make up the trip of the lemmas above. */
  method WriteAndRead(info: ModelInfo) returns (back: ModelInfo)
    ensures back == Normalised(info)
    ensures back == info <==> NormalForm(info)
  {
    hide ToJson, FromJson, Normalised, NormalForm, ReadAs, WrittenAs;
    var j := WriteModelInfo(info);
    back := ReadModelInfo(j);
    TripNormalises(info);
    NormalFormIsFixed(info);
  }
}
