/**
 * The tolerant decoder of one batch element. It never fails on a missing,
 * null or unknown property: every unknown property name becomes a warning,
 * and each known property is read by its own rule.
 *
 * `Decoded` is the reference: every property is read from the last
 * occurrence of its key in the element's text. `Deserialize` follows the
 * decoder step by step over Jackson's tree and is proved equal to it.
 */
module Deserializer {
  import opened Wrappers
  import opened JsonTree
  import opened AssetRequest

  const MANUFACTURER := "manufacturer"
  const PART_NAME_MANUFACTURER := "partNameManufacturer"
  const PART_NUMBER_CUSTOMER := "partNumberCustomer"
  const PART_NUMBER_MANUFACTURER := "partNumberManufacturer"
  const PRODUCTION_COUNTRY_CODE_MANUFACTURER := "productionCountryCodeManufacturer"
  const PRODUCTION_DATE_GMT := "productionDateGmt"
  const MANUFACTURER_PLANT := "manufacturerPlant"
  const MANUFACTURER_LINE := "manufacturerLine"
  const SERIAL_NUMBER_TYPE := "serialNumberType"
  const QUALITY_STATUS := "qualityStatus"
  const SERIAL_NUMBER_CUSTOMER := "serialNumberCustomer"
  const SERIAL_NUMBER_MANUFACTURER := "serialNumberManufacturer"
  const STATUS := "status"
  const COMPONENTS_SERIAL_NUMBERS := "componentsSerialNumbers"
  const CUSTOM_FIELDS := "customFields"
  const QUALITY_DOCUMENTS := "qualityDocuments"

  /** The sixteen property names of the asset schema. */
  const ALL_ASSET_PROPERTIES: seq<string> := [
    MANUFACTURER, PART_NAME_MANUFACTURER, PART_NUMBER_CUSTOMER, PART_NUMBER_MANUFACTURER,
    PRODUCTION_COUNTRY_CODE_MANUFACTURER, PRODUCTION_DATE_GMT, MANUFACTURER_PLANT, MANUFACTURER_LINE,
    SERIAL_NUMBER_TYPE, QUALITY_STATUS, SERIAL_NUMBER_CUSTOMER, SERIAL_NUMBER_MANUFACTURER, STATUS,
    COMPONENTS_SERIAL_NUMBERS, CUSTOM_FIELDS, QUALITY_DOCUMENTS]

  /** The eleven properties copied as plain text. */
  const STRING_ASSET_PROPERTIES: seq<string> := [
    MANUFACTURER, PART_NAME_MANUFACTURER, PART_NUMBER_CUSTOMER, PART_NUMBER_MANUFACTURER,
    PRODUCTION_COUNTRY_CODE_MANUFACTURER, PRODUCTION_DATE_GMT, MANUFACTURER_PLANT, MANUFACTURER_LINE,
    SERIAL_NUMBER_CUSTOMER, SERIAL_NUMBER_MANUFACTURER, STATUS]

  // ---- unknown properties ----

  function UnknownPropertyWarning(name: string): string
  {
    "The property '" + name + "' is not defined on the asset json schema"
  }

  /** The warnings for a set of property names: one per name outside the schema. */
  function SchemaWarnings(names: set<string>): set<string>
  {
    set p | p in names && p !in ALL_ASSET_PROPERTIES :: UnknownPropertyWarning(p)
  }

  /** `checkNonExistentPropertiesInJsonDataModel`: the warnings of the names the list holds. */
  function CheckNonExistentProperties(propertiesInJson: seq<string>): set<string>
  {
    SchemaWarnings(set p | p in propertiesInJson)
  }

  /** One more name outside the schema adds exactly its own warning. */
  lemma SchemaWarningsAdd(names: set<string>, k: string)
    requires k !in ALL_ASSET_PROPERTIES
    ensures SchemaWarnings(names + {k}) == SchemaWarnings(names) + {UnknownPropertyWarning(k)}
  {
    assert UnknownPropertyWarning(k) in SchemaWarnings(names + {k});
  }

  /** Different property names give different warnings. */
  lemma WarningInjective(a: string, b: string)
    requires UnknownPropertyWarning(a) == UnknownPropertyWarning(b)
    ensures a == b
  {
    var prefix := "The property '";
    var wa, wb := UnknownPropertyWarning(a), UnknownPropertyWarning(b);
    assert |a| == |b|;
    assert a == wa[|prefix|..|prefix| + |a|];
    assert b == wb[|prefix|..|prefix| + |b|];
  }

  lemma {:induction false} WarningImageSize(names: set<string>)
    ensures |set p | p in names :: UnknownPropertyWarning(p)| == |names|
    decreases |names|
  {
    if names != {} {
      var x :| x in names;
      var rest := names - {x};
      WarningImageSize(rest);
      var img := set p | p in names :: UnknownPropertyWarning(p);
      var imgRest := set p | p in rest :: UnknownPropertyWarning(p);
      assert img == imgRest + {UnknownPropertyWarning(x)};
      if UnknownPropertyWarning(x) in imgRest {
        var y :| y in rest && UnknownPropertyWarning(y) == UnknownPropertyWarning(x);
        WarningInjective(x, y);
      }
    }
  }

  /**
   * Each property name outside the schema yields exactly its own warning: one
   * warning per distinct unknown name, and a known name yields none.
   */
  lemma UnknownPropertiesWarned(props: seq<string>)
    ensures forall p :: UnknownPropertyWarning(p) in CheckNonExistentProperties(props)
                        <==> p in props && p !in ALL_ASSET_PROPERTIES
    ensures |CheckNonExistentProperties(props)| == |set p | p in props && p !in ALL_ASSET_PROPERTIES|
  {
    var unknown := set p | p in props && p !in ALL_ASSET_PROPERTIES;
    forall p | UnknownPropertyWarning(p) in CheckNonExistentProperties(props)
      ensures p in props && p !in ALL_ASSET_PROPERTIES
    {
      var q :| q in props && q !in ALL_ASSET_PROPERTIES && UnknownPropertyWarning(q) == UnknownPropertyWarning(p);
      WarningInjective(p, q);
    }
    assert CheckNonExistentProperties(props) == set p | p in unknown :: UnknownPropertyWarning(p);
    WarningImageSize(unknown);
  }

  // ---- the enumerated values ----

  /** `Character.toUpperCase` on the ASCII letters; every other character is kept. */
  function UpperChar(c: char): char
  {
    if 'a' <= c <= 'z' then (c as int - 32) as char else c
  }

  /** `String.toUpperCase`, letter by letter. */
  function ToUpperCase(s: string): (r: string)
    ensures |r| == |s|
    ensures forall i :: 0 <= i < |s| ==> r[i] == UpperChar(s[i])
  {
    seq(|s|, i requires 0 <= i < |s| => UpperChar(s[i]))
  }

  /** Two strings that differ at most in the case of ASCII letters. */
  predicate EqualsIgnoreAsciiCase(s: string, t: string)
  {
    |s| == |t| &&
    forall i :: 0 <= i < |s| ==>
      || s[i] == t[i]
      || ('a' <= s[i] <= 'z' && t[i] as int == s[i] as int - 32)
      || ('a' <= t[i] <= 'z' && s[i] as int == t[i] as int - 32)
  }

  /**
   * Upper-casing and comparing with a name free of lower-case letters (such
   * as SINGLE, BATCH, OK, NOK, FLAG) matches the name in any case.
   */
  lemma UpperCaseMatchIgnoresCase(s: string, t: string)
    requires forall i :: 0 <= i < |t| ==> !('a' <= t[i] <= 'z')
    ensures ToUpperCase(s) == t <==> EqualsIgnoreAsciiCase(s, t)
  {
  }

  /** `SerialNumberType.valueOf`; `None` where it throws `IllegalArgumentException`. */
  function SerialNumberTypeValueOf(name: string): Option<SerialNumberType>
  {
    if name == "SINGLE" then Some(SINGLE) else if name == "BATCH" then Some(BATCH) else None
  }

  /** `AssetQualityStatus.valueOf`; `None` where it throws `IllegalArgumentException`. */
  function QualityStatusValueOf(name: string): Option<AssetQualityStatus>
  {
    if name == "OK" then Some(OK) else if name == "NOK" then Some(NOK)
    else if name == "FLAG" then Some(FLAG) else None
  }

  /** The property is missing (`has` is false) or holds JSON null (`isNull`). */
  predicate AbsentOrNull(value: Option<Json>)
  {
    value.None? || value.value.JNull?
  }

  /**
   * An enumerated property, when set, is text: on any other node `textValue()`
   * is null and the decoder's `toUpperCase()` throws a NullPointerException it
   * does not catch.
   */
  predicate EnumTextual(value: Option<Json>)
  {
    AbsentOrNull(value) || value.value.JStr?
  }

  /** `getSerialNumberType`, given `node.get("serialNumberType")`. */
  function GetSerialNumberType(value: Option<Json>): (r: Option<SerialNumberType>)
    requires EnumTextual(value)
    ensures r == Some(SINGLE) <==> AbsentOrNull(value) || ToUpperCase(value.value.s) == "SINGLE"
    ensures r == Some(BATCH) <==> !AbsentOrNull(value) && ToUpperCase(value.value.s) == "BATCH"
    ensures r == None <==> !AbsentOrNull(value) && ToUpperCase(value.value.s) !in {"SINGLE", "BATCH"}
  {
    if AbsentOrNull(value) then Some(SINGLE)
    else SerialNumberTypeValueOf(ToUpperCase(value.value.s))
  }

  /** `getQualityStatus`, given `node.get("qualityStatus")`: no default. */
  function GetQualityStatus(value: Option<Json>): (r: Option<AssetQualityStatus>)
    requires EnumTextual(value)
    ensures r == Some(OK) <==> !AbsentOrNull(value) && ToUpperCase(value.value.s) == "OK"
    ensures r == Some(NOK) <==> !AbsentOrNull(value) && ToUpperCase(value.value.s) == "NOK"
    ensures r == Some(FLAG) <==> !AbsentOrNull(value) && ToUpperCase(value.value.s) == "FLAG"
    ensures r == None <==> AbsentOrNull(value) || ToUpperCase(value.value.s) !in {"OK", "NOK", "FLAG"}
  {
    if AbsentOrNull(value) then None
    else QualityStatusValueOf(ToUpperCase(value.value.s))
  }

  /** The enumerated values are matched whatever the case of their letters. */
  lemma EnumTestValues()
    ensures GetSerialNumberType(Some(JStr("SINGLE"))) == Some(SINGLE)
    ensures GetSerialNumberType(Some(JStr("BATCH"))) == Some(BATCH)
    ensures GetSerialNumberType(Some(JNull)) == Some(SINGLE)
    ensures GetSerialNumberType(Some(JStr("invalidValue"))) == None
    ensures GetQualityStatus(Some(JStr("OK"))) == Some(OK)
    ensures GetQualityStatus(Some(JStr("NOK"))) == Some(NOK)
    ensures GetQualityStatus(Some(JStr("FLAG"))) == Some(FLAG)
    ensures GetQualityStatus(Some(JNull)) == None
    ensures GetQualityStatus(Some(JStr("qualityStatusValue"))) == None
  {
    assert ToUpperCase("SINGLE") == "SINGLE";
    assert ToUpperCase("BATCH") == "BATCH";
    assert ToUpperCase("OK") == "OK";
    assert ToUpperCase("NOK") == "NOK";
    assert ToUpperCase("FLAG") == "FLAG";
  }

  /** Beyond the tests: names in lower or mixed case are matched too. */
  lemma EnumAnyCase()
    ensures GetSerialNumberType(Some(JStr("batch"))) == Some(BATCH)
    ensures GetSerialNumberType(Some(JStr("Single"))) == Some(SINGLE)
    ensures GetQualityStatus(Some(JStr("nok"))) == Some(NOK)
    ensures GetQualityStatus(Some(JStr("Flag"))) == Some(FLAG)
  {
    assert ToUpperCase("batch") == "BATCH";
    assert ToUpperCase("Single") == "SINGLE";
    assert ToUpperCase("nok") == "NOK";
    assert ToUpperCase("Flag") == "FLAG";
  }

  // ---- component serial numbers ----

  /** Reference: the set of the text values of the property's elements; null when absent or null. */
  function ComponentsSerialNumbers(value: Option<Json>): Option<set<Option<string>>>
  {
    if AbsentOrNull(value) then None
    else Some(set e | e in Elements(value.value) :: TextValue(e))
  }

  /** `getComponentsSerialNumbers`: add the text of every element into a fresh hash set. */
  method GetComponentsSerialNumbers(value: Option<Json>) returns (result: Option<set<Option<string>>>)
    ensures result == ComponentsSerialNumbers(value)
  {
    result := None;
    if !AbsentOrNull(value) {
      var children := Elements(value.value);
      var acc: set<Option<string>> := {};
      var i := 0;
      while i < |children|
        invariant 0 <= i <= |children|
        invariant acc == set e | e in children[..i] :: TextValue(e)
      {
        assert children[..i + 1] == children[..i] + [children[i]];
        acc := acc + {TextValue(children[i])};
        i := i + 1;
      }
      assert children[..i] == children;
      result := Some(acc);
    }
  }

  /** Duplicates collapse; distinct serial numbers are all kept; an empty array is an empty set, not null. */
  lemma ComponentsAreASet(x: string, y: string)
    ensures ComponentsSerialNumbers(Some(JArr([JStr(x), JStr(x)]))) == Some({Some(x)})
    ensures ComponentsSerialNumbers(Some(JArr([JStr(x), JStr(y)]))) == Some({Some(x), Some(y)})
    ensures ComponentsSerialNumbers(Some(JArr([]))) == Some({})
    ensures ComponentsSerialNumbers(None) == None && ComponentsSerialNumbers(Some(JNull)) == None
  {
    var xy := [JStr(x), JStr(y)];
    assert xy[0] == JStr(x) && xy[1] == JStr(y);
    assert JStr(x) in xy && JStr(y) in xy;
    assert forall e :: e in xy ==> e == JStr(x) || e == JStr(y);
    assert (set e | e in xy :: TextValue(e)) == {Some(x), Some(y)};
    var xx := [JStr(x), JStr(x)];
    assert xx[0] == JStr(x);
    assert (set e | e in xx :: TextValue(e)) == {Some(x)};
    var none: seq<Json> := [];
    assert (set e | e in none :: TextValue(e)) == {};
  }

  // ---- the two string maps ----

  /** A map value Jackson turns into a String: a scalar, or null. */
  predicate Scalar(v: Json)
  {
    !v.JArr? && !v.JObj?
  }

  /**
   * A map property, when set, is an object whose values are scalars: anything
   * else makes `convertValue` throw an IllegalArgumentException the decoder
   * does not catch.
   */
  predicate MapConvertible(value: Option<Json>)
  {
    AbsentOrNull(value)
    || (value.value.JObj? &&
        forall k :: k in Keys(value.value.members) ==> Scalar(LastValue(value.value.members, k).value))
  }

  /** The String a scalar converts to: its text, or null. */
  function ScalarText(v: Json): Option<string>
  {
    if v.JNull? then None else Some(AsText(v))
  }

  /** `loadMapField`, given `node.get(fieldName)`: the object as a string map. */
  function LoadMapField(value: Option<Json>): (r: Option<map<string, Option<string>>>)
    requires MapConvertible(value)
    ensures r.None? <==> AbsentOrNull(value)
    ensures r.Some? ==> r.value.Keys == Keys(value.value.members)
    ensures r.Some? ==> forall k :: k in r.value ==>
      r.value[k] == ScalarText(LastValue(value.value.members, k).value)
  {
    if AbsentOrNull(value) then None
    else
      var ms := value.value.members;
      var fields := Tree(ms);
      TreeKeys(ms);
      assert forall k :: Get(fields, k) == LastValue(ms, k) by {
        forall k ensures Get(fields, k) == LastValue(ms, k) { TreeGet(ms, k); }
      }
      Some(map k | k in Keys(fields) :: ScalarText(Get(fields, k).value))
  }

  /** A repeated key in a map keeps its last value. */
  lemma MapRepeatedKeyLastWins(k: string, v1: string, v2: string)
    ensures LoadMapField(Some(JObj([(k, JStr(v1)), (k, JStr(v2))]))) == Some(map[k := Some(v2)])
  {
    var one: Members := [(k, JStr(v1))];
    var full := one + [(k, JStr(v2))];
    assert full == [(k, JStr(v1)), (k, JStr(v2))];
    assert Keys(one) == {k} by { assert one[0].0 == k; }
    AppendMember(one, k, JStr(v2));
    assert LastValue(full, k) == Some(JStr(v2));
    var r := LoadMapField(Some(JObj(full))).value;
    assert r.Keys == {k};
    assert r[k] == Some(v2);
    assert r == map[k := Some(v2)];
  }

  /** Distinct keys of a map are all kept, each with its own value. */
  lemma MapDistinctKeysKept(k: string, v1: string, k2: string, v2: string)
    requires k != k2
    ensures LoadMapField(Some(JObj([(k, JStr(v1)), (k2, JStr(v2))]))) == Some(map[k := Some(v1), k2 := Some(v2)])
  {
    var one: Members := [(k, JStr(v1))];
    var full := one + [(k2, JStr(v2))];
    assert full == [(k, JStr(v1)), (k2, JStr(v2))];
    assert Keys(one) == {k} by { assert one[0].0 == k; }
    assert LastValue(one, k) == Some(JStr(v1));
    AppendMember(one, k2, JStr(v2));
    assert LastValue(full, k) == Some(JStr(v1));
    assert LastValue(full, k2) == Some(JStr(v2));
    var r := LoadMapField(Some(JObj(full))).value;
    assert r.Keys == {k, k2};
    assert r[k] == Some(v1) && r[k2] == Some(v2);
    assert r == map[k := Some(v1), k2 := Some(v2)];
  }

  // ---- the plain string properties ----

  /** The text copied into a plain string field: `asText()`, or null when absent or null. */
  function StringText(value: Option<Json>): Option<string>
  {
    if AbsentOrNull(value) then None else Some(AsText(value.value))
  }

  /**
   * The reflective write of `loadStringProperties`: the record field named by
   * the j-th plain string property (`getDeclaredField`), set to `text`.
   */
  function SetStringField(a: AssetRequestDto, j: nat, text: Option<string>): AssetRequestDto
    requires j < |STRING_ASSET_PROPERTIES|
  {
    if j == 0 then a.(manufacturer := text)
    else if j == 1 then a.(partNameManufacturer := text)
    else if j == 2 then a.(partNumberCustomer := text)
    else if j == 3 then a.(partNumberManufacturer := text)
    else if j == 4 then a.(productionCountryCodeManufacturer := text)
    else if j == 5 then a.(productionDateGmt := text)
    else if j == 6 then a.(manufacturerPlant := text)
    else if j == 7 then a.(manufacturerLine := text)
    else if j == 8 then a.(serialNumberCustomer := text)
    else if j == 9 then a.(serialNumberManufacturer := text)
    else a.(status := text)
  }

  /** The record field named by the j-th plain string property. */
  function StringField(a: AssetRequestDto, j: nat): Option<string>
    requires j < |STRING_ASSET_PROPERTIES|
  {
    if j == 0 then a.manufacturer
    else if j == 1 then a.partNameManufacturer
    else if j == 2 then a.partNumberCustomer
    else if j == 3 then a.partNumberManufacturer
    else if j == 4 then a.productionCountryCodeManufacturer
    else if j == 5 then a.productionDateGmt
    else if j == 6 then a.manufacturerPlant
    else if j == 7 then a.manufacturerLine
    else if j == 8 then a.serialNumberCustomer
    else if j == 9 then a.serialNumberManufacturer
    else a.status
  }

  /** The record with its plain string fields cleared: what a string write must leave alone. */
  function OtherFields(a: AssetRequestDto): AssetRequestDto
  {
    a.(manufacturer := None, partNameManufacturer := None, partNumberCustomer := None,
       partNumberManufacturer := None, productionCountryCodeManufacturer := None,
       productionDateGmt := None, manufacturerPlant := None, manufacturerLine := None,
       serialNumberCustomer := None, serialNumberManufacturer := None, status := None)
  }

  /** Writing one plain string field changes that field and nothing else. */
  lemma SetStringFieldFrame(a: AssetRequestDto, j: nat, text: Option<string>)
    requires j < |STRING_ASSET_PROPERTIES|
    ensures OtherFields(SetStringField(a, j, text)) == OtherFields(a)
    ensures forall k :: 0 <= k < |STRING_ASSET_PROPERTIES| ==>
      StringField(SetStringField(a, j, text), k) == if k == j then text else StringField(a, k)
  {
  }

  /** `loadStringProperties` for the j-th property: copy its text when it is present and not null. */
  function LoadStringProperty(a: AssetRequestDto, node: Json, j: nat): AssetRequestDto
    requires j < |STRING_ASSET_PROPERTIES|
  {
    var value := GetField(node, STRING_ASSET_PROPERTIES[j]);
    if !AbsentOrNull(value) then SetStringField(a, j, Some(AsText(value.value))) else a
  }

  /** The record with every plain string field read from the last occurrence of its key. */
  function StringsDecoded(node: Json): AssetRequestDto
  {
    NewAssetRequestDto().(
      manufacturer := StringText(Member(node, MANUFACTURER)),
      partNameManufacturer := StringText(Member(node, PART_NAME_MANUFACTURER)),
      partNumberCustomer := StringText(Member(node, PART_NUMBER_CUSTOMER)),
      partNumberManufacturer := StringText(Member(node, PART_NUMBER_MANUFACTURER)),
      productionCountryCodeManufacturer := StringText(Member(node, PRODUCTION_COUNTRY_CODE_MANUFACTURER)),
      productionDateGmt := StringText(Member(node, PRODUCTION_DATE_GMT)),
      manufacturerPlant := StringText(Member(node, MANUFACTURER_PLANT)),
      manufacturerLine := StringText(Member(node, MANUFACTURER_LINE)),
      serialNumberCustomer := StringText(Member(node, SERIAL_NUMBER_CUSTOMER)),
      serialNumberManufacturer := StringText(Member(node, SERIAL_NUMBER_MANUFACTURER)),
      status := StringText(Member(node, STATUS)))
  }

  /** A record whose string fields all hold their property's text, and nothing else, is `StringsDecoded`. */
  lemma StringFieldsComplete(asset: AssetRequestDto, node: Json)
    requires OtherFields(asset) == NewAssetRequestDto()
    requires forall j :: 0 <= j < |STRING_ASSET_PROPERTIES| ==>
      StringField(asset, j) == StringText(Member(node, STRING_ASSET_PROPERTIES[j]))
    ensures asset == StringsDecoded(node)
  {
    assert asset.manufacturer == StringText(Member(node, MANUFACTURER)) by {
      assert StringField(asset, 0) == StringText(Member(node, STRING_ASSET_PROPERTIES[0])); }
    assert asset.partNameManufacturer == StringText(Member(node, PART_NAME_MANUFACTURER)) by {
      assert StringField(asset, 1) == StringText(Member(node, STRING_ASSET_PROPERTIES[1])); }
    assert asset.partNumberCustomer == StringText(Member(node, PART_NUMBER_CUSTOMER)) by {
      assert StringField(asset, 2) == StringText(Member(node, STRING_ASSET_PROPERTIES[2])); }
    assert asset.partNumberManufacturer == StringText(Member(node, PART_NUMBER_MANUFACTURER)) by {
      assert StringField(asset, 3) == StringText(Member(node, STRING_ASSET_PROPERTIES[3])); }
    assert asset.productionCountryCodeManufacturer == StringText(Member(node, PRODUCTION_COUNTRY_CODE_MANUFACTURER)) by {
      assert StringField(asset, 4) == StringText(Member(node, STRING_ASSET_PROPERTIES[4])); }
    assert asset.productionDateGmt == StringText(Member(node, PRODUCTION_DATE_GMT)) by {
      assert StringField(asset, 5) == StringText(Member(node, STRING_ASSET_PROPERTIES[5])); }
    assert asset.manufacturerPlant == StringText(Member(node, MANUFACTURER_PLANT)) by {
      assert StringField(asset, 6) == StringText(Member(node, STRING_ASSET_PROPERTIES[6])); }
    assert asset.manufacturerLine == StringText(Member(node, MANUFACTURER_LINE)) by {
      assert StringField(asset, 7) == StringText(Member(node, STRING_ASSET_PROPERTIES[7])); }
    assert asset.serialNumberCustomer == StringText(Member(node, SERIAL_NUMBER_CUSTOMER)) by {
      assert StringField(asset, 8) == StringText(Member(node, STRING_ASSET_PROPERTIES[8])); }
    assert asset.serialNumberManufacturer == StringText(Member(node, SERIAL_NUMBER_MANUFACTURER)) by {
      assert StringField(asset, 9) == StringText(Member(node, STRING_ASSET_PROPERTIES[9])); }
    assert asset.status == StringText(Member(node, STATUS)) by {
      assert StringField(asset, 10) == StringText(Member(node, STRING_ASSET_PROPERTIES[10])); }
  }

  /** The `forEach` of `deserialize` over the plain string properties, on a fresh record. */
  method LoadStringProperties(node: Json) returns (asset: AssetRequestDto)
    ensures asset == StringsDecoded(node)
  {
    asset := NewAssetRequestDto();
    for i := 0 to |STRING_ASSET_PROPERTIES|
      invariant OtherFields(asset) == NewAssetRequestDto()
      invariant forall j :: 0 <= j < |STRING_ASSET_PROPERTIES| ==>
        StringField(asset, j) == if j < i then StringText(Member(node, STRING_ASSET_PROPERTIES[j])) else None
    {
      GetFieldIsMember(node, STRING_ASSET_PROPERTIES[i]);
      SetStringFieldFrame(asset, i, StringText(Member(node, STRING_ASSET_PROPERTIES[i])));
      asset := LoadStringProperty(asset, node, i);
    }

    StringFieldsComplete(asset, node);
  }

  // ---- the whole decoder ----

  /** The inputs on which the decoder returns rather than throws. */
  predicate Decodable(node: Json)
  {
    && EnumTextual(Member(node, SERIAL_NUMBER_TYPE))
    && EnumTextual(Member(node, QUALITY_STATUS))
    && MapConvertible(Member(node, CUSTOM_FIELDS))
    && MapConvertible(Member(node, QUALITY_DOCUMENTS))
  }

  /** Reference decode: each property read from the last occurrence of its key. */
  function Decoded(node: Json): AssetRequestDto
    requires Decodable(node)
  {
    AssetRequestDto(
      StringText(Member(node, MANUFACTURER)),
      StringText(Member(node, PART_NAME_MANUFACTURER)),
      StringText(Member(node, PART_NUMBER_CUSTOMER)),
      StringText(Member(node, PART_NUMBER_MANUFACTURER)),
      StringText(Member(node, SERIAL_NUMBER_MANUFACTURER)),
      StringText(Member(node, SERIAL_NUMBER_CUSTOMER)),
      StringText(Member(node, STATUS)),
      GetSerialNumberType(Member(node, SERIAL_NUMBER_TYPE)),
      GetQualityStatus(Member(node, QUALITY_STATUS)),
      StringText(Member(node, PRODUCTION_DATE_GMT)),
      StringText(Member(node, PRODUCTION_COUNTRY_CODE_MANUFACTURER)),
      StringText(Member(node, MANUFACTURER_PLANT)),
      StringText(Member(node, MANUFACTURER_LINE)),
      ComponentsSerialNumbers(Member(node, COMPONENTS_SERIAL_NUMBERS)),
      LoadMapField(Member(node, CUSTOM_FIELDS)),
      LoadMapField(Member(node, QUALITY_DOCUMENTS)),
      Some(SchemaWarnings(MemberNames(node))))
  }

  /**
   * `deserialize`: read the tree, collect the warnings for its field names,
   * fill a fresh record property by property.
   */
  method Deserialize(node: Json) returns (asset: AssetRequestDto)
    requires Decodable(node)
    ensures asset == Decoded(node)
  {
    var fields := NodeFields(node);
    var jsonProperties := FieldNames(fields);
    var invalidProperties := CheckNonExistentProperties(jsonProperties);
    assert invalidProperties == Decoded(node).warnings.value by {
      assert forall k :: k in jsonProperties <==> k in Keys(fields);
      if node.JObj? { TreeKeys(node.members); }
    }

    asset := LoadStringProperties(node);

    GetFieldIsMember(node, SERIAL_NUMBER_TYPE);
    GetFieldIsMember(node, QUALITY_STATUS);
    GetFieldIsMember(node, COMPONENTS_SERIAL_NUMBERS);
    GetFieldIsMember(node, CUSTOM_FIELDS);
    GetFieldIsMember(node, QUALITY_DOCUMENTS);
    asset := asset.(serialNumberType := GetSerialNumberType(GetField(node, SERIAL_NUMBER_TYPE)));
    asset := asset.(qualityStatus := GetQualityStatus(GetField(node, QUALITY_STATUS)));
    var components := GetComponentsSerialNumbers(GetField(node, COMPONENTS_SERIAL_NUMBERS));
    asset := asset.(componentsSerialNumbers := components);
    asset := asset.(qualityDocuments := LoadMapField(GetField(node, QUALITY_DOCUMENTS)));
    asset := asset.(customFields := LoadMapField(GetField(node, CUSTOM_FIELDS)));
    asset := asset.(warnings := Some(invalidProperties));
  }

  // ---- properties of the decoder as a whole ----

  /** The decoder always sets the warnings, to an empty set when every name is known. */
  lemma DecodedWarnings(node: Json)
    requires Decodable(node)
    ensures Decoded(node).warnings.Some?
    ensures Decoded(node).warnings.value == {} <==> MemberNames(node) <= set k | k in ALL_ASSET_PROPERTIES
  {
    var w := Decoded(node).warnings.value;
    if !(MemberNames(node) <= set k | k in ALL_ASSET_PROPERTIES) {
      var k :| k in MemberNames(node) && k !in ALL_ASSET_PROPERTIES;
      assert UnknownPropertyWarning(k) in w;
    }
  }


  /** The decoder sees a node only through the last value of each key and the set of keys. */
  lemma DecodedByMembers(a: Json, b: Json)
    requires Decodable(a)
    requires forall k :: Member(a, k) == Member(b, k)
    requires MemberNames(a) == MemberNames(b)
    ensures Decodable(b)
    ensures Decoded(a) == Decoded(b)
  {
  }

  /** A property given twice at the top level resolves to its second value. */
  lemma RepeatedPropertyLastWins(ms: Members, k: string, v1: Json, v2: Json)
    requires Decodable(JObj(ms + [(k, v1), (k, v2)]))
    ensures Decodable(JObj(ms + [(k, v2)]))
    ensures Decoded(JObj(ms + [(k, v1), (k, v2)])) == Decoded(JObj(ms + [(k, v2)]))
  {
    var once := ms + [(k, v1)];
    assert ms + [(k, v1), (k, v2)] == once + [(k, v2)];
    AppendMember(ms, k, v1);
    AppendMember(once, k, v2);
    AppendMember(ms, k, v2);
    DecodedByMembers(JObj(once + [(k, v2)]), JObj(ms + [(k, v2)]));
  }

  /** A property outside the schema adds its warning and leaves every decoded field as it was. */
  lemma UnknownPropertyOnlyWarns(ms: Members, k: string, v: Json)
    requires k !in ALL_ASSET_PROPERTIES
    requires Decodable(JObj(ms))
    ensures Decodable(JObj(ms + [(k, v)]))
    ensures Decoded(JObj(ms + [(k, v)]))
         == Decoded(JObj(ms)).(warnings := Some(Decoded(JObj(ms)).warnings.value + {UnknownPropertyWarning(k)}))
  {
    AppendMember(ms, k, v);
    OutsideSchemaDiffers(k);
    DecodedExcept(JObj(ms), JObj(ms + [(k, v)]), k);
    SchemaWarningsAdd(Keys(ms), k);
  }

  /** The name differs from each of the sixteen schema names, spelled out. */
  predicate DiffersFromSchema(k: string)
  {
    && k != MANUFACTURER && k != PART_NAME_MANUFACTURER && k != PART_NUMBER_CUSTOMER && k != PART_NUMBER_MANUFACTURER
    && k != PRODUCTION_COUNTRY_CODE_MANUFACTURER && k != PRODUCTION_DATE_GMT && k != MANUFACTURER_PLANT && k != MANUFACTURER_LINE
    && k != SERIAL_NUMBER_TYPE && k != QUALITY_STATUS && k != SERIAL_NUMBER_CUSTOMER && k != SERIAL_NUMBER_MANUFACTURER
    && k != STATUS && k != COMPONENTS_SERIAL_NUMBERS && k != CUSTOM_FIELDS && k != QUALITY_DOCUMENTS
  }

  lemma OutsideSchemaDiffers(k: string)
    requires k !in ALL_ASSET_PROPERTIES
    ensures DiffersFromSchema(k)
  {
  }

  /** Two nodes that agree on every property but a name outside the schema decode alike, up to the warnings. */
  lemma DecodedExcept(a: Json, b: Json, k: string)
    requires Decodable(a)
    requires DiffersFromSchema(k)
    requires forall q :: q != k ==> Member(a, q) == Member(b, q)
    ensures Decodable(b)
    ensures Decoded(b) == Decoded(a).(warnings := Decoded(b).warnings)
  {
  }

  /** The members `getAssetJsonWithQualityStatus` writes before its final `qualityStatus`. */
  const QUALITY_STATUS_TEST_MEMBERS: Members := [
    (PART_NUMBER_MANUFACTURER, JStr("partNumberManufacturerValue")),
    (SERIAL_NUMBER_CUSTOMER, JStr("serialNumberCustomerValue")),
    (PART_NAME_MANUFACTURER, JStr("partNameManufacturerValue")),
    (QUALITY_STATUS, JStr("qualityStatusValue")),
    (PRODUCTION_COUNTRY_CODE_MANUFACTURER, JStr("productionCountryCodeManufacturerValue")),
    (SERIAL_NUMBER_MANUFACTURER, JStr("serialNumberManufacturerValue")),
    (MANUFACTURER, JStr("manufacturerValue")),
    (PART_NUMBER_CUSTOMER, JStr("partNumberCustomerValue")),
    (STATUS, JStr("statusValue"))]

  /** The test members name known properties only, and none of the enumerated or map ones but `qualityStatus`. */
  lemma QualityStatusTestKeys()
    ensures forall x :: x in Keys(QUALITY_STATUS_TEST_MEMBERS) ==>
      x in ALL_ASSET_PROPERTIES && x != SERIAL_NUMBER_TYPE && x != CUSTOM_FIELDS && x != QUALITY_DOCUMENTS
  {
    var base := QUALITY_STATUS_TEST_MEMBERS;
    forall x | x in Keys(base)
      ensures x in ALL_ASSET_PROPERTIES && x != SERIAL_NUMBER_TYPE && x != CUSTOM_FIELDS && x != QUALITY_DOCUMENTS
    {
      var i :| 0 <= i < |base| && base[i].0 == x;
    }
  }

  /** The test node: `qualityStatus` is given first as "qualityStatusValue" and again, last, as the value under test. */
  function QualityStatusTestNode(value: Json): Json
  {
    JObj(QUALITY_STATUS_TEST_MEMBERS + [(QUALITY_STATUS, value)])
  }

  /**
   * A node of known properties, without the map and serial-number-type ones,
   * ending in `qualityStatus`: that last value decides the quality status.
   */
  lemma FinalQualityStatusDecoded(base: Members, value: Json)
    requires value.JNull? || value.JStr?
    requires forall x :: x in Keys(base) ==>
      x in ALL_ASSET_PROPERTIES && x != SERIAL_NUMBER_TYPE && x != CUSTOM_FIELDS && x != QUALITY_DOCUMENTS
    ensures Decodable(JObj(base + [(QUALITY_STATUS, value)]))
    ensures Decoded(JObj(base + [(QUALITY_STATUS, value)])).qualityStatus == GetQualityStatus(Some(value))
    ensures Decoded(JObj(base + [(QUALITY_STATUS, value)])).serialNumberType == Some(SINGLE)
    ensures Decoded(JObj(base + [(QUALITY_STATUS, value)])).warnings == Some({})
  {
    AppendMember(base, QUALITY_STATUS, value);
    var names := MemberNames(JObj(base + [(QUALITY_STATUS, value)]));
    assert forall k :: k in names ==> k in ALL_ASSET_PROPERTIES;
    assert (set k | k in names && k !in ALL_ASSET_PROPERTIES :: UnknownPropertyWarning(k)) == {};
  }

  /** The quality status the tests read back is the second one given, and no warning is raised. */
  lemma QualityStatusTestNodeDecoded(value: Json)
    requires value.JNull? || value.JStr?
    ensures Decodable(QualityStatusTestNode(value))
    ensures Decoded(QualityStatusTestNode(value)).qualityStatus == GetQualityStatus(Some(value))
    ensures Decoded(QualityStatusTestNode(value)).serialNumberType == Some(SINGLE)
    ensures Decoded(QualityStatusTestNode(value)).warnings == Some({})
  {
    QualityStatusTestKeys();
    FinalQualityStatusDecoded(QUALITY_STATUS_TEST_MEMBERS, value);
  }
}
