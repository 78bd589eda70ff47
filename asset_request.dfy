/**
 * The asset record that one batch element decodes to, and the constraints its
 * class declares by annotation: nine plain `@NotNull` fields, a `@NotNull`
 * date that must also be a GMT date-time, and a `@NotNull` country code that
 * must also be an ISO 3166-1 alpha-2 code.
 *
 * The two format validators are not part of this model: they are the two
 * predicates of a `Validator` value, and the only facts assumed of them are
 * the ones the validation tests fix (`Pinned`).
 */
module AssetRequest {
  import opened Wrappers

  datatype SerialNumberType = SINGLE | BATCH

  datatype AssetQualityStatus = OK | NOK | FLAG

  /** The record; `None` is Java's null in every field. */
  datatype AssetRequestDto = AssetRequestDto(
    manufacturer: Option<string>,
    partNameManufacturer: Option<string>,
    partNumberCustomer: Option<string>,
    partNumberManufacturer: Option<string>,
    serialNumberManufacturer: Option<string>,
    serialNumberCustomer: Option<string>,
    status: Option<string>,
    serialNumberType: Option<SerialNumberType>,
    qualityStatus: Option<AssetQualityStatus>,
    productionDateGmt: Option<string>,
    productionCountryCodeManufacturer: Option<string>,
    manufacturerPlant: Option<string>,
    manufacturerLine: Option<string>,
    componentsSerialNumbers: Option<set<Option<string>>>,
    customFields: Option<map<string, Option<string>>>,
    qualityDocuments: Option<map<string, Option<string>>>,
    warnings: Option<set<string>>)

  /** `new AssetRequestDto()`: every field null. */
  function NewAssetRequestDto(): AssetRequestDto
  {
    AssetRequestDto(None, None, None, None, None, None, None, None, None,
                    None, None, None, None, None, None, None, None)
  }

  /** The fields that carry a constraint. */
  datatype Field =
    | Manufacturer | PartNameManufacturer | PartNumberCustomer | PartNumberManufacturer
    | SerialNumberManufacturer | SerialNumberCustomer | Status
    | SerialNumberTypeField | QualityStatusField
    | ProductionDateGmt | ProductionCountryCodeManufacturer

  /** The nine fields whose only constraint is `@NotNull`. */
  predicate PlainMandatory(f: Field)
  {
    !f.ProductionDateGmt? && !f.ProductionCountryCodeManufacturer?
  }

  function IsNull(a: AssetRequestDto, f: Field): bool
  {
    match f
    case Manufacturer => a.manufacturer.None?
    case PartNameManufacturer => a.partNameManufacturer.None?
    case PartNumberCustomer => a.partNumberCustomer.None?
    case PartNumberManufacturer => a.partNumberManufacturer.None?
    case SerialNumberManufacturer => a.serialNumberManufacturer.None?
    case SerialNumberCustomer => a.serialNumberCustomer.None?
    case Status => a.status.None?
    case SerialNumberTypeField => a.serialNumberType.None?
    case QualityStatusField => a.qualityStatus.None?
    case ProductionDateGmt => a.productionDateGmt.None?
    case ProductionCountryCodeManufacturer => a.productionCountryCodeManufacturer.None?
  }

  /** Two records that hold the same value in every field except, perhaps, the constrained field f. */
  predicate SameExcept(a: AssetRequestDto, b: AssetRequestDto, f: Field)
  {
    && (f != Manufacturer ==> a.manufacturer == b.manufacturer)
    && (f != PartNameManufacturer ==> a.partNameManufacturer == b.partNameManufacturer)
    && (f != PartNumberCustomer ==> a.partNumberCustomer == b.partNumberCustomer)
    && (f != PartNumberManufacturer ==> a.partNumberManufacturer == b.partNumberManufacturer)
    && (f != SerialNumberManufacturer ==> a.serialNumberManufacturer == b.serialNumberManufacturer)
    && (f != SerialNumberCustomer ==> a.serialNumberCustomer == b.serialNumberCustomer)
    && (f != Status ==> a.status == b.status)
    && (f != SerialNumberTypeField ==> a.serialNumberType == b.serialNumberType)
    && (f != QualityStatusField ==> a.qualityStatus == b.qualityStatus)
    && (f != ProductionDateGmt ==> a.productionDateGmt == b.productionDateGmt)
    && (f != ProductionCountryCodeManufacturer ==>
          a.productionCountryCodeManufacturer == b.productionCountryCodeManufacturer)
    && a.manufacturerPlant == b.manufacturerPlant
    && a.manufacturerLine == b.manufacturerLine
    && a.componentsSerialNumbers == b.componentsSerialNumbers
    && a.customFields == b.customFields
    && a.qualityDocuments == b.qualityDocuments
    && a.warnings == b.warnings
  }

  /** The record with one constrained field set to null (a Lombok setter called with null). */
  function WithNull(a: AssetRequestDto, f: Field): (r: AssetRequestDto)
    ensures IsNull(r, f)
    ensures forall g :: g != f ==> IsNull(r, g) == IsNull(a, g)
    ensures SameExcept(a, r, f)
  {
    match f
    case Manufacturer => a.(manufacturer := None)
    case PartNameManufacturer => a.(partNameManufacturer := None)
    case PartNumberCustomer => a.(partNumberCustomer := None)
    case PartNumberManufacturer => a.(partNumberManufacturer := None)
    case SerialNumberManufacturer => a.(serialNumberManufacturer := None)
    case SerialNumberCustomer => a.(serialNumberCustomer := None)
    case Status => a.(status := None)
    case SerialNumberTypeField => a.(serialNumberType := None)
    case QualityStatusField => a.(qualityStatus := None)
    case ProductionDateGmt => a.(productionDateGmt := None)
    case ProductionCountryCodeManufacturer => a.(productionCountryCodeManufacturer := None)
  }

  // ---- the messages the annotations declare ----

  const MANUFACTURER_NULL := "manufacturer is a mandatory property therefore can not be null"
  const PART_NAME_MANUFACTURER_NULL := "partNameManufacturer is a mandatory property therefore can not be null"
  const PART_NUMBER_CUSTOMER_NULL := "partNumberCustomer is a mandatory property therefore can not be null"
  const PART_NUMBER_MANUFACTURER_NULL := "partNumberManufacturer is a mandatory property therefore can not be null"
  const SERIAL_NUMBER_MANUFACTURER_NULL := "serialNumberManufacturer is a mandatory property therefore can not be null"
  const SERIAL_NUMBER_CUSTOMER_NULL := "serialNumberCustomer is a mandatory property therefore can not be null"
  const STATUS_NULL := "status is a mandatory property therefore can not be null"
  const SERIAL_NUMBER_TYPE_NULL := "serialNumberType null or with unrecognizable value. Must be SINGLE or BATCH"
  const QUALITY_STATUS_NULL := "qualityStatus null or with unrecognizable value. Must be OK, NOK or FLAG"
  const PRODUCTION_DATE_GMT_NULL := "productionDateGmt is a mandatory property therefore can not be null"
  const PRODUCTION_DATE_GMT_FORMAT := "productionDateGmt is not a valid GMT date. The expected format is YYYY-MM-DDTHH:mm:SSZ"
  const COUNTRY_CODE_NULL := "productionCountryCodeManufacturer is a mandatory property therefore can not be null"
  const COUNTRY_CODE_FORMAT := "productionCountryCodeManufacturer is not a valid ISO 3166-1 Alpha 2"

  /** The `@NotNull` message of each constrained field. */
  function NotNullMessage(f: Field): string
  {
    match f
    case Manufacturer => MANUFACTURER_NULL
    case PartNameManufacturer => PART_NAME_MANUFACTURER_NULL
    case PartNumberCustomer => PART_NUMBER_CUSTOMER_NULL
    case PartNumberManufacturer => PART_NUMBER_MANUFACTURER_NULL
    case SerialNumberManufacturer => SERIAL_NUMBER_MANUFACTURER_NULL
    case SerialNumberCustomer => SERIAL_NUMBER_CUSTOMER_NULL
    case Status => STATUS_NULL
    case SerialNumberTypeField => SERIAL_NUMBER_TYPE_NULL
    case QualityStatusField => QUALITY_STATUS_NULL
    case ProductionDateGmt => PRODUCTION_DATE_GMT_NULL
    case ProductionCountryCodeManufacturer => COUNTRY_CODE_NULL
  }

  // ---- the validator ----

  /**
   * The implementations of `@IsDateGMT` and `@IsISO3166_1Alpha2CountryCode`,
   * each applied to the (possibly null) field value.
   */
  datatype Validator = Validator(isDateGmt: Option<string> -> bool, isAlpha2CountryCode: Option<string> -> bool)

  /** What the validation tests fix about the two format validators, and nothing more. */
  predicate Pinned(v: Validator)
  {
    && !v.isDateGmt(None)
    && !v.isDateGmt(Some("random string"))
    && v.isDateGmt(Some("2000-01-01T00:00:00Z"))
    && !v.isAlpha2CountryCode(None)
    && !v.isAlpha2CountryCode(Some("random string"))
    && v.isAlpha2CountryCode(Some("AL"))
  }

  datatype Check = NotNull | DateGmt | Alpha2CountryCode

  /** One annotation: the field it sits on and what it checks. */
  datatype Constraint = Constraint(field: Field, check: Check)

  /** The annotations of the record, in declaration order. */
  const CONSTRAINTS: seq<Constraint> := [
    Constraint(Manufacturer, NotNull),
    Constraint(PartNameManufacturer, NotNull),
    Constraint(PartNumberCustomer, NotNull),
    Constraint(PartNumberManufacturer, NotNull),
    Constraint(SerialNumberManufacturer, NotNull),
    Constraint(SerialNumberCustomer, NotNull),
    Constraint(Status, NotNull),
    Constraint(SerialNumberTypeField, NotNull),
    Constraint(QualityStatusField, NotNull),
    Constraint(ProductionDateGmt, NotNull),
    Constraint(ProductionDateGmt, DateGmt),
    Constraint(ProductionCountryCodeManufacturer, NotNull),
    Constraint(ProductionCountryCodeManufacturer, Alpha2CountryCode)
  ]

  /** The message an annotation declares. */
  function Message(c: Constraint): string
  {
    match c.check
    case NotNull => NotNullMessage(c.field)
    case DateGmt => PRODUCTION_DATE_GMT_FORMAT
    case Alpha2CountryCode => COUNTRY_CODE_FORMAT
  }

  predicate Satisfies(v: Validator, a: AssetRequestDto, c: Constraint)
  {
    match c.check
    case NotNull => !IsNull(a, c.field)
    case DateGmt => v.isDateGmt(a.productionDateGmt)
    case Alpha2CountryCode => v.isAlpha2CountryCode(a.productionCountryCodeManufacturer)
  }

  /** `validator.validate(asset)`, as the set of the messages of the violated constraints. */
  function Violations(v: Validator, a: AssetRequestDto): set<string>
  {
    set c | c in CONSTRAINTS && !Satisfies(v, a, c) :: Message(c)
  }

  /** The record of the validation tests: "" strings, SINGLE, OK, a valid date and "AL". */
  function Baseline(): AssetRequestDto
  {
    AssetRequestDto(Some(""), Some(""), Some(""), Some(""), Some(""), Some(""), Some(""),
                    Some(SINGLE), Some(OK), Some("2000-01-01T00:00:00Z"), Some("AL"),
                    Some(""), Some(""), Some({}), Some(map[]), Some(map[]), None)
  }

  // ---- properties of the constraints ----

  /** A record is valid exactly when all eleven annotated fields are set and both formats hold. */
  lemma ValidIff(v: Validator, a: AssetRequestDto)
    ensures Violations(v, a) == {} <==>
      && (forall f :: !IsNull(a, f))
      && v.isDateGmt(a.productionDateGmt)
      && v.isAlpha2CountryCode(a.productionCountryCodeManufacturer)
  {
    forall f | IsNull(a, f) ensures NotNullMessage(f) in Violations(v, a) {
      var c := Constraint(f, NotNull);
      assert c in CONSTRAINTS by {
        assert f in {Manufacturer, PartNameManufacturer, PartNumberCustomer, PartNumberManufacturer,
                     SerialNumberManufacturer, SerialNumberCustomer, Status, SerialNumberTypeField,
                     QualityStatusField, ProductionDateGmt, ProductionCountryCodeManufacturer};
      }
      assert !Satisfies(v, a, c);
    }
    if !v.isDateGmt(a.productionDateGmt) {
      assert CONSTRAINTS[10] in CONSTRAINTS && !Satisfies(v, a, CONSTRAINTS[10]);
      assert Message(CONSTRAINTS[10]) in Violations(v, a);
    }
    if !v.isAlpha2CountryCode(a.productionCountryCodeManufacturer) {
      assert CONSTRAINTS[12] in CONSTRAINTS && !Satisfies(v, a, CONSTRAINTS[12]);
      assert Message(CONSTRAINTS[12]) in Violations(v, a);
    }
    if (forall f :: !IsNull(a, f)) && v.isDateGmt(a.productionDateGmt)
       && v.isAlpha2CountryCode(a.productionCountryCodeManufacturer) {
      forall c | c in CONSTRAINTS ensures Satisfies(v, a, c) { }
      assert forall m :: m !in Violations(v, a);
    } else if exists f :: IsNull(a, f) {
      var f :| IsNull(a, f);
      assert NotNullMessage(f) in Violations(v, a);
    }
  }

  /** The thirteen annotations declare thirteen different messages, so a message names its constraint. */
  lemma MessagesDistinct(c: Constraint, d: Constraint)
    requires c in CONSTRAINTS && d in CONSTRAINTS
    requires Message(c) == Message(d)
    ensures c == d
  {
  }

  lemma {:induction false} MessageImageSize(cs: set<Constraint>)
    requires forall c :: c in cs ==> c in CONSTRAINTS
    ensures |set c | c in cs :: Message(c)| == |cs|
    decreases |cs|
  {
    if cs != {} {
      var x :| x in cs;
      var rest := cs - {x};
      MessageImageSize(rest);
      var img := set c | c in cs :: Message(c);
      var imgRest := set c | c in rest :: Message(c);
      assert img == imgRest + {Message(x)};
      if Message(x) in imgRest {
        var y :| y in rest && Message(y) == Message(x);
        MessagesDistinct(x, y);
      }
    }
  }

  /** Each violated annotation contributes its own message: as many messages as violated annotations. */
  lemma ViolationCount(v: Validator, a: AssetRequestDto)
    ensures |Violations(v, a)| == |set c | c in CONSTRAINTS && !Satisfies(v, a, c)|
  {
    var violated := set c | c in CONSTRAINTS && !Satisfies(v, a, c);
    assert Violations(v, a) == set c | c in violated :: Message(c);
    MessageImageSize(violated);
  }

  /** The baseline record of the tests has no violation; in particular "" passes `@NotNull`. */
  lemma BaselineIsValid(v: Validator)
    requires Pinned(v)
    ensures Violations(v, Baseline()) == {}
  {
    ValidIff(v, Baseline());
  }

  /** When exactly one annotation is violated, its message is the only violation. */
  lemma OnlyViolated(v: Validator, a: AssetRequestDto, c0: Constraint)
    requires c0 in CONSTRAINTS && !Satisfies(v, a, c0)
    requires forall i :: 0 <= i < |CONSTRAINTS| && CONSTRAINTS[i] != c0 ==> Satisfies(v, a, CONSTRAINTS[i])
    ensures Violations(v, a) == {Message(c0)}
  {
    forall m | m in Violations(v, a) ensures m == Message(c0) {
      var c :| c in CONSTRAINTS && !Satisfies(v, a, c) && Message(c) == m;
      var i :| 0 <= i < |CONSTRAINTS| && CONSTRAINTS[i] == c;
    }
  }

  /** When exactly two annotations are violated, their messages are the violations. */
  lemma OnlyTwoViolated(v: Validator, a: AssetRequestDto, c0: Constraint, c1: Constraint)
    requires c0 in CONSTRAINTS && !Satisfies(v, a, c0)
    requires c1 in CONSTRAINTS && !Satisfies(v, a, c1)
    requires forall i :: 0 <= i < |CONSTRAINTS| && CONSTRAINTS[i] != c0 && CONSTRAINTS[i] != c1 ==>
      Satisfies(v, a, CONSTRAINTS[i])
    ensures Violations(v, a) == {Message(c0), Message(c1)}
  {
    forall m | m in Violations(v, a) ensures m in {Message(c0), Message(c1)} {
      var c :| c in CONSTRAINTS && !Satisfies(v, a, c) && Message(c) == m;
      var i :| 0 <= i < |CONSTRAINTS| && CONSTRAINTS[i] == c;
    }
  }

  /** Nulling one of the nine plain mandatory fields of a valid record yields exactly its message. */
  lemma OneNullMandatoryField(v: Validator, f: Field)
    requires Pinned(v)
    requires PlainMandatory(f)
    ensures Violations(v, WithNull(Baseline(), f)) == {NotNullMessage(f)}
  {
    var a := WithNull(Baseline(), f);
    var c0 := Constraint(f, NotNull);
    assert c0 in CONSTRAINTS;
    assert a.productionDateGmt == Baseline().productionDateGmt;
    assert a.productionCountryCodeManufacturer == Baseline().productionCountryCodeManufacturer;
    OnlyViolated(v, a, c0);
  }

  /** A null date violates both of its constraints. */
  lemma NullDateGivesTwo(v: Validator)
    requires Pinned(v)
    ensures Violations(v, WithNull(Baseline(), ProductionDateGmt)) == {PRODUCTION_DATE_GMT_NULL, PRODUCTION_DATE_GMT_FORMAT}
  {
    var a := WithNull(Baseline(), ProductionDateGmt);
    OnlyTwoViolated(v, a, CONSTRAINTS[9], CONSTRAINTS[10]);
  }

  /** A set but malformed date violates only the format constraint. */
  lemma MalformedDateGivesOne(v: Validator)
    requires Pinned(v)
    ensures Violations(v, Baseline().(productionDateGmt := Some("random string"))) == {PRODUCTION_DATE_GMT_FORMAT}
  {
    var a := Baseline().(productionDateGmt := Some("random string"));
    OnlyViolated(v, a, CONSTRAINTS[10]);
  }

  /** A null country code violates both of its constraints. */
  lemma NullCountryCodeGivesTwo(v: Validator)
    requires Pinned(v)
    ensures Violations(v, WithNull(Baseline(), ProductionCountryCodeManufacturer)) == {COUNTRY_CODE_NULL, COUNTRY_CODE_FORMAT}
  {
    var a := WithNull(Baseline(), ProductionCountryCodeManufacturer);
    OnlyTwoViolated(v, a, CONSTRAINTS[11], CONSTRAINTS[12]);
  }

  /** A set but malformed country code violates only the ISO 3166-1 alpha-2 constraint. */
  lemma MalformedCountryCodeGivesOne(v: Validator)
    requires Pinned(v)
    ensures Violations(v, Baseline().(productionCountryCodeManufacturer := Some("random string"))) == {COUNTRY_CODE_FORMAT}
  {
    var a := Baseline().(productionCountryCodeManufacturer := Some("random string"));
    OnlyViolated(v, a, CONSTRAINTS[12]);
  }

  /**
   * Plant, line, component serial numbers, the two maps and the warnings carry
   * no constraint: records that differ only there have the same violations.
   */
  lemma UnconstrainedFieldsIgnored(v: Validator, a: AssetRequestDto, b: AssetRequestDto)
    requires forall f :: IsNull(a, f) == IsNull(b, f)
    requires a.productionDateGmt == b.productionDateGmt
    requires a.productionCountryCodeManufacturer == b.productionCountryCodeManufacturer
    ensures Violations(v, a) == Violations(v, b)
  {
    assert forall c :: Satisfies(v, a, c) == Satisfies(v, b, c);
  }
}
