# Asset ingestion: decoder, record constraints and batch endpoint

This project models the core of the PartChain data-ingestion service (`dis`). That core is the part that turns a JSON batch of assets into ledger calls and a response. It covers three things:

- **The tolerant decoder** (`AssetRequestDtoDeserializer`). It turns one JSON object into an `AssetRequestDto`:
  - each of the 11 plain string fields takes the property's text, or null;
  - `serialNumberType` and `qualityStatus` are matched whatever the case of their letters;
  - `componentsSerialNumbers` is collapsed into a set;
  - the two string maps are read;
  - every property name outside the 16 known ones gives a warning.

  JSON is the datatype `JsonTree.Json`. An object keeps its members in text order, repeated keys included. `JsonTree.Tree` builds Jackson's `ObjectNode` view of an object: a repeated key keeps its first position and its last value. `Deserializer.Deserialize` is the decoder as written, and `Deserializer.Decoded` is the reference it is proved equal to.
- **The record constraints** (`AssetRequestDto`):
  - nine `@NotNull` fields;
  - `productionDateGmt`, which is `@NotNull` and a GMT date;
  - `productionCountryCodeManufacturer`, which is `@NotNull` and an ISO 3166-1 alpha-2 code.

  Validation is `AssetRequest.Violations`, a set of messages. The two format validators are not part of this model. They are the two predicates of an `AssetRequest.Validator`, and the only facts known about them are those the validation tests fix (`AssetRequest.Pinned`).
- **The batch endpoint** (`AssetController.sendToLedger`, `validateAsset`, `processValidAsset`, `buildResponse`):
  - `Controller.SendToLedger` is the loop as written. It works over a response accumulator class (`Controller.SentToLedgerResponse`) and a ledger class (`Controller.LedgerSink`) whose calls succeed or fail as a script says.
  - Its contract ties the final state to `Controller.Batch`, a fold of one step per element.
  - The lemmas after it state what that fold promises for each index and for the status.

Three behaviours of the code worth noting:

- **Warned but valid items are forwarded.** An item with no violations is always sent to the ledger. If it also has warnings, it additionally gets a VALIDATION failure entry (`AssetController.java:128-139`). See `Controller.WarnedValidElementForwardedAndReported`.
- **An index can have two entries.** A ledger failure on a warned item gives two entries for that index: OTHER (`AssetController.java:177`), then VALIDATION (`AssetController.java:137`). See `Controller.SinkFailureOnWarnedElementReportedTwice`.
- **Any request node is iterated.** The loop walks `request.elements()`:
  - for an array, that is its items;
  - for an object, that is its values;
  - for a scalar, it is nothing, which gives 200 with no body.

  `JsonTree.Elements` models this.

## Model

Source paths are relative to the repository root.

| member | source | states |
|---|---|---|
| JsonTree.LastValue | src/main/java/de/bmw/partchain/dis/asset/jackson/AssetRequestDtoDeserializer.java:83-85 | a key has a value iff it occurs in the object, and the value is one of that key's occurrences |
| JsonTree.TreeGet | src/main/java/de/bmw/partchain/dis/asset/jackson/AssetRequestDtoDeserializer.java:83-85 | reading an object into a tree (`readTree`, one `put` per member) keeps for every key the value of its last occurrence |
| JsonTree.TreeKeys | src/main/java/de/bmw/partchain/dis/asset/jackson/AssetRequestDtoDeserializer.java:83-92 | the tree's field names are exactly the keys occurring in the object |
| JsonTree.PutGet | src/main/java/de/bmw/partchain/dis/asset/jackson/AssetRequestDtoDeserializer.java:83-85 | a `put` makes the key map to the new value and leaves every other key's value alone |
| JsonTree.PutKeys | src/main/java/de/bmw/partchain/dis/asset/jackson/AssetRequestDtoDeserializer.java:83-85 | a `put` adds its key to the keys and nothing else |
| JsonTree.KeysCons | src/main/java/de/bmw/partchain/dis/asset/jackson/AssetRequestDtoDeserializer.java:87-90 | the keys of a non-empty member list are its first key and the keys of the rest |
| JsonTree.AppendMember | src/main/java/de/bmw/partchain/dis/asset/jackson/AssetRequestDtoDeserializer.java:83-85 | one more member adds its key and becomes that key's last occurrence; other keys keep their values |
| JsonTree.GetFieldIsMember | src/main/java/de/bmw/partchain/dis/asset/jackson/AssetRequestDtoDeserializer.java:121-124 | `node.get(k)` on the tree is the last occurrence of k in the object, and null on a non-object |
| JsonTree.FieldNames | src/main/java/de/bmw/partchain/dis/asset/jackson/AssetRequestDtoDeserializer.java:87-90 | `fieldNames()` lists the stored keys in order, one per field |
| JsonTree.TextValue | src/main/java/de/bmw/partchain/dis/asset/jackson/AssetRequestDtoDeserializer.java:186 | `textValue()` is non-null exactly on text nodes |
| AssetRequest.WithNull | src/main/java/de/bmw/partchain/dis/asset/model/request/AssetRequestDto.java:35-58 | setting one constrained field to null nulls that field and keeps the value of every other field |
| AssetRequest.ValidIff | src/main/java/de/bmw/partchain/dis/asset/model/request/AssetRequestDto.java:35-58 | a record has no violation iff all eleven constrained fields are non-null, the date is a GMT date and the country code is alpha-2 (both directions) |
| AssetRequest.MessagesDistinct | src/main/java/de/bmw/partchain/dis/asset/model/request/AssetRequestDto.java:35-57 | two annotations with the same message are the same annotation; in particular the two enum messages differ from each other and from every other message |
| AssetRequest.MessageImageSize | src/main/java/de/bmw/partchain/dis/asset/model/request/AssetRequestDto.java:35-57 | any set of annotations has as many distinct messages as annotations |
| AssetRequest.ViolationCount | src/main/java/de/bmw/partchain/dis/asset/model/request/AssetRequestDto.java:35-58 | the number of messages equals the number of violated annotations |
| AssetRequest.BaselineIsValid | src/test/java/de/bmw/partchain/dis/asset/model/request/AssetRequestDtoValidationTest.java:465-486 | the test record with "" strings, SINGLE, OK, a valid date and "AL" has no violation, so "" passes `@NotNull` |
| AssetRequest.OnlyViolated | src/main/java/de/bmw/partchain/dis/asset/model/request/AssetRequestDto.java:35-58 | when exactly one annotation fails, its message is the only violation |
| AssetRequest.OnlyTwoViolated | src/main/java/de/bmw/partchain/dis/asset/model/request/AssetRequestDto.java:35-58 | when exactly two annotations fail, their two messages are the violations |
| AssetRequest.OneNullMandatoryField | src/test/java/de/bmw/partchain/dis/asset/model/request/AssetRequestDtoValidationTest.java:49-326 | nulling any one of the nine plain mandatory fields of a valid record gives exactly that field's message |
| AssetRequest.NullDateGivesTwo | src/test/java/de/bmw/partchain/dis/asset/model/request/AssetRequestDtoValidationTest.java:367-383 | a null date gives exactly the mandatory message and the format message |
| AssetRequest.MalformedDateGivesOne | src/test/java/de/bmw/partchain/dis/asset/model/request/AssetRequestDtoValidationTest.java:385-400 | a non-null malformed date gives exactly the format message |
| AssetRequest.NullCountryCodeGivesTwo | src/test/java/de/bmw/partchain/dis/asset/model/request/AssetRequestDtoValidationTest.java:415-431 | a null country code gives exactly the mandatory message and the alpha-2 message |
| AssetRequest.MalformedCountryCodeGivesOne | src/test/java/de/bmw/partchain/dis/asset/model/request/AssetRequestDtoValidationTest.java:432-448 | a malformed country code gives exactly the alpha-2 message |
| AssetRequest.UnconstrainedFieldsIgnored | src/main/java/de/bmw/partchain/dis/asset/model/request/AssetRequestDto.java:59-66 | plant, line, component serial numbers, both maps and the warnings never change the violations |
| Deserializer.WarningInjective | src/main/java/de/bmw/partchain/dis/asset/jackson/AssetRequestDtoDeserializer.java:114 | different property names give different warning texts |
| Deserializer.WarningImageSize | src/main/java/de/bmw/partchain/dis/asset/jackson/AssetRequestDtoDeserializer.java:109-116 | a set of names gives as many warnings as names |
| Deserializer.UnknownPropertiesWarned | src/main/java/de/bmw/partchain/dis/asset/jackson/AssetRequestDtoDeserializer.java:57-116 | a name's warning is produced iff the name occurs and is not one of the 16 known names, with exactly one warning per distinct unknown name |
| Deserializer.UpperCaseMatchIgnoresCase | src/main/java/de/bmw/partchain/dis/asset/jackson/AssetRequestDtoDeserializer.java:142-144 | upper-casing a string and comparing it with a name that has no lower-case letter holds iff the string equals the name up to the case of ASCII letters |
| Deserializer.GetSerialNumberType | src/main/java/de/bmw/partchain/dis/asset/jackson/AssetRequestDtoDeserializer.java:134-154 | SINGLE iff absent, null or text upper-casing to SINGLE; BATCH iff text upper-casing to BATCH; null iff any other text |
| Deserializer.GetQualityStatus | src/main/java/de/bmw/partchain/dis/asset/jackson/AssetRequestDtoDeserializer.java:156-175 | OK, NOK, FLAG iff text upper-casing to that name; null iff absent, null or unrecognised |
| Deserializer.EnumTestValues | src/test/java/de/bmw/partchain/dis/asset/jackson/AssetRequestDtoDeserializerTest.java:33-155 | the tests' inputs: "SINGLE" and null are SINGLE, "BATCH" is BATCH, "invalidValue" is null; "OK", "NOK", "FLAG" match; null and an unknown quality status are null |
| Deserializer.EnumAnyCase | src/main/java/de/bmw/partchain/dis/asset/jackson/AssetRequestDtoDeserializer.java:134-175 | beyond the tests: lower- and mixed-case names ("batch", "Single", "nok", "Flag") are matched too |
| Deserializer.GetComponentsSerialNumbers | src/main/java/de/bmw/partchain/dis/asset/jackson/AssetRequestDtoDeserializer.java:177-193 | the loop's hash set is the set of the text values of the node's elements; null when absent or null |
| Deserializer.ComponentsAreASet | src/test/java/de/bmw/partchain/dis/asset/jackson/AssetRequestDtoDeserializerTest.java:588-689 | a repeated serial number is kept once, two distinct ones are both kept, an empty array gives an empty set, absent or null gives null |
| Deserializer.LoadMapField | src/main/java/de/bmw/partchain/dis/asset/jackson/AssetRequestDtoDeserializer.java:196-211 | null iff absent or null; otherwise a map with exactly the object's keys, each holding the text of that key's last value |
| Deserializer.MapRepeatedKeyLastWins | src/test/java/de/bmw/partchain/dis/asset/jackson/AssetRequestDtoDeserializerTest.java:739-762 | a map key given twice keeps only its last value |
| Deserializer.MapDistinctKeysKept | src/test/java/de/bmw/partchain/dis/asset/jackson/AssetRequestDtoDeserializerTest.java:739-762 | two distinct map keys are both kept, each with its own value |
| Deserializer.SetStringFieldFrame | src/main/java/de/bmw/partchain/dis/asset/jackson/AssetRequestDtoDeserializer.java:127-130 | the reflective write of one string field changes that field and no other field of the record |
| Deserializer.StringFieldsComplete | src/main/java/de/bmw/partchain/dis/asset/jackson/AssetRequestDtoDeserializer.java:94-97 | a fresh record whose 11 string fields each hold their property's text is the decoded string part |
| Deserializer.LoadStringProperties | src/main/java/de/bmw/partchain/dis/asset/jackson/AssetRequestDtoDeserializer.java:94-132 | after the loop each of the 11 string fields holds its property's text when present and non-null, and null otherwise; every other field is still null |
| Deserializer.Deserialize | src/main/java/de/bmw/partchain/dis/asset/jackson/AssetRequestDtoDeserializer.java:80-107 | the decoded record is the reference decode: each property read from the last occurrence of its key, the warnings from the unknown names |
| Deserializer.DecodedByMembers | src/main/java/de/bmw/partchain/dis/asset/jackson/AssetRequestDtoDeserializer.java:83-105 | the decode depends only on each key's last value and the set of keys |
| Deserializer.RepeatedPropertyLastWins | src/test/java/de/bmw/partchain/dis/asset/jackson/AssetRequestDtoDeserializerTest.java:914-930 | a top-level property given twice decodes as if only its second value were there |
| Deserializer.SchemaWarningsAdd | src/main/java/de/bmw/partchain/dis/asset/jackson/AssetRequestDtoDeserializer.java:109-116 | one more unknown name adds exactly its warning to the warnings |
| Deserializer.DecodedWarnings | src/main/java/de/bmw/partchain/dis/asset/jackson/AssetRequestDtoDeserializer.java:92-105 | the decoded warnings are always set, and empty iff every property name is one of the 16 known names |
| Deserializer.OutsideSchemaDiffers | src/main/java/de/bmw/partchain/dis/asset/jackson/AssetRequestDtoDeserializer.java:57-62 | a name outside the 16 known names differs from each of them |
| Deserializer.DecodedExcept | src/main/java/de/bmw/partchain/dis/asset/jackson/AssetRequestDtoDeserializer.java:83-105 | two objects whose members agree on every name but one unknown name decode to the same fields |
| Deserializer.UnknownPropertyOnlyWarns | src/main/java/de/bmw/partchain/dis/asset/jackson/AssetRequestDtoDeserializer.java:87-105 | adding an unknown property adds its warning and changes no decoded field |
| Deserializer.QualityStatusTestKeys | src/test/java/de/bmw/partchain/dis/asset/jackson/AssetRequestDtoDeserializerTest.java:914-930 | the test helper's object uses only known names |
| Deserializer.FinalQualityStatusDecoded | src/test/java/de/bmw/partchain/dis/asset/jackson/AssetRequestDtoDeserializerTest.java:914-930 | a quality status appended after known properties decides the decoded quality status |
| Deserializer.QualityStatusTestNodeDecoded | src/test/java/de/bmw/partchain/dis/asset/jackson/AssetRequestDtoDeserializerTest.java:89-127 | the helper's object decodes with the second quality status, SINGLE and no warnings |
| Controller.SentToLedgerResponse.constructor | src/main/java/de/bmw/partchain/dis/asset/controller/AssetController.java:112 | a fresh accumulator has no msp id, no processed index and no failure |
| Controller.SentToLedgerResponse.SetMspId | src/main/java/de/bmw/partchain/dis/asset/controller/AssetController.java:113-114 | sets the msp id and leaves both lists alone |
| Controller.SentToLedgerResponse.AddProcessedAssetIndex | src/main/java/de/bmw/partchain/dis/asset/controller/AssetController.java:173 | appends the index to the processed list, nothing else changes |
| Controller.SentToLedgerResponse.AddFailedAsset | src/main/java/de/bmw/partchain/dis/asset/controller/AssetController.java:137-178 | appends one failure entry, nothing else changes |
| Controller.LedgerSink.Send | src/main/java/de/bmw/partchain/dis/asset/controller/AssetController.java:172 | records the call, and fails with the message the script gives for that call |
| Controller.ValidateAsset | src/main/java/de/bmw/partchain/dis/asset/controller/AssetController.java:157-166 | the reasons are exactly the violation messages, each once, in some order |
| Controller.ProcessValidAsset | src/main/java/de/bmw/partchain/dis/asset/controller/AssetController.java:168-180 | the ledger gets the asset with the request's process id; on success the index is processed, on failure an OTHER entry carries `asset.toString()` and the message alone |
| Controller.ProcessElement | src/main/java/de/bmw/partchain/dis/asset/controller/AssetController.java:121-146 | one element adds exactly its ledger call, its processed index and its failure entries (write failure, read failure, ledger failure, VALIDATION) as `ItemFailures` fixes them; a write failure is one OTHER entry without asset text |
| Controller.ProcessWritten | src/main/java/de/bmw/partchain/dis/asset/controller/AssetController.java:126-146 | once written, a read failure is one OTHER entry carrying the written text; otherwise the element is handled as `ItemFailures` fixes |
| Controller.ProcessRead | src/main/java/de/bmw/partchain/dis/asset/controller/AssetController.java:126-139 | once read, the element is decoded as the reference decode says and handled as `ItemFailures` fixes |
| Controller.RecordOutcome | src/main/java/de/bmw/partchain/dis/asset/controller/AssetController.java:129-139 | given reasons that are exactly the violations, each once: forwarded iff no reason; a VALIDATION entry with those reasons and the warnings iff reasons or warnings |
| Controller.ReportIfFlagged | src/main/java/de/bmw/partchain/dis/asset/controller/AssetController.java:134-139 | one VALIDATION entry with the reasons and the warnings iff there are reasons or warnings, and nothing else changes |
| Controller.ProcessDecoded | src/main/java/de/bmw/partchain/dis/asset/controller/AssetController.java:128-139 | forwarded iff no violation, whatever the warnings; a VALIDATION entry with the reasons and warnings iff violations or warnings |
| Controller.SendToLedger | src/main/java/de/bmw/partchain/dis/asset/controller/AssetController.java:110-155 | the ledger calls, processed list and failure entries are the fold `Batch` of the elements in order; the report is published iff there are failures; status and body follow the rule of `BuildResponse` |
| Controller.ProcessNext | src/main/java/de/bmw/partchain/dis/asset/controller/AssetController.java:119-147 | one turn of the loop extends the state from the fold over the first `index` elements to the fold over one more |
| Controller.BuildResponse | src/main/java/de/bmw/partchain/dis/asset/controller/AssetController.java:182-202 | 400 iff nothing processed and some failure, 206 iff both, 200 iff no failure; a body iff some failure |
| Controller.ReportsAllConcat | src/main/java/de/bmw/partchain/dis/asset/controller/AssetController.java:117-147 | entries built by appending match the appended specifications |
| Controller.StepReported | src/main/java/de/bmw/partchain/dis/asset/controller/AssetController.java:119-147 | entries that match the earlier steps, followed by entries matching one element, match the next step |
| Controller.BatchAppend | src/main/java/de/bmw/partchain/dis/asset/controller/AssetController.java:117-121 | one more element is one more step, at the next index |
| Controller.ForwardedAssetsAppend | src/main/java/de/bmw/partchain/dis/asset/controller/AssetController.java:128-132 | forwarding over one more element adds only that element's call |
| Controller.BatchSent | src/main/java/de/bmw/partchain/dis/asset/controller/AssetController.java:128-172 | the ledger is called with exactly the violation-free elements, decoded, in batch order |
| Controller.BatchIndices | src/main/java/de/bmw/partchain/dis/asset/controller/AssetController.java:117-121 | every index recorded is an element's index, and processed indices rise strictly (each element visited once, in order) |
| Controller.FailuresAtAppend | src/main/java/de/bmw/partchain/dis/asset/controller/AssetController.java:117-147 | the entries for an index in an appended list are those of each part |
| Controller.FailuresAtOthers | src/main/java/de/bmw/partchain/dis/asset/controller/AssetController.java:117-147 | a list naming only other indices has no entry for this one |
| Controller.FailuresAtSame | src/main/java/de/bmw/partchain/dis/asset/controller/AssetController.java:117-147 | a list naming only this index is all its entries |
| Controller.FailuresAtMember | src/main/java/de/bmw/partchain/dis/asset/controller/AssetController.java:117-147 | an entry in the list is among the entries for its index |
| Controller.ItemFailuresIndexed | src/main/java/de/bmw/partchain/dis/asset/controller/AssetController.java:137-177 | every entry an element adds carries that element's index |
| Controller.BatchFailedSplit | src/main/java/de/bmw/partchain/dis/asset/controller/AssetController.java:117-147 | the batch's entries are those of the earlier elements followed by the last element's own |
| Controller.AnswerAtPrefix | src/main/java/de/bmw/partchain/dis/asset/controller/AssetController.java:119-147 | the ledger answer element i gets depends only on the elements before it |
| Controller.FailuresOfElement | src/main/java/de/bmw/partchain/dis/asset/controller/AssetController.java:117-147 | the entries for index i are exactly those element i produces, given the answer to the ledger call after those of the earlier forwarded elements |
| Controller.ProcessedElement | src/main/java/de/bmw/partchain/dis/asset/controller/AssetController.java:128-174 | index i is processed iff its element was forwarded and the ledger accepted it |
| Controller.EveryIndexAccounted | src/main/java/de/bmw/partchain/dis/asset/controller/AssetController.java:117-147 | every element's index is processed or has a failure entry |
| Controller.WarnedValidElementForwardedAndReported | src/main/java/de/bmw/partchain/dis/asset/controller/AssetController.java:128-139 | a valid element with warnings that the ledger accepts is processed and still has exactly one VALIDATION entry, with no reasons and its warnings |
| Controller.SinkFailureOnWarnedElementReportedTwice | src/main/java/de/bmw/partchain/dis/asset/controller/AssetController.java:131-179 | a ledger failure on a warned element gives exactly two entries for its index, OTHER then VALIDATION, and no processed index |
| Controller.NothingForwardedIsBadRequest | src/main/java/de/bmw/partchain/dis/asset/controller/AssetController.java:182-193 | when no element of a non-empty batch reaches the ledger, nothing is processed and something failed (status 400) |
| Controller.NoFailuresIffAllClean | src/main/java/de/bmw/partchain/dis/asset/controller/AssetController.java:148-201 | no failure entry (status 200, no report published) iff every element was forwarded, had no warning and was accepted |

## Left out

- I/O and infrastructure:
  - parsing the request text;
  - logging (`log.debug`, `log.error`, `logExceptions`);
  - the Spring, Swagger and security annotations;
  - the per-call validator factory;
  - the report publisher's behaviour. The model records only whether it is called (`published`).
- `writeValueAsString` and the JsonProcessingException that `treeToValue` may raise are parameters of `Controller.Runtime`, not models of Jackson. So is the Lombok `toString` of the record.
- `mspId` comes from the authentication claim and is a parameter. The request process id generated by `SentToLedgerResponseDto` is a parameter too.
- `AssetService`, `AssetMapper` and the ledger gateway are the scripted `Controller.LedgerSink`. It records each call, and each call either succeeds or fails with a message.
- `SentToLedgerResponseDto` is not part of this model. Its adders are plain appends. The four-argument `addFailedAsset` is modelled as leaving the entry's warnings empty.
- Uncaught exceptions are excluded by preconditions rather than modelled as propagating:
  - `Deserializer.EnumTextual`: a non-text `serialNumberType` or `qualityStatus` makes `textValue().toUpperCase()` throw a NullPointerException that nothing catches.
  - `Deserializer.MapConvertible`: a map property that is not an object of scalars makes `convertValue` throw an IllegalArgumentException.
  - `Controller.Admissible`: a JSON null batch element decodes to a null record, and `validate(null)` throws.
- Deserializer.ToUpperCase: only a-z are upper-cased. Unicode case mappings and locale rules of `String.toUpperCase` are not modelled.
- Controller.ValidateAsset: the order of the reasons is left open, because the validator returns an unordered set. Failure entries are compared against their specification with the reasons as a set (`Controller.Reports`).
- Controller.ProcessValidAsset: exception messages are always strings. Java's `getMessage()` may be null, and this is not modelled.
- Controller.SendToLedger: the loop index is an unbounded `nat`. Java's `int` wrap-around beyond 2^31 - 1 elements is not modelled.
- The `@IsDateGMT` and ISO 3166-1 alpha-2 validator implementations are not part of this model. They are the predicates of `AssetRequest.Validator`, constrained only by `AssetRequest.Pinned`.
