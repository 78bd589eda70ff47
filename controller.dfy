/**
 * The batch endpoint `sendToLedger`. It walks the elements of the request
 * once, in order, with a 0-based index. Each element is written back to text
 * for the audit trail, decoded and validated. An element without violations
 * goes to the ledger, whatever its warnings. Outcomes are appended to a
 * response accumulator, and the status is chosen from what it holds at the end.
 *
 * `SendToLedger` is the loop as written. `Batch` is its specification, a fold
 * of `Step` over the elements, and the lemmas at the end state what that fold
 * promises for each index and for the response status.
 */
module Controller {
  import opened Wrappers
  import opened JsonTree
  import opened AssetRequest
  import opened Deserializer

  datatype AssetFailType = VALIDATION | OTHER

  /** One failure entry of the response (`AssetFailedReportResponseDto`). */
  datatype AssetFailedReport = AssetFailedReport(
    index: nat,
    asset: Option<string>,
    failType: AssetFailType,
    failReasons: seq<string>,
    warnings: set<string>)

  /** One call of the ledger: the asset and the request's process id. */
  datatype Delivery = Delivery(asset: AssetRequestDto, requestProcessId: string)

  /** The response accumulator (`SentToLedgerResponseDto`): outcomes are appended in order. */
  class SentToLedgerResponse {
    var mspId: Option<string>
    const requestProcessId: string
    var processedAssets: seq<nat>
    var failedAssets: seq<AssetFailedReport>

    constructor (requestProcessId: string)
      ensures this.requestProcessId == requestProcessId
      ensures mspId == None && processedAssets == [] && failedAssets == []
    {
      this.requestProcessId := requestProcessId;
      mspId := None;
      processedAssets := [];
      failedAssets := [];
    }

    method SetMspId(mspId: Option<string>)
      modifies this
      ensures this.mspId == mspId
      ensures processedAssets == old(processedAssets) && failedAssets == old(failedAssets)
    {
      this.mspId := mspId;
    }

    method AddProcessedAssetIndex(index: nat)
      modifies this
      ensures processedAssets == old(processedAssets) + [index]
      ensures failedAssets == old(failedAssets) && mspId == old(mspId)
    {
      processedAssets := processedAssets + [index];
    }

    method AddFailedAsset(index: nat, asset: Option<string>, failType: AssetFailType,
                          failReasons: seq<string>, warnings: set<string>)
      modifies this
      ensures failedAssets == old(failedAssets) + [AssetFailedReport(index, asset, failType, failReasons, warnings)]
      ensures processedAssets == old(processedAssets) && mspId == old(mspId)
    {
      failedAssets := failedAssets + [AssetFailedReport(index, asset, failType, failReasons, warnings)];
    }
  }

  /** The exception message the k-th ledger call throws with, if it throws; calls past the script succeed. */
  function Answer(answers: seq<Option<string>>, k: nat): Option<string>
  {
    if k < |answers| then answers[k] else None
  }

  /**
   * The ledger behind `assetService.sendToLedger`. It records every call, and
   * each call fails or succeeds as `answers` says.
   */
  class LedgerSink {
    const answers: seq<Option<string>>
    var attempts: seq<Delivery>

    constructor (answers: seq<Option<string>>)
      ensures this.answers == answers && attempts == []
    {
      this.answers := answers;
      attempts := [];
    }

    method Send(asset: AssetRequestDto, requestProcessId: string) returns (failure: Option<string>)
      modifies this
      ensures attempts == old(attempts) + [Delivery(asset, requestProcessId)]
      ensures failure == Answer(answers, |old(attempts)|)
    {
      failure := Answer(answers, |attempts|);
      attempts := attempts + [Delivery(asset, requestProcessId)];
    }
  }

  /**
   * The parts of Jackson and Lombok the loop calls but that are not modelled:
   * `writeValueAsString` (text, or the message of its JsonProcessingException),
   * the JsonProcessingException `treeToValue` may throw before the decoder
   * returns, and the record's `toString`.
   */
  datatype Runtime = Runtime(
    writeValueAsString: Json -> Result<string, string>,
    treeToValueFault: Json -> Option<string>,
    assetToString: AssetRequestDto -> string)

  datatype HttpStatus = OK | PARTIAL_CONTENT | BAD_REQUEST

  /** `ResponseEntity<SentToLedgerResponseDto>`: a status and, maybe, the accumulator as body. */
  datatype ResponseEntity = ResponseEntity(status: HttpStatus, body: Option<SentToLedgerResponse>)

  // ---- the operations ----

  /**
   * `validateAsset`: the messages of the validator's violation set, collected
   * into a list. The set has no order, so the list may come in any order.
   */
  method ValidateAsset(v: Validator, asset: AssetRequestDto) returns (failReasons: seq<string>)
    ensures |failReasons| == |Violations(v, asset)|
    ensures forall m :: m in failReasons <==> m in Violations(v, asset)
  {
    var violations := Violations(v, asset);
    var rest := violations;
    failReasons := [];
    while rest != {}
      invariant rest <= violations
      invariant forall m :: m in failReasons <==> m in violations && m !in rest
      invariant |failReasons| + |rest| == |violations|
      decreases |rest|
    {
      var m :| m in rest;
      failReasons := failReasons + [m];
      rest := rest - {m};
    }
  }

  /**
   * `processValidAsset`: hand the asset to the ledger. The index is recorded
   * as processed, or, when the call throws, an OTHER failure carries the
   * asset's `toString` and the exception message.
   */
  method ProcessValidAsset(dto: SentToLedgerResponse, sink: LedgerSink, rt: Runtime,
                           index: nat, asset: AssetRequestDto)
    modifies dto, sink
    ensures sink.attempts == old(sink.attempts) + [Delivery(asset, dto.requestProcessId)]
    ensures dto.mspId == old(dto.mspId)
    ensures Answer(sink.answers, |old(sink.attempts)|).None? ==>
      dto.processedAssets == old(dto.processedAssets) + [index] && dto.failedAssets == old(dto.failedAssets)
    ensures Answer(sink.answers, |old(sink.attempts)|).Some? ==>
      dto.processedAssets == old(dto.processedAssets) &&
      dto.failedAssets == old(dto.failedAssets) +
        [AssetFailedReport(index, Some(rt.assetToString(asset)), OTHER,
                           [Answer(sink.answers, |old(sink.attempts)|).value], {})]
  {
    var failure := sink.Send(asset, dto.requestProcessId);
    if failure.None? {
      dto.AddProcessedAssetIndex(index);
    } else {
      dto.AddFailedAsset(index, Some(rt.assetToString(asset)), OTHER, [failure.value], {});
    }
  }

  /**
   * One turn of the loop of `sendToLedger`: write the element back to text;
   * a JsonProcessingException there becomes an OTHER failure with its
   * message as the only reason and no asset text.
   */
  method ProcessElement(dto: SentToLedgerResponse, sink: LedgerSink, rt: Runtime, v: Validator,
                        index: nat, next: Json)
    requires Admissible(next)
    modifies dto, sink
    ensures dto.mspId == old(dto.mspId)
    ensures
      var ex := Examine(next, rt, v);
      var answer := Answer(sink.answers, |old(sink.attempts)|);
      && sink.attempts == old(sink.attempts) + ItemSent(ex, dto.requestProcessId)
      && dto.processedAssets == old(dto.processedAssets) + ItemProcessed(index, ex, answer)
      && |old(dto.failedAssets)| <= |dto.failedAssets|
      && dto.failedAssets[..|old(dto.failedAssets)|] == old(dto.failedAssets)
      && ReportsAll(dto.failedAssets[|old(dto.failedAssets)|..], ItemFailures(index, ex, answer))
  {
    ghost var failed0 := dto.failedAssets;
    ghost var ex := Examine(next, rt, v);
    var written := rt.writeValueAsString(next);
    assert ex.written == written;
    if written.Failure? {
      dto.AddFailedAsset(index, None, OTHER, [written.error], {});
      assert dto.failedAssets[|failed0|..] == [AssetFailedReport(index, None, OTHER, [written.error], {})];
      return;
    }
    ProcessWritten(dto, sink, rt, v, index, next, written.value);
  }

  /**
   * The turn once the element is written back: read it into a record; a
   * JsonProcessingException there becomes an OTHER failure carrying the
   * written text.
   */
  method ProcessWritten(dto: SentToLedgerResponse, sink: LedgerSink, rt: Runtime, v: Validator,
                        index: nat, next: Json, jsonRequestAsset: string)
    requires Admissible(next)
    requires rt.writeValueAsString(next) == Success(jsonRequestAsset)
    modifies dto, sink
    ensures dto.mspId == old(dto.mspId)
    ensures
      var ex := Examine(next, rt, v);
      var answer := Answer(sink.answers, |old(sink.attempts)|);
      && sink.attempts == old(sink.attempts) + ItemSent(ex, dto.requestProcessId)
      && dto.processedAssets == old(dto.processedAssets) + ItemProcessed(index, ex, answer)
      && |old(dto.failedAssets)| <= |dto.failedAssets|
      && dto.failedAssets[..|old(dto.failedAssets)|] == old(dto.failedAssets)
      && ReportsAll(dto.failedAssets[|old(dto.failedAssets)|..], ItemFailures(index, ex, answer))
  {
    ghost var failed0 := dto.failedAssets;
    ghost var ex := Examine(next, rt, v);
    var fault := rt.treeToValueFault(next);
    assert ex.fault == fault;
    if fault.Some? {
      dto.AddFailedAsset(index, Some(jsonRequestAsset), OTHER, [fault.value], {});
      assert dto.failedAssets[|failed0|..] == [AssetFailedReport(index, Some(jsonRequestAsset), OTHER, [fault.value], {})];
      return;
    }
    ProcessRead(dto, sink, rt, v, index, next, jsonRequestAsset);
  }

  /** The turn once the element is read without error: decode it, then act on the record. */
  method ProcessRead(dto: SentToLedgerResponse, sink: LedgerSink, rt: Runtime, v: Validator,
                     index: nat, next: Json, jsonRequestAsset: string)
    requires Admissible(next)
    requires rt.writeValueAsString(next) == Success(jsonRequestAsset)
    requires rt.treeToValueFault(next).None?
    modifies dto, sink
    ensures dto.mspId == old(dto.mspId)
    ensures
      var ex := Examine(next, rt, v);
      var answer := Answer(sink.answers, |old(sink.attempts)|);
      && sink.attempts == old(sink.attempts) + ItemSent(ex, dto.requestProcessId)
      && dto.processedAssets == old(dto.processedAssets) + ItemProcessed(index, ex, answer)
      && |old(dto.failedAssets)| <= |dto.failedAssets|
      && dto.failedAssets[..|old(dto.failedAssets)|] == old(dto.failedAssets)
      && ReportsAll(dto.failedAssets[|old(dto.failedAssets)|..], ItemFailures(index, ex, answer))
  {
    var asset := Deserialize(next);
    assert Examine(next, rt, v) == Examination(Success(jsonRequestAsset), None, asset, rt.assetToString(asset),
                                               Violations(v, asset), asset.warnings.value);
    ProcessDecoded(dto, sink, rt, v, index, jsonRequestAsset, asset);
  }

  /**
   * The rest of the turn, once the element is decoded: validate it, then act
   * on the outcome.
   */
  method ProcessDecoded(dto: SentToLedgerResponse, sink: LedgerSink, rt: Runtime, v: Validator,
                        index: nat, jsonRequestAsset: string, asset: AssetRequestDto)
    requires asset.warnings.Some?
    modifies dto, sink
    ensures dto.mspId == old(dto.mspId)
    ensures
      var ex := Examination(Success(jsonRequestAsset), None, asset, rt.assetToString(asset),
                            Violations(v, asset), asset.warnings.value);
      var answer := Answer(sink.answers, |old(sink.attempts)|);
      && sink.attempts == old(sink.attempts) + ItemSent(ex, dto.requestProcessId)
      && dto.processedAssets == old(dto.processedAssets) + ItemProcessed(index, ex, answer)
      && |old(dto.failedAssets)| <= |dto.failedAssets|
      && dto.failedAssets[..|old(dto.failedAssets)|] == old(dto.failedAssets)
      && ReportsAll(dto.failedAssets[|old(dto.failedAssets)|..], ItemFailures(index, ex, answer))
  {
    var failReasons := ValidateAsset(v, asset);
    RecordOutcome(dto, sink, rt, index, jsonRequestAsset, asset, failReasons, Violations(v, asset));
  }

  /**
   * Forward the asset when it has no fail reasons, whatever its warnings, and
   * report it as a VALIDATION failure when it has fail reasons or warnings.
   * `violations` is the set the reasons were collected from.
   */
  method RecordOutcome(dto: SentToLedgerResponse, sink: LedgerSink, rt: Runtime, index: nat,
                       jsonRequestAsset: string, asset: AssetRequestDto, failReasons: seq<string>,
                       ghost violations: set<string>)
    requires asset.warnings.Some?
    requires |failReasons| == |violations| && forall m :: m in failReasons <==> m in violations
    modifies dto, sink
    ensures dto.mspId == old(dto.mspId)
    ensures
      var ex := Examination(Success(jsonRequestAsset), None, asset, rt.assetToString(asset),
                            violations, asset.warnings.value);
      var answer := Answer(sink.answers, |old(sink.attempts)|);
      && sink.attempts == old(sink.attempts) + ItemSent(ex, dto.requestProcessId)
      && dto.processedAssets == old(dto.processedAssets) + ItemProcessed(index, ex, answer)
      && |old(dto.failedAssets)| <= |dto.failedAssets|
      && dto.failedAssets[..|old(dto.failedAssets)|] == old(dto.failedAssets)
      && ReportsAll(dto.failedAssets[|old(dto.failedAssets)|..], ItemFailures(index, ex, answer))
  {
    ghost var failed0 := dto.failedAssets;
    ghost var answer := Answer(sink.answers, |sink.attempts|);
    ghost var sinkEntries: seq<Expected> := [];
    if failReasons == [] {
      ProcessValidAsset(dto, sink, rt, index, asset);
      sinkEntries := if answer.Some? then [Expected(index, Some(rt.assetToString(asset)), OTHER, {answer.value}, {})] else [];
      assert ReportsAll(dto.failedAssets[|failed0|..], sinkEntries);
    }
    ghost var failed1 := dto.failedAssets;
    ghost var validationEntries := ValidationEntries(index, jsonRequestAsset, violations, asset.warnings.value);
    ReportIfFlagged(dto, index, jsonRequestAsset, failReasons, violations, asset.warnings.value);
    assert dto.failedAssets[|failed0|..] == failed1[|failed0|..] + dto.failedAssets[|failed1|..];
    ReportsAllConcat(failed1[|failed0|..], sinkEntries, dto.failedAssets[|failed1|..], validationEntries);
  }

  /** The VALIDATION entry an item with these violations and warnings gets, if any. */
  function ValidationEntries(index: nat, jsonRequestAsset: string, violations: set<string>,
                             warnings: set<string>): seq<Expected>
  {
    if violations != {} || warnings != {}
    then [Expected(index, Some(jsonRequestAsset), VALIDATION, violations, warnings)] else []
  }

  /** Report the item as a VALIDATION failure when it has fail reasons or warnings. */
  method ReportIfFlagged(dto: SentToLedgerResponse, index: nat, jsonRequestAsset: string,
                         failReasons: seq<string>, ghost violations: set<string>, warnings: set<string>)
    requires |failReasons| == |violations| && forall m :: m in failReasons <==> m in violations
    modifies dto
    ensures dto.mspId == old(dto.mspId) && dto.processedAssets == old(dto.processedAssets)
    ensures |old(dto.failedAssets)| <= |dto.failedAssets|
    ensures dto.failedAssets[..|old(dto.failedAssets)|] == old(dto.failedAssets)
    ensures ReportsAll(dto.failedAssets[|old(dto.failedAssets)|..],
                       ValidationEntries(index, jsonRequestAsset, violations, warnings))
  {
    if failReasons != [] || warnings != {} {
      dto.AddFailedAsset(index, Some(jsonRequestAsset), VALIDATION, failReasons, warnings);
      assert dto.failedAssets[|old(dto.failedAssets)|..]
          == [AssetFailedReport(index, Some(jsonRequestAsset), VALIDATION, failReasons, warnings)];
    } else {
      assert violations == {};
    }
  }

  /**
   * `sendToLedger`: run the loop over the request's elements on a fresh
   * accumulator, publish the report when there are failures, and build the
   * response. `mspId` is the caller's claim and `requestProcessId` the id the
   * accumulator is created with.
   */
  method SendToLedger(request: Json, mspId: Option<string>, requestProcessId: string,
                      rt: Runtime, v: Validator, sink: LedgerSink)
    returns (response: ResponseEntity, published: bool)
    requires AllAdmissible(Elements(request))
    modifies sink
    ensures
      var t := Batch(Examined(Elements(request), rt, v), sink.answers, requestProcessId, old(sink.attempts));
      && sink.attempts == t.sent
      && (published <==> t.failed != [])
      && (response.status == BAD_REQUEST <==> t.processed == [] && t.failed != [])
      && (response.status == PARTIAL_CONTENT <==> t.processed != [] && t.failed != [])
      && (response.status == HttpStatus.OK <==> t.failed == [])
      && (response.body.Some? <==> t.failed != [])
      && (response.body.Some? ==>
            && response.body.value.mspId == mspId
            && response.body.value.requestProcessId == requestProcessId
            && response.body.value.processedAssets == t.processed
            && ReportsAll(response.body.value.failedAssets, t.failed))
  {
    var dto := new SentToLedgerResponse(requestProcessId);
    dto.SetMspId(mspId);
    var items := Elements(request);
    ghost var exs := Examined(items, rt, v);
    var index := 0;
    while index < |items|
      invariant 0 <= index <= |items|
      invariant dto.requestProcessId == requestProcessId && dto.mspId == mspId
      invariant Accumulated(dto, sink, Batch(exs[..index], sink.answers, requestProcessId, old(sink.attempts)))
    {
      ProcessNext(dto, sink, rt, v, items, index, old(sink.attempts));
      index := index + 1;
    }
    assert exs[..index] == exs;
    published := dto.failedAssets != [];
    response := BuildResponse(dto);
  }

  /** One turn of the loop, stated against the specification: the tally grows by one step. */
  method ProcessNext(dto: SentToLedgerResponse, sink: LedgerSink, rt: Runtime, v: Validator,
                     items: seq<Json>, index: nat, ghost sent0: seq<Delivery>)
    requires index < |items| && AllAdmissible(items)
    requires Accumulated(dto, sink, Batch(Examined(items, rt, v)[..index], sink.answers, dto.requestProcessId, sent0))
    modifies dto, sink
    ensures dto.mspId == old(dto.mspId)
    ensures Accumulated(dto, sink, Batch(Examined(items, rt, v)[..index + 1], sink.answers, dto.requestProcessId, sent0))
  {
    ghost var exs := Examined(items, rt, v);
    ghost var before := dto.failedAssets;
    ghost var t := Batch(exs[..index], sink.answers, dto.requestProcessId, sent0);
    ProcessElement(dto, sink, rt, v, index, items[index]);
    StepReported(before, dto.failedAssets, t, index, exs[index], sink.answers, dto.requestProcessId);
    BatchAppend(exs, index, sink.answers, dto.requestProcessId, sent0);
  }

  /** `buildResponse`: 400 when nothing was processed but something failed, 206 when both, else 200 with no body. */
  method BuildResponse(dto: SentToLedgerResponse) returns (response: ResponseEntity)
    ensures response.status == BAD_REQUEST <==> dto.processedAssets == [] && dto.failedAssets != []
    ensures response.status == PARTIAL_CONTENT <==> dto.processedAssets != [] && dto.failedAssets != []
    ensures response.status == HttpStatus.OK <==> dto.failedAssets == []
    ensures response.body == if dto.failedAssets != [] then Some(dto) else None
  {
    var hasValidAssets := dto.processedAssets != [];
    var hasViolations := dto.failedAssets != [];
    if !hasValidAssets && hasViolations {
      response := ResponseEntity(BAD_REQUEST, Some(dto));
    } else if hasValidAssets && hasViolations {
      response := ResponseEntity(PARTIAL_CONTENT, Some(dto));
    } else {
      response := ResponseEntity(HttpStatus.OK, None);
    }
  }

  // ---- the specification of the loop ----

  /**
   * An element the loop handles without an uncaught exception: JSON null
   * decodes to a null record, which the validator refuses with an
   * IllegalArgumentException, and `Decodable` rules out the decoder's own.
   */
  predicate Admissible(node: Json)
  {
    !node.JNull? && Decodable(node)
  }

  predicate AllAdmissible(items: seq<Json>)
  {
    forall i :: 0 <= i < |items| ==> Admissible(items[i])
  }

  /**
   * What the loop learns about one element before it decides: the text
   * written back (or the write's failure message), the failure message of
   * the read, the decoded record, that record's `toString`, its violations
   * and its warnings.
   */
  datatype Examination = Examination(
    written: Result<string, string>,
    fault: Option<string>,
    asset: AssetRequestDto,
    assetText: string,
    violations: set<string>,
    warnings: set<string>)

  function Examine(node: Json, rt: Runtime, v: Validator): (ex: Examination)
    requires Admissible(node)
  {
    DecodedWarnings(node);
    var asset := Decoded(node);
    Examination(rt.writeValueAsString(node), rt.treeToValueFault(node), asset, rt.assetToString(asset),
                Violations(v, asset), asset.warnings.value)
  }

  function Examined(items: seq<Json>, rt: Runtime, v: Validator): (exs: seq<Examination>)
    requires AllAdmissible(items)
    ensures |exs| == |items|
    ensures forall i :: 0 <= i < |items| ==> exs[i] == Examine(items[i], rt, v)
  {
    seq(|items|, i requires 0 <= i < |items| => Examine(items[i], rt, v))
  }

  /** A failure entry as the specification fixes it: the reasons as a set, since their order is not fixed. */
  datatype Expected = Expected(
    index: nat,
    asset: Option<string>,
    failType: AssetFailType,
    reasons: set<string>,
    warnings: set<string>)

  /** An entry matches its specification: same fields, and the reasons are the set's elements, each once. */
  ghost predicate Reports(r: AssetFailedReport, e: Expected)
  {
    && r.index == e.index && r.asset == e.asset && r.failType == e.failType && r.warnings == e.warnings
    && |r.failReasons| == |e.reasons|
    && (forall m :: m in r.failReasons <==> m in e.reasons)
  }

  ghost predicate ReportsAll(rs: seq<AssetFailedReport>, es: seq<Expected>)
  {
    |rs| == |es| && forall i :: 0 <= i < |rs| ==> Reports(rs[i], es[i])
  }

  lemma {:induction false} ReportsAllConcat(rs1: seq<AssetFailedReport>, es1: seq<Expected>,
                         rs2: seq<AssetFailedReport>, es2: seq<Expected>)
    requires ReportsAll(rs1, es1) && ReportsAll(rs2, es2)
    ensures ReportsAll(rs1 + rs2, es1 + es2)
  {
  }

  /** The element reaches the ledger: it was written and read back, and has no violations. */
  predicate Forwardable(ex: Examination)
  {
    ex.written.Success? && ex.fault.None? && ex.violations == {}
  }

  /** The ledger call an element makes, if any. */
  function ItemSent(ex: Examination, requestProcessId: string): seq<Delivery>
  {
    if Forwardable(ex) then [Delivery(ex.asset, requestProcessId)] else []
  }

  /** The processed index an element adds, given the answer of the ledger call it would make. */
  function ItemProcessed(index: nat, ex: Examination, answer: Option<string>): seq<nat>
  {
    if Forwardable(ex) && answer.None? then [index] else []
  }

  /** The failure entries an element adds, in order, given the answer of the ledger call it would make. */
  function ItemFailures(index: nat, ex: Examination, answer: Option<string>): seq<Expected>
  {
    match ex.written
    case Failure(message) => [Expected(index, None, OTHER, {message}, {})]
    case Success(text) =>
      match ex.fault
      case Some(message) => [Expected(index, Some(text), OTHER, {message}, {})]
      case None =>
        (if ex.violations == {} && answer.Some?
         then [Expected(index, Some(ex.assetText), OTHER, {answer.value}, {})] else [])
        + ValidationEntries(index, text, ex.violations, ex.warnings)
  }

  /** What the loop has accumulated: processed indices, failure entries, ledger calls. */
  datatype Tally = Tally(processed: seq<nat>, failed: seq<Expected>, sent: seq<Delivery>)

  /** One element's turn; the ledger answers the call after those already made. */
  function Step(t: Tally, index: nat, ex: Examination, answers: seq<Option<string>>, requestProcessId: string): Tally
  {
    var answer := Answer(answers, |t.sent|);
    Tally(t.processed + ItemProcessed(index, ex, answer),
          t.failed + ItemFailures(index, ex, answer),
          t.sent + ItemSent(ex, requestProcessId))
  }

  /** Entries that matched the tally, followed by those one element adds, match the next tally. */
  lemma {:induction false} StepReported(rs0: seq<AssetFailedReport>, rs1: seq<AssetFailedReport>, t: Tally,
                                        index: nat, ex: Examination, answers: seq<Option<string>>,
                                        requestProcessId: string)
    requires ReportsAll(rs0, t.failed)
    requires |rs0| <= |rs1| && rs1[..|rs0|] == rs0
    requires ReportsAll(rs1[|rs0|..], ItemFailures(index, ex, Answer(answers, |t.sent|)))
    ensures ReportsAll(rs1, Step(t, index, ex, answers, requestProcessId).failed)
  {
    assert rs1 == rs0 + rs1[|rs0|..];
    ReportsAllConcat(rs0, t.failed, rs1[|rs0|..], ItemFailures(index, ex, Answer(answers, |t.sent|)));
  }

  /** The whole loop: the elements in order, the k-th at index k, after the ledger's earlier calls `sent0`. */
  function Batch(exs: seq<Examination>, answers: seq<Option<string>>, requestProcessId: string,
                 sent0: seq<Delivery>): Tally
    decreases |exs|
  {
    if exs == [] then Tally([], [], sent0)
    else Step(Batch(exs[..|exs| - 1], answers, requestProcessId, sent0), |exs| - 1, exs[|exs| - 1],
              answers, requestProcessId)
  }

  /** One more element is one more step. */
  lemma {:induction false} BatchAppend(exs: seq<Examination>, k: nat, answers: seq<Option<string>>,
                                       requestProcessId: string, sent0: seq<Delivery>)
    requires k < |exs|
    ensures Batch(exs[..k + 1], answers, requestProcessId, sent0)
         == Step(Batch(exs[..k], answers, requestProcessId, sent0), k, exs[k], answers, requestProcessId)
  {
    assert exs[..k + 1][..k] == exs[..k];
  }

  /** The accumulator and the ledger hold what the tally says. */
  ghost predicate Accumulated(dto: SentToLedgerResponse, sink: LedgerSink, t: Tally)
    reads dto, sink
  {
    dto.processedAssets == t.processed && sink.attempts == t.sent && ReportsAll(dto.failedAssets, t.failed)
  }

  // ---- what the loop promises ----

  /** Reference: the forwardable elements' records, in batch order. */
  function ForwardedAssets(exs: seq<Examination>, requestProcessId: string): seq<Delivery>
  {
    if exs == [] then []
    else ItemSent(exs[0], requestProcessId) + ForwardedAssets(exs[1..], requestProcessId)
  }

  lemma {:induction false} ForwardedAssetsAppend(exs: seq<Examination>, ex: Examination, requestProcessId: string)
    ensures ForwardedAssets(exs + [ex], requestProcessId)
         == ForwardedAssets(exs, requestProcessId) + ItemSent(ex, requestProcessId)
  {
    if exs != [] {
      assert (exs + [ex])[1..] == exs[1..] + [ex];
      ForwardedAssetsAppend(exs[1..], ex, requestProcessId);
    }
  }

  /** The ledger is called with exactly the elements without violations, decoded, in batch order. */
  lemma {:induction false} BatchSent(exs: seq<Examination>, answers: seq<Option<string>>, requestProcessId: string,
                                     sent0: seq<Delivery>)
    ensures Batch(exs, answers, requestProcessId, sent0).sent == sent0 + ForwardedAssets(exs, requestProcessId)
    decreases |exs|
  {
    if exs != [] {
      var init := exs[..|exs| - 1];
      BatchSent(init, answers, requestProcessId, sent0);
      ForwardedAssetsAppend(init, exs[|exs| - 1], requestProcessId);
      assert init + [exs[|exs| - 1]] == exs;
    }
  }

  /**
   * Indices come from the batch: every entry names an element's index, and
   * the processed indices rise strictly, each element being visited once.
   */
  lemma {:induction false} BatchIndices(exs: seq<Examination>, answers: seq<Option<string>>, requestProcessId: string,
                                        sent0: seq<Delivery>)
    ensures forall e :: e in Batch(exs, answers, requestProcessId, sent0).failed ==> e.index < |exs|
    ensures forall k :: 0 <= k < |Batch(exs, answers, requestProcessId, sent0).processed| ==>
      Batch(exs, answers, requestProcessId, sent0).processed[k] < |exs|
    ensures forall k, l :: 0 <= k < l < |Batch(exs, answers, requestProcessId, sent0).processed| ==>
      Batch(exs, answers, requestProcessId, sent0).processed[k] < Batch(exs, answers, requestProcessId, sent0).processed[l]
    decreases |exs|
  {
    if exs != [] {
      BatchIndices(exs[..|exs| - 1], answers, requestProcessId, sent0);
    }
  }

  /** The entries of a failure list that name index i, in order. */
  function FailuresAt(fs: seq<Expected>, i: nat): seq<Expected>
  {
    if fs == [] then [] else (if fs[0].index == i then [fs[0]] else []) + FailuresAt(fs[1..], i)
  }

  lemma {:induction false} FailuresAtAppend(a: seq<Expected>, b: seq<Expected>, i: nat)
    ensures FailuresAt(a + b, i) == FailuresAt(a, i) + FailuresAt(b, i)
  {
    if a == [] {
      assert a + b == b;
    } else {
      var ab := a + b;
      assert ab[0] == a[0];
      assert ab[1..] == a[1..] + b;
      FailuresAtAppend(a[1..], b, i);
      var head := if a[0].index == i then [a[0]] else [];
      assert FailuresAt(ab, i) == head + FailuresAt(a[1..] + b, i);
      assert FailuresAt(a, i) == head + FailuresAt(a[1..], i);
    }
  }

  lemma {:induction false} FailuresAtOthers(fs: seq<Expected>, i: nat)
    requires forall e :: e in fs ==> e.index != i
    ensures FailuresAt(fs, i) == []
  {
    if fs != [] {
      FailuresAtOthers(fs[1..], i);
    }
  }

  lemma {:induction false} FailuresAtSame(fs: seq<Expected>, i: nat)
    requires forall e :: e in fs ==> e.index == i
    ensures FailuresAt(fs, i) == fs
  {
    if fs != [] {
      FailuresAtSame(fs[1..], i);
    }
  }

  lemma {:induction false} FailuresAtMember(fs: seq<Expected>, e: Expected)
    requires e in fs
    ensures FailuresAt(fs, e.index) != []
  {
    if fs[0] != e {
      FailuresAtMember(fs[1..], e);
    }
  }

  /** The ledger answer element i meets: the one for the call after every earlier forwarded element. */
  function AnswerAt(exs: seq<Examination>, answers: seq<Option<string>>, requestProcessId: string,
                    sent0: seq<Delivery>, i: nat): Option<string>
    requires i <= |exs|
  {
    Answer(answers, |sent0| + |ForwardedAssets(exs[..i], requestProcessId)|)
  }

  /** Every entry an element adds names that element's index. */
  lemma {:induction false} ItemFailuresIndexed(index: nat, ex: Examination, answer: Option<string>)
    ensures forall e :: e in ItemFailures(index, ex, answer) ==> e.index == index
  {
  }

  /** The batch's entries are those of the elements before the last, then the last one's own. */
  lemma {:induction false} BatchFailedSplit(exs: seq<Examination>, answers: seq<Option<string>>, requestProcessId: string,
                         sent0: seq<Delivery>)
    requires exs != []
    ensures var n := |exs| - 1;
      Batch(exs, answers, requestProcessId, sent0).failed
        == Batch(exs[..n], answers, requestProcessId, sent0).failed
           + ItemFailures(n, exs[n], AnswerAt(exs, answers, requestProcessId, sent0, n))
  {
    var n := |exs| - 1;
    BatchSent(exs[..n], answers, requestProcessId, sent0);
    assert exs[..n][..n] == exs[..n];
  }

  /** An element's ledger answer is the same whether or not later elements follow. */
  lemma {:induction false} AnswerAtPrefix(exs: seq<Examination>, answers: seq<Option<string>>,
                                          requestProcessId: string, sent0: seq<Delivery>, n: nat, i: nat)
    requires i <= n <= |exs|
    ensures AnswerAt(exs[..n], answers, requestProcessId, sent0, i) == AnswerAt(exs, answers, requestProcessId, sent0, i)
  {
    assert exs[..n][..i] == exs[..i];
  }

  /** The entries for index i are exactly those its own element produces. */
  lemma {:induction false} FailuresOfElement(exs: seq<Examination>, answers: seq<Option<string>>,
                                             requestProcessId: string, sent0: seq<Delivery>, i: nat)
    requires i < |exs|
    ensures FailuresAt(Batch(exs, answers, requestProcessId, sent0).failed, i)
         == ItemFailures(i, exs[i], AnswerAt(exs, answers, requestProcessId, sent0, i))
    decreases |exs|
  {
    var n := |exs| - 1;
    var init := exs[..n];
    var before := Batch(init, answers, requestProcessId, sent0).failed;
    var own := ItemFailures(n, exs[n], AnswerAt(exs, answers, requestProcessId, sent0, n));
    BatchFailedSplit(exs, answers, requestProcessId, sent0);
    FailuresAtAppend(before, own, i);
    if i == n {
      BatchIndices(init, answers, requestProcessId, sent0);
      FailuresAtOthers(before, i);
      ItemFailuresIndexed(n, exs[n], AnswerAt(exs, answers, requestProcessId, sent0, n));
      FailuresAtSame(own, i);
    } else {
      ItemFailuresIndexed(n, exs[n], AnswerAt(exs, answers, requestProcessId, sent0, n));
      FailuresAtOthers(own, i);
      FailuresOfElement(init, answers, requestProcessId, sent0, i);
      AnswerAtPrefix(exs, answers, requestProcessId, sent0, n, i);
    }
  }

  /** Index i is processed iff its element was forwarded and the ledger accepted it. */
  lemma {:induction false} ProcessedElement(exs: seq<Examination>, answers: seq<Option<string>>,
                                            requestProcessId: string, sent0: seq<Delivery>, i: nat)
    requires i < |exs|
    ensures i in Batch(exs, answers, requestProcessId, sent0).processed
        <==> Forwardable(exs[i]) && AnswerAt(exs, answers, requestProcessId, sent0, i).None?
    decreases |exs|
  {
    var n := |exs| - 1;
    var init := exs[..n];
    BatchIndices(init, answers, requestProcessId, sent0);
    if i == n {
      BatchSent(init, answers, requestProcessId, sent0);
    } else {
      ProcessedElement(init, answers, requestProcessId, sent0, i);
      assert init[..i] == exs[..i];
    }
  }

  /** No element is lost: each index is processed or has a failure entry. */
  lemma {:induction false} EveryIndexAccounted(exs: seq<Examination>, answers: seq<Option<string>>, requestProcessId: string,
                            sent0: seq<Delivery>)
    ensures forall i :: 0 <= i < |exs| ==>
      i in Batch(exs, answers, requestProcessId, sent0).processed
      || FailuresAt(Batch(exs, answers, requestProcessId, sent0).failed, i) != []
  {
    forall i | 0 <= i < |exs|
      ensures i in Batch(exs, answers, requestProcessId, sent0).processed
           || FailuresAt(Batch(exs, answers, requestProcessId, sent0).failed, i) != []
    {
      FailuresOfElement(exs, answers, requestProcessId, sent0, i);
      ProcessedElement(exs, answers, requestProcessId, sent0, i);
    }
  }

  /** A valid element with warnings is forwarded, processed, and still reported as a VALIDATION failure. */
  lemma {:induction false} WarnedValidElementForwardedAndReported(exs: seq<Examination>, answers: seq<Option<string>>,
                                               requestProcessId: string, sent0: seq<Delivery>, i: nat)
    requires i < |exs|
    requires Forwardable(exs[i]) && exs[i].warnings != {}
    requires AnswerAt(exs, answers, requestProcessId, sent0, i).None?
    ensures i in Batch(exs, answers, requestProcessId, sent0).processed
    ensures FailuresAt(Batch(exs, answers, requestProcessId, sent0).failed, i)
         == [Expected(i, Some(exs[i].written.value), VALIDATION, {}, exs[i].warnings)]
  {
    FailuresOfElement(exs, answers, requestProcessId, sent0, i);
    ProcessedElement(exs, answers, requestProcessId, sent0, i);
  }

  /** A ledger failure on an element with warnings gives two entries for its index: OTHER, then VALIDATION. */
  lemma {:induction false} SinkFailureOnWarnedElementReportedTwice(exs: seq<Examination>, answers: seq<Option<string>>,
                                                requestProcessId: string, sent0: seq<Delivery>, i: nat)
    requires i < |exs|
    requires Forwardable(exs[i]) && exs[i].warnings != {}
    requires AnswerAt(exs, answers, requestProcessId, sent0, i).Some?
    ensures i !in Batch(exs, answers, requestProcessId, sent0).processed
    ensures FailuresAt(Batch(exs, answers, requestProcessId, sent0).failed, i)
         == [Expected(i, Some(exs[i].assetText), OTHER, {AnswerAt(exs, answers, requestProcessId, sent0, i).value}, {}),
             Expected(i, Some(exs[i].written.value), VALIDATION, {}, exs[i].warnings)]
  {
    FailuresOfElement(exs, answers, requestProcessId, sent0, i);
    ProcessedElement(exs, answers, requestProcessId, sent0, i);
  }

  /** When no element reaches the ledger, a non-empty batch ends with nothing processed and some failure: 400. */
  lemma {:induction false} NothingForwardedIsBadRequest(exs: seq<Examination>, answers: seq<Option<string>>,
                                                        requestProcessId: string, sent0: seq<Delivery>)
    requires exs != []
    requires forall i :: 0 <= i < |exs| ==> !Forwardable(exs[i])
    ensures Batch(exs, answers, requestProcessId, sent0).processed == []
    ensures Batch(exs, answers, requestProcessId, sent0).failed != []
    decreases |exs|
  {
    var init := exs[..|exs| - 1];
    if init != [] {
      NothingForwardedIsBadRequest(init, answers, requestProcessId, sent0);
    }
  }

  /** An element leaves no failure entry: forwarded, without warnings, and accepted by the ledger. */
  predicate Clean(ex: Examination, answer: Option<string>)
  {
    Forwardable(ex) && ex.warnings == {} && answer.None?
  }

  /** The batch ends without failures (status 200) iff every element is clean. */
  lemma {:induction false} NoFailuresIffAllClean(exs: seq<Examination>, answers: seq<Option<string>>, requestProcessId: string,
                              sent0: seq<Delivery>)
    ensures Batch(exs, answers, requestProcessId, sent0).failed == [] <==>
      forall i :: 0 <= i < |exs| ==> Clean(exs[i], AnswerAt(exs, answers, requestProcessId, sent0, i))
  {
    var failed := Batch(exs, answers, requestProcessId, sent0).failed;
    if failed == [] {
      forall i | 0 <= i < |exs| ensures Clean(exs[i], AnswerAt(exs, answers, requestProcessId, sent0, i)) {
        FailuresOfElement(exs, answers, requestProcessId, sent0, i);
      }
    } else {
      BatchIndices(exs, answers, requestProcessId, sent0);
      var e := failed[0];
      FailuresAtMember(failed, e);
      FailuresOfElement(exs, answers, requestProcessId, sent0, e.index);
    }
  }
}
