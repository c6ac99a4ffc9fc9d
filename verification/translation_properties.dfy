/** Properties of the fault translator: which status wins in a batch, what
    the parser is consulted on, what a parser failure leaves behind, and what
    the translator leaves untouched. */
module TranslationProperties {
  import opened Wrappers
  import opened DataServices
  import opened TableUtilities

  /** The parser calls a translation makes, as (body, headers) pairs. */
  ghost function ParserCalls(e: Exc): set<(ErrorBody, Headers)>
  {
    match Classify(e)
    case BatchFault(dsre) =>
      if dsre.kind.batch.None? || dsre.inner.None? then {}
      else
        var ops := dsre.kind.batch.value.operations;
        set i | 0 <= i < |ops| && IsFirstFailing(ops, i) :: (InnerDescription(dsre.inner.value), ops[i].headers)
    case QueryFault(dsqe) =>
      if dsqe.kind.query.None? || dsqe.inner.None? then {}
      else {(InnerMessage(dsqe.inner.value.message), dsqe.kind.query.value.headers)}
    case _ => {}
  }

  /** Two scans that both stop at a first failure stop at the same one. */
  lemma FirstFailingUnique(ops: seq<OperationResponse>, i: int, j: int)
    requires IsFirstFailing(ops, i) && IsFirstFailing(ops, j)
    ensures i == j
  {
  }

  /** The parser is consulted at most once, and in a batch only with the
      headers of the first failing sub-operation. */
  lemma ParserCalledAtMostOnce(e: Exc)
    ensures |ParserCalls(e)| <= 1
    ensures Classify(e).BatchFault? && Classify(e).dsre.kind.batch.Some? ==>
              forall c :: c in ParserCalls(e) ==>
                exists i :: IsFirstFailing(Classify(e).dsre.kind.batch.value.operations, i)
                            && c.1 == Classify(e).dsre.kind.batch.value.operations[i].headers
  {
    match Classify(e)
    case BatchFault(dsre) =>
      if dsre.kind.batch.Some? && dsre.inner.Some? {
        var ops := dsre.kind.batch.value.operations;
        var calls := ParserCalls(e);
        if i :| IsFirstFailing(ops, i) {
          forall c | c in calls
            ensures c == (InnerDescription(dsre.inner.value), ops[i].headers)
          {
            var j :| 0 <= j < |ops| && IsFirstFailing(ops, j) && c == (InnerDescription(dsre.inner.value), ops[j].headers);
            FirstFailingUnique(ops, i, j);
          }
          var only := (InnerDescription(dsre.inner.value), ops[i].headers);
          if calls != {} {
            assert calls == {only};
          }
        } else {
          assert calls == {};
        }
      }
    case _ =>
  }

  /** The translation depends on the parser only through the calls it makes:
      two parsers that agree there give the same translation. In particular a
      type-mismatch fault, an unhandled fault and a batch without a failing
      sub-operation do not consult the parser at all. */
  lemma ParserOnlyConsultedOnItsCalls(e: Exc, rr: RequestResult, p1: ErrorParser, p2: ErrorParser)
    requires forall c :: c in ParserCalls(e) ==> p1(c.0, c.1) == p2(c.0, c.1)
    ensures TranslateDataServiceException(e, rr, p1) == TranslateDataServiceException(e, rr, p2)
  {
    match Classify(e)
    case BatchFault(dsre) =>
      if dsre.kind.batch.Some? {
        var batch := dsre.kind.batch.value;
        var scan := ScanOperations(batch.operations, batch.batchStatusCode);
        if scan.failing.Some? && dsre.inner.Some? {
          var c := (InnerDescription(dsre.inner.value), batch.operations[scan.failing.value].headers);
          assert c in ParserCalls(e);
        }
      }
    case QueryFault(dsqe) =>
      if dsqe.kind.query.Some? && dsqe.inner.Some? {
        var c := (InnerMessage(dsqe.inner.value.message), dsqe.kind.query.value.headers);
        assert c in ParserCalls(e);
      }
    case ContractFault =>
    case Unhandled =>
  }

  /** A batch fault whose response is null falls back before anything is
      written. */
  lemma BatchWithoutResponse(e: Exc, rr: RequestResult, p: ErrorParser)
    requires Classify(e).BatchFault? && Classify(e).dsre.kind.batch.None?
    ensures TranslateDataServiceException(e, rr, p) == Fallback(e, rr)
  {
  }

  /** The status left by a batch fault is the first failing sub-operation's,
      else the last sub-operation's, else the batch's own; it is written
      before the parser runs, so it stands whatever the parser does. */
  lemma BatchStatus(e: Exc, rr: RequestResult, p: ErrorParser)
    requires Classify(e).BatchFault? && Classify(e).dsre.kind.batch.Some?
    ensures var batch := Classify(e).dsre.kind.batch.value;
            var ops := batch.operations;
            var status := TranslateDataServiceException(e, rr, p).requestResult.httpStatusCode;
            && (forall i :: IsFirstFailing(ops, i) ==> status == ops[i].statusCode)
            && (NoneFailing(ops) && |ops| > 0 ==> status == ops[|ops| - 1].statusCode)
            && (|ops| == 0 ==> status == batch.batchStatusCode)
  {
  }

  /** When no sub-operation of a batch fails, the extended error information
      keeps its prior value, the parser is not consulted, and the message is
      the prior error code when there is one, else the batch fault's message. */
  lemma BatchWithoutFailure(e: Exc, rr: RequestResult, p: ErrorParser)
    requires Classify(e).BatchFault? && Classify(e).dsre.kind.batch.Some?
    requires NoneFailing(Classify(e).dsre.kind.batch.value.operations)
    ensures var dsre := Classify(e).dsre;
            var t := TranslateDataServiceException(e, rr, p);
            && t.requestResult.extendedErrorInformation == rr.extendedErrorInformation
            && t.error == Some(StorageError(
                 t.requestResult,
                 if rr.extendedErrorInformation.Some? then rr.extendedErrorInformation.value.errorCode else Some(dsre.message),
                 dsre,
                 true))
    ensures ParserCalls(e) == {}
  {
  }

  /** At the first failing sub-operation the parser runs on the inner
      exception's description and that sub-operation's headers: its result
      becomes the extended error information, and the message is its error
      code when present, else the batch fault's message. When the inner
      exception is null or the parser fails, the translation falls back with
      the failing status in place and the prior extended information kept. */
  lemma BatchFirstFailure(e: Exc, rr: RequestResult, p: ErrorParser, i: int)
    requires Classify(e).BatchFault? && Classify(e).dsre.kind.batch.Some?
    requires IsFirstFailing(Classify(e).dsre.kind.batch.value.operations, i)
    ensures var dsre := Classify(e).dsre;
            var op := dsre.kind.batch.value.operations[i];
            var failed := rr.(httpStatusCode := op.statusCode);
            var t := TranslateDataServiceException(e, rr, p);
            && (dsre.inner.None? ==> t == Fallback(e, failed))
            && (dsre.inner.Some? && p(InnerDescription(dsre.inner.value), op.headers).Failure? ==> t == Fallback(e, failed))
            && (dsre.inner.Some? && p(InnerDescription(dsre.inner.value), op.headers).Success? ==>
                  var info := p(InnerDescription(dsre.inner.value), op.headers).value;
                  && t.requestResult == failed.(extendedErrorInformation := info)
                  && t.error == Some(StorageError(
                       t.requestResult,
                       if info.Some? then info.value.errorCode else Some(dsre.message),
                       dsre,
                       true)))
  {
  }

  /** A query fault reports its response's status, written before the parser
      runs. The parser runs once, on the inner exception's message and the
      response's headers; its result becomes the extended error information
      and the message is its error code when present, else the query fault's
      message. A null response, a null inner exception or a parser failure
      fall back, keeping whatever was already written. */
  lemma QueryFaultTranslation(e: Exc, rr: RequestResult, p: ErrorParser)
    requires Classify(e).QueryFault?
    ensures var dsqe := Classify(e).dsqe;
            var t := TranslateDataServiceException(e, rr, p);
            && (dsqe.kind.query.None? ==> t == Fallback(e, rr))
            && (dsqe.kind.query.Some? ==>
                  var response := dsqe.kind.query.value;
                  var answered := rr.(httpStatusCode := response.statusCode);
                  && t.requestResult.httpStatusCode == response.statusCode
                  && (dsqe.inner.None? ==> t == Fallback(e, answered))
                  && (dsqe.inner.Some? && p(InnerMessage(dsqe.inner.value.message), response.headers).Failure? ==>
                        t == Fallback(e, answered))
                  && (dsqe.inner.Some? && p(InnerMessage(dsqe.inner.value.message), response.headers).Success? ==>
                        var info := p(InnerMessage(dsqe.inner.value.message), response.headers).value;
                        && t.requestResult == answered.(extendedErrorInformation := info)
                        && t.error == Some(StorageError(
                             t.requestResult,
                             if info.Some? then info.value.errorCode else Some(dsqe.message),
                             dsqe,
                             true))))
  {
  }

  /** A batch whose sub-operations answered 200, 200, 404 and 500 reports
      404, and the parser is consulted only on the 404 response's headers. */
  lemma FirstFailureWinsExample(rr: RequestResult, p: ErrorParser)
    ensures var h404 := map["x-ms-request-id" := "404"];
            var h500 := map["x-ms-request-id" := "500"];
            var inner := Exc(DataServiceClient, "Not Found", None, None);
            var ops := [OperationResponse(200, map[]), OperationResponse(200, map[]),
                        OperationResponse(404, h404), OperationResponse(500, h500)];
            var e := Exc(DataServiceRequest(Some(BatchResponse(202, ops))), "batch failed", None, Some(inner));
            && TranslateDataServiceException(e, rr, p).requestResult.httpStatusCode == 404
            && ParserCalls(e) == {(InnerDescription(inner), h404)}
  {
  }

  /** A request fault nested inside a query fault still takes the batch path. */
  lemma RequestFaultTakesPrecedence(rr: RequestResult, p: ErrorParser)
    ensures var dsre := Exc(DataServiceRequest(None), "batch failed", None, None);
            var e := Exc(DataServiceQuery(None), "query failed", None, Some(dsre));
            && Classify(e) == BatchFault(dsre)
            && TranslateDataServiceException(e, rr, p) == Fallback(e, rr)
  {
  }

  /** A client-side type mismatch raised by the data-service client library
      is reported as not retryable, with the outer fault's message, and
      leaves the request result as it was. */
  lemma TypeMismatchExample(rr: RequestResult, p: ErrorParser)
    ensures var ioe := Exc(InvalidOperation, TypeMismatchMarker, Some(DataServicesClientSource), None);
            var e := Exc(OtherException, "outer", None, Some(ioe));
            TranslateDataServiceException(e, rr, p) == Translation(rr, Some(StorageError(rr, Some("outer"), e, false)))
  {
  }

  /** Only the first invalid-operation exception of the chain is examined for a
      type mismatch: a web exception ahead of a matching fault hides it, and
      the fault is not handled. */
  lemma WebExceptionHidesTypeMismatch(rr: RequestResult, p: ErrorParser)
    ensures var ioe := Exc(InvalidOperation, TypeMismatchMarker, Some(DataServicesClientSource), None);
            var e := Exc(Web, TypeMismatchMarker, Some(DataServicesClientSource), Some(ioe));
            TranslateDataServiceException(e, rr, p) == Translation(rr, None)
  {
  }
}
