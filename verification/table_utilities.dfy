/** The static helpers of the table protocol layer: translation of
    data-service faults into one storage error, the inner-exception search it
    relies on, and the continuation-token and page-size helpers used when a
    table query is split into pages. */
module TableUtilities {
  import opened Wrappers
  import opened DataServices

  // ---------------------------------------------------------------------------
  // Fault translation
  // ---------------------------------------------------------------------------

  /** Structured error detail parsed from a service error body; the error
      code is null when the body carries none. */
  datatype ExtendedErrorInfo = ExtendedErrorInfo(errorCode: Option<string>, errorMessage: string, additionalDetails: map<string, string>)

  /** The parts of a request's result that the translator updates. */
  datatype RequestResult = RequestResult(httpStatusCode: int, extendedErrorInformation: Option<ExtendedErrorInfo>)

  /** The normalized storage error. It shares the request result it was built
      from, so its status and extended information are the ones left in that
      request result. Its message is null when it was taken from extended
      information without an error code. */
  datatype StorageError = StorageError(requestResult: RequestResult, message: Option<string>, cause: Exc, isRetryable: bool)

  /** What one translation leaves behind: the request result as updated, and
      the error produced, or None when the fault is not handled. */
  datatype Translation = Translation(requestResult: RequestResult, error: Option<StorageError>)

  /** The text handed to the error parser: the description of a batch fault's
      inner exception, or the message of a query fault's inner exception. */
  datatype ErrorBody = InnerDescription(inner: Exc) | InnerMessage(text: string)

  /** The injected error-body parser; a Failure stands for a thrown exception. */
  type ErrorParser = (ErrorBody, Headers) -> Result<Option<ExtendedErrorInfo>, string>

  /** The Source of exceptions raised by the data-service client library. */
  const DataServicesClientSource := "Microsoft.Data.Services.Client"

  /** The message fragment of a client-side type-mismatch fault. */
  const TypeMismatchMarker := "type is not compatible with the expected"

  /** The lowest status code that marks a sub-operation of a batch as failed. */
  const FirstFailureStatus := 300

  /** Ordinal substring test, as `string.Contains`. */
  predicate Contains(s: string, sub: string)
    decreases |s|
  {
    |sub| <= |s| && (s[..|sub|] == sub || Contains(s[1..], sub))
  }

  /** `sub` occurs in `s` starting at position `i`. */
  ghost predicate OccursAt(s: string, sub: string, i: int)
  {
    0 <= i && i + |sub| <= |s| && s[i..i + |sub|] == sub
  }

  /** The substring test holds exactly when the fragment occurs somewhere. */
  lemma {:induction false} ContainsMeansOccurs(s: string, sub: string)
    ensures Contains(s, sub) <==> exists i :: OccursAt(s, sub, i)
    decreases |s|
  {
    if |sub| <= |s| {
      if s[..|sub|] == sub {
        assert OccursAt(s, sub, 0);
      } else {
        ContainsMeansOccurs(s[1..], sub);
        if i :| OccursAt(s, sub, i) {
          assert i > 0;
          assert s[1..][i - 1..i - 1 + |sub|] == s[i..i + |sub|];
          assert OccursAt(s[1..], sub, i - 1);
        }
        if j :| OccursAt(s[1..], sub, j) {
          assert s[j + 1..j + 1 + |sub|] == s[1..][j..j + |sub|];
          assert OccursAt(s, sub, j + 1);
        }
      }
    }
  }

  /** The first exception of type `t` in the inner-exception chain of `e`,
      starting with `e` itself, or None when the chain holds none. */
  function FindInnerExceptionOfType(e: Exc, t: ExceptionType): (r: Option<Exc>)
    ensures r.None? <==> NoneOfType(Chain(e), t)
    ensures r.Some? ==> exists i :: IsFirstOfType(Chain(e), t, i) && Chain(e)[i] == r.value
    decreases e
  {
    if IsOfType(e.kind, t) then
      assert IsFirstOfType(Chain(e), t, 0);
      Some(e)
    else
      match e.inner
      case None => None
      case Some(i) =>
        var r := FindInnerExceptionOfType(i, t);
        ShiftFirstOfType(e, i, t);
        r
  }

  /** Positions in the chain of an exception's inner exception are positions
      one further on in the exception's own chain. */
  lemma ShiftFirstOfType(e: Exc, i: Exc, t: ExceptionType)
    requires e.inner == Some(i) && !IsOfType(e.kind, t)
    ensures NoneOfType(Chain(e), t) <==> NoneOfType(Chain(i), t)
    ensures forall k :: IsFirstOfType(Chain(i), t, k) ==> IsFirstOfType(Chain(e), t, k + 1) && Chain(e)[k + 1] == Chain(i)[k]
  {
    var c, ci := Chain(e), Chain(i);
    assert c == [e] + ci;
    assert forall k :: 0 <= k < |ci| ==> c[k + 1] == ci[k];
    if !NoneOfType(c, t) {
      var j :| 0 <= j < |c| && IsOfType(c[j].kind, t);
      assert j > 0 && IsOfType(ci[j - 1].kind, t);
    }
    if !NoneOfType(ci, t) {
      var j :| 0 <= j < |ci| && IsOfType(ci[j].kind, t);
      assert IsOfType(c[j + 1].kind, t);
    }
    forall k | IsFirstOfType(ci, t, k)
      ensures IsFirstOfType(c, t, k + 1)
    {
      forall j | 0 <= j < k + 1
        ensures !IsOfType(c[j].kind, t)
      {
        if j > 0 {
          assert c[j] == ci[j - 1];
        }
      }
    }
  }

  /** A fault of this type is a client-side type mismatch raised by the
      data-service client library. */
  predicate IsTypeMismatch(ioe: Exc)
  {
    && !ioe.kind.Web?
    && ioe.source == Some(DataServicesClientSource)
    && Contains(ioe.message, TypeMismatchMarker)
  }

  /** The shape of a fault, as the translator tells them apart. */
  datatype FaultShape = BatchFault(dsre: Exc) | QueryFault(dsqe: Exc) | ContractFault | Unhandled

  /** Classifies a fault: a request (batch) fault anywhere in the chain wins
      over a query fault; the type-mismatch test looks only at the first
      invalid-operation exception of the chain, and only when neither of the
      other two is present. */
  function Classify(e: Exc): (s: FaultShape)
    ensures s.BatchFault? <==> !NoneOfType(Chain(e), RequestExceptionType)
    ensures s.BatchFault? ==> s.dsre.kind.DataServiceRequest?
    ensures s.BatchFault? ==> exists i :: IsFirstOfType(Chain(e), RequestExceptionType, i) && Chain(e)[i] == s.dsre
    ensures s.QueryFault? <==> NoneOfType(Chain(e), RequestExceptionType) && !NoneOfType(Chain(e), QueryExceptionType)
    ensures s.QueryFault? ==> s.dsqe.kind.DataServiceQuery?
    ensures s.QueryFault? ==> exists i :: IsFirstOfType(Chain(e), QueryExceptionType, i) && Chain(e)[i] == s.dsqe
    ensures s.ContractFault? <==>
              && NoneOfType(Chain(e), RequestExceptionType)
              && NoneOfType(Chain(e), QueryExceptionType)
              && exists i :: IsFirstOfType(Chain(e), InvalidOperationType, i) && IsTypeMismatch(Chain(e)[i])
  {
    var dsre := FindInnerExceptionOfType(e, RequestExceptionType);
    var dsqe := FindInnerExceptionOfType(e, QueryExceptionType);
    if dsre.None? && dsqe.None? then
      var ioe := FindInnerExceptionOfType(e, InvalidOperationType);
      FirstOfTypeUnique(Chain(e), InvalidOperationType);
      if ioe.Some? && IsTypeMismatch(ioe.value) then ContractFault else Unhandled
    else if dsre.Some? then
      BatchFault(dsre.value)
    else
      QueryFault(dsqe.value)
  }

  /** There is at most one first position of a type in a chain. */
  lemma FirstOfTypeUnique(chain: seq<Exc>, t: ExceptionType)
    ensures forall i, j :: IsFirstOfType(chain, t, i) && IsFirstOfType(chain, t, j) ==> i == j
  {
  }

  /** `i` is the first sub-operation of a batch whose status reports failure. */
  ghost predicate IsFirstFailing(ops: seq<OperationResponse>, i: int)
  {
    && 0 <= i < |ops|
    && ops[i].statusCode >= FirstFailureStatus
    && forall j :: 0 <= j < i ==> ops[j].statusCode < FirstFailureStatus
  }

  /** No sub-operation of a batch reports failure. */
  ghost predicate NoneFailing(ops: seq<OperationResponse>)
  {
    forall j :: 0 <= j < |ops| ==> ops[j].statusCode < FirstFailureStatus
  }

  /** Where the scan of a batch's responses stops: the status left in the
      request result and the position of the failing response, if any. */
  datatype ScanOutcome = ScanOutcome(status: int, failing: Option<nat>)

  /** The scan over a batch's responses: each response overwrites the status,
      and the scan stops at the first failing one. */
  function ScanOperations(ops: seq<OperationResponse>, status: int): (r: ScanOutcome)
    ensures r.failing.Some? ==> IsFirstFailing(ops, r.failing.value) && r.status == ops[r.failing.value].statusCode
    ensures r.failing.None? ==> NoneFailing(ops)
    ensures r.failing.None? && |ops| == 0 ==> r.status == status
    ensures r.failing.None? && |ops| > 0 ==> r.status == ops[|ops| - 1].statusCode
    decreases |ops|
  {
    if |ops| == 0 then
      ScanOutcome(status, None)
    else if ops[0].statusCode >= FirstFailureStatus then
      ScanOutcome(ops[0].statusCode, Some(0))
    else
      var rest := ScanOperations(ops[1..], ops[0].statusCode);
      ScanOutcome(rest.status, if rest.failing.Some? then Some(rest.failing.value + 1) else None)
  }

  /** The progress of the guarded part of the translation: it completed, or it
      threw after leaving the request result as given. */
  datatype Attempt = Completed(translation: Translation) | Threw(progress: RequestResult)

  /** The error reported for a batch or query fault once the request result
      is final: the parsed error code (null or not) when extended information
      is present, else the fault's own message. */
  function ErrorFrom(rr: RequestResult, fault: Exc): Translation
  {
    var message := if rr.extendedErrorInformation.Some? then rr.extendedErrorInformation.value.errorCode else Some(fault.message);
    Translation(rr, Some(StorageError(rr, message, fault, true)))
  }

  /** Translation of a request (batch) fault. A null response, a null inner
      exception and a parser failure all throw. */
  function TranslateBatch(dsre: Exc, reqResult: RequestResult, parseError: ErrorParser): Attempt
    requires dsre.kind.DataServiceRequest?
  {
    match dsre.kind.batch
    case None => Threw(reqResult)
    case Some(batch) =>
      var scan := ScanOperations(batch.operations, batch.batchStatusCode);
      var rr := reqResult.(httpStatusCode := scan.status);
      match scan.failing
      case None => Completed(ErrorFrom(rr, dsre))
      case Some(i) =>
        match dsre.inner
        case None => Threw(rr)
        case Some(inner) =>
          match parseError(InnerDescription(inner), batch.operations[i].headers)
          case Failure(_) => Threw(rr)
          case Success(info) => Completed(ErrorFrom(rr.(extendedErrorInformation := info), dsre))
  }

  /** Translation of a query fault. The status is written before the parser
      runs, so it survives a parser failure. */
  function TranslateQuery(dsqe: Exc, reqResult: RequestResult, parseError: ErrorParser): Attempt
    requires dsqe.kind.DataServiceQuery?
  {
    match dsqe.kind.query
    case None => Threw(reqResult)
    case Some(response) =>
      var rr := reqResult.(httpStatusCode := response.statusCode);
      match dsqe.inner
      case None => Threw(rr)
      case Some(inner) =>
        match parseError(InnerMessage(inner.message), response.headers)
        case Failure(_) => Threw(rr)
        case Success(info) => Completed(ErrorFrom(rr.(extendedErrorInformation := info), dsqe))
  }

  /** The error the translator falls back to when something inside it throws:
      the original fault's message, over the request result as far as it was
      updated. */
  function Fallback(e: Exc, rr: RequestResult): Translation
  {
    Translation(rr, Some(StorageError(rr, Some(e.message), e, true)))
  }

  /** The catch-all: anything thrown becomes the fallback error. */
  function Recover(e: Exc, a: Attempt): Translation
  {
    match a
    case Completed(t) => t
    case Threw(rr) => Fallback(e, rr)
  }

  /** Translates a data-service fault into a storage error. It never throws. */
  function TranslateDataServiceException(e: Exc, reqResult: RequestResult, parseError: ErrorParser): (t: Translation)
    ensures t.error.None? <==> Classify(e).Unhandled?
    ensures t.error.None? ==> t.requestResult == reqResult
    ensures t.error.Some? ==> t.error.value.requestResult == t.requestResult
    ensures Classify(e).ContractFault? ==>
              t == Translation(reqResult, Some(StorageError(reqResult, Some(e.message), e, false)))
    ensures Classify(e).BatchFault? ==>
              && t.error.Some? && t.error.value.isRetryable
              && (t.error.value.cause == Classify(e).dsre || (t.error.value.cause == e && t.error.value.message == Some(e.message)))
    ensures Classify(e).QueryFault? ==>
              && t.error.Some? && t.error.value.isRetryable
              && (t.error.value.cause == Classify(e).dsqe || (t.error.value.cause == e && t.error.value.message == Some(e.message)))
  {
    match Classify(e)
    case BatchFault(dsre) => Recover(e, TranslateBatch(dsre, reqResult, parseError))
    case QueryFault(dsqe) => Recover(e, TranslateQuery(dsqe, reqResult, parseError))
    case ContractFault => Translation(reqResult, Some(StorageError(reqResult, Some(e.message), e, false)))
    case Unhandled => Translation(reqResult, None)
  }

  // ---------------------------------------------------------------------------
  // Continuation tokens
  // ---------------------------------------------------------------------------

  /** The cursor of a paginated table query; each field may be null. */
  datatype ContinuationToken = ContinuationToken(nextPartitionKey: Option<string>, nextRowKey: Option<string>, nextTableName: Option<string>)

  /** Names of the continuation query options, and the prefix that turns them
      into the names of the continuation response headers. */
  const TableServiceNextPartitionKey := "NextPartitionKey"
  const TableServiceNextRowKey := "NextRowKey"
  const TableServiceNextTableName := "NextTableName"
  const TableServicePrefixForTableContinuation := "x-ms-continuation-"

  /** The position of a continuation option among the three; 3 for any other
      name. */
  function OptionRank(name: string): (k: nat)
    ensures k <= 3
  {
    if name == TableServiceNextPartitionKey then 0
    else if name == TableServiceNextRowKey then 1
    else if name == TableServiceNextTableName then 2
    else 3
  }

  /** The number of non-null fields of a token. */
  function FieldCount(t: ContinuationToken): (n: nat)
    ensures n <= 3
  {
    (if t.nextPartitionKey.Some? then 1 else 0)
    + (if t.nextRowKey.Some? then 1 else 0)
    + (if t.nextTableName.Some? then 1 else 0)
  }

  /** Adds the token's non-null fields to the query as continuation options,
      in the order partition key, row key, table name. A null token leaves
      the query as it is. */
  function ApplyContinuationToQuery(token: Option<ContinuationToken>, q: Query): (r: Query)
    ensures token.None? ==> r == q
    ensures r.expression == q.expression
    ensures |q.options| <= |r.options| && r.options[..|q.options|] == q.options
    ensures token.Some? ==> |r.options| == |q.options| + FieldCount(token.value)
    ensures token.Some? ==> forall v ::
              && ((TableServiceNextPartitionKey, v) in r.options[|q.options|..] <==> token.value.nextPartitionKey == Some(v))
              && ((TableServiceNextRowKey, v) in r.options[|q.options|..] <==> token.value.nextRowKey == Some(v))
              && ((TableServiceNextTableName, v) in r.options[|q.options|..] <==> token.value.nextTableName == Some(v))
    ensures forall i, j :: |q.options| <= i < j < |r.options| ==> OptionRank(r.options[i].0) < OptionRank(r.options[j].0)
  {
    match token
    case None => q
    case Some(t) =>
      var q1 := if t.nextPartitionKey.Some? then AddQueryOption(q, TableServiceNextPartitionKey, t.nextPartitionKey.value) else q;
      var q2 := if t.nextRowKey.Some? then AddQueryOption(q1, TableServiceNextRowKey, t.nextRowKey.value) else q1;
      var q3 := if t.nextTableName.Some? then AddQueryOption(q2, TableServiceNextTableName, t.nextTableName.value) else q2;
      assert q3.options == q.options + TokenOptions(t);
      assert q3.options[|q.options|..] == TokenOptions(t);
      TokenOptionsShape(t);
      q3
  }

  /** The options a token contributes, one per non-null field, in order. */
  function TokenOptions(t: ContinuationToken): seq<(string, string)>
  {
    (if t.nextPartitionKey.Some? then [(TableServiceNextPartitionKey, t.nextPartitionKey.value)] else [])
    + (if t.nextRowKey.Some? then [(TableServiceNextRowKey, t.nextRowKey.value)] else [])
    + (if t.nextTableName.Some? then [(TableServiceNextTableName, t.nextTableName.value)] else [])
  }

  /** The options of a token name each non-null field once with its value, in
      the order partition key, row key, table name. */
  lemma TokenOptionsShape(t: ContinuationToken)
    ensures |TokenOptions(t)| == FieldCount(t)
    ensures forall v ::
              && ((TableServiceNextPartitionKey, v) in TokenOptions(t) <==> t.nextPartitionKey == Some(v))
              && ((TableServiceNextRowKey, v) in TokenOptions(t) <==> t.nextRowKey == Some(v))
              && ((TableServiceNextTableName, v) in TokenOptions(t) <==> t.nextTableName == Some(v))
    ensures forall i, j :: 0 <= i < j < |TokenOptions(t)| ==> OptionRank(TokenOptions(t)[i].0) < OptionRank(TokenOptions(t)[j].0)
  {
  }

  /** The value of a header, or None when the response does not carry it. */
  function TryGetValue(headers: Headers, name: string): Option<string>
  {
    if name in headers then Some(headers[name]) else None
  }

  /** `string.IsNullOrEmpty`. */
  predicate IsNullOrEmpty(s: Option<string>)
  {
    s.None? || s.value == ""
  }

  /** Every field of the token is null or empty: the token marks no further
      data. */
  predicate IsEmptyToken(t: ContinuationToken)
  {
    IsNullOrEmpty(t.nextPartitionKey) && IsNullOrEmpty(t.nextRowKey) && IsNullOrEmpty(t.nextTableName)
  }

  /** The continuation header carrying the option `name`. */
  function ContinuationHeader(name: string): string
  {
    TableServicePrefixForTableContinuation + name
  }

  /** Reads the continuation token off a query response's headers. There is
      no token when all three headers are missing or empty; otherwise every
      field is its header's value as given, null when the header is missing. */
  function ContinuationFromResponse(headers: Headers): (r: Option<ContinuationToken>)
    ensures r.None? <==>
              && (ContinuationHeader(TableServiceNextPartitionKey) in headers ==> headers[ContinuationHeader(TableServiceNextPartitionKey)] == "")
              && (ContinuationHeader(TableServiceNextRowKey) in headers ==> headers[ContinuationHeader(TableServiceNextRowKey)] == "")
              && (ContinuationHeader(TableServiceNextTableName) in headers ==> headers[ContinuationHeader(TableServiceNextTableName)] == "")
    ensures r.Some? ==> forall v ::
              && (r.value.nextPartitionKey == Some(v) <==> ContinuationHeader(TableServiceNextPartitionKey) in headers && headers[ContinuationHeader(TableServiceNextPartitionKey)] == v)
              && (r.value.nextRowKey == Some(v) <==> ContinuationHeader(TableServiceNextRowKey) in headers && headers[ContinuationHeader(TableServiceNextRowKey)] == v)
              && (r.value.nextTableName == Some(v) <==> ContinuationHeader(TableServiceNextTableName) in headers && headers[ContinuationHeader(TableServiceNextTableName)] == v)
  {
    var nextPartitionKey := TryGetValue(headers, ContinuationHeader(TableServiceNextPartitionKey));
    var nextRowKey := TryGetValue(headers, ContinuationHeader(TableServiceNextRowKey));
    var nextTableName := TryGetValue(headers, ContinuationHeader(TableServiceNextTableName));
    var token := ContinuationToken(nextPartitionKey, nextRowKey, nextTableName);
    if IsEmptyToken(token) then None else Some(token)
  }

  // ---------------------------------------------------------------------------
  // Page size
  // ---------------------------------------------------------------------------

  /** The exceptions the page-size probe can throw: the `Take` call has no
      second argument, or its constant is null or not a boxed 32-bit int. */
  datatype TakeCountFailure = ArgumentOutOfRange | NullReference | InvalidCast

  /** The query's expression is a call of a method named Take. */
  predicate IsTakeCall(x: Expression)
  {
    x.MethodCall? && x.methodName == "Take"
  }

  /** The count of a query's top-level `Take(constant)`, widened to 64 bits,
      or `defaultValue` when the expression has no such shape. */
  function GetQueryTakeCount(q: Query, defaultValue: int64): (r: Result<int64, TakeCountFailure>)
    ensures forall n: int32 ::
              (IsTakeCall(q.expression) && |q.expression.arguments| >= 2 && q.expression.arguments[1] == Constant(Int32Value(n)))
              ==> r == Success(n as int64)
    ensures !IsTakeCall(q.expression) ==> r == Success(defaultValue)
    ensures (IsTakeCall(q.expression) && |q.expression.arguments| >= 2 && !q.expression.arguments[1].Constant?)
              ==> r == Success(defaultValue)
    ensures r.Failure? <==>
              && IsTakeCall(q.expression)
              && (|q.expression.arguments| < 2
                  || (q.expression.arguments[1].Constant? && !q.expression.arguments[1].value.Int32Value?))
  {
    match q.expression
    case MethodCall(name, arguments) =>
      if name != "Take" then Success(defaultValue)
      else if |arguments| < 2 then Failure(ArgumentOutOfRange)
      else
        (match arguments[1]
         case Constant(Int32Value(n)) => Success(n as int64)
         case Constant(NullValue) => Failure(NullReference)
         case Constant(OtherValue) => Failure(InvalidCast)
         case _ => Success(defaultValue))
    case _ => Success(defaultValue)
  }
}
