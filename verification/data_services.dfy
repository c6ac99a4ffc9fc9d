/** The collaborators of the table protocol helpers, reduced to the parts the
    helpers look at: exceptions and their inner-exception chains, the responses
    a data-service fault carries, and outbound queries. */
module DataServices {
  import opened Wrappers

  /** 32- and 64-bit signed integers of the source. */
  type int32 = x: int | -0x8000_0000 <= x < 0x8000_0000
  type int64 = x: int | -0x8000_0000_0000_0000 <= x < 0x8000_0000_0000_0000

  /** Response headers, keyed by header name. */
  type Headers = map<string, string>

  /** One sub-operation response of a batch. */
  datatype OperationResponse = OperationResponse(statusCode: int, headers: Headers)

  /** The response of a batch request: the batch-level status and the
      sub-operation responses in the order the batch listed them. */
  datatype BatchResponse = BatchResponse(batchStatusCode: int, operations: seq<OperationResponse>)

  /** The response of a single query. */
  datatype QueryResponse = QueryResponse(statusCode: int, headers: Headers)

  /** The run-time class of an exception. A request (batch) fault and a query
      fault carry a response reference, which may be null. */
  datatype ExceptionKind =
    | DataServiceRequest(batch: Option<BatchResponse>)
    | DataServiceQuery(query: Option<QueryResponse>)
    | DataServiceClient
    | Web
    | InvalidOperation
    | OtherException

  /** An exception with its message, its Source property (null when it has none) and
      its inner exception. */
  datatype Exc = Exc(kind: ExceptionKind, message: string, source: Option<string>, inner: Option<Exc>)

  /** The exception classes the table helpers search an exception chain for. */
  datatype ExceptionType = RequestExceptionType | QueryExceptionType | InvalidOperationType

  /** Whether an exception of kind `k` is an instance of type `t` (a C# `as`
      cast that succeeds). Request, query, client and web exceptions all derive
      from InvalidOperationException. */
  predicate IsOfType(k: ExceptionKind, t: ExceptionType)
  {
    match t
    case RequestExceptionType => k.DataServiceRequest?
    case QueryExceptionType => k.DataServiceQuery?
    case InvalidOperationType => !k.OtherException?
  }

  /** The inner-exception chain of `e`, starting with `e` itself. */
  function Chain(e: Exc): (c: seq<Exc>)
    ensures |c| >= 1 && c[0] == e
    decreases e
  {
    match e.inner
    case None => [e]
    case Some(i) => [e] + Chain(i)
  }

  /** `i` is the position of the first exception of type `t` in `chain`. */
  ghost predicate IsFirstOfType(chain: seq<Exc>, t: ExceptionType, i: int)
  {
    && 0 <= i < |chain|
    && IsOfType(chain[i].kind, t)
    && forall j :: 0 <= j < i ==> !IsOfType(chain[j].kind, t)
  }

  /** No exception in `chain` is of type `t`. */
  ghost predicate NoneOfType(chain: seq<Exc>, t: ExceptionType)
  {
    forall j :: 0 <= j < |chain| ==> !IsOfType(chain[j].kind, t)
  }

  /** A LINQ expression, reduced to the shapes the page-size probe inspects. */
  datatype Expression =
    | MethodCall(methodName: string, arguments: seq<Expression>)
    | Constant(value: ConstantValue)
    | OtherExpression

  /** The boxed value of a constant expression. */
  datatype ConstantValue = Int32Value(n: int32) | NullValue | OtherValue

  /** An outbound data-service query: its custom query options, in the order
      they were added, and its expression tree. */
  datatype Query = Query(options: seq<(string, string)>, expression: Expression)

  /** Returns a new query that carries one more custom query option. */
  function AddQueryOption(q: Query, name: string, value: string): Query
  {
    q.(options := q.options + [(name, value)])
  }
}
