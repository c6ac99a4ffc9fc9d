/** Properties of the continuation helpers: a token survives the trip out as
    query options and back as response headers, a response never yields an
    all-empty token, and a token read off a response is applied verbatim. */
module ContinuationProperties {
  import opened Wrappers
  import opened DataServices
  import opened TableUtilities

  /** The response headers through which a service hands the given
      continuation options back: one prefixed header per option. */
  function EchoHeaders(options: seq<(string, string)>): Headers
    decreases |options|
  {
    if |options| == 0 then map[]
    else
      var last := options[|options| - 1];
      EchoHeaders(options[..|options| - 1])[ContinuationHeader(last.0) := last.1]
  }

  /** The three continuation headers have different names. */
  lemma ContinuationHeadersDistinct()
    ensures ContinuationHeader(TableServiceNextPartitionKey) != ContinuationHeader(TableServiceNextRowKey)
    ensures ContinuationHeader(TableServiceNextPartitionKey) != ContinuationHeader(TableServiceNextTableName)
    ensures ContinuationHeader(TableServiceNextRowKey) != ContinuationHeader(TableServiceNextTableName)
  {
    var p := |TableServicePrefixForTableContinuation|;
    assert ContinuationHeader(TableServiceNextPartitionKey)[p + 4] != ContinuationHeader(TableServiceNextRowKey)[p + 4];
    assert ContinuationHeader(TableServiceNextPartitionKey)[p + 4] != ContinuationHeader(TableServiceNextTableName)[p + 4];
    assert ContinuationHeader(TableServiceNextRowKey)[p + 4] != ContinuationHeader(TableServiceNextTableName)[p + 4];
  }

  /** Echoing one more option adds (or replaces) its header. */
  lemma EchoSnoc(options: seq<(string, string)>, x: (string, string))
    ensures EchoHeaders(options + [x]) == EchoHeaders(options)[ContinuationHeader(x.0) := x.1]
  {
  }

  /** The headers echoing a token's options: one header per non-null field,
      holding that field's value, and no other header. */
  lemma EchoTokenOptions(t: ContinuationToken)
    ensures var h := EchoHeaders(TokenOptions(t));
            && (ContinuationHeader(TableServiceNextPartitionKey) in h <==> t.nextPartitionKey.Some?)
            && (ContinuationHeader(TableServiceNextRowKey) in h <==> t.nextRowKey.Some?)
            && (ContinuationHeader(TableServiceNextTableName) in h <==> t.nextTableName.Some?)
            && (t.nextPartitionKey.Some? ==> h[ContinuationHeader(TableServiceNextPartitionKey)] == t.nextPartitionKey.value)
            && (t.nextRowKey.Some? ==> h[ContinuationHeader(TableServiceNextRowKey)] == t.nextRowKey.value)
            && (t.nextTableName.Some? ==> h[ContinuationHeader(TableServiceNextTableName)] == t.nextTableName.value)
  {
    ContinuationHeadersDistinct();
    var a := if t.nextPartitionKey.Some? then [(TableServiceNextPartitionKey, t.nextPartitionKey.value)] else [];
    var b := if t.nextRowKey.Some? then [(TableServiceNextRowKey, t.nextRowKey.value)] else [];
    var c := if t.nextTableName.Some? then [(TableServiceNextTableName, t.nextTableName.value)] else [];
    assert TokenOptions(t) == a + b + c;
    if a != [] {
      EchoSnoc([], a[0]);
      assert [] + [a[0]] == a;
    }
    if b != [] {
      EchoSnoc(a, b[0]);
    } else {
      assert a + b == a;
    }
    if c != [] {
      EchoSnoc(a + b, c[0]);
    } else {
      assert a + b + c == a + b;
    }
  }

  /** A token applied to a query and handed back by the service as response
      headers is read back unchanged, field for field: a null field stays
      null and an empty one stays empty. A token whose fields are all null or
      empty comes back as no token at all. */
  lemma ContinuationRoundTrip(t: ContinuationToken, q: Query)
    ensures var added := ApplyContinuationToQuery(Some(t), q).options[|q.options|..];
            ContinuationFromResponse(EchoHeaders(added)) == if IsEmptyToken(t) then None else Some(t)
  {
    var added := ApplyContinuationToQuery(Some(t), q).options[|q.options|..];
    assert added == TokenOptions(t);
    EchoTokenOptions(t);
    var h := EchoHeaders(added);
    assert TryGetValue(h, ContinuationHeader(TableServiceNextPartitionKey)) == t.nextPartitionKey;
    assert TryGetValue(h, ContinuationHeader(TableServiceNextRowKey)) == t.nextRowKey;
    assert TryGetValue(h, ContinuationHeader(TableServiceNextTableName)) == t.nextTableName;
  }

  /** A response never yields a token whose fields are all null or empty. */
  lemma NoEmptyTokenFromResponse(headers: Headers)
    ensures ContinuationFromResponse(headers).Some? ==> !IsEmptyToken(ContinuationFromResponse(headers).value)
  {
  }

  /** A token read off a response is applied verbatim: the next query carries
      an option exactly for each continuation header the response carried,
      with that header's value, and nothing for a missing header. */
  lemma ResponseTokenAppliedVerbatim(headers: Headers, q: Query)
    requires ContinuationFromResponse(headers).Some?
    ensures var added := ApplyContinuationToQuery(ContinuationFromResponse(headers), q).options[|q.options|..];
            forall name, v :: name in {TableServiceNextPartitionKey, TableServiceNextRowKey, TableServiceNextTableName} ==>
              ((name, v) in added <==> ContinuationHeader(name) in headers && headers[ContinuationHeader(name)] == v)
  {
  }

  /** A query without a `Take` clause pages by the default; one whose top
      expression is `Take(250)` pages by 250. */
  lemma PageSizeExamples(options: seq<(string, string)>, source: Expression)
    ensures GetQueryTakeCount(Query(options, OtherExpression), 1000) == Success(1000)
    ensures GetQueryTakeCount(Query(options, MethodCall("Where", [source])), 1000) == Success(1000)
    ensures GetQueryTakeCount(Query(options, MethodCall("Take", [source, Constant(Int32Value(250))])), 1000) == Success(250)
  {
  }
}
