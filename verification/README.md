# Table protocol helpers of the storage client, in Dafny

This project models the static helpers of the table protocol layer of the
storage client library (`TableUtilities`), and proves what they promise:

- **Fault translation.** `TranslateDataServiceException` turns a fault raised by
  the data-service layer into one storage error. It searches the fault's
  inner-exception chain (`FindInnerExceptionOfType`) for a request (batch)
  fault, a query fault or a client-side type mismatch, updates the request
  result (HTTP status, extended error information) as it goes, consults an
  injected error-body parser, and never throws: anything that fails inside it
  yields an error carrying the original fault's message.
- **Continuation tokens.** `ApplyContinuationToQuery` turns a three-field
  cursor (next partition key, next row key, next table name) into query
  options; `ContinuationFromResponse` reads the cursor back from a response's
  headers.
- **Page size.** `GetQueryTakeCount` reads the count of a top-level
  `Take(constant)` off a query's expression, or falls back to a default.

Files:

- `wrappers.dfy` — `Option` (a nullable reference) and `Result` (a call that returns or throws).
- `data_services.dfy` — the collaborators, reduced to what the helpers inspect:
  exceptions with kinds, messages, sources and inner exceptions; batch and query
  responses; query options and expressions.
- `table_utilities.dfy` — the helpers and their contracts.
- `translation_properties.dfy` — lemmas about the translator.
- `continuation_properties.dfy` — lemmas about the continuation and page-size helpers.

Modelling choices:

- An exception is `Exc(kind, message, source, inner)`. The C# `as T` test is
  `IsOfType`: request, query, client and web exceptions are all
  invalid-operation exceptions, as their classes derive from
  `InvalidOperationException`.
- The translator's `try`/`catch` is an `Attempt`: the guarded part either
  completes or throws, leaving the request result as far as it was updated.
  The places that throw are a null batch or query response, a null inner
  exception, and a parser failure.
- The parser is a total function value returning `Result<Option<ExtendedErrorInfo>, string>`.
  Its body argument is abstract: the batch fault's inner exception, or the
  query fault's inner message.
- "The parser is called at most once, and only on the first failing
  response's headers" is stated through `ParserCalls`, the set of
  (body, headers) pairs the translation uses. Two parsers that agree on those
  pairs give the same translation.

On three points the code does something a reader might not expect, and the model follows the code:

- In a batch where no sub-operation fails, the status left is the LAST
  sub-operation's status. The batch-level status survives only when the batch
  has no sub-operation responses (TableUtilities.cs lines 64-69).
- In that case the message is the error code of the extended error
  information the request result already held, when it held one. This comes
  from an earlier attempt. Otherwise the message is the batch fault's message
  (line 90).
- A type-mismatch fault leaves the request result untouched, including any
  prior extended error information. It does not clear that information
  (line 54).

## Model

| member | source | states |
|---|---|---|
| `TableUtilities.FindInnerExceptionOfType` | src/Microsoft.WindowsAzure.Storage/Table/Protocol/TableUtilities.cs:123-140 | the result is the first exception of the type in the inner-exception chain, starting from the argument itself; it is null exactly when the chain holds none |
| `TableUtilities.Classify` | src/Microsoft.WindowsAzure.Storage/Table/Protocol/TableUtilities.cs:44-59 | a request fault anywhere in the chain wins, and it is the first one; a query fault is chosen only when the chain has no request fault; a type mismatch is chosen only when neither is present and the first invalid-operation exception of the chain is not a web exception, has the client library's Source and carries the mismatch message |
| `TableUtilities.ContainsMeansOccurs` | src/Microsoft.WindowsAzure.Storage/Table/Protocol/TableUtilities.cs:52 | the message test holds exactly when the fragment occurs at some position of the message |
| `TableUtilities.ScanOperations` | src/Microsoft.WindowsAzure.Storage/Table/Protocol/TableUtilities.cs:63-86 | the scan stops at the first sub-operation with status 300 or more and reports its status; with no failure it reports the last sub-operation's status, or the batch status when there are none |
| `TableUtilities.TranslateDataServiceException` | src/Microsoft.WindowsAzure.Storage/Table/Protocol/TableUtilities.cs:39-116 | the fault is not handled exactly when it is neither a request, query nor type-mismatch fault, and the request result is then untouched; a type mismatch yields a non-retryable error with the outer message over the untouched request result; request and query faults always yield a retryable error that shares the updated request result |
| `TranslationProperties.ParserCalledAtMostOnce` | src/Microsoft.WindowsAzure.Storage/Table/Protocol/TableUtilities.cs:67-85 | the parser is consulted at most once, and in a batch only with the first failing sub-operation's headers |
| `TranslationProperties.ParserOnlyConsultedOnItsCalls` | src/Microsoft.WindowsAzure.Storage/Table/Protocol/TableUtilities.cs:48-110 | parsers that agree on the calls the translation makes give the same translation; unhandled faults, type mismatches and batches without a failure do not consult the parser |
| `TranslationProperties.BatchWithoutResponse` | src/Microsoft.WindowsAzure.Storage/Table/Protocol/TableUtilities.cs:59-114 | a request fault with a null response falls back to the original message over the untouched request result |
| `TranslationProperties.BatchStatus` | src/Microsoft.WindowsAzure.Storage/Table/Protocol/TableUtilities.cs:63-84 | the status left is the first failing sub-operation's, else the last sub-operation's, else the batch's, whatever the parser does |
| `TranslationProperties.BatchWithoutFailure` | src/Microsoft.WindowsAzure.Storage/Table/Protocol/TableUtilities.cs:66-91 | with no failing sub-operation the extended error information keeps its prior value, no parser call is made, and the message is the prior error code when present, else the batch fault's message |
| `TranslationProperties.BatchFirstFailure` | src/Microsoft.WindowsAzure.Storage/Table/Protocol/TableUtilities.cs:72-114 | at the first failing sub-operation the parser's result becomes the extended information and the message is its error code (null when the information has none), else the batch message; a null inner exception or a parser failure falls back with the failing status kept |
| `TranslationProperties.QueryFaultTranslation` | src/Microsoft.WindowsAzure.Storage/Table/Protocol/TableUtilities.cs:93-114 | a query fault reports its response's status; the parser's result on the inner message and response headers becomes the extended information and the message is its error code (null when the information has none), else the query message; a null response, a null inner exception or a parser failure fall back |
| `TranslationProperties.FirstFailureWinsExample` | src/Microsoft.WindowsAzure.Storage/Table/Protocol/TableUtilities.cs:63-85 | responses 200, 200, 404, 500 report 404, and the parser sees only the 404 response's headers |
| `TranslationProperties.RequestFaultTakesPrecedence` | src/Microsoft.WindowsAzure.Storage/Table/Protocol/TableUtilities.cs:44-61 | a request fault nested inside a query fault takes the batch path |
| `TranslationProperties.TypeMismatchExample` | src/Microsoft.WindowsAzure.Storage/Table/Protocol/TableUtilities.cs:50-55 | a type mismatch from the client library yields a non-retryable error with the outer message and the request result untouched |
| `TranslationProperties.WebExceptionHidesTypeMismatch` | src/Microsoft.WindowsAzure.Storage/Table/Protocol/TableUtilities.cs:50-57 | a web exception ahead of a matching type mismatch in the chain leaves the fault unhandled |
| `TableUtilities.TokenOptionsShape` | src/Microsoft.WindowsAzure.Storage/Table/Protocol/TableUtilities.cs:151-167 | a token contributes one option per non-null field, with that field's value, in the order partition key, row key, table name |
| `TableUtilities.ApplyContinuationToQuery` | src/Microsoft.WindowsAzure.Storage/Table/Protocol/TableUtilities.cs:148-170 | a null token leaves the query unchanged; otherwise the existing options and the expression are kept and exactly one option per non-null field (empty strings included) is appended, in the order partition key, row key, table name |
| `TableUtilities.ContinuationFromResponse` | src/Microsoft.WindowsAzure.Storage/Table/Protocol/TableUtilities.cs:203-232 | there is no token exactly when all three continuation headers are missing or empty; otherwise each field is its header's value verbatim, null for a missing header |
| `ContinuationProperties.ContinuationRoundTrip` | src/Microsoft.WindowsAzure.Storage/Table/Protocol/TableUtilities.cs:148-232 | a token applied to a query and echoed back as continuation headers is read back unchanged, or as no token when its fields are all null or empty |
| `ContinuationProperties.NoEmptyTokenFromResponse` | src/Microsoft.WindowsAzure.Storage/Table/Protocol/TableUtilities.cs:219-222 | a response never yields a token whose fields are all null or empty |
| `ContinuationProperties.ResponseTokenAppliedVerbatim` | src/Microsoft.WindowsAzure.Storage/Table/Protocol/TableUtilities.cs:148-232 | a token read off a response puts an option on the next query exactly for each continuation header present, with its value |
| `TableUtilities.GetQueryTakeCount` | src/Microsoft.WindowsAzure.Storage/Table/Protocol/TableUtilities.cs:181-196 | a top-level Take with a constant 32-bit argument yields that count widened to 64 bits; any other expression yields the default; a Take without a second argument, or with a null or non-int constant, throws |
| `ContinuationProperties.PageSizeExamples` | src/Microsoft.WindowsAzure.Storage/Table/Protocol/TableUtilities.cs:181-196 | with default 1000, a query without Take pages by 1000 and Take(250) pages by 250 |

## Left out

- `CopyRequestData` copies properties between two platform HTTP requests. It is transport glue with no logic beyond assignment.
- `RetryableStreamContent` is a stream content whose `Dispose` does nothing. Its point is resource lifetime, which a pure model cannot observe.
- `CopyState` is a property bag with no logic, and `TableOperators` holds three string constants.
- The parser's input is abstract. The model does not build it by formatting the inner exception, stripping the client-exception prefix, UTF-8 encoding it and wrapping it in a memory stream.
- The parser's own failure is dropped, as in the source. Only the fact that it failed is modelled.
- `RequestResult` is reduced to the two properties the translator writes: the HTTP status and the extended error information.
- The header and option names come from `TableConstants`, which is not part of this model. The values used are the library's: prefix `x-ms-continuation-` and names `NextPartitionKey`, `NextRowKey` and `NextTableName`. The proofs only need the three header names to be distinct.
- Response headers are an exact-match map. Any case-insensitive lookup of the real header dictionary is not modelled.
- The data-service layer's own checks when a query option is added (for example a repeated option name) are not modelled. `AddQueryOption` simply appends.
- ApplyContinuationToQuery: the model keeps query options in a list separate from the expression, so the expression is unchanged. The data-service library instead wraps the expression in an `AddQueryOption` call, after which the page-size probe no longer sees a top-level `Take`. Applying a token and then probing the page size is therefore not modelled.
- LINQ expressions are reduced to method calls, constants and "anything else".
- Null entries in a batch's response enumeration are not modelled.
