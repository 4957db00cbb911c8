# llm-ops-bun core, modelled in Dafny

This project models the pure and loop-based core of the llm-ops-bun backend.
It covers five parts:

- **The API-tool provider document validator** (`validateOpenapiSchema`). A user
  registers an external HTTP API by submitting a small OpenAPI-like JSON
  document: a server URL, a description, and `paths` mapping each path to HTTP
  methods, each with a description, an `operationId` and typed parameters. The
  validator either returns the checked document or throws a
  `BadRequestApiError` carrying the message the user sees.
- **Turning a validated document into stored tool rows** (`formatApiTools`),
  the rows written when a provider is updated, and the check that a provider
  name is unused within an account (`hasSameToolProviderNameInAccount`).
- **Pagination**: the request bounds and defaults, the database window
  (`calculateTakeSkip`) and the paginated response (`okPaginator`).
- **The response envelope and the error classes**: the `HttpCode` enumeration,
  the response constructors, `ApiError.toResponse`/`statusCode` and the
  request-validation hook that turns the first issue into a `BadRequestApiError`.
- **The builtin-tool catalog**: the full listing (`getAllBuiltinTools`), the
  lookup of one tool (`getSpecificTool`) and parameter formatting (`formatParams`).

Layout, one module per file: `wrappers.dfy` (Option, Result), `json.dfy`
(parsed JSON values, object-key lookup), `text.dfy` (JavaScript `trim`,
`join`), `common.dfy` (module `Common`), `exception.dfy` (modules `Exception`
and `RequestValidator`), `openapi_schema.dfy` (the validator),
`openapi_properties.dfy` (what validation guarantees, the duplicate scan's
meaning, and a serializer used to state the round trip), `api_tool_provider.dfy`,
`paginator.dfy`, `take_skip.dfy`, `builtin_tool_manager.dfy`.

Modelling choices:

- The validator's input is the outcome of `JSON.parse`: `Unparseable` (the
  parse throws) or `Parsed(v)` with `v` a JSON value. JSON objects are entry
  sequences; a key lookup sees the first entry with that key.
- The URL test inside zod's `.url()` is the parameter `isUrl`. Zod's built-in
  messages for a wrong type on a plain `z.string()` / `z.object()` are the
  parameter `typeMessage`, applied to the expected and the received kind.
- Zod reports every issue, not just the first. Object fields are checked in
  declaration order, record entries key then value, array elements in order.
  The validator joins all messages with `", "`. `.trim()` runs before
  `.nonempty()`, so the checked strings are the trimmed ones. Unknown keys are
  dropped.
- A `paths` entry keyed `__proto__` is checked like any other, and its issues
  are reported. But a zod record never sets that key on the object it builds,
  so the returned document, the duplicate-operationId scan and the tool rows
  never see it.
- `formatApiTools` loops over the typed document with nested loops that append
  to the result, as the source does. `getAllBuiltinTools` appends one entry per
  provider in its loop. The duplicate scan is a nested loop that grows a set of
  seen ids.
- The catalog JSON and the table of builtin implementations are parameters.
  An implementation's `argsSchema` is either null or a schema given by its field
  metadata.
- Numbers are unbounded integers. `Math.ceil(count / pageSize)` on integer
  inputs is integer ceiling division.

## Model

| member | source | states |
|---|---|---|
| Text.Trim | packages/lib-api-tool/lib/openapi-schema.ts:22 | the result has no JavaScript whitespace at either end and is the input with only leading and trailing whitespace removed |
| Text.TrimStart | packages/lib-api-tool/lib/openapi-schema.ts:22 | a suffix of the input that starts with no whitespace, and only whitespace was dropped |
| Text.TrimEnd | packages/lib-api-tool/lib/openapi-schema.ts:22 | a prefix of the input that ends with no whitespace, and only whitespace was dropped |
| Text.TrimRemovesEdges | packages/lib-api-tool/lib/openapi-schema.ts:22 | the trimmed string is one contiguous slice of the input, and everything outside the slice is whitespace |
| Text.TrimFixedPoint | packages/lib-api-tool/lib/openapi-schema.ts:26-29 | trimming leaves a string unchanged exactly when it has no whitespace at either end |
| Text.TrimIdempotent | packages/lib-api-tool/lib/openapi-schema.ts:42-45 | trimming twice equals trimming once |
| Text.Join | packages/lib-api-tool/lib/openapi-schema.ts:79 | no parts give "", one part gives itself, more parts start with the first part and the separator; the length is the parts' lengths plus one separator between each two |
| Text.JoinAppend | packages/lib-api-tool/lib/openapi-schema.ts:79 | appending a part to a non-empty list appends the separator and the part to the joined text; appended to no parts it is the whole text |
| Common.ParseCode | packages/lib-api-schema/lib/common.ts:9-16 | a string names a code exactly when it is one of the six code strings, and parsing inverts the code's string value |
| Common.CodeValues | packages/lib-api-schema/lib/common.ts:9-16 | the code strings are exactly '200', '400', '401', '403', '404', '500', one per member, pairwise distinct |
| Common.OkResponse | packages/lib-api-schema/lib/common.ts:45-49 | code OK, message 'ok', the data unchanged |
| Common.OkMessage | packages/lib-api-schema/lib/common.ts:51-55 | code OK, the given message, null data |
| Common.BadRequestResponse | packages/lib-api-schema/lib/common.ts:57-61 | code 400 with the given message and null data |
| Common.UnauthorizedResponse | packages/lib-api-schema/lib/common.ts:63-67 | code 401 with the given message and null data |
| Common.ForbiddenResponse | packages/lib-api-schema/lib/common.ts:69-73 | code 403 with the given message and null data |
| Common.NotFoundResponse | packages/lib-api-schema/lib/common.ts:75-79 | code 404 with the given message and null data |
| Common.InternalServerErrorResponse | packages/lib-api-schema/lib/common.ts:81-85 | code 500 with the given message and null data |
| Common.MessageResponsesDistinguishable | packages/lib-api-schema/lib/common.ts:51-85 | two responses of one constructor are equal only for equal messages; responses of different constructors always differ; the message is carried unchanged |
| Exception.ApiError.Code | packages/lib-api-schema/lib/exception.ts:30-53 | each subclass carries its fixed code: 400 for bad request, 404 for not found, 401 for unauthorized |
| Exception.ApiError.ToResponse | packages/lib-api-schema/lib/exception.ts:17-23 | the response is the error's code and message with null data |
| Exception.ApiError.StatusCode | packages/lib-api-schema/lib/exception.ts:25-27 | the number is one of 200, 400, 401, 403, 404, 500 and is the decimal value of the code string, mapping back to the same code |
| Exception.ParseDecimal | packages/lib-api-schema/lib/exception.ts:25-27 | the decimal value of a digit string is below 10 to the power of its length |
| Exception.StatusOf | packages/lib-api-schema/lib/exception.ts:25-27 | a number identifies a code exactly when it is 200, 400, 401, 403, 404 or 500 |
| Exception.ThreeDigits | packages/lib-api-schema/lib/exception.ts:25-27 | a three-digit string parses to hundreds, tens and units |
| Exception.CodeNumberIsStatus | packages/lib-api-schema/lib/exception.ts:25-27 | parsing each code's three-digit string gives the number that identifies that code |
| Exception.StatusCodeInjective | packages/lib-api-schema/lib/exception.ts:25-27 | two errors with the same status number have the same code |
| Exception.SubclassResponses | packages/lib-api-schema/lib/exception.ts:30-58 | each subclass's response equals the matching constructor (badRequest, notFound, unauthorized) applied to its message |
| RequestValidator.ValidationHook | packages/lib-api-schema/lib/common.ts:94-99 | the hook throws exactly when parsing failed, and then throws a bad-request error with the first issue's message |
| Json.KindOf | packages/lib-api-tool/lib/openapi-schema.ts:40-66 | the received type reported for a field is undefined, object, string or array exactly when the value is missing or of that kind |
| Json.LookupFirst | packages/lib-api-tool/lib/openapi-schema.ts:21-34 | reading a field gives the value of the first entry with that key |
| Json.LookupMissing | packages/lib-api-tool/lib/openapi-schema.ts:21-34 | a key no entry carries reads as missing |
| OpenapiSchema.ParseMethod | packages/lib-api-tool/lib/openapi-schema.ts:49-51 | a key is accepted exactly when it is one of the five methods, and the accepted method's name is the key |
| OpenapiSchema.ParseLocation | packages/lib-api-tool/lib/openapi-schema.ts:23-25 | an `in` value is accepted exactly when it is one of the five locations, named by it |
| OpenapiSchema.ParseParamType | packages/lib-api-tool/lib/openapi-schema.ts:31-33 | a `type` value is accepted exactly when it is one of the four types, named by it |
| OpenapiSchema.NamesRoundTrip | packages/lib-api-tool/lib/openapi-schema.ts:5-18 | every method, location and type parses back from its name |
| OpenapiSchema.CheckEach | packages/lib-api-tool/lib/openapi-schema.ts:20-21 | an array or record is accepted exactly when every element is, the values are element-wise, and the issues are those of the rejected elements in order |
| OpenapiSchema.NonBlankString | packages/lib-api-tool/lib/openapi-schema.ts:22 | accepted exactly for a string that is not blank after trimming; the value is the trimmed string; a blank string gives the field's message |
| OpenapiSchema.LocationField | packages/lib-api-tool/lib/openapi-schema.ts:23-25 | accepted exactly for one of the five location names, naming the result; anything else, wrong types included, gives the `in` message |
| OpenapiSchema.ParamTypeField | packages/lib-api-tool/lib/openapi-schema.ts:31-33 | accepted exactly for one of the four type names, naming the result; anything else, wrong types included, gives the `type` message |
| OpenapiSchema.BooleanField | packages/lib-api-tool/lib/openapi-schema.ts:30 | accepted exactly for a boolean, keeping its value; anything else, missing or of another type, is rejected with exactly the field's message |
| OpenapiSchema.ServerField | packages/lib-api-tool/lib/openapi-schema.ts:41 | accepted exactly for a string that is a URL, kept untrimmed; a non-URL string gives the server message |
| OpenapiSchema.ParameterFields | packages/lib-api-tool/lib/openapi-schema.ts:21-34 | the parameter object passes exactly when each of its five field checks passes; it then holds the trimmed name and description, the named location and type, and the boolean; otherwise its issues are the five fields' issues in declaration order |
| OpenapiSchema.CheckParameter | packages/lib-api-tool/lib/openapi-schema.ts:21-34 | only an object can pass; anything else is rejected with a single object-expected type error |
| OpenapiSchema.CheckParameters | packages/lib-api-tool/lib/openapi-schema.ts:20-36 | an accepted `parameters` is an array with one parameter per element; a missing or non-array value gives exactly the `parameters` message |
| OpenapiSchema.OperationFields | packages/lib-api-tool/lib/openapi-schema.ts:52-62 | an operation passes exactly when description, operationId and parameters pass; it then holds the two trimmed strings and one parameter per array element; otherwise the issues of the three fields in order |
| OpenapiSchema.CheckOperation | packages/lib-api-tool/lib/openapi-schema.ts:52-62 | only an object can pass; anything else is rejected with a single object-expected type error |
| OpenapiSchema.CheckMethodEntry | packages/lib-api-tool/lib/openapi-schema.ts:48-62 | a method entry passes exactly when its key is one of the five methods and its operation passes; the result names the key's method and holds the checked operation; an unknown key puts the method message first among the issues |
| OpenapiSchema.CheckPathEntry | packages/lib-api-tool/lib/openapi-schema.ts:46-65 | an accepted path entry is an object, keeps its path key and has one method per entry; a non-object gives a single object-expected type error |
| OpenapiSchema.CheckPaths | packages/lib-api-tool/lib/openapi-schema.ts:46-65 | `paths` passes exactly when it is an object whose every entry passes; the record built never has more entries than the input; a failing record reports its entries' issues; a missing or non-object value gives exactly the `paths` message |
| OpenapiSchema.OwnEntriesMembers | packages/lib-api-tool/lib/openapi-schema.ts:46-65 | an entry is in the built record exactly when it is a checked input entry whose key is not `__proto__` |
| OpenapiSchema.OwnEntriesNoProto | packages/lib-api-tool/lib/openapi-schema.ts:46-65 | the built record has no `__proto__` key |
| OpenapiSchema.OwnEntriesUnchanged | packages/lib-api-tool/lib/openapi-schema.ts:46-65 | without a `__proto__` key no checked entry is dropped |
| OpenapiSchema.DocumentFields | packages/lib-api-tool/lib/openapi-schema.ts:40-66 | a document passes exactly when server, description and paths pass; it then keeps the URL server untrimmed, trims the description and has at most one path per entry; otherwise the three fields' issues in order |
| OpenapiSchema.CheckDocument | packages/lib-api-tool/lib/openapi-schema.ts:40-66 | only an object can be a document; anything else is rejected with a single object-expected type error |
| OpenapiSchema.StructuralMessage | packages/lib-api-tool/lib/openapi-schema.ts:79 | one issue gives its own message; several give the first message, ", ", then the message of the remaining issues |
| OpenapiSchema.MethodIds | packages/lib-api-tool/lib/openapi-schema.ts:85 | one id per method entry, in order |
| OpenapiSchema.MethodIdsAt | packages/lib-api-tool/lib/openapi-schema.ts:85 | the ids of a path are its methods' operationIds, one for one and in order |
| OpenapiSchema.FindDuplicateOperationId | packages/lib-api-tool/lib/openapi-schema.ts:83-95 | the nested scan with a set of seen ids stops at exactly the first operationId that repeats an earlier one, or finds none |
| OpenapiSchema.Validate | packages/lib-api-tool/lib/openapi-schema.ts:70-106 | every failure is a bad-request error; text that does not parse gives the generic format message |
| OpenapiSchema.ValidateOpenapiSchema | packages/lib-api-tool/lib/openapi-schema.ts:70-106 | the structural pass followed by the scan returns the same result as the specification `Validate` |
| OpenapiProperties.ParameterAccepted | packages/lib-api-tool/lib/openapi-schema.ts:20-36 | a parameter is accepted exactly when it is an object whose five fields each pass their rule |
| OpenapiProperties.ParameterValues | packages/lib-api-tool/lib/openapi-schema.ts:20-36 | an accepted parameter holds the trimmed name and description, the parsed location and type, and the boolean |
| OpenapiProperties.OperationValues | packages/lib-api-tool/lib/openapi-schema.ts:52-62 | an accepted operation holds the trimmed description and operationId of its input and, element by element, the checked parameters of its array |
| OpenapiProperties.PathEntryValues | packages/lib-api-tool/lib/openapi-schema.ts:46-65 | an accepted path entry keeps its key and, entry by entry, the method named by each key with that entry's checked operation |
| OpenapiProperties.DocumentValues | packages/lib-api-tool/lib/openapi-schema.ts:40-66 | an accepted document holds the input's server string, its trimmed description and, in input order, the checked value of every `paths` entry except one keyed `__proto__` |
| OpenapiProperties.DocumentPaths | packages/lib-api-tool/lib/openapi-schema.ts:46-66 | the paths of an accepted document are the entries of its accepted `paths` record that zod sets as own keys |
| OpenapiProperties.ProtoPathIgnored | packages/lib-api-tool/lib/openapi-schema.ts:46-65 | a `__proto__` path that passes its checks leaves the checked `paths` exactly as if it were absent |
| OpenapiProperties.ValidateValues | packages/lib-api-tool/lib/openapi-schema.ts:70-97 | the document the validator returns is the structural pass's value: the input's server, trimmed description, and the checked `paths` entries in input order without a `__proto__` one |
| OpenapiProperties.ParameterAcceptedClean | packages/lib-api-tool/lib/openapi-schema.ts:20-36 | an accepted parameter has trimmed, non-empty name and description |
| OpenapiProperties.OperationAcceptedClean | packages/lib-api-tool/lib/openapi-schema.ts:52-62 | an accepted operation has a trimmed non-empty description and operationId and clean parameters |
| OpenapiProperties.PathEntryAcceptedClean | packages/lib-api-tool/lib/openapi-schema.ts:46-65 | every operation of an accepted path entry is clean |
| OpenapiProperties.DocumentAcceptedClean | packages/lib-api-tool/lib/openapi-schema.ts:40-66 | an accepted document has a URL server, is clean throughout and has no `__proto__` path |
| OpenapiProperties.OwnEntriesKeepClean | packages/lib-api-tool/lib/openapi-schema.ts:46-65 | dropping the `__proto__` entry keeps every remaining path clean |
| OpenapiProperties.ValidateSound | packages/lib-api-tool/lib/openapi-schema.ts:70-97 | a document the validator returns has a URL server, clean fields, no `__proto__` path and pairwise distinct operationIds |
| OpenapiProperties.FirstRepeatFromNone | packages/lib-api-tool/lib/openapi-schema.ts:83-95 | the scan finds nothing exactly when the ids are distinct and none was already seen |
| OpenapiProperties.FirstRepeatNoneIffDistinct | packages/lib-api-tool/lib/openapi-schema.ts:83-95 | starting from an empty set, the scan finds nothing exactly when all ids are distinct |
| OpenapiProperties.FirstRepeatFromSome | packages/lib-api-tool/lib/openapi-schema.ts:83-95 | a reported id sits at some position where it was already seen or occurs earlier, the ids before it are distinct, and none of them was already seen |
| OpenapiProperties.FirstRepeatIsFirst | packages/lib-api-tool/lib/openapi-schema.ts:84-93 | the reported id is at the first position whose id occurred before it |
| OpenapiProperties.DuplicateOutcome | packages/lib-api-tool/lib/openapi-schema.ts:82-97 | a structurally valid document is returned exactly when its ids are distinct, otherwise the error names the first repeated id |
| OpenapiProperties.StructuralFailureFirst | packages/lib-api-tool/lib/openapi-schema.ts:72-81 | a structural failure reports all issue messages joined with ", ", before any duplicate check |
| OpenapiProperties.UnknownMethodRejected | packages/lib-api-tool/lib/openapi-schema.ts:48-51 | a path with a method key outside the five makes the document rejected, the method message is among its issues, and the validator fails with those issues joined |
| OpenapiProperties.MethodIssueInPath | packages/lib-api-tool/lib/openapi-schema.ts:48-51 | an unknown method key rejects its path entry with the method message among the issues |
| OpenapiProperties.PathsIssueInDocument | packages/lib-api-tool/lib/openapi-schema.ts:46-65 | any issue of `paths` rejects the whole document and is among its issues |
| OpenapiProperties.NonUrlServerRejected | packages/lib-api-tool/lib/openapi-schema.ts:41 | a non-URL server string is rejected, its issue comes first, and the thrown message starts with the server message |
| OpenapiProperties.UnparseableRejected | packages/lib-api-tool/lib/openapi-schema.ts:98-105 | unparseable text gives a bad-request error with message 'openapi schema 格式错误' |
| OpenapiProperties.NonBlankRoundTrip | packages/lib-api-tool/lib/openapi-schema.ts:22 | a trimmed non-empty string passes a trimmed non-empty field unchanged |
| OpenapiProperties.EnumRoundTrip | packages/lib-api-tool/lib/openapi-schema.ts:23-33 | the name of each location and type passes the `in` and `type` checks back to itself |
| OpenapiProperties.ParameterFieldsRoundTrip | packages/lib-api-tool/lib/openapi-schema.ts:21-34 | the five serialized fields of a clean parameter check back to the same parameter |
| OpenapiProperties.ParameterRoundTrip | packages/lib-api-tool/lib/openapi-schema.ts:20-36 | serializing a clean parameter and checking it gives the same parameter |
| OpenapiProperties.ParametersRoundTrip | packages/lib-api-tool/lib/openapi-schema.ts:61 | the serialized parameter array of a clean operation checks back to the same parameters |
| OpenapiProperties.OperationRoundTrip | packages/lib-api-tool/lib/openapi-schema.ts:52-62 | serializing a clean operation and checking it gives the same operation |
| OpenapiProperties.MethodsRoundTrip | packages/lib-api-tool/lib/openapi-schema.ts:46-63 | a serialized path entry with clean operations checks back to the same entry |
| OpenapiProperties.PathsRoundTrip | packages/lib-api-tool/lib/openapi-schema.ts:46-65 | the serialized `paths` of a clean document without a `__proto__` path check back to the same paths |
| OpenapiProperties.DocumentRoundTrip | packages/lib-api-tool/lib/openapi-schema.ts:40-66 | the structural pass gives back a clean document with a URL server and no `__proto__` path from its serialization |
| OpenapiProperties.RoundTrip | packages/lib-api-tool/lib/openapi-schema.ts:70-97 | a conforming document, serialized and validated, comes back unchanged |
| OpenapiProperties.RevalidateStable | packages/lib-api-tool/lib/openapi-schema.ts:70-97 | validating the serialization of a validated document returns that document again |
| ApiToolProvider.PathTools | packages/lib-prisma/lib/api-tool-provider.ts:37-50 | one row per method entry of a path, in order |
| ApiToolProvider.PathToolsAt | packages/lib-prisma/lib/api-tool-provider.ts:37-50 | the row at position j of a path is the row built from its j-th method entry |
| ApiToolProvider.ToolsConcat | packages/lib-prisma/lib/api-tool-provider.ts:35-51 | the rows of two runs of paths are the rows of the first followed by those of the second |
| ApiToolProvider.FormatApiTools | packages/lib-prisma/lib/api-tool-provider.ts:25-54 | the nested loops produce exactly the rows of every path in order, each path's methods in order |
| ApiToolProvider.ToolsMatchEntries | packages/lib-prisma/lib/api-tool-provider.ts:35-51 | there is exactly one row per (path, method) entry, and the row names are the operationIds in scan order |
| ApiToolProvider.ToolAt | packages/lib-prisma/lib/api-tool-provider.ts:42-49 | the row for method j of path i follows the rows of earlier entries and carries the account, operationId, description, server+path URL, method name and parameters |
| ApiToolProvider.ValidatedToolNamesDistinct | packages/lib-prisma/lib/api-tool-provider.ts:44 | for a validated document, the row names are pairwise distinct |
| ApiToolProvider.WithProviderId | packages/lib-prisma/lib/api-tool-provider.ts:175-178 | every row gets the provider id, with nothing else changed and the order kept |
| ApiToolProvider.UpdateRowKeysUnique | packages/lib-prisma/lib/api-tool.ts:10-13 | the rows written for a validated document have distinct (providerId, name) keys |
| ApiToolProvider.CountMatching | packages/lib-prisma/lib/api-tool-provider.ts:19-21 | the count is positive exactly when some provider matches the filter |
| ApiToolProvider.HasSameToolProviderNameInAccount | packages/lib-prisma/lib/api-tool-provider.ts:5-23 | true exactly when some provider in the account has the name and is not the excluded one; an empty self id excludes nothing |
| ApiToolProvider.SelfExcluded | packages/lib-prisma/lib/api-tool-provider.ts:14-18 | a non-empty self id gives the same answer as asking about all other providers with no exclusion |
| ApiToolProvider.OthersKeeps | packages/lib-prisma/lib/api-tool-provider.ts:14-18 | every provider whose id is not the excluded one survives the exclusion |
| ApiToolProvider.OthersOrigin | packages/lib-prisma/lib/api-tool-provider.ts:14-18 | every surviving provider is one of the input with an id other than the excluded one |
| Paginator.ParsePaginatorReq | packages/lib-api-schema/lib/paginator.ts:3-20 | accepted exactly when each field is absent or an integer in range (page 1..100, size 1..50); absent fields become 1 and 20, present ones are kept |
| Paginator.ParsePaginatorSearchReq | packages/lib-api-schema/lib/paginator.ts:22-29 | the page fields as above, plus a search word that is optional but must be a string when present and is kept |
| Paginator.ParseReqRoundTrip | packages/lib-api-schema/lib/paginator.ts:3-20 | explicit integer fields pass through unchanged exactly when they are in range |
| Paginator.ParseSearchReqRoundTrip | packages/lib-api-schema/lib/paginator.ts:22-29 | a valid search request, with or without a word, passes through unchanged |
| Paginator.BoundedInt | packages/lib-api-schema/lib/paginator.ts:3-20 | a field is accepted exactly when it is absent or an integer from 1 to its bound; absent gives the default, an integer is kept |
| Paginator.ParseReqExamples | packages/lib-api-schema/lib/paginator.ts:3-20 | the empty request gives (1, 20); page -1, page 0, page 101, size 51 and size 100 are rejected |
| Paginator.CeilDiv | packages/lib-api-schema/lib/paginator.ts:89 | the page count is enough pages for every record, and one fewer would not be |
| Paginator.OkPaginator | packages/lib-api-schema/lib/paginator.ts:75-93 | code OK, message 'ok', the list unchanged, the request's page and size echoed, totalRecord the count, totalPage its ceiling |
| Paginator.CeilDivUnique | packages/lib-api-schema/lib/paginator.ts:89 | any number with the two ceiling bounds is the page count |
| Paginator.TotalPageExamples | packages/lib-api-schema/lib/paginator.ts:89 | 25, 30 and 31 records of 10 per page give 3, 3 and 4 pages |
| Paginator.TotalPagePositiveIff | packages/lib-api-schema/lib/paginator.ts:89 | there is at least one page exactly when there is at least one record |
| Paginator.ResponseConformsIffNonEmpty | packages/lib-api-schema/lib/paginator.ts:56-65 | the response fits the declared all-positive page schema exactly when the count is at least 1 |
| TakeSkip.FirstPage | packages/lib-common/lib/paginator.ts:3-8 | page 1 has skip 0; (1, 10) gives take 10, skip 0 |
| TakeSkip.CalculateTakeSkip | packages/lib-common/lib/paginator.ts:3-8 | take is the page size, and skip plus take reaches exactly page times page size, the end of the requested page |
| TakeSkip.SkipIsWholePages | packages/lib-common/lib/paginator.ts:5-6 | take is the page size, and skip is non-negative and a whole number of pages (page - 1 of them) |
| TakeSkip.Adjacent | packages/lib-common/lib/paginator.ts:5-6 | the next page starts exactly where this one ends |
| TakeSkip.WindowMembership | packages/lib-common/lib/paginator.ts:3-8 | record i is in page p's window exactly when p = i / pageSize + 1, so the windows partition the records |
| TakeSkip.LastPageWindow | packages/lib-common/lib/paginator.ts:3-8 | the last page reported by the response holds the last record, and the page after it starts past the end |
| BuiltinToolManager.OrElse | packages/lib-builtin-tool/lib/builtin-tool-manager.ts:39-42 | the fallback replaces null and missing values only |
| BuiltinToolManager.FormatParam | packages/lib-builtin-tool/lib/builtin-tool-manager.ts:37-43 | the four fields are always present afterwards, and every other field is kept unchanged |
| BuiltinToolManager.FormatParams | packages/lib-builtin-tool/lib/builtin-tool-manager.ts:36-44 | same length and order, each entry formatted |
| BuiltinToolManager.FormatParamFields | packages/lib-builtin-tool/lib/builtin-tool-manager.ts:39-42 | default, min and max become null, and help becomes '', only when they are null or missing; otherwise they are kept |
| BuiltinToolManager.FormatParamIdempotent | packages/lib-builtin-tool/lib/builtin-tool-manager.ts:37-43 | formatting one parameter twice equals formatting it once |
| BuiltinToolManager.FormatParamsIdempotent | packages/lib-builtin-tool/lib/builtin-tool-manager.ts:36-44 | formatting a formatted list changes nothing |
| BuiltinToolManager.Inputs | packages/lib-builtin-tool/lib/builtin-tool-manager.ts:56-64 | no inputs when argsSchema is null, otherwise the schema's fields |
| BuiltinToolManager.ToolEntryOf | packages/lib-builtin-tool/lib/builtin-tool-manager.ts:52-71 | a tool's entry keeps its name, label and description; its inputs are none when the implementation has no argsSchema (as for current-time.ts:17) and the schema's fields otherwise; its params are the tool's params, each formatted, in order and with the four filled keys |
| BuiltinToolManager.ProviderEntryOf | packages/lib-builtin-tool/lib/builtin-tool-manager.ts:49-72 | createdAt is created_at times 1000 and the tools are mapped one for one in order |
| BuiltinToolManager.GetAllBuiltinTools | packages/lib-builtin-tool/lib/builtin-tool-manager.ts:46-75 | one entry per catalog provider, in catalog order, each the provider's listing entry |
| BuiltinToolManager.ProviderEntryFields | packages/lib-builtin-tool/lib/builtin-tool-manager.ts:49-72 | a listing entry keeps the provider's fields and each tool's name, label, description, with params formatted |
| BuiltinToolManager.FindProvider | packages/lib-builtin-tool/lib/builtin-tool-manager.ts:78 | the index of the first provider with the name, or none when no provider has it |
| BuiltinToolManager.FindTool | packages/lib-builtin-tool/lib/builtin-tool-manager.ts:90 | the index of the first tool with the name, or none when no tool has it |
| BuiltinToolManager.GetSpecificTool | packages/lib-builtin-tool/lib/builtin-tool-manager.ts:77-107 | a result exists exactly when the first provider with the name has a tool with the name |
| BuiltinToolManager.MissingProvider | packages/lib-builtin-tool/lib/builtin-tool-manager.ts:78-81 | no provider with the name gives null |
| BuiltinToolManager.MissingTool | packages/lib-builtin-tool/lib/builtin-tool-manager.ts:90-93 | the first provider with the name lacking the tool gives null |
| BuiltinToolManager.SpecificToolHit | packages/lib-builtin-tool/lib/builtin-tool-manager.ts:82-106 | a hit gives the first provider's five summary fields and the first matching tool, as the full listing shows it |

## Left out

- `JSON.parse`: text parsing is not modelled; the validator starts from a parsed value or from `Unparseable`.
- URL syntax: whether a string is a URL is the parameter `isUrl`.
- Zod's built-in messages for a wrong type on a plain string or object field: the parameter `typeMessage`.
- Duplicate keys and key order inside one JSON object follow `JSON.parse` and JavaScript property order (integer-like keys first); the model keeps the entries in the order given and looks up the first entry with a key.
- `getSchemaMetadata` reads zod internals (`_def.typeName`, `isOptional()`); a schema is given by its already-extracted field metadata.
- `getBuiltinToolCategories` returns a static JSON file and has no logic.
- Fields of catalog providers and tools other than the ones read or returned here are copied by the object spread and not represented.
- `BuiltinToolManager.GetAllBuiltinTools`, `BuiltinToolManager.GetSpecificTool`: a catalog tool with no implementation makes the source throw a TypeError; the model requires that every tool reached has an implementation.
- `ApiToolProvider.FormatApiTools`: the `if (!methodObj) continue` branch is not modelled, because in a validated document every method entry holds an operation object, so the branch never runs.
- `RequestValidator.ValidationHook`: a failed parse is assumed to carry at least one issue, which zod guarantees; the issue texts themselves come from the schema.
- `Paginator.ParsePaginatorReq`, `Paginator.ParsePaginatorSearchReq`: model acceptance and the parsed value only, not the issue list of a rejected request.
- `Paginator.OkPaginator`: the response for zero records (totalPage 0, totalRecord 0) is built as the source builds it, although the declared response schema requires both to be positive; `Paginator.ResponseConformsIffNonEmpty` records this.
- Logging: every `logger` call is a side effect with no effect on results.
- Database access through Prisma (create, find, count, update, delete, transactions): only the rows built and the filter behind the name-clash count are modelled.
- HTTP routing, middleware and the declarative response schemas.
- The builtin tool implementations (weather, IP lookup, image generation, search, clock): they call the network or read the clock.
- Object-storage helpers: they call an external service, or use the clock and a random generator.
