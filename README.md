# hubshift core, modelled in Dafny

This project models the shared API layer of the hubshift monorepo and the
small pieces of the gateway and web app built on it:

- the closed set of error codes and their HTTP status table;
- the `ApiError` family of errors;
- the success-envelope response builders and the pagination arithmetic;
- the terminal error handler, with its classification chain, redaction and
  stack-trace rules, and the not-found handler;
- the request-validation middleware and the standalone validation helpers;
- the shared zod schemas, as explicit issue generators that follow zod 3's
  rules: which checks abort, issue order, messages, codes and paths;
- the API gateway's proxy helpers, its rate-limit policy, its middleware
  order and its port check;
- the web app's route table and `getRoute`, and its two zustand stores.

The modules are:

| module | file | models |
|---|---|---|
| `Wrappers`, `Strings`, `Json` | `wrappers.dfy`, `strings.dfy`, `json.dfy` | Option/Result; the JavaScript string built-ins the code relies on (`` `${n}` ``, `join`, `split`, `Number` on digit strings); JSON-like values and JavaScript truthiness |
| `ErrorTypes` | `error_types.dfy` | `ErrorCode`, `HTTP_STATUS_CODES`, the `ErrorDetails` / `ApiErrorResponse` shapes |
| `ApiErrors` | `api_error.dfy` | `ApiError`, its `toJSON`, and the seven subclasses |
| `Zod`, `Exceptions` | `zod.dfy`, `exceptions.dfy` | A zod issue and its conversion to `ErrorDetails`; what can be thrown (an `ApiError`, a `ZodError`, any other `Error`) |
| `Transport` | `transport.dfy` | The express response, `next` and the logger, as one object that records an ordered event log and `headersSent` |
| `Responses` | `responses.dfy` | `ResponseHelper`, `createPaginationMeta` and the `send*` shorthands |
| `ErrorHandler` | `error_handler.dfy` | `createErrorHandler`, the handler itself and `notFoundHandler` |
| `Validation` | `validation.dfy` | `validate`, `formatZodErrors`, `validateValue` and `safeValidate`, over schemas given as total functions |
| `Schemas` | `schemas.dfy` | The password, phone, id, pagination, search, upload, user and password-form schemas |
| `Proxy` | `proxy.dfy` | `getServiceUrl` (both the TypeScript source and the compiled JavaScript copy), the header decorator and the proxy error handler |
| `Gateway` | `gateway.dfy` | The gateway entry point: the environment check, the registered layer stack, and the rate limiter's `max` and `keyGenerator` |
| `Routes` | `routes.dfy` | `ROUTES` and `getRoute` |
| `SearchStore`, `LayoutStore` | `search_store.dfy`, `layout_store.dfy` | The two zustand stores |

Some things are parameters of the model rather than part of it:

- the clock (`new Date().toISOString()`) is the `now` parameter;
- `NODE_ENV`, `AUTH_SERVICE_URL` and `API_GATEWAY_PORT` are parameters;
- the request's method, path, IP, `host` header, `x-request-id` header and
  `req.user` are parameters, and so are whether a body parser rejects its body
  and whether its client is over the rate limit;
- express-rate-limit's `ipKeyGenerator` is a function parameter;
- a zod schema given to the validation middleware is a total function from a
  value to "parsed value" or "thrown error".

State that the source updates in place is modelled as a class:

- the express exchange;
- the request object whose sections `validate` replaces;
- the proxy request options the decorator mutates;
- the express application's layer stack;
- the two stores.

Each such method's postcondition ties the new state to a pure function of the
old state, and lemmas state the properties of that function.

Where the two copies of `services/api-gateway/src/utils/proxy` disagree, both
are modelled:

- `Proxy.GetServiceUrl` is the TypeScript source. In production it returns
  `AUTH_SERVICE_URL` for every service.
- `Proxy.GetServiceUrlCompiled` is the compiled JavaScript copy. In
  production it returns `http://<service>.kevin-luong.com`.

The gateway entry point imports `./utils/proxy.js`, and `Gateway.BuildGateway`
uses the TypeScript version, which is the one that module compiles from.

## Model

| member | source | states |
|---|---|---|
| ErrorTypes.AllCodes | packages/api/src/errors/types.ts:1-26 | The enum has exactly 19 members, pairwise distinct |
| ErrorTypes.AllCodesComplete | packages/api/src/errors/types.ts:1-26 | Every code is one of the 19 listed |
| ErrorTypes.ParseCodeName | packages/api/src/errors/types.ts:1-26 | A wire name is read back only as a member that carries exactly that name |
| ErrorTypes.CodeNameRoundTrip | packages/api/src/errors/types.ts:1-26 | Every member's wire string reads back as that member |
| ErrorTypes.CodeNamesDistinct | packages/api/src/errors/types.ts:1-26 | Two members share a wire string exactly when they are the same member |
| ErrorTypes.HttpStatus | packages/api/src/errors/types.ts:47-67 | The table is total; generic client codes map into 4xx, generic server codes into 5xx, and every status is in 400..599 |
| ErrorTypes.CodeGroupsPartition | packages/api/src/errors/types.ts:47-67 | The client, server and domain groups of the table partition the codes |
| ErrorTypes.GenericCounterpart | packages/api/src/errors/types.ts:61-66 | Each domain code has a generic code it refines, which is not itself a domain code |
| ErrorTypes.DomainCodeStatus | packages/api/src/errors/types.ts:61-66 | Each domain code answers with the status of its generic counterpart |
| ErrorTypes.StatusCollision | packages/api/src/errors/types.ts:47-67 | Two distinct codes share a status exactly when one is the domain refinement of the other |
| ErrorTypes.SharedStatuses | packages/api/src/errors/types.ts:47-67 | The table is not injective: exactly six statuses are shared, each by two codes |
| ApiErrors.NewApiError | packages/api/src/errors/ApiError.ts:10-24 | The status comes from the table for the code; code, message, details and timestamp are as given; the error is operational unless `false` is passed |
| ApiErrors.ToJson | packages/api/src/errors/ApiError.ts:31-41 | A failure envelope with the error's code, message, details and timestamp, and no path, request id or stack |
| ApiErrors.ValidationError | packages/api/src/errors/ApiError.ts:45-49 | VALIDATION_ERROR, 400, operational, default message "Validation failed", details as given |
| ApiErrors.AuthenticationError | packages/api/src/errors/ApiError.ts:51-55 | AUTHENTICATION_ERROR, 401, default message "Authentication required" |
| ApiErrors.AuthorizationError | packages/api/src/errors/ApiError.ts:57-61 | AUTHORIZATION_ERROR, 403, default message "Insufficient permissions" |
| ApiErrors.NotFoundError | packages/api/src/errors/ApiError.ts:63-67 | RESOURCE_NOT_FOUND, 404, message "<resource> not found" with "Resource" by default |
| ApiErrors.ConflictError | packages/api/src/errors/ApiError.ts:69-73 | DUPLICATE_RESOURCE, 409, default message "Resource already exists" |
| ApiErrors.ExternalServiceError | packages/api/src/errors/ApiError.ts:75-82 | EXTERNAL_SERVICE_ERROR, 502; a non-empty message is kept, an absent or empty one becomes "External service <service> is unavailable"; the message is never empty |
| ApiErrors.RateLimitError | packages/api/src/errors/ApiError.ts:84-88 | TOO_MANY_REQUESTS, 429, default message "Too many requests" |
| Zod.ReceivedValue | packages/api/src/middleware/errorHandler.ts:43 | `received \|\| undefined` keeps the received value exactly when it is truthy |
| Zod.IssueDetail | packages/api/src/middleware/errorHandler.ts:39-44 | A zod issue becomes a field issue with the given field, the issue's message and code, and the truthy received value |
| Zod.ZodDetails | packages/api/src/middleware/errorHandler.ts:39-44 | One field issue per zod issue, in order, each named by its dot-joined path |
| Zod.JoinPathSplits | packages/api/src/middleware/errorHandler.ts:40 | When no path segment contains a dot, splitting the field name on "." gives the path's segments back |
| Responses.CeilDiv | packages/api/src/responses/helpers.ts:146 | `Math.ceil(a / b)` for a positive divisor is the least count of `b`s that covers `a` |
| Responses.CreatePaginationMeta | packages/api/src/responses/helpers.ts:141-156 | Page, limit and total are kept; `totalPages` covers the total and one page less does not; `hasNext` iff page < totalPages; `hasPrev` iff page > 1 |
| Responses.TotalPagesIsLeast | packages/api/src/responses/helpers.ts:146 | Any page count that holds all items is at least `totalPages` |
| Responses.HasNextIffMoreItems | packages/api/src/responses/helpers.ts:146-153 | There is a next page exactly when page * limit is less than the total |
| Responses.EmptyCollection | packages/api/src/responses/helpers.ts:146-153 | With no items there are no pages, and no page from 0 on has a next page |
| Responses.TotalPagesAtMostTotal | packages/api/src/responses/helpers.ts:146 | There are never more pages than items |
| Responses.SinglePage | packages/api/src/responses/helpers.ts:146 | A non-empty collection of at most `limit` items has exactly one page |
| Responses.MessageOrDefault | packages/api/src/responses/helpers.ts:69 | `message \|\| fallback`: a non-empty message is kept, an absent or empty one takes the fallback, and the result is never empty |
| Responses.ResponseHelper.CreateMeta | packages/api/src/responses/helpers.ts:21-26 | The meta block carries `now` and the helper's request id |
| Responses.ResponseHelper.Success | packages/api/src/responses/helpers.ts:31-40 | Status 200 unless one is given; a success envelope with the data and message as passed and no pagination |
| Responses.ResponseHelper.Paginated | packages/api/src/responses/helpers.ts:45-60 | Status 200 unless one is given; the items as data and the pagination block as given |
| Responses.ResponseHelper.Created | packages/api/src/responses/helpers.ts:65-77 | Status 201; the envelope carries the id, the data and a message that is never empty |
| Responses.ResponseHelper.Updated | packages/api/src/responses/helpers.ts:82-93 | Status 200; the data and a never-empty message that defaults to "Resource updated successfully" |
| Responses.ResponseHelper.Deleted | packages/api/src/responses/helpers.ts:98-109 | Status 200; the id and a never-empty message that defaults to "Resource deleted successfully" |
| Responses.ResponseHelper.NoContent | packages/api/src/responses/helpers.ts:114-116 | Status 204 and no body |
| Responses.ResponseHelper.Health | packages/api/src/responses/helpers.ts:121-137 | 200 exactly when healthy and 503 exactly when unhealthy; the bare health record without a success member |
| Responses.SendSuccess | packages/api/src/responses/helpers.ts:167-174 | The helper's `success`, with no request id |
| Responses.SendCreated | packages/api/src/responses/helpers.ts:176-183 | The helper's `created`, with no request id |
| Responses.SendUpdated | packages/api/src/responses/helpers.ts:185-191 | The helper's `updated`, with no request id |
| Responses.SendDeleted | packages/api/src/responses/helpers.ts:193-199 | The helper's `deleted`, with no request id |
| Responses.SendPaginated | packages/api/src/responses/helpers.ts:201-208 | The helper's `paginated` with no status, so always 200 |
| Responses.SendNoContent | packages/api/src/responses/helpers.ts:210-212 | 204 with no body at all |
| Responses.SendHealth | packages/api/src/responses/helpers.ts:214-222 | 200 exactly when healthy and 503 exactly when unhealthy, with the bare health record stamped at `now` as the body |
| ErrorHandler.CreateErrorHandler | packages/api/src/middleware/errorHandler.ts:19-24 | The stack-trace option defaults to NODE_ENV being "development"; logging is on unless `false` is passed |
| ErrorHandler.Classify | packages/api/src/middleware/errorHandler.ts:33-79 | An ApiError passes through unchanged; a ZodError becomes VALIDATION_ERROR "Validation failed" with one detail per issue; other errors are operational exactly when their name (and for MongoError the code 11000) is recognised; an unrecognised error is INTERNAL_SERVER_ERROR, with its message hidden in production |
| ErrorHandler.KnownShapes | packages/api/src/middleware/errorHandler.ts:51-68 | The code, message and status the chain gives each recognised error name |
| ErrorHandler.OtherMongoErrorIsInternal | packages/api/src/middleware/errorHandler.ts:57-78 | A MongoError whose code is not 11000 is a non-operational 500 |
| ErrorHandler.ProductionRedactsUnknown | packages/api/src/middleware/errorHandler.ts:71-78 | In production an unknown error's message is "Internal server error"; in any other environment it is the error's own message |
| ErrorHandler.ClassifyKeepsValid | packages/api/src/middleware/errorHandler.ts:33-79 | Every classified error's status is the table's status for its code |
| ErrorHandler.ErrorEnvelope | packages/api/src/middleware/errorHandler.ts:82-97 | A failure envelope with the classified code, message, details and timestamp, the request path and request id; the stack is present exactly when stack traces are on, the error is not operational, and the error has a stack |
| ErrorHandler.StackOnlyForUnknown | packages/api/src/middleware/errorHandler.ts:69-97 | Among errors that are not ApiErrors, only an unrecognised one can show its stack |
| ErrorHandler.StatusMatchesBody | packages/api/src/middleware/errorHandler.ts:100 | The status written is the table's status for the code in the body |
| ErrorHandler.HandleError | packages/api/src/middleware/errorHandler.ts:26-101 | When logging is on, the error is logged before anything else; then one response with the classified status and the envelope is written if no response has started, and otherwise the write fails and nothing is sent |
| ErrorHandler.RouteNotFound | packages/api/src/middleware/errorHandler.ts:122-125 | NOT_FOUND, 404, operational, message "Route <method> <path> not found" |
| ErrorHandler.NotFoundHandler | packages/api/src/middleware/errorHandler.ts:117-127 | Exactly one `next` call with the not-found error, and nothing is written |
| ErrorHandler.UnmatchedRouteEnvelope | packages/api/src/middleware/errorHandler.ts:117-127 | An unmatched route, once handled, answers 404 with a NOT_FOUND envelope naming the method and path, and no stack |
| Validation.FormatZodErrors | packages/api/src/validation/index.ts:76-83 | One field issue per zod issue, in order, named `source.` followed by the joined path |
| Validation.PrefixedFields | packages/api/src/validation/index.ts:76-83 | A section's field issues differ from the bare ones only by the `source.` prefix |
| Validation.SectionValue | packages/api/src/validation/index.ts:21-51 | A section without a schema, or whose parse threw, keeps its raw value; otherwise it holds the parsed value |
| Validation.RankOfSection | packages/api/src/validation/index.ts:26-59 | Every issue a section contributes is named under that section |
| Validation.AppendInOrder | packages/api/src/validation/index.ts:26-59 | Appending a later section's issues keeps the list in section order |
| Validation.RequestIssuesOrdered | packages/api/src/validation/index.ts:18-62 | The collected issues are grouped body, query, params, headers; every present schema contributes all of its issues, even after an earlier failure |
| Validation.CheckSection | packages/api/src/validation/index.ts:21-29 | The section is parsed exactly when a schema is present and its parse does not throw; the issues are those of a ZodError, and there are none after a successful parse |
| Validation.Validate | packages/api/src/validation/index.ts:16-70 | body, query and params are replaced by their parsed values where parsing succeeds; headers are never replaced; the middleware throws ValidationError "Request validation failed" carrying every collected issue exactly when there is one, and otherwise calls `next()` |
| Validation.ValidateValue | packages/api/src/validation/index.ts:88-103 | The parsed value; a ZodError becomes ValidationError "Validation failed" with bare field names; any other error is rethrown unchanged |
| Validation.SafeValidate | packages/api/src/validation/index.ts:108-130 | Never throws; success with the parsed value, a ZodError's issues, or the single issue "Unknown validation error" for any other error |
| Validation.SafeAgreesWithValidateValue | packages/api/src/validation/index.ts:88-130 | `safeValidate` succeeds exactly when `validateValue` returns, with the same value, and on a ZodError both report the same issues |
| Schemas.When | packages/api/src/validation/schemas.ts:5-10 | A check reports its one issue exactly when it fails |
| Schemas.PasswordMessagesDistinct | packages/api/src/validation/schemas.ts:5-110 | The four password messages and the mismatch message are pairwise different |
| Schemas.PasswordIssues | packages/api/src/validation/schemas.ts:5-10 | No issue exactly when the password is strong: a JavaScript length (UTF-16 code units) of at least 8, an uppercase letter, a lowercase letter and a digit; a short password reports its length first |
| Strings.Utf16LengthIsCount | packages/api/src/validation/schemas.ts:7 | The JavaScript length a `.min` check reads equals the character count exactly when no character is above U+FFFF |
| Schemas.PasswordMessages | packages/api/src/validation/schemas.ts:5-10 | One message per failing rule, in the order the rules are declared |
| Schemas.PasswordIssuesPerRule | packages/api/src/validation/schemas.ts:5-10 | Each of the four rules is reported exactly when it fails, the length rule counting UTF-16 code units |
| Schemas.PasswordIssuesNeverMismatch | packages/api/src/validation/schemas.ts:5-110 | Every password issue is on the password's own field and none is the mismatch message |
| Schemas.StrongPasswordSample | packages/api/src/validation/schemas.ts:5-10 | "Password1" is accepted |
| Schemas.OnlyDigitMissing | packages/api/src/validation/schemas.ts:5-10 | A password long enough and with both cases of letter but no digit, such as "Passwords", reports only the missing digit |
| Schemas.AstralCharactersCountTwice | packages/api/src/validation/schemas.ts:7 | The length rule counts UTF-16 code units, so "Abc1" and two emoji, six characters, is long enough and accepted |
| Schemas.ShortPasswordSample | packages/api/src/validation/schemas.ts:5-10 | "abc" reports length, uppercase and digit, in that order |
| Schemas.MongoIdIssues | packages/api/src/validation/schemas.ts:19-21 | No issue exactly when the text is 24 hexadecimal digits; otherwise the single "Invalid MongoDB ObjectId" issue |
| Schemas.HexOfBytesShape | packages/api/src/validation/schemas.ts:19-21 | The hex rendering of n bytes is 2n hexadecimal digits |
| Schemas.ObjectIdTextAccepted | packages/api/src/validation/schemas.ts:19-21 | Every 12-byte object id written in hexadecimal is accepted |
| Schemas.NumericId | packages/api/src/validation/schemas.ts:25-28 | Accepted exactly when the text is one or more ASCII digits, giving its decimal value; otherwise the single "ID must be numeric" issue |
| Schemas.NumericIdRoundTrip | packages/api/src/validation/schemas.ts:25-28 | In the model's exact integers, every number written in decimal is accepted and reads back as itself (see the Schemas.NumericId line under Left out) |
| Schemas.NumericIdCanonical | packages/api/src/validation/schemas.ts:25-28 | An accepted id without a leading zero is the decimal rendering of its value |
| Schemas.PhoneIssues | packages/api/src/validation/schemas.ts:12-14 | No issue exactly when the text is an optional "+" followed by one or more digits, whitespace, "-", "(" or ")"; otherwise the single format issue |
| Schemas.PhonePlusRule | packages/api/src/validation/schemas.ts:14 | A leading "+" is accepted once before phone characters, but a lone "+" and a doubled "+" are rejected |
| Schemas.AuthHeaderIssues | packages/api/src/validation/schemas.ts:135-139 | Accepted exactly when the header is present and is "Bearer " followed by a character that is not a line break; a missing header is "Required" |
| Schemas.BearerHeaders | packages/api/src/validation/schemas.ts:138 | Any token after "Bearer " is accepted; the bare scheme and the lowercase "bearer" are rejected |
| Schemas.ParsePagination | packages/api/src/validation/schemas.ts:31-46 | Accepted exactly when page >= 1, 1 <= limit <= 100 and order is absent, "asc" or "desc"; the result holds the numbers, the sort key and the order, absent keys defaulting to page 1, limit 10 and ascending; a rejection carries the key issues, at least one |
| Schemas.PageIssues | packages/api/src/validation/schemas.ts:32-37 | At most one issue, on the `page` key |
| Schemas.LimitIssues | packages/api/src/validation/schemas.ts:38-43 | At most one issue, on the `limit` key |
| Schemas.OrderIssues | packages/api/src/validation/schemas.ts:45 | No issue exactly when the order is accepted; otherwise one invalid-enum issue on `order` carrying the received value |
| Schemas.OrderAccepted | packages/api/src/validation/schemas.ts:45 | The order is accepted exactly when absent, "asc" or "desc"; only "desc" reads as descending |
| Schemas.PaginationAccepted | packages/api/src/validation/schemas.ts:31-46 | The pagination keys raise no issue exactly when page >= 1, 1 <= limit <= 100 and the order is accepted |
| Schemas.OrderMessageDistinct | packages/api/src/validation/schemas.ts:37-45 | The enum message differs from the page and limit messages, which differ from each other |
| Schemas.PaginationMessagesPerKey | packages/api/src/validation/schemas.ts:32-43 | The page message appears exactly when page is 0, the limit message exactly when limit is outside 1 to 100 |
| Schemas.OrderIssueIsLast | packages/api/src/validation/schemas.ts:31-46 | An unknown order is reported last, on `order`, with the received value; a known one leaves no issue on that key |
| Schemas.PaginationDefaults | packages/api/src/validation/schemas.ts:35-45 | An empty query gives page 1, limit 10, no sort and ascending order |
| Schemas.AcceptedPaginationMeta | packages/api/src/validation/schemas.ts:31-46 | Any accepted query can be paginated, and its `totalPages` never exceeds the item count |
| Schemas.SearchTermIssues | packages/api/src/validation/schemas.ts:50 | No issue exactly when `q` is present and non-empty; a missing `q` is "Required" and an empty one "Search query is required" |
| Schemas.ParseSearch | packages/api/src/validation/schemas.ts:49-52 | Accepted exactly when `q` is non-empty and the pagination keys are accepted; the issues are those of `q` followed by those of pagination |
| Schemas.FileUploadIssues | packages/api/src/validation/schemas.ts:74-78 | Accepted exactly when the filename and MIME type are non-empty and the size is positive |
| Schemas.ImageUploadIssues | packages/api/src/validation/schemas.ts:80-83 | Accepted exactly when the filename is non-empty, the MIME type starts with "image/" and the size is at most 5 MiB; an oversized image's last issue is the size issue |
| Schemas.ImageSizeRule | packages/api/src/validation/schemas.ts:77-82 | The image schema replaces the positive-size rule: a size of zero or less is accepted as an image but not as a file; exactly 5 MiB is accepted and one byte more is not |
| Schemas.ImageImpliesFileExceptSize | packages/api/src/validation/schemas.ts:74-83 | Every accepted image with a positive size is an accepted file |
| Schemas.RequiredString | packages/api/src/validation/schemas.ts:105-107 | A required non-empty string: no issue exactly when it is present and non-empty, and only "Required" or the field's message otherwise |
| Schemas.PasswordField | packages/api/src/validation/schemas.ts:106-117 | A required password field: no issue exactly when it is present and strong, never the mismatch message |
| Schemas.ParsePasswordForm | packages/api/src/validation/schemas.ts:103-123 | Accepted exactly when all fields pass and the two passwords agree; with every key present the mismatch issue, on confirmPassword, is reported last exactly when they differ, even beside field issues; with a key missing no mismatch is reported |
| Schemas.ParseChangePassword | packages/api/src/validation/schemas.ts:103-112 | The password form with currentPassword; an accepted form has a strong new password equal to its confirmation |
| Schemas.ParseResetPassword | packages/api/src/validation/schemas.ts:114-123 | The password form with token; an accepted form has a strong password equal to its confirmation |
| Schemas.WeakAndMismatched | packages/api/src/validation/schemas.ts:103-112 | A short new password that is also mistyped reports the password issues and then the mismatch |
| Schemas.ParseUpdateUser | packages/api/src/validation/schemas.ts:86-96 | Accepted exactly when each present field passes its rule (email, non-empty names, phone format); the update keeps exactly the present fields |
| Schemas.UpdateIgnoresPassword | packages/api/src/validation/schemas.ts:94-96 | The password key has no effect on an update, and an empty update is accepted |
| Proxy.GetServiceUrl | services/api-gateway/src/utils/proxy.ts:42-49 | In production AUTH_SERVICE_URL, possibly unset; otherwise "http://localhost:" followed by digits that read back as the port |
| Proxy.GetServiceUrlCompiled | services/api-gateway/src/utils/proxy.js:34-40 | In production "http://" + service name + ".kevin-luong.com"; otherwise the same URL as the TypeScript version |
| Proxy.DevelopmentUrlIsPortOnly | services/api-gateway/src/utils/proxy.ts:48 | Outside production the URL depends only on the port, and different ports give different URLs |
| Proxy.ProductionUrls | services/api-gateway/src/utils/proxy.ts:45-47 | In production the TypeScript version ignores the name and port, while the compiled one gives different services different URLs |
| Proxy.VersionsAgreeOutsideProduction | services/api-gateway/src/utils/proxy.js:34-40 | The two versions agree exactly outside production |
| Proxy.DecoratedHeaders | services/api-gateway/src/utils/proxy.ts:13-14 | X-Forwarded-For is the client IP and X-Original-Host is the host header; every other header is unchanged and no other header is added |
| Proxy.Decorate | services/api-gateway/src/utils/proxy.ts:9-16 | The options are updated in place to the decorated headers, and the same object is returned |
| Proxy.DecorationOverridesCaller | services/api-gateway/src/utils/proxy.ts:13-14 | Values a request already carries under the exact names X-Forwarded-For and X-Original-Host are discarded: requests that differ only there decorate alike. The new values are `req.ip`, which under `trust proxy` 1 (services/api-gateway/src/index.ts:67) is the last X-Forwarded-For entry the client sent, and the client's own Host header, so the client still steers both |
| Proxy.DecorationIdempotent | services/api-gateway/src/utils/proxy.ts:13-14 | Decorating twice is decorating once |
| Proxy.ServiceUnavailableBody | services/api-gateway/src/utils/proxy.ts:27-35 | success false, and an `error` record of SERVICE_UNAVAILABLE, "Service temporarily unavailable", the (possibly unset) service URL and `now` |
| Proxy.ProxyErrorHandler | services/api-gateway/src/utils/proxy.ts:17-38 | The failure is logged; a 503 is written only if no response has started; `next(err)` is called in every case |
| Gateway.RateLimitMax | services/api-gateway/src/index.ts:51 | 1000 requests per window exactly when `req.user` is truthy, otherwise 100. No layer before the limiter (cors, morgan, cookieParser, the two body parsers) sets `req.user`, so in this gateway the budget is always 100 |
| Gateway.RateLimitKey | services/api-gateway/src/index.ts:56-63 | A truthy API key is its own bucket, as its string form (a repeated key joined with commas); otherwise the normalised IP, or "" without one |
| Gateway.EmptyApiKeyFallsBack | services/api-gateway/src/index.ts:58-62 | An empty API key counts as none, and a missing IP is keyed as the empty one |
| Gateway.ApiKeyChoosesBucket | services/api-gateway/src/index.ts:58 | Two requests with non-empty keys share a bucket exactly when the keys are equal, whatever their IPs; a repeated key shares the bucket of its comma-joined text |
| Gateway.App.Use | services/api-gateway/src/index.ts:30-74 | A registered layer is appended to the end of the stack |
| Gateway.BuildGateway | services/api-gateway/src/index.ts:24-74 | The stack, in order: cors, morgan, cookie parser, the 100mb JSON and urlencoded parsers, the 15-minute rate limiter, the health route and the proxy to the auth service URL |
| Gateway.AnsweringLayer | services/api-gateway/src/index.ts:30-74 | The first layer from the start position that ends the request, with none before it; none only when no layer ends it |
| Gateway.PreflightAnsweredByCors | services/api-gateway/src/index.ts:30-42 | A preflight (OPTIONS) request is answered by cors, the first layer, so it is never rate limited |
| Gateway.RateLimiterGuardsEveryRoute | services/api-gateway/src/index.ts:30-74 | Every request is answered; only a preflight or a body a parser rejects is answered before the rate limiter; every other request reaches the limiter, which answers it exactly when the client is over budget; after it the health route answers exactly GET and HEAD of "/gateway-health", and the proxy the rest |
| Gateway.CleanPort | services/api-gateway/src/index.ts:15-18 | API_GATEWAY_PORT is accepted exactly when it is a number from 1 to 65535 written without sign or leading zero; otherwise start-up stops naming the variable |
| Gateway.ListenPort | services/api-gateway/src/index.ts:15-22 | The gateway listens exactly when the environment check passes |
| Gateway.PortFallbackUnreachable | services/api-gateway/src/index.ts:16-22 | The 8080 fallback is never taken: a gateway that starts listens on exactly the configured text, which reads back as its number |
| Routes.FindEntry | apps/app/lib/routes.ts:46 | Indexing a group finds a node exactly when some entry carries the key, and the node found is that entry's |
| Routes.FindFirst | apps/app/lib/routes.ts:46 | Indexing a group yields the first entry under the key |
| Routes.ResolveSnoc | apps/app/lib/routes.ts:45-50 | Following one more segment is one step down from where the earlier segments led |
| Routes.GetRoute | apps/app/lib/routes.ts:41-53 | The node reached by following the dotted path's segments in order from ROUTES; `Route path "<path>" not found` exactly when some segment is missing |
| Routes.GetRouteIn | apps/app/lib/routes.ts:42-52 | The loop over the segments, against any table, with the same promise as `getRoute` |
| Routes.MissingStaysMissing | apps/app/lib/routes.ts:46-49 | Once a segment is missing, no later segment can recover the lookup |
| Routes.FirstMissingSegment | apps/app/lib/routes.ts:45-49 | A failed lookup fails at a first segment: every earlier prefix resolves and that segment's key is absent |
| Routes.BeyondLeafNotFound | apps/app/lib/routes.ts:46-49 | In the model, a segment after one that reached a URL path is never found (JavaScript differs; see the Routes.GetRoute line under Left out) |
| Routes.ResolveWithinDepth | apps/app/lib/routes.ts:45-50 | A successful lookup follows no more segments than the table is deep |
| Routes.RoutesWithinTwo | apps/app/lib/routes.ts:7-35 | The route table is two levels deep |
| Routes.AtMostTwoSegments | apps/app/lib/routes.ts:7-53 | In the model, no dotted path of more than two segments names anything (JavaScript differs; see the Routes.GetRoute line under Left out) |
| Routes.DottedPathFollowsKeys | apps/app/lib/routes.ts:42 | Joining dot-free keys with "." and looking the result up follows exactly those keys |
| Routes.HomeLookup | apps/app/lib/routes.ts:9 | "HOME" gives "/" |
| Routes.CalculatorKey | apps/app/lib/routes.ts:34 | The key sequence ["CALCULATOR"] resolves to "/calculator" |
| Routes.AuthSignInKeys | apps/app/lib/routes.ts:12-15 | The key sequence ["AUTH", "SIGN_IN"] resolves to "/auth/sign-in" |
| Routes.DashboardRootKeys | apps/app/lib/routes.ts:18-19 | The key sequence ["DASHBOARD", "ROOT"] resolves to "/dashboard" |
| Routes.AuthSignInLookup | apps/app/lib/routes.ts:12-15 | "AUTH.SIGN_IN" gives "/auth/sign-in" |
| Routes.DashboardRootLookup | apps/app/lib/routes.ts:18-19 | "DASHBOARD.ROOT" gives "/dashboard" |
| Routes.CalculatorLookup | apps/app/lib/routes.ts:34 | "CALCULATOR" gives "/calculator" |
| Routes.EmptyPathNotFound | apps/app/lib/routes.ts:42-49 | The empty path is the single segment "", which is no key, so it is not found |
| Routes.GroupPathYieldsSubtree | apps/app/lib/routes.ts:12-52 | A path that stops at a group, such as "AUTH", yields the whole group |
| Routes.SegmentAfterLeafNotFound | apps/app/lib/routes.ts:9-49 | In the model, "HOME.0" is not found; JavaScript returns "/" (see the Routes.GetRoute line under Left out) |
| SearchStore.WithOpen | apps/app/stores/search-store.ts:14 | `setOpen(b)` sets `isOpen` to b and keeps `query` |
| SearchStore.WithQuery | apps/app/stores/search-store.ts:15 | `setQuery(q)` sets `query` to q and keeps `isOpen` |
| SearchStore.AfterReset | apps/app/stores/search-store.ts:16 | `reset()` yields the initial state, whatever came before |
| SearchStore.QueryIsLastSet | apps/app/stores/search-store.ts:14-16 | After any actions the query is the last one set since the last reset, or the starting query; opening and closing never touch it |
| SearchStore.ResetIdempotent | apps/app/stores/search-store.ts:12-16 | Resetting twice is resetting once, and any history followed by a reset is the initial state |
| SearchStore.SettersCommute | apps/app/stores/search-store.ts:14-15 | The two setters touch different fields, so their order does not matter |
| SearchStore.Store.constructor | apps/app/stores/search-store.ts:12-13 | The store starts closed with an empty query |
| SearchStore.Store.SetOpen | apps/app/stores/search-store.ts:14 | The fields become `setOpen`'s state |
| SearchStore.Store.SetQuery | apps/app/stores/search-store.ts:15 | The fields become `setQuery`'s state |
| SearchStore.Store.Reset | apps/app/stores/search-store.ts:16 | The fields return to the initial state |
| LayoutStore.ParseCollapsible | apps/app/stores/layout-store.ts:4 | The names "icon", "offcanvas" and "none" are the three collapse modes, and no other string is |
| LayoutStore.ParseVariant | apps/app/stores/layout-store.ts:5 | The names "sidebar", "floating" and "inset" are the three variants, and no other string is |
| LayoutStore.NamesRoundTrip | apps/app/stores/layout-store.ts:4-5 | Every mode's and variant's name reads back as itself |
| LayoutStore.WithCollapsible | apps/app/stores/layout-store.ts:13 | `setCollapsible(c)` copies the state with `collapsible` replaced by c |
| LayoutStore.WithVariant | apps/app/stores/layout-store.ts:14 | `setVariant(v)` copies the state with `variant` replaced by v |
| LayoutStore.SettersCommute | apps/app/stores/layout-store.ts:13-14 | The two setters commute, and each field is decided by its last setter call |
| LayoutStore.FieldsAreLastSet | apps/app/stores/layout-store.ts:13-14 | After any sequence of setter calls, each field is its last setting, or its starting value when it was never set |
| LayoutStore.Store.constructor | apps/app/stores/layout-store.ts:11-12 | The store starts as icon, floating |
| LayoutStore.Store.SetCollapsible | apps/app/stores/layout-store.ts:13 | The fields become `setCollapsible`'s state |
| LayoutStore.Store.SetVariant | apps/app/stores/layout-store.ts:14 | The fields become `setVariant`'s state |
| Transport.Exchange.Log | packages/api/src/middleware/errorHandler.ts:28-30 | Appends one log event and changes nothing else |
| Transport.Exchange.Respond | packages/api/src/middleware/errorHandler.ts:100 | Before a response has started, appends one response event and marks the headers as sent; after, the write fails with ERR_HTTP_HEADERS_SENT, recorded as such, and nothing is written |
| Transport.Exchange.Next | packages/api/src/middleware/errorHandler.ts:126 | Appends one `next` event and changes nothing else |
| Validation.Request.constructor | packages/api/src/validation/index.ts:17 | The request holds the four given sections |
| Proxy.ProxyRequestOptions.constructor | services/api-gateway/src/utils/proxy.ts:10 | The options hold the given headers |

## Left out

- Floating point: every number is an integer. `createPaginationMeta` with a limit of zero or less, NaN or Infinity from `Number`, and fractional sizes are not modelled.
- Responses.CreatePaginationMeta: requires a positive limit. Division by zero or by a negative limit yields JavaScript floating-point values that the model does not have.
- Schemas.ParsePagination: `Number` is modelled only on strings of ASCII digits, which the requires states. Signs, whitespace, hexadecimal, exponents and precision lost beyond 2^53 are not modelled.
- Schemas.NumericId: `Number` is exact in the model. Above 2^53 JavaScript rounds, so "9007199254740993" reads as 9007199254740992 and `NumericIdRoundTrip` holds only below that bound.
- Schemas.ParseSearch: the same restriction on `page` and `limit` as `ParsePagination`.
- Schemas.FileUploadIssues: uploads whose fields are missing or not of the expected type are not modelled; the fields are always present strings and an integer size.
- Schemas.ImageUploadIssues: the same restriction as `FileUploadIssues`.
- Schemas.ParseUpdateUser: the email format is the `isEmail` parameter, because zod's email pattern is library code.
- `emailSchema`, `urlSchema`, `uuidSchema`, `loginSchema`, `slugParamSchema`, `dateRangeSchema`, `createUserSchema` as a whole, and `idParamSchema` are not modelled beyond the building blocks above. Their checks are library patterns, or dates, or a plain composition of the rules that are modelled.
- Validation.Validate: the model replaces `req.query` as written. The repository uses Express 5 (the `/{*splat}` route at services/auth-service/src/index.ts:54), where `req.query` is a getter: when the query schema succeeds, the assignment throws a TypeError, which the catch swallows because it records only ZodErrors. The parsed query is then never stored and no issue is raised. The model stores it.
- Proxy.DecoratedHeaders: header names are compared case-sensitively. Node's merging of header-name case is not modelled, and neither is a header set to `undefined` as distinct from an absent one. The decorator's Option value covers an unset IP or host.
- HandleError: when the write fails because a response has already started, the thrown ERR_HTTP_HEADERS_SENT leaves the handler and Express passes it to its own final handler, which is not modelled.
- `asyncHandler` is not modelled: it only forwards a rejected promise to `next`, and promises are not modelled.
- Console output and the logger's message formatting are left out. A log event records the error handed to the logger.
- express-rate-limit's counting, windows, 429 reply and headers are library code. Its two policy functions and its position in the stack are modelled; whether a client is over its budget is given with the request.
- express-http-proxy's forwarding and its enforcement of the 30-second timeout are library code. Only the decorator and the error handler are modelled.
- CORS headers are not modelled: cors appears as the layer that answers every preflight (OPTIONS) request itself, which it does because `preflightContinue` is not set. `trust proxy`, morgan and cookie parsing never end a request and appear only as named layers.
- Whether a body parser rejects a body (malformed, an unsupported charset, or over 100mb), and its 400 or 413 reply, is library code; the request says which parser, if any, rejects it.
- Express route matching is modelled as exact path equality. Express's case-insensitive matching and its optional trailing slash for `/gateway-health` are not modelled.
- `DATABASE_URL` is required by the environment check but is not modelled, because nothing in the model uses it.
- `app.listen`, the server's error listener and `dotenv` are I/O.
- Routes.GetRoute: a segment below a URL path is not found. In JavaScript, indexing a string yields characters, so "HOME.0" returns "/". Object prototype keys such as "constructor" are also not modelled.
- The zustand `set` merge, subscriptions and re-rendering are library code; each store is a class whose setters update its fields.
- The React and Next.js presentation layer, the other services, the build configuration and the demo code are outside this model.
