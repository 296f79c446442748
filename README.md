# Error normalisation and structured logging, in Dafny

This project models the error pipeline of a Laravel banking back end. It has
two parts.

- **The exception handler** (`app/Exceptions/Handler.php`).
  - `render` classifies a failure in a fixed first-match order:
    1. a missing route answers 404 with no errors;
    2. a proper subclass of `BaseException` is handed to the framework;
    3. a validation failure answers 422 with one error per message;
    4. an unauthorised request answers 401 with `UNAUTHORIZED`;
    5. anything else is answered 500 with `INTERNAL_SERVER_ERROR`, after an
       attempt to log it with its request context. In the handler as written
       that attempt logs nothing (see "## Findings").
  - `report` skips policy failures.
  - `jsonError` builds the `{success: false, data: null, errors}` envelope.
  - `applyUuidRegexPattern` builds log action keys. It replaces every
    UUID-shaped hex run (8-4-4-4-12, hyphens optional) with `UUID`, then maps
    `/` and `-` to `_`. It is applied to the route's declared URI
    (`$route->uri`), not to the requested path. A parameterised route such
    as `api/users/{id}/account` reaches it as `{id}`, so only UUIDs written
    literally into a route declaration are replaced.
- **The `Logger` trait** (`app/Traits/Logger.php`).
  - `createLog` assembles a structured context and sends it to the
    `log_service` channel. It never lets a failure escape.
  - `defaultErrorHandling` rethrows domain failures untouched. Any other
    failure is passed to `createLog` once and replaced by the generic
    `BaseException('UNKNOW_ERROR_TRY_AGAIN', 0)`.
  - The trait calls `$this->getUserFromJwt()` but does not define it; the
    class that uses the trait must. `LogEnv.identity` says whether that call
    returns a user or raises.

## Layout

- `wrappers.dfy`: the `Option` type.
- `ascii.dfy`: `strtoupper` and `strtolower` on ASCII letters, and hex digits.
- `php_value.dfy`: PHP values and ordered PHP arrays. Covers lookup (`??`),
  assignment (`$a[$k] = $v`) and `is_array($v) ? $v : [$v]`.
- `http.dfy`: the parts of a request and its route that the handler and the
  logger read.
- `throwables.dfy`: the failures that reach the handler, as a closed
  datatype. The kinds are route not found, domain (exact `BaseException` or a
  subclass), validation (field → messages), unauthorised, policy, and other.
- `uuid_pattern.dfy`: a hand-written matcher for the single fixed UUID
  pattern, the leftmost non-overlapping replacement `preg_replace` performs,
  and the separator mapping.
- `logger.dfy`: `beautifyException`, the context builder, and the log
  channel. The channel is a `LogSink` class whose `records` sequence grows by
  one record per successful send. The file also holds the imperative
  `CreateLog` and `DefaultErrorHandling`.
- `handler.dfy`: `report`, `jsonError`, the imperative `InvalidJson` (two
  nested loops, as in the source), the classification of `render`,
  `logWithContext` and `Render`.
- `scenarios.dfy`: worked examples on concrete inputs.

The outside world arrives as parameters:

- `LogEnv` carries the fresh UUID, the clock (milliseconds since the epoch),
  the outcome of the JWT user lookup (a user, or the error it raises), and
  the current request.
- `LogSink` stands for the log channel. Its `failing` flag and `fault` say
  whether a send raises, and what it raises.
- `Str::snake` is an opaque function parameter.

Two properties one might expect of this pipeline do not hold for the code,
and the model proves that they do not:

- **Normalisation is not idempotent.** Normalising an already normalised
  path can change it again.
  - Sixty-three `0`s become `UUID` followed by thirty-one `0`s. In that
    output, the `D` of `UUID` and the thirty-one zeros form a new run of 32
    hex digits. A second pass replaces that run, so the string changes again.
    `UuidPattern.NormalizeNotIdempotent` proves this.
  - `UuidPattern.NormalizeFixpoint` states exactly which strings are left
    unchanged.
- **The generic failure is treated as unexpected.** `defaultErrorHandling`
  passes a non-domain failure to `createLog` and throws the generic
  `BaseException` in its place. `render` does not hand that replacement to
  the framework.
  - The replacement is exactly a `BaseException`, not a subclass. So `render`
    reports it, tries to log it with the request context, and answers 500.
  - Its code `UNKNOW_ERROR_TRY_AGAIN` therefore never reaches the client
    through `render`. A caller that catches the failure itself can still
    return it.
    `Handler.HandledErrorRendersAs500` proves this.

## Model

| member | source | states |
|---|---|---|
| Handler.Report | app/Exceptions/Handler.php:38-46 | a failure is skipped exactly when it is a policy failure; every other failure goes to the framework's reporting |
| Handler.JsonError | app/Exceptions/Handler.php:111-121 | the response status is `code`, the envelope has `success` false and `data` null, and the errors are passed through unchanged and in order |
| Handler.MessageErrors | app/Exceptions/Handler.php:100-102 | one `InternalError` per message, as many as there are messages, message `j` at position `j` |
| Handler.Flatten | app/Exceptions/Handler.php:99-103 | every error in the flattened list is the error of some message of some field |
| Handler.TotalMessages | app/Exceptions/Handler.php:99-103 | the total number of messages is at least the number of messages of any one field |
| Handler.FlattenLength | app/Exceptions/Handler.php:99-103 | the flattened error list has exactly as many entries as all fields have messages together |
| Handler.FlattenAt | app/Exceptions/Handler.php:99-103 | message `j` of field `i` is the error at position `Offset(i) + j`, so the errors are ordered by field, then by message |
| Handler.OffsetsOrdered | app/Exceptions/Handler.php:99-103 | every message of an earlier field comes before every message of a later field |
| Handler.InvalidJson | app/Exceptions/Handler.php:95-106 | the nested loops build exactly the flattened list, answered with status 422 in the failure envelope |
| Handler.RenderOutcome | app/Exceptions/Handler.php:51-90 | only proper `BaseException` subclasses are delegated to the framework, and every response render builds is a failure envelope with null data and status 401, 404, 422 or 500 |
| Handler.RenderClassification | app/Exceptions/Handler.php:51-90 | delegation happens exactly for proper `BaseException` subclasses. Every response is a failure envelope whose status is 401, 404, 422 or 500, and each status belongs to exactly one kind in both directions. 404 carries no errors and 401 carries exactly `UNAUTHORIZED` |
| Handler.UnexpectedIsOpaque | app/Exceptions/Handler.php:86-89 | all unexpected failures get the same 500 response with only `INTERNAL_SERVER_ERROR`, whatever their message, line or file |
| Handler.Render | app/Exceptions/Handler.php:51-90 | the response is the one of the first matching branch. The records are those of logWithContext when the failure is unexpected, and none for 404, delegation, 422 or 401. When the user lookup raises, as it does in this handler, no record is added at all |
| Handler.RequestContext | app/Exceptions/Handler.php:133-143 | the logged context holds `endpoint`, `request` and `request_time`, in that order. `endpoint` is the route's first method (`UNKNOWN` without one) and the request URL, `request` is the query and the body, and `request_time` is the current time |
| Handler.RequestAction | app/Exceptions/Handler.php:147 | the action key starts with `REQUEST_`, ends with `_ERROR`, has the method (`-` without one) and the normalised URI in between, and contains no lower-case letter |
| Handler.RequestDescription | app/Exceptions/Handler.php:146 | the description starts with `Erro na execução da API `, has the method (`-` without one) and a space, and ends with the route's URI exactly as written, not normalised |
| Handler.ContextLogArgs | app/Exceptions/Handler.php:126-151 | a createLog call exists exactly when the request has a route. It carries the failure at the default debug level, the request context as its value, and the route's action and description |
| Handler.LogWithContext | app/Exceptions/Handler.php:126-151 | the sink gains exactly the records of one createLog call for the route, or nothing without a route. When the user lookup raises, it gains nothing |
| Handler.HandlerLogsNothing | app/Exceptions/Handler.php:126-151 | when the user lookup raises, logWithContext sends no record, with or without a route |
| Handler.ContextLogged | app/Exceptions/Handler.php:145-150 | with a route, a user lookup that returns and a working sink, exactly one record is sent on `log_service` at level `debug`. Its action is `REQUEST_<METHOD>_<NORMALISED URI>_ERROR`, its description names the method and URI. Its value is the request context (`endpoint` with the method or `UNKNOWN` and the URL, `request`, `request_time`) followed by the failure's details under `error` |
| Handler.NoRouteNoLog | app/Exceptions/Handler.php:128-131 | without a route nothing is logged |
| Handler.ActionIgnoresUuid | app/Exceptions/Handler.php:147 | two routes that differ only in the UUID of one segment, hyphenated or not, share one action key |
| Handler.HandledErrorRendersAs500 | app/Exceptions/Handler.php:58-89 | the generic failure that `defaultErrorHandling` throws is not a proper subclass, so it is reported, takes the logging branch and is answered 500 with only `INTERNAL_SERVER_ERROR` |
| Http.FirstMethodOr | app/Exceptions/Handler.php:135 | the route's first method when it has one, the fallback otherwise |
| UuidPattern.MatchFrom | app/Exceptions/Handler.php:158 | a match of the hex groups starting at `i` ends after all their digits and at most one hyphen between groups, within the string |
| UuidPattern.MatchCharset | app/Exceptions/Handler.php:158 | everything a match covers is a hex digit or a hyphen |
| UuidPattern.MatchUuid | app/Exceptions/Handler.php:158 | a UUID match at the front of a string is 32 to 36 characters long |
| UuidPattern.MatchFromSound | app/Exceptions/Handler.php:158 | whatever the matcher accepts is hex groups of exactly the given sizes joined by optional single hyphens, so it accepts nothing the pattern does not describe |
| UuidPattern.MatchUuidIffShape | app/Exceptions/Handler.php:158 | the anchored match succeeds exactly when the string starts with five hex groups of 8, 4, 4, 4 and 12 digits, each of the first four followed by an optional hyphen |
| UuidPattern.NoUuidInIffNoShape | app/Exceptions/Handler.php:158 | a string has no match exactly when no position of it starts such a five-group hex text |
| UuidPattern.UuidFreeOnlyMapped | app/Exceptions/Handler.php:156-160 | a path in which no position starts a five-group hex text only has its `/` and `-` mapped to `_` |
| UuidPattern.UuidTextMatches | app/Exceptions/Handler.php:158 | every UUID text, with any choice of the four hyphens, is matched in full whatever follows it |
| UuidPattern.ShapeMatches | app/Exceptions/Handler.php:158 | hex groups of the pattern's sizes joined by optional hyphens are matched exactly to their end |
| UuidPattern.ShortHasNoUuid | app/Exceptions/Handler.php:158 | a string shorter than 32 characters contains no match |
| UuidPattern.ReplaceUuids | app/Exceptions/Handler.php:159 | the replaced string is never longer than the input, and is empty exactly when the input is |
| UuidPattern.MapSeparators | app/Exceptions/Handler.php:159 | `/` and `-` become `_`, every other character and the length are kept |
| UuidPattern.ApplyUuidRegexPattern | app/Exceptions/Handler.php:156-160 | the normalised path contains no `/` and no `-` |
| UuidPattern.ReplaceShrinks | app/Exceptions/Handler.php:159 | replacement shortens every string that contains a match |
| UuidPattern.ReplaceFixpoint | app/Exceptions/Handler.php:159 | replacement leaves a string unchanged exactly when no position starts a match |
| UuidPattern.NormalizeFixpoint | app/Exceptions/Handler.php:156-160 | normalisation leaves a path unchanged exactly when it has no separator and no match |
| UuidPattern.ReplaceSplitsAtBoundary | app/Exceptions/Handler.php:159 | a character that is neither hex nor `-`, such as `/`, is never crossed by a match, so the parts on either side are replaced independently |
| UuidPattern.ReplaceAtFirstMatch | app/Exceptions/Handler.php:159 | the scan is leftmost-first: text before the first match anywhere is copied unchanged, that match becomes `UUID`, and the scan resumes right after it |
| UuidPattern.UuidAfterNonHex | app/Exceptions/Handler.php:159 | a UUID after a character that is not a hex digit, such as `-`, becomes `UUID` and the character is kept |
| UuidPattern.ReplaceLeadingUuid | app/Exceptions/Handler.php:159 | a UUID text at the front becomes `UUID`, and the rest is replaced on its own |
| UuidPattern.UuidSegmentNormalized | app/Exceptions/Handler.php:156-160 | `p/<uuid>q` normalises to the normalised `p`, `_UUID`, and the normalised `q` |
| UuidPattern.NormalizeNotIdempotent | app/Exceptions/Handler.php:156-160 | normalising sixty-three zeros twice differs from normalising once |
| Ascii.Upper | app/Traits/Logger.php:66-68 | same length, each ASCII lower-case letter upper-cased and every other character kept, and no lower-case letter left |
| Ascii.Lower | app/Traits/Logger.php:45 | same length, each ASCII upper-case letter lower-cased and every other character kept, and no upper-case letter left |
| Ascii.UpperOfLower | app/Traits/Logger.php:45 | upper-casing the lower-cased level gives the same as upper-casing the level |
| PhpValue.Get | app/Traits/Logger.php:52 | a value is found exactly when the key is among the array's keys |
| PhpValue.GetFirst | app/Traits/Logger.php:52 | the value found is the one stored at the key's first occurrence |
| PhpValue.GetUnique | app/Traits/Logger.php:52 | in an array without repeated keys, looking up an entry's key finds that entry's value |
| PhpValue.Put | app/Traits/Logger.php:52 | afterwards the key holds the new value and every other key its old value. An existing key keeps its position, and a new key is appended at the end |
| PhpValue.PutKeepsKeysUnique | app/Traits/Logger.php:52 | assignment never makes a key appear twice |
| PhpValue.AsArray | app/Traits/Logger.php:48 | an array is kept as it is, and any other value becomes the one-element list `[value]` |
| Logger.BeautifyException | app/Traits/Logger.php:17-24 | an array with exactly the keys `msg`, `line` and `file`, in that order, holding the failure's message, line and file |
| Logger.DefaultArgs | app/Traits/Logger.php:29-42 | the defaults of createLog: level `debug`, type `server`, no ids, no entity, no times |
| Logger.RecordValue | app/Traits/Logger.php:47-53 | the value is always an array. Without a failure it is the coerced input. With a failure, `error` holds its details and every other key keeps its value, appended at the end if `error` was new |
| Logger.DiffInMilliseconds | app/Traits/Logger.php:57 | the absolute difference between the two times |
| Logger.UserId | app/Traits/Logger.php:70 | without a JWT user the user id is null, otherwise it is the token's `user_id` |
| Logger.CompanyId | app/Traits/Logger.php:71 | without a JWT user the company id is null, otherwise it is the token's `company_id` |
| Logger.AdminUserId | app/Traits/Logger.php:72 | without a JWT user the admin user id is null, otherwise it is the token's `admin_user_id` |
| Logger.RequestDuration | app/Traits/Logger.php:55-58 | the duration is present exactly when both times are, and is then their difference |
| Logger.BuildContext | app/Traits/Logger.php:60-86 | the context carries the fresh uuid and the arguments. Type, level and entity are upper-cased, and a missing entity becomes "". Explicit user and company ids take precedence over the looked-up user's, and the admin id always comes from that user and is null without one. Origin, referer, URL and IP come from the current request, and the endpoint holds its URL and HTTP verb. The date is the current time, and the duration and value follow RequestDuration and RecordValue |
| Logger.ContextIsUpperCased | app/Traits/Logger.php:66-68 | type, level and entity in the context contain no lower-case letter, and the level keeps its length |
| Logger.LogSink.Write | app/Traits/Logger.php:88 | a send to an accepting channel appends one record and raises nothing. Otherwise it raises the channel's fault and records nothing |
| Logger.Emitted | app/Traits/Logger.php:60-88 | a createLog call sends one record exactly when the user lookup returns and the channel accepts the lower-cased level, and otherwise none. That record is on `log_service`, at a severity, with the description as message and a context with the fresh uuid whose level is that severity upper-cased |
| Logger.FailureCause | app/Traits/Logger.php:60-101 | what a failed createLog reports: the lookup's error when the lookup raises, the channel's fault otherwise |
| Logger.CreateLogResult | app/Traits/Logger.php:60-102 | createLog succeeds exactly when the user lookup returns and the channel accepts the level. It always fails when the lookup raises or the channel fails. Success returns `Log feito com sucesso` and the context's uuid, which is the fresh one. Failure returns `Falha ao enviar Log` with the details of what was raised |
| Logger.CoerceValue | app/Traits/Logger.php:47-53 | the value steps of createLog build exactly the array RecordValue describes |
| Logger.CreateLog | app/Traits/Logger.php:29-103 | the result and the records sent are those the specification functions give for the sink, the arguments and the environment |
| Logger.CreateLogOutcome | app/Traits/Logger.php:88-102 | success sends exactly one record, on `log_service` at the lower-cased level, and returns its context with the same uuid. Failure sends nothing and returns `Falha ao enviar Log` with the details of what was raised, so nothing escapes |
| Logger.HandledError | app/Traits/Logger.php:115-136 | what is thrown is always a domain failure. A domain failure is rethrown unchanged, and any other failure becomes `UNKNOW_ERROR_TRY_AGAIN` with numeric code 0 |
| Logger.HandledErrorIdempotent | app/Traits/Logger.php:115-117 | handling what was thrown once more changes nothing |
| Logger.ErrorHandlingArgs | app/Traits/Logger.php:119-130 | the action is the caller's name in upper snake case plus `_ERROR` (`unknown_method` when unknown). The description is the called class, the failure is attached, and the type is `server` |
| Logger.BareHandlingArgs | app/Traits/Logger.php:108-130 | a bare `defaultErrorHandling($exception)` logs no data and no entity at level `error`, with the caller's action and the failure attached |
| Logger.BareHandlingLogsAtError | app/Traits/Logger.php:108-130 | with the defaults, a lookup that returns and a working channel, exactly one record is sent at `error`, and its value is `[null]` with the failure under `error` |
| Logger.DefaultErrorHandling | app/Traits/Logger.php:108-137 | a domain failure is rethrown with no record. Any other failure adds exactly the records of one createLog call and is replaced by the generic failure |
| Scenarios.RouteNotFoundExample | app/Exceptions/Handler.php:54-56 | a missing route answers 404 with an empty error list |
| Scenarios.ValidationExample | app/Exceptions/Handler.php:95-106 | `name: [required], email: [invalid]` answers 422 with the errors `required`, `invalid` |
| Scenarios.DurationExample | app/Traits/Logger.php:55-58 | 250 ms between the two times in either order, and no duration when one time is missing |
| Scenarios.UsersAccountPath | app/Exceptions/Handler.php:156-160 | `users/550e8400-e29b-41d4-a716-446655440000/account` normalises to `users_UUID_account` |
| Scenarios.UsersAccountAction | app/Exceptions/Handler.php:147 | a failed `POST` on a route declared with that literal URI has the action key `REQUEST_POST_USERS_UUID_ACCOUNT_ERROR` |

`Handler.RenderOutcome`, `Logger.Emitted` and `Logger.CreateLogResult` are
the specification functions behind `Render` and `CreateLog`. Their own
contracts and the lemmas listed above state their properties.

## Left out

- Framework rendering and reporting: `parent::render` for domain subclasses is
  the abstract outcome `Delegate`. `parent::report` is the decision
  `ReportToFramework`.
- For validation failures, `parent::render` is modelled as the overridden
  `invalidJson`, the path Laravel takes for JSON requests. The redirect it
  takes for HTML requests is not part of this model.
- `DefaultResponse` and `InternalError` are not part of this model. The
  envelope is modelled as the three fields `success`, `data` and `errors`,
  and each error as its code.
- The debug dump in `render` (`dd`, app/Exceptions/Handler.php:82-84) is not
  modelled; the debug flag is taken as off.
- `Logger.DefaultErrorHandling`: the `dump` of the failure's class and message
  (app/Traits/Logger.php:131) runs on every non-domain failure, whatever the
  configuration, and writes them to the output. Output is not modelled, so
  the method's contract says nothing about it.
- Times are integer milliseconds. ISO-8601 formatting, time zones and the
  Carbon objects themselves are left out. `request_time` and `date` both read
  the same clock value.
- `Uuid::uuid4`, `now()`, the outcome of `getUserFromJwt` and `request()`
  are the inputs of `LogEnv`. The `Log` facade is the `LogSink` class.
- `Logger.LogSink.Write`: a send fails when the sink is set to fail, and also
  for every level that is not one of the eight severities. The real channel
  forwards some other method names to the logger, such as `close` and
  `reset`, and those do not raise. The model treats them as failing sends.
- Failures inside `createLog` other than a raising user lookup or a failing
  send are not modelled, because they depend on library internals.
- `PolicyException` is not part of this model. It is taken to be outside
  `BaseException`, and that assumption decides render's branch for policy
  failures. `render` then logs them and answers 500. If it were a
  `BaseException` subclass, render would hand it to the framework instead
  (app/Exceptions/Handler.php:59-63).
- `BaseException` is not part of this model. Its constructor is taken to
  make its first argument the `getMessage()` value and its second the
  numeric code.
- `Logger.HandledError`: `getFile()` gives an absolute path that depends on
  where the application is installed. The model records only the path
  relative to the application root, `app/Traits/Logger.php`.
- `debug_backtrace` and `get_called_class` become the parameters `caller` and
  `calledClass`. `Str::snake` is an opaque function.
- General regular expressions are left out. Only the one fixed UUID pattern
  is modelled, by a hand-written matcher.
- `strtoupper` and `strtolower` change ASCII letters only, as they do from
  PHP 8.2 on. Locale-dependent case mapping is not modelled.
- Fixed-width integers are not modelled. Line numbers and times are unbounded
  integers.
- Concurrency on the log channel is not modelled; nothing in the code depends
  on it.
- `Logger.DiffInMilliseconds`: follows Carbon 2, whose difference is absolute
  by default. Carbon 3's signed difference is not modelled.
- `app/Http/Controllers/AccountController.php` and
  `app/Integrations/Banking/Account/Create.php` are not part of this model.
  Both are delegation to code that is not shown, and HTTP glue.

## Findings

| source | as written | input that shows it | evidently intended | confidence | as-written member | corrected member |
|---|---|---|---|---|---|---|
| app/Traits/Logger.php:60 | `createLog` calls `$this->getUserFromJwt()`, which neither the trait nor `Handler` defines. The `Error` it raises is caught at app/Traits/Logger.php:96, and logWithContext discards the failed result (app/Exceptions/Handler.php:145-150) | any unexpected failure, e.g. a `RuntimeException`, on a request with a route: no log record is sent | an unexpected failure is logged once with its request context | not executed | Handler.HandlerLogsNothing | Handler.ContextLogged |
