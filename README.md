# API-protection utilities of an Obsidian MCP server, in Dafny

This project models the `src/utils` layer of a Python server that sits in front
of the Obsidian Local REST API and proves properties of that model:

- **Rate limiting** (`rate_limiting.dfy`): a fixed-window limiter. A map from key
  to `{count, reset_time}` is reset, incremented or left alone by
  `check_rate_limit`. `enforce_rate_limit` turns a denial into an error with code
  42900. `get_rate_limit_info` takes a read-only snapshot. The periodic cleanup
  evicts expired entries. The class `RateLimiter` updates its map in place and is
  proved against the pure step functions `Check`, `Enforce`, `Info` and `Sweep`.
- **Token-bounded truncation** (`tokenization.dfy`): `count_tokens` and
  `truncate_to_token_limit` over an uninterpreted tokenizer (a pair
  `encode`/`decode`). Python's `tokens[:available]` slicing is modelled exactly,
  including the negative `available` case.
- **Validation** (`validation.dfy`): the path-traversal and absolute-path checks
  of `validate_file_path`, the character filter of `sanitize_header`, and
  `validate_tool_arguments` over a small JSON-Schema subset. The validator loops
  over required names and then over arguments, appending errors in order.
- **Error codes** (`errors.dfy`): `get_error_code_from_status`, the
  code normalisation of the `ObsidianError` constructor, `to_api_error` and
  `to_dict`.
- **Logging** (`logging.dfy`): the recursive, key-preserving masking of sensitive
  context values, the level gate of `log`, the timer map of
  `start_timer`/`end_timer`, and `set_level`.

Shared modules: `Wrappers` (`Option`, `Outcome`), `PyValues` (the Python values
passed as arguments and contexts, Python's `==` on them, dictionary lookup) and
`Strings` (substring test, `startswith`, `replace`, ASCII `lower`, `str(int)`).

Python dictionaries keep insertion order, and that order is observable here: it
fixes the order of validation errors and of masked entries. So a dictionary is a
sequence of `(key, value)` entries. The clock (`time()`, `datetime.now()`) is the
integer parameter `now`, in milliseconds. Each body that the limiter runs under
its lock is one atomic method.

The limiter keeps one fixed window per key and replaces it once
`now > reset_time`.

Where the code does less than its own comments and docstrings say, the model
follows the code:

- `truncate_to_token_limit` promises to stay within the limit, but nothing bounds
  the token count of a truncated result. The code never re-measures it.
- The `ObsidianError` constructor promises a 5-digit error code. That holds only
  for requested codes of at least 100.

## Model

| member | source | states |
|---|---|---|
| RateLimiting.Check | src/utils/rate_limiting.py:35-57 | one atomic check: the key always has an entry afterwards, every other key's entry is unchanged, and the request is admitted iff the key has no live window or its count is below `max_requests` |
| RateLimiting.CheckOpensFreshWindow | src/utils/rate_limiting.py:43-51 | an unseen key, or one with `reset_time < now`, gets `{count: 1, reset_time: now + window_ms}` and is admitted |
| RateLimiting.CheckAtResetTimeUsesOldWindow | src/utils/rate_limiting.py:45 | the expiry test is strict: at `now == reset_time` a full window still denies |
| RateLimiting.CheckDeniesFullWindow | src/utils/rate_limiting.py:53-54 | a live window with `count >= max_requests` denies and leaves the map unchanged |
| RateLimiting.CheckCountsRequest | src/utils/rate_limiting.py:56-57 | otherwise the key's count grows by exactly one, its reset time is kept, and the request is admitted |
| RateLimiting.CheckPreservesBounded | src/utils/rate_limiting.py:43-57 | every count stays between 1 and max(1, max_requests) |
| RateLimiting.OutcomesInOpenWindow | src/utils/rate_limiting.py:53-57 | in a live window holding `c` requests, the i-th next call at the same instant is admitted iff `c + i < max_requests` |
| RateLimiting.FirstRequestsAdmitted | src/utils/rate_limiting.py:45-57 | with no time advance and a non-negative window, exactly the first max(1, max_requests) calls for a fresh key are admitted |
| RateLimiting.NegativeWindowAdmitsAll | src/utils/rate_limiting.py:45-51 | a negative `window_ms` installs windows that are already expired, so every call is admitted |
| RateLimiting.TwoPerSecondScenario | src/utils/rate_limiting.py:35-85 | with 2 requests per 1000 ms, calls at t=0,0,0 give admitted, admitted, denied; a call at t=1001 is admitted and leaves 1 remaining |
| RateLimiting.Enforce | src/utils/rate_limiting.py:59-69 | raises exactly when the check denies, and then the error is "Rate limit exceeded for <key>. Please try again later." with code 42900; the state change is the check's |
| RateLimiting.Info | src/utils/rate_limiting.py:71-85 | `None` iff the key has no entry; otherwise `remaining = max(0, max_requests - count)` and the stored reset time |
| RateLimiting.InfoPredictsCheck | src/utils/rate_limiting.py:53-54 | in a live window the next check admits iff the snapshot's `remaining` is positive |
| RateLimiting.InfoAfterFirstCheck | src/utils/rate_limiting.py:47-50 | after a fresh key's first check, `max_requests - 1` requests remain (floored at 0) until `now + window_ms` |
| RateLimiting.Sweep | src/utils/rate_limiting.py:91-98 | the cleanup keeps exactly the entries with `now <= reset_time`, each unchanged |
| RateLimiting.SweepPreservesBounded | src/utils/rate_limiting.py:93-98 | the sweep keeps every count between 1 and max(1, max_requests) |
| RateLimiting.SweepRemovesAllExpired | src/utils/rate_limiting.py:93-98 | when every window has passed, one sweep empties the map |
| RateLimiting.InfoAbsentAfterSweep | src/utils/rate_limiting.py:77-80 | a key the sweep removed is reported as absent |
| RateLimiting.SweepIsUnobservable | src/utils/rate_limiting.py:45 | a sweep never changes a later check's decision or the entry that check leaves |
| RateLimiting.RateLimiter.constructor | src/utils/rate_limiting.py:27-33 | a new limiter has the given configuration, an empty map, a 60 s sweep interval and a sweep scheduled |
| RateLimiting.RateLimiter.CheckRateLimit | src/utils/rate_limiting.py:35-57 | the decision and the new map are those of `Check`, and the count bounds hold |
| RateLimiting.RateLimiter.EnforceRateLimit | src/utils/rate_limiting.py:59-69 | the outcome and the new map are those of `Enforce` |
| RateLimiting.RateLimiter.GetRateLimitInfo | src/utils/rate_limiting.py:71-85 | returns the snapshot `Info` and changes nothing |
| RateLimiting.RateLimiter.Cleanup | src/utils/rate_limiting.py:87-102 | deletes the expired keys one by one, so the map becomes `Sweep` of the old map, and reschedules the sweep |
| RateLimiting.RateLimiter.Dispose | src/utils/rate_limiting.py:104-109 | cancels the scheduled sweep; calling it again changes nothing |
| Tokenization.TruncateToTokenLimit | src/utils/tokenization.py:68-88 | the token count is the length of the encoding; a text whose count is at most the limit is returned unchanged, without the marker; any other text comes back ending with the marker |
| Tokenization.TruncateAppendsMarker | src/utils/tokenization.py:78-88 | a text over the limit becomes the decoding of a prefix of its own tokens followed by the marker, so it always ends with the marker |
| Tokenization.TruncateKeepsAvailablePrefix | src/utils/tokenization.py:82-87 | when `available = limit - count(marker)` is at least 0, exactly the first `available` tokens are decoded |
| Tokenization.TruncateWithNegativeAvailable | src/utils/tokenization.py:84-87 | when `available` is negative, the slice drops the last `-available` tokens (all of them if there are no more); it does not keep an empty prefix |
| Tokenization.ZeroLimitDropsTail | src/utils/tokenization.py:84-88 | a limit of 0 with a 3-token marker keeps 7 of 10 tokens |
| Tokenization.FiveTokenLimitScenario | src/utils/tokenization.py:74-88 | a limit of 5 with a 3-token marker keeps the first 2 of 10 tokens |
| Tokenization.TruncateDependsOnlyOnTokenizer | src/utils/tokenization.py:74-88 | the result depends only on the text, the limit, and what the tokenizer does on the text, the marker and the kept prefixes |
| Validation.NormalizePath | src/utils/validation.py:23 | normalising keeps the length and leaves no backslash |
| Validation.ValidateFilePath | src/utils/validation.py:16-35 | a path gets the traversal error iff its normalised form contains `../`; otherwise it gets the absolute-path error iff it starts with `/` or `\`, or with an ASCII letter and a colon; every other path is accepted |
| Validation.BackslashTraversalTestIsDead | src/utils/validation.py:23-24 | the `"..\\"` test can never hold after normalisation |
| Validation.BackslashDotDotRejected | src/utils/validation.py:23-28 | `..\x` is rejected as traversal |
| Validation.TrailingDotDotAccepted | src/utils/validation.py:23-35 | a trailing `a/..` is accepted |
| Validation.TraversalCheckedFirst | src/utils/validation.py:24-35 | `/../x` gets the traversal error, not the absolute-path error |
| Validation.SanitizeHeader | src/utils/validation.py:37-44 | the output is a subsequence of the input, no longer than it, and built only of allowed characters |
| Validation.SanitizeHeaderCharacterwise | src/utils/validation.py:44 | sanitising works character by character: it distributes over concatenation, keeps an allowed character, drops any other, and is idempotent |
| Validation.SanitizeHeaderKeepsLineBreaks | src/utils/validation.py:44 | `\r` and `\n` belong to `\s` and pass through |
| Validation.SanitizeHeaderSafe | src/utils/validation.py:37-44 | corrected sanitiser: a subsequence of allowed characters with no `\r` or `\n` |
| Validation.SanitizeHeaderSafeAgrees | src/utils/validation.py:44 | on input without control whitespace the corrected sanitiser agrees with the original; it is idempotent |
| Validation.MissingRequired | src/utils/validation.py:59-62 | at most one error per required name, and every error it reports is a missing-field error for a required name that the arguments lack |
| Validation.EntryErrors | src/utils/validation.py:64-95 | one argument gets at most three errors (unknown field, or type, enum and path), and each of them names that argument's key |
| Validation.ToolArgumentErrors | src/utils/validation.py:46-97 | arguments that are not a dictionary give exactly the error "Arguments must be an object"; otherwise there is no error iff every required name is present and every argument passes its checks |
| Validation.MissingRequiredIff | src/utils/validation.py:59-62 | a missing-field error is reported for a name iff it is required and absent |
| Validation.MissingFieldsFirst | src/utils/validation.py:56-97 | missing-field errors form a prefix of the error list, and the per-argument errors follow them |
| Validation.UnknownFieldOnlyError | src/utils/validation.py:67-70 | an argument without a property schema gets one "Unknown field" error and nothing else |
| Validation.NullOptionalSkipped | src/utils/validation.py:72-74 | `None` for a known, optional field produces no error |
| Validation.OneArgumentSeveralErrors | src/utils/validation.py:76-95 | the type, enum and path checks are independent: one argument can get all three errors |
| Validation.CheckRequired | src/utils/validation.py:59-62 | the loop over `required` yields one missing-field error per absent name, in `required` order |
| Validation.CheckArgument | src/utils/validation.py:66-95 | the checks of one argument append the type, enum and path errors in that order |
| Validation.ValidateToolArguments | src/utils/validation.py:46-97 | the loops build exactly the specified error list, and `valid` holds iff it is empty |
| Errors.NormalizeErrorCode | src/utils/errors.py:31-38 | a code in `[10000, 99999]` is kept; a code below 1000 (an HTTP status such as 404) becomes `code * 100`; codes from 1000 to 9999 and above 99999 become 50000; so any code of at least 100 ends up 5-digit, while a code below 100 does not |
| Errors.SmallCodeIsNotFiveDigits | src/utils/errors.py:31-36 | a requested code of 5 is stored as 500 |
| Errors.NewObsidianError | src/utils/errors.py:26-38 | the constructor keeps the message and details, and stores the normalised code (default 50000) |
| Errors.ApiErrorOfNewError | src/utils/errors.py:15-44 | the API dictionary of a new error holds `errorCode` = the normalised code and `message` = the message |
| Errors.ToApiError | src/utils/errors.py:40-44 | the API error carries the error's code and message |
| Errors.ToDict | src/utils/errors.py:15-19 | the dictionary has exactly the keys `errorCode` and `message`, in that order, holding the code and the message |
| Errors.ToDictRoundTrip | src/utils/errors.py:15-19 | an API error can be read back from its dictionary |
| Errors.ErrorCodeFromStatus | src/utils/errors.py:47-80 | every status in `[400, 600)` maps to `status * 100`, so the special cases agree with the general formulas; every other status maps to 50000; the result is a multiple of 100 in `[40000, 59900]` |
| Errors.ErrorCodeFromStatusInjective | src/utils/errors.py:51-78 | two distinct error statuses never share a code |
| Errors.StatusCodesAreNormal | src/utils/errors.py:31-80 | a status-derived code passes the constructor's normalisation unchanged |
| Logging.MaskEntries | src/utils/logging.py:85-96 | masking keeps the number of entries and the keys in order |
| Logging.MaskSensitiveData | src/utils/logging.py:81-83 | with masking off, the data is returned unchanged |
| Logging.MaskEntriesAt | src/utils/logging.py:88-94 | a sensitive key maps to `"********"` whatever its value, including a dictionary; other dictionaries are masked recursively; other values are copied |
| Logging.MaskIdempotent | src/utils/logging.py:88-96 | masking an already masked dictionary changes nothing |
| Logging.SensitiveKeyIgnoresCase | src/utils/logging.py:89 | the sensitivity test is made on the lower-cased key, so a key and its lower-cased form are equally sensitive |
| Logging.MonkeyIsSensitive | src/utils/logging.py:38-90 | "monkey" contains "key", so its value is masked |
| Logging.SensitivityIgnoresCase | src/utils/logging.py:89 | the test is made on the lower-cased key, so "API_Key" is sensitive |
| Logging.LogOutput | src/utils/logging.py:98-104 | nothing is emitted iff the level's value exceeds the configured one; otherwise exactly one record is emitted with that level and message, sent to the logger method named after the level (TRACE falls back to `debug`), whose context is the masked `context or {}` and has the same keys |
| Logging.EnabledMonotone | src/utils/logging.py:99-100 | the gate of `log`: raising the configured level never suppresses a message that passed, a more severe message passes wherever a less severe one does, ERROR always passes and TRACE lets everything through |
| Logging.TraceSuppressedAtDebug | src/utils/logging.py:18-100 | at DEBUG, TRACE is the only level suppressed |
| Logging.Logger.constructor | src/utils/logging.py:51-57 | a logger starts with the given level, masking switch and fields, no timers and no records |
| Logging.Logger.Log | src/utils/logging.py:98-104 | appends exactly `LogOutput` for the logger's current level |
| Logging.Logger.StartTimer | src/utils/logging.py:121-122 | records the start time under the id |
| Logging.Logger.EndTimer | src/utils/logging.py:124-132 | removes the id; for an absent id it logs a warning, returns 0 and leaves the timer map unchanged; otherwise it returns the elapsed time and logs it |
| Logging.Logger.SetLevel | src/utils/logging.py:134-136 | replaces the configured level |
| Logging.TimerLifecycle | src/utils/logging.py:121-132 | a timer that is started, ended and ended again returns the elapsed time and then 0, and the id is gone |
| Logging.SetLevelGatesLaterCalls | src/utils/logging.py:99-136 | after `set_level(TRACE)` a TRACE message yields one record, sent to the `debug` method with an empty context; after `set_level(DEBUG)` the same call yields none |

## Findings

| source | as written | input that shows it | evidently intended | confidence | as-written member | corrected member |
|---|---|---|---|---|---|---|
| src/utils/validation.py:37-44 | the kept class contains `\s`, so carriage return and line feed pass through a function documented as preventing header injection | `"a\r\nb"` is returned unchanged | keep only space and tab among whitespace, so the value cannot start a new header line | medium, not executed | Validation.SanitizeHeaderKeepsLineBreaks | Validation.SanitizeHeaderSafe |

## Left out

- Threading: the limiter's `Lock` and its self-rescheduling `Timer` are not modelled. Each locked body is one atomic method. The sweep is the method `Cleanup`, which the model does not run on a schedule. A `Cleanup` that is running while `dispose` is called reschedules itself afterwards. That race is concurrency and is not modelled.
- Clocks: `time()` and `datetime.now()` are the parameter `now`, in whole milliseconds. The float millisecond arithmetic of `end_timer` becomes an integer difference, formatted with `.00`.
- The tokenizer library (`tiktoken`, the lazy `tokenizer` property), the process-wide `token_counter` and `rate_limiter` instances, and the signal and `atexit` handlers of the token counter are not modelled. `encode` and `decode` are uninterpreted. The model assumes neither `decode(encode(x)) == x` nor that a truncated result fits the limit; the code checks neither.
- A failure to load the tokenizer is not modelled. It is a foreign call.
- `MAX_TOKENS` is read from the environment. The model uses its default, 20000.
- Logging output: file and console handlers, `os.makedirs`, `json.dumps`, and the Python `logging` module's own level filters are not modelled. Instead, what `log` hands to the logger method is appended to `records`. The module-level `root_logger` is left out because it creates files on import.
- `Logger.error`, `warn`, `info`, `debug` and `trace` only call `log` with a fixed level. They are not modelled separately.
- The configuration merge of the logger's constructor becomes constructor parameters. The default level depends on `NODE_ENV` in the source; it is a parameter whose default is DEBUG.
- `ErrorCategoryType` and `log_level_to_severity` are not modelled. Nothing in the core reads them.
- Floats: `PyValues.Value` has no float, so `isinstance(value, (int, float))` is modelled as int-or-bool. Python's bool is an int.
- Validation.SanitizeHeader: models `\w` and `\s` on ASCII only. Python keeps non-ASCII letters, digits and whitespace; the model drops them.
- Logging.IsSensitiveKey: lower-cases ASCII letters only. Python's `str.lower()` also folds other scripts.
- Validation.ArgError: the message texts are constructors, one per f-string. The `str()` rendering of enum members in the enum message is not modelled.
- A property schema that is not a dictionary, and an `enum` that is not a list, are not modelled.
- `src/utils/id_generator.py`, the HTTP clients, `src/server.py`, the data shapes in `models.py` and `exceptions.py`, and the re-exports in the `__init__.py` files are not part of this model.
- The three `ObsidianError` classes stay separate:
  - `RateLimiting.RateLimitError`: message and integer code.
  - `Validation.ValidationError`: message and string code.
  - `Errors.ObsidianError`: the only one that normalises codes.
