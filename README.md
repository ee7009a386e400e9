# myGengo client core, modelled in Dafny

`mygengo.py` is a small Python 2 client for the myGengo translation API. Almost
all of it is I/O. This project models the logic inside `Client._request` and its
helpers, plus the parameter assembly of a few operations:

- **Response envelope** (`Envelope`). `_check_json` and the checks that turn a decoded
  body into one of three outcomes: the `response` payload, a `JsonError` with code -2,
  or a `MygengoError` carrying the server's `err.code` and `err.msg`. With
  `parse_json=False` the raw body is returned untouched.
- **Retry loop** (`Retry`). The `while num_tries > 0` loop, written as a method over a
  scripted transport: `transport(i)` is what attempt `i` gets back. It is proved equal
  to a recursive specification, and lemmas characterise how a run ends.
- **Rate limit** (`RateLimit`, `Mygengo.Client`). `_wait_between_requests` on the
  mutable field `_last_request_time`, with clock readings in milliseconds (500 ms
  between requests).
- **Request canonicalisation** (`Signing`, `KeyOrder`, `SlashEscape`, `Decimal`).
  For GET/DELETE, a copy of the parameters gets `api_key` and `ts`, is sorted by name
  and form-encoded, and `api_sig` is appended last. For POST/PUT, the parameters are
  wrapped in `data`, and the signature is computed over the serialised fields with
  every `/` escaped as `\/`.
- **Operation parameters** (`Operations`). The dicts that `submit_job`, `get_jobs`,
  `get_job`, `update_job` and `get_language_pairs` pass to `_request`.

HMAC-SHA1, `json.dumps`, `json.loads` and `urllib.quote_plus` are fields of
`Library.Primitives`, a datatype of functions. Every property holds whatever those
functions compute. Python's `None` is `Option.None`, or `JNull` where the value ends
up in JSON. A raised exception is a `Result.Failure`.

Points of the code worth stating outright:

- The retry loop decrements `num_tries` before it tests it, so the third consecutive
  500/503 is raised (`Retry.ThirdOutageRaised`).
- The status field of a response is `opstat`.
- `err.code` and `err.msg` are only checked for presence, and are passed on whatever
  their type.
- The 500 ms wait is counted from the previous request's entry reading (see Findings).

## Model

| member | source | states |
|---|---|---|
| `Envelope.CheckJson` | mygengo.py:84-87 | succeeds iff the document is an object holding the field, yields that field's value, and otherwise fails with `JsonError(-2, MissingField(field))` |
| `Envelope.CheckEnvelope` | mygengo.py:189-201 | success iff `opstat` is "ok" and `response` is present, yielding `response` unchanged; `MygengoError` iff `opstat` is "error" and `err`, `err.code`, `err.msg` are all present, carrying exactly that code and msg; every other failure is a `JsonError` with code -2 |
| `Envelope.DecodeResponse` | mygengo.py:180-201 | with `parse_json` false the raw body is returned untouched; an unparsable body is `JsonError(-2, Unparsable)`; otherwise success iff the decoded document is an ok envelope, with its payload, and failure carries the envelope check's error |
| `Envelope.MissingOpstat` | mygengo.py:190 | a document without `opstat` fails with `JsonError(-2)` naming `opstat`, whatever else it holds |
| `Envelope.UnknownOpstatRejected` | mygengo.py:191-192 | an `opstat` other than "ok"/"error" fails with `JsonError(-2)` reporting that value |
| `Envelope.IncompleteErrorEnvelope` | mygengo.py:193-197 | an "error" envelope lacking `err`, `code` or `msg` is `JsonError(-2)` naming the first missing one, never a `MygengoError` |
| `Envelope.OkEnvelopeRoundTrip` | mygengo.py:199-201 | any payload the server wraps in an ok envelope comes back unchanged |
| `Envelope.ErrorEnvelopeRoundTrip` | mygengo.py:193-197 | any code and msg the server reports in an error envelope are raised exactly |
| `Envelope.BalanceExample` | mygengo.py:215-217 | `{"opstat":"ok","response":{"credits":"120.00"}}` yields the credits "120.00" |
| `Retry.SendWithRetry` | mygengo.py:160-178 | the loop's outcome, attempt count and sleep count equal the specification `Retries`; 1 to 3 attempts; one sleep fewer than attempts |
| `Retry.RunBounds` | mygengo.py:160-178 | from any point, a run makes at least one and at most `num_tries` further attempts and sleeps exactly once per retried attempt |
| `Retry.RunStopsAt` | mygengo.py:160-178 | a run ends on attempt k exactly when all earlier attempts were 500/503 and k is not one or is the last try; the result is what attempt k produced |
| `Retry.RetriesStopAt` | mygengo.py:160-178 | the same characterisation for the whole loop from `NUM_TRIES = 3` |
| `Retry.StopsAtFirstSuccess` | mygengo.py:163-166 | the first delivered body ends the loop with that body, after k attempts were retried |
| `Retry.OtherStatusRaisedAtOnce` | mygengo.py:167-174 | an HTTP status other than 500/503 is re-raised on the attempt that received it |
| `Retry.ConnectionFailureNotRetried` | mygengo.py:175-176 | a connection failure becomes `ConnectionError(-1, cause)` with no retry |
| `Retry.ThirdOutageRaised` | mygengo.py:168 | three 500/503 answers in a row: the third is re-raised after three attempts and two sleeps |
| `RateLimit.WaitDelay` | mygengo.py:109-118 | as written: no sleep when the last reading is None or 0; otherwise the least sleep that ends 500 ms after the last reading, so none once 500 ms have passed and exactly `500 - (now - last)` before |
| `RateLimit.EntrySpacing` | mygengo.py:113-118 | as written, from a non-zero entry reading the next request leaves at least 500 ms after that reading |
| `RateLimit.DispatchSpacingCounterexample` | mygengo.py:113-118 | as written, requests entering at 1000, 1100 and 1500 ms leave at 1000, 1500 and 1600 ms |
| `RateLimit.ZeroReadingCounterexample` | mygengo.py:114 | as written, a previous reading of 0 imposes no pause on the next request |
| `RateLimit.IntendedDelay` | mygengo.py:109-118 | as intended: no sleep only when there was no previous request; otherwise the least sleep that ends 500 ms after it |
| `RateLimit.IntendedSpacing` | mygengo.py:109-118 | as intended, consecutive requests leave at least 500 ms apart, dispatch to dispatch, and the recorded time is the dispatch time |
| `Mygengo.Client.constructor` | mygengo.py:89-97 | selects the sandbox or production URL by the flag, keeps both keys, and starts with no last request time |
| `Mygengo.Client.WaitBetweenRequests` | mygengo.py:109-118 | sleeps `WaitDelay(old last, now)`, and afterwards `_last_request_time` is the reading taken on entry, before any sleep |
| `Mygengo.Client.WaitBetweenRequestsIntended` | mygengo.py:109-118 | sleeps `IntendedDelay`, at least until 500 ms after the previous dispatch, and records the dispatch time |
| `Mygengo.Client.AddApiKey` | mygengo.py:99-102 | the dict gains `api_key` and `ts = str(int(time.time()))`; every other entry is kept |
| `Mygengo.Client.PrepareBody` | mygengo.py:130-141 | the POST/PUT request carries the signed form `PostForm` of the caller's entries |
| `Mygengo.Client.PrepareQuery` | mygengo.py:142-151 | the GET/DELETE request carries the signed query `SignedQuery` of the caller's entries |
| `Mygengo.Client.Request` | mygengo.py:120-201 | waits as the corrected rate limit does (see Findings), leaves the caller's dict unchanged, sends the canonical request, sleeps as the retry loop does, and returns the retry error or the decoded response |
| `Signing.Timestamp` | mygengo.py:102 | `ts` is `str(int(time.time()))`: nonempty decimal digits with no leading zero (only "0" starts with 0) that parse back to the whole seconds of the clock |
| `Signing.WithApiKey` | mygengo.py:99-102 | the keys become the caller's plus `api_key` and `ts`, with those values; the other entries are unchanged |
| `Signing.ItemsOf` | mygengo.py:146-148 | one `(key, value)` pair per given name, in the given order, with that key's string value |
| `Signing.Utf8Params` | mygengo.py:146-148 | the loop builds exactly the sorted item list `SortedItems` |
| `Signing.SortedItemsCanonical` | mygengo.py:147 | the sorted items hold every parameter name once, ascending, each with its own value |
| `Signing.SignedNames` | mygengo.py:144-148 | the signed pairs are the caller's names plus `api_key` and `ts`, ascending |
| `Signing.SignatureAppendedLast` | mygengo.py:149-150 | appending `&api_sig=<sig>` to the encoded pairs (the text the signature is computed over) equals encoding them with `api_sig` as the last pair |
| `Signing.PostFormShape` | mygengo.py:130-139 | POST/PUT sends exactly `data`, `api_key`, `ts`, `api_sig`; `data` is the caller's dict serialised; the signature covers the serialised fields with slashes escaped: no bare slash, one extra character per slash, and it unescapes to the serialised text |
| `KeyOrder.SortedKeys` | mygengo.py:147 | `sorted` yields every key exactly once, in ascending Python string order |
| `SlashEscape.EscapeSlashes` | mygengo.py:138 | the escaped message has no `/` that is not preceded by `\`, grows by exactly the number of slashes, and is unchanged when there is none |
| `SlashEscape.UnescapeEscape` | mygengo.py:136-138 | reading each `\/` back as `/` recovers the original message |
| `SlashEscape.EscapeInjective` | mygengo.py:138 | two messages with the same escaped form are equal |
| `Decimal.NatToDecimal` | mygengo.py:348-350 | `str(n)` of a natural is nonempty digits with no leading zero |
| `Decimal.IntRoundTrip` | mygengo.py:348-350 | `int(str(n)) == n` for every integer |
| `Operations.FlagString` | mygengo.py:316 | `str(int(flag))` is "1" iff the flag is set and "0" iff not |
| `Operations.SubmitJobParams` | mygengo.py:303-325 | a supplied job is passed through unchanged; otherwise `body_src`, `lc_src` (default "en"), `lc_tgt`, `tier` (default "machine") and `auto_approve` ("1"/"0") are always set, and each of `slug`, `custom_data`, `comment`, `callback_url` is present iff its argument is not None, with that value |
| `Operations.OptionalJobFieldsGiven` | mygengo.py:317-324 | each of `slug`, `custom_data`, `comment`, `callback_url` is added iff it is not None, with its own value, and nothing else is added |
| `Operations.JobFieldsShape` | mygengo.py:311-324 | the job dict holds the five required fields with their values and each optional field iff given; no other name appears |
| `Operations.GetJobsParams` | mygengo.py:344-351 | `status`, `timestamp_after`, `count` are each present iff given; the numbers are sent as decimal text that parses back to them |
| `Operations.GetJobParams` | mygengo.py:288 | parameters are sent iff `pre_mt` is set, and then are exactly `pre_mt = "1"` |
| `Operations.UpdateJobParams` | mygengo.py:299-300 | the keys are `action` plus the other keyword arguments, each with its own value |
| `Operations.LanguagePairsParams` | mygengo.py:370 | `lc_src` is sent iff a non-empty source is given, with that value |

## Left out

- HTTP transport (`urllib2.urlopen`, `MethodRequest`, headers, the timeout, URL concatenation): replaced by a scripted outcome per attempt; a request is described by its verb, path, query string and form fields.
- HMAC-SHA1, `json.dumps`, `json.loads` and `urllib.quote_plus`: library code, passed in as functions and not interpreted.
- `urllib.urlencode` of the POST form dict: Python 2 dict order is unspecified, so the form is kept as a map of fields.
- `value.encode('utf-8')` on GET values: taken as the identity, so a non-ASCII byte string raising `UnicodeDecodeError` is not modelled. Non-string GET values, which fail in Python on `.encode`, are excluded by a precondition.
- `time.time()` and `time.sleep`: clock readings are whole milliseconds passed in (negative clocks are not modelled), and each sleep is returned as a duration or, for the retry loop, counted (each retry sleeps 5000 ms).
- `logging.info` in the retry loop and the message text of each error: `JsonFault` stands for the message of a `JsonError`.
- A decoded document, or an `err` value, that is not an object is treated as lacking every field, so the model reports `JsonError(-2, MissingField(..))` for it. Python instead raises `TypeError` when that value is a number, boolean or null (at the `in` test of mygengo.py:86 and mygengo.py:195-196), and when it is a list or string that contains the field (at the subscript of mygengo.py:191 and mygengo.py:197).
- JSON floating-point numbers: JSON numbers are integers here.
- Thread safety of `_last_request_time`: one caller is modelled.
- The `__main__` command-line interface, writing the preview image to a file in `get_job_preview`, and `Error.__str__`.
- The remaining operations (`get_account_stats`, `get_account_balance`, `get_job_preview`, `get_job_revision(s)`, `get_job_feedback`, `submit_job_comment`, `get_job_comments`, `cancel_job`, `get_job_group`, `submit_job_group`, `get_languages`) are single calls of `_request`. The field they extract from a response is `Envelope.CheckJson`. Their path formatting and the call itself are not written out, and neither are those of the five modelled operations.
- Operations.GetJobsParams: `timestamp_after` and `count` are integers here; Python sends `str(x)` of whatever value is passed (a string such as "123" from the command line, a float), which is not modelled.
- Operations.SubmitJobParams: `auto_approve` is a boolean; the command line's string values of it are not modelled.
- Mygengo.Client.Request: waits with the corrected `WaitBetweenRequestsIntended`, not the code's `WaitBetweenRequests`; see Findings.
- Mygengo.Client.Request: the rate-limit reading `entryClock` and the `ts` reading `signingClock` are independent inputs; the model does not keep the source's order (the `ts` reading of mygengo.py:102 is taken after the rate-limit reading of mygengo.py:113 and its sleep), since `time.time()` is a wall clock that need not move forward.

## Findings

| source | as written | input that shows it | evidently intended | confidence | as-written member | corrected member |
|---|---|---|---|---|---|---|
| mygengo.py:113-118 | `_last_request_time = now` stores the reading taken before the sleep, so the next request is spaced from this one's entry, not from its dispatch | requests entering at 1000, 1100 and 1500 ms (each after the previous one left) are dispatched at 1000, 1500 and 1600 ms, only 100 ms apart | store the moment the request leaves (`now + delta`), so requests leave at least 500 ms apart | medium, not executed | `Mygengo.Client.WaitBetweenRequests`, `RateLimit.DispatchSpacingCounterexample` | `Mygengo.Client.WaitBetweenRequestsIntended`, `RateLimit.IntendedSpacing` |
| mygengo.py:114 | `if self._last_request_time and ...` is false for a reading of 0 as well as for `None` | a request at clock 0 followed by one at 100 ms: the second is not held back | test `is not None` | low (needs a clock reading of exactly 0), not executed | `Mygengo.Client.WaitBetweenRequests`, `RateLimit.ZeroReadingCounterexample` | `RateLimit.IntendedDelay`, `Mygengo.Client.WaitBetweenRequestsIntended` |
