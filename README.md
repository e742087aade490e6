# StokerCloud v16 client — a Dafny model

This project models `StokerCloudClientV16`, the client that polls the StokerCloud
pellet-boiler service. It covers two parts of the client:

- **Telemetry normalisation.** `_get_val` picks the value of the first `{id, value}` record
  whose `str(id)` equals the requested id. It turns sentinels into `None`, applies `float()` to
  everything else, and returns a string `float()` rejects unchanged. `_parse_response` builds
  the snapshot: two headline readings (`boiler_temp`, `target_temp`), the operating `state`,
  the id→value maps of the `boilerdata`, `hopperdata`, `dhwdata` and `frontdata` lists, and
  `miscdata`, `weathercomp` and `serial` passed through.
- **The token/retry state machine.** `_refresh_token` logs in and stores the reply's `token`.
  `fetch_data` logs in when it holds no token. When the payload has no truthy `frontdata` and
  `retry` is set, it logs in again and calls itself once with `retry=False`.

Files, one module each:

- `wrappers.dfy` (`Wrappers`): `Option`, `Result`, `Outcome`.
- `numbers.dfy` (`Numbers`): Python's `str()` of an integer, and `float()` of a string in plain
  decimal notation.
- `json.dfy` (`Json`): decoded JSON values (None, bool, int, float, str, list, dict) and the
  Python behaviour the client relies on. That is truthiness, `dict.get`, `str()` of a scalar id,
  and dict-key equality (`True == 1 == 1.0`). It also holds the exceptions that can escape
  (`Fault`).
- `telemetry.dfy` (`Telemetry`): `_get_val` and `_parse_response`.
- `client.dfy` (`Client`): pure specification functions `Login` and `Fetch` over a `State`, the
  class `StokerCloudClient` with the mutable `token` field, and its methods `RefreshToken` and
  `FetchData`, proved equal to those functions.

Modelling choices:

- A Python exception is a `Failure(fault)` in a `Result`. The exception raised is the one
  Python's evaluation order reaches first. The `_parse_response` dict literal is evaluated in
  source order; in the comprehension the key is read before the value and hashed after.
- The HTTP session is an abstract scripted `Server`. It holds the replies still to come for
  login and for data requests, and records every request with its URL and query parameters. A
  reply is a decoded body or `NoReply` (a timeout, a connection error or an undecodable body).
  A server that has run out of replies answers `NoReply`. A request whose token aiohttp cannot
  put in a query string (a bool or a dict) raises TypeError and is never sent.
- A float carries its value and the text `str()` prints for it, since ids are compared as text.
- The client is narrower than a full StokerCloud integration, and the model keeps to what its code does:
  - There is no comma-to-point replacement: `"62,3"` stays the string `"62,3"`
    (`ParseResponseCommaScenario`).
  - Only `None`, `"N/A"` and `""` are sentinels. The string `"None"` is not.
  - A string `float()` rejects is passed through unchanged. It is not reported as absent.
  - A failed login raises at once. There is no second login attempt, and no empty snapshot is
    returned (`FetchRejectedLogin`).
  - After the retry, the second payload is parsed whether or not it has `frontdata`
    (`FetchRetried`).
  - A section given as a non-empty flat dict, and a record without `id` or `value`, raise
    (TypeError, KeyError). They are not normalised or skipped (`SectionMapSpec`,
    `InsertFirstFault`).
  - The client has no auxiliary menu-section fan-out and no write path.

## Model

| member | source | states |
|---|---|---|
| Telemetry.GetVal | src/stokercloud_v16/client.py:58-65 | Definition of `_get_val`. Its own contract: an empty list, dict or string gives `None`; any other non-list raises; the only exceptions are AttributeError and TypeError. LookupLoop is proved equal to it. |
| Telemetry.Scan | src/stokercloud_v16/client.py:59-65 | Definition of the loop over a list in `_get_val`. Its own contract: the only exceptions are AttributeError and TypeError, and a reading other than `None` comes from a dict record whose `str(id)` matches. Stated fully by ScanFirstMatch, ScanNoMatch, ScanNonRecord and ScanIgnoresLater. |
| Telemetry.Coerce | src/stokercloud_v16/client.py:61-64 | A matched value gives `None` exactly when it is `None`, `"N/A"` or `""`. It raises TypeError exactly for a list or dict. A string reading is the original string and one `float()` rejects. A number is `float()` of the string or the bool/int/float's numeric value. |
| Telemetry.LookupLoop | src/stokercloud_v16/client.py:58-65 | The loop with early return computes the same result as the recursive definition `GetVal`, for every input shape: list, dict, string, or non-iterable. |
| Telemetry.ScanFirstMatch | src/stokercloud_v16/client.py:59-61 | When records `0..k-1` are dicts whose `str(id)` differs and record `k` matches, the result is the conversion of record `k`'s value. |
| Telemetry.ScanNoMatch | src/stokercloud_v16/client.py:59-65 | When no record matches, including an empty list, the result is `None`. |
| Telemetry.ScanNonRecord | src/stokercloud_v16/client.py:59-60 | A record that is not a dict, reached before any match, raises AttributeError. |
| Telemetry.ScanIgnoresLater | src/stokercloud_v16/client.py:59-61 | Once a record has decided the result, appending any records after it leaves the result unchanged. |
| Telemetry.ScanSentinel | src/stokercloud_v16/client.py:63 | A first match whose value is a sentinel gives `None`. It never gives 0 and never raises. |
| Telemetry.ScanVerbatim | src/stokercloud_v16/client.py:63-64 | A first match whose string value `float()` rejects comes back as that same string. |
| Telemetry.ScanTotal | src/stokercloud_v16/client.py:58-65 | Over dict records with scalar values the lookup never raises. |
| Telemetry.Entry | src/stokercloud_v16/client.py:76 | One comprehension step succeeds exactly for a dict with `id`, `value` and a hashable id. It yields that key and value. A dict missing either field raises KeyError; a non-dict element or an unhashable id raises TypeError. |
| Telemetry.Insert | src/stokercloud_v16/client.py:76-79 | Definition of the comprehension over a list. Its own contract: a success keeps every earlier key, and the only exceptions are KeyError and TypeError. Stated fully by InsertSucceeds, InsertFirstFault and InsertMap. |
| Telemetry.SectionMap | src/stokercloud_v16/client.py:76-79 | Definition of the comprehension over `data.get(key, [])`. Its own contract: an empty list, dict or string gives `{}`, any other non-list raises, and the only exceptions are KeyError and TypeError. Stated fully by SectionMapSpec. |
| Telemetry.InsertSucceeds | src/stokercloud_v16/client.py:76-79 | The comprehension over a list succeeds exactly when every element is a record. |
| Telemetry.InsertFirstFault | src/stokercloud_v16/client.py:76-79 | The first element that is not a record decides the exception raised. |
| Telemetry.InsertMap | src/stokercloud_v16/client.py:76-79 | Over records, the key set is the earlier keys plus the record ids. Each id keeps the value of its last record, and other keys keep their earlier values. |
| Telemetry.SectionMapSpec | src/stokercloud_v16/client.py:76-79 | A section normalises exactly when it is a list of records or an empty list, dict or string. It is then the id→value map of the list, or empty. |
| Telemetry.StateOf | src/stokercloud_v16/client.py:74 | Reading the state succeeds exactly when `miscdata` is a dict and its `state`, present or defaulted, is a dict. |
| Telemetry.ParseResponse | src/stokercloud_v16/client.py:67-84 | Definition of `_parse_response`. Its own contract: it raises only TypeError, AttributeError or KeyError, and without `frontdata` both headline readings are `None`. Stated by ParseResponseSections, ParseResponseState and ParseResponseSucceeds. |
| Telemetry.ParseResponseSections | src/stokercloud_v16/client.py:76-79 | In a parsed snapshot, each of boiler/hopper/dhw/front is empty when its key is absent. Otherwise it has exactly the list's ids as keys, and a repeated id keeps the last value. |
| Telemetry.ParseResponseState | src/stokercloud_v16/client.py:69-82 | `state` is `miscdata.state.value` when all three are present and `"Unknown"` otherwise. `misc` and `weathercomp` pass through (`{}` when absent), and `serial` is `None` when absent. |
| Telemetry.ParseResponseSucceeds | src/stokercloud_v16/client.py:67-84 | A payload whose sections are absent or record lists, with scalar front-panel values and dict-shaped `miscdata`/`state`, parses without raising. |
| Telemetry.ParseResponseCommaScenario | src/stokercloud_v16/client.py:67-84 | The front panel reports `boilertemp` as `"62,3"` and the state as `"Heating"`. The boiler temperature stays the string `"62,3"`, the target temperature is `None`, and the other sections are empty. |
| Numbers.Parse | src/stokercloud_v16/client.py:63 | Definition of `float()` on plain ASCII decimal text. Its own contract: an accepted text is non-empty, and the result is negative only when the text starts with `-`. Stated by ParseIntText, ParseDecimal and ParseRejectsComma. |
| Numbers.ParseIntText | src/stokercloud_v16/client.py:63 | `float(str(i)) == i` for every integer. |
| Numbers.ParseRejectsComma | src/stokercloud_v16/client.py:63-64 | A string containing a comma is rejected by `float()`, so it is returned unchanged. |
| Numbers.ParseDecimal | src/stokercloud_v16/client.py:63 | For digit runs `a` and `d`, not both empty, `float(a + "." + d)` is the whole part `a` plus the fraction `d / 10^len(d)` (`"5."` and `".5"` included). |
| Json.StrEquals | src/stokercloud_v16/client.py:60 | Definition of `str(id) == text` for a scalar id. Its own contract: when an int id matches a text, `float()` of that text gives back the int. |
| Json.KeyOf | src/stokercloud_v16/client.py:76-79 | Only lists and dicts are unhashable. A string id is its own key. |
| Json.KeyOfEquality | src/stokercloud_v16/client.py:76-79 | Two hashable ids share a dict key exactly when Python's `==` holds between them. |
| Client.Login | src/stokercloud_v16/client.py:19-33 | Definition of `_refresh_token`. Its own contract: a successful login leaves a truthy token, a rejected one a falsy token, and the only failures are Transport, AttributeError and LoginRejected. Stated further by LoginRequestSent and LoginOutcome. |
| Client.LoginRequestSent | src/stokercloud_v16/client.py:21-28 | A login sends `user` and `pass` to the login URL. It changes nothing but the token and the session. |
| Client.LoginOutcome | src/stokercloud_v16/client.py:30-33 | A login succeeds exactly when the reply is a dict with a truthy `token`, which becomes `self.token`. A dict reply without one leaves `self.token` falsy and fails with LoginRejected. A non-dict reply or no reply fails with the token unchanged. |
| Client.Fetch | src/stokercloud_v16/client.py:35-56 | Definition of `fetch_data`. Its own contract: a successful call leaves a truthy token that can be sent, a LoginRejected failure leaves a falsy one, and the credentials never change. Stated further by NestedFetch, FetchBounds, FetchSendsTokens, FetchUnsendableToken, FetchWarm, FetchRejectedLogin and FetchRetried. |
| Client.NestedFetch | src/stokercloud_v16/client.py:37-51 | `fetch_data(retry=False)` with a token held makes no login. If the token can be sent as a query parameter, it makes exactly one data request carrying it. Otherwise it raises TypeError without a request. |
| Client.FetchBounds | src/stokercloud_v16/client.py:35-56 | One call logs in at most once at entry (only without a token) and at most once on retry. It makes at most two data requests (one without retry), so recursion is at most one level deep. |
| Client.FetchSendsTokens | src/stokercloud_v16/client.py:37-45 | Every data request a call makes goes to the data URL with the fixed screen and a truthy token that aiohttp accepts. Earlier requests are left as they were. |
| Client.FetchUnsendableToken | src/stokercloud_v16/client.py:41-45 | With a bool or dict token held, aiohttp cannot build the query string. The call raises TypeError with no login and no request, and the state is unchanged. |
| Client.FetchWarm | src/stokercloud_v16/client.py:37-53 | With a sendable token held and a reply with truthy `frontdata`, the call makes no login and one request. It returns the parse of that reply and keeps the token. |
| Client.FetchRejectedLogin | src/stokercloud_v16/client.py:30-38 | Without a token, a login reply lacking a token ends the call with LoginRejected. That takes one login and no data request, and leaves the token falsy. |
| Client.FetchRetried | src/stokercloud_v16/client.py:49-51 | With sendable tokens, a reply without `frontdata` triggers one more login and one retried request with the new token. The result is the parse of the second reply. |
| Client.StokerCloudClient.constructor | src/stokercloud_v16/client.py:11-15 | A new client holds the credentials and the session, and no token. |
| Client.StokerCloudClient.RefreshToken | src/stokercloud_v16/client.py:19-33 | The method's result and its new `token` and session are those of `Login` on the old state. |
| Client.StokerCloudClient.FetchData | src/stokercloud_v16/client.py:35-56 | The method's result and new state are those of `Fetch` on the old state. It is entered at most twice per top-level call. |

## Left out

- HTTP and JSON decoding (`aiohttp`, `response.json`), and the 10 and 15 second timeouts. They
  become the abstract `Server` and its replies. Any transport or decoding failure is `NoReply`.
- `async`/`await` scheduling. Nothing in the client depends on interleaving.
- Logging, and the `except`/log/re-raise in `fetch_data`. The re-raise passes the same
  exception on, so the model returns the fault directly.
- Python `float()` beyond plain ASCII decimal notation. The model's `Parse` rejects strings
  Python accepts: exponents, `inf`/`nan`, surrounding whitespace and digit-group underscores.
  So `Coerce` returns such a string as text where Python returns a number.
- Non-ASCII Unicode decimal digits. Python's `float()` accepts them (`float("٦٢") == 62.0`);
  the model's `Parse` rejects them, so `Coerce` returns the string unchanged.
- Rounding to a binary double: numbers are exact reals. `float()` of a huge int
  overflowing is not modelled either.
- The JSON literals `NaN`, `Infinity` and `-Infinity`. `json.loads` decodes them to floats, but
  a `Float` holds a real value, so a payload containing them is outside the model.
- A list-valued token. The model sends it as one parameter. Depending on its elements and the
  library version, aiohttp (through yarl) either expands it into repeated parameters or refuses
  it with TypeError.
- Python's limit on the number of digits `str()` of an int may print.
- Telemetry.GetVal: requires that the looked-up id does not start with `[` or `{`. The model
  does not render `str()` of a list or dict id; under this requirement such an id can never
  match. Both lookups in the client (`boilertemp`, `-wantedboilertemp`) meet it.
- Which of several equal keys (`True`, `1`, `1.0`) a Python dict keeps as its key object. The
  model identifies the keys by Python equality and records only the value, which is the last one.
- Insertion order of the result dicts. Maps are unordered, and nothing in the client reads the
  order.
