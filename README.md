# MobilVest SMS client: request signing and response normalisation

A Dafny model of the `MobilVestApi` client for the MobilVest SMS gateway
(`mobilvest/mobilvest.py`). Every endpoint of the client goes through one
path, and that path is what is modelled and proved here:

- **Endpoint marshalling.** Each endpoint builds its own parameter map. A
  "one value or a list" argument (`state`, `phone`) is turned into a
  comma-separated string by `_list_to_str`. Months and dates go out as
  zero-padded `YYYY-MM` and `YYYY-MM-DD`.
- **Signing** (`_prepare_params`). The caller's map is copied and `login`,
  `timestamp` and `return = "json"` are written over it. The canonical
  string is the `str` of every value in ascending key order, with no
  separators and no key names. The signature is the digest of the canonical
  string followed by the secret API key, and it is added last.
- **Normalisation** (`_call_api`). An empty reply and error code 19 give no
  data. Any other error raises with the message from the provider's error
  table. Every other reply is returned unchanged.

Modules:

- `Strings` (`strings.dfy`): Python's string order, `str(int)`, zero-padded
  digits, comma join and split.
- `Signing` (`signing.dfy`): parameter values, `_list_to_str`, `sorted`, the
  canonical string and the signed parameter set.
- `Responses` (`responses.dfy`): JSON replies, the error table and
  normalisation.
- `Dates` (`dates.dfy`): the `strftime` month and date strings.
- `Client` (`client.dfy`): the `MobilVestApi` class with `_prepare_params`,
  `_call_api` and every endpoint as methods.

Things outside the program are inputs to the model:

- **Timestamp.** The client fetches it from the provider before every call.
  Here it is a parameter of each call.
- **Digest.** The client uses MD5 in hex. Here it is an arbitrary function
  `string -> string` given to the constructor.
- **Provider.** It is a function from the outgoing request (URL and query
  map) to the parsed JSON object it answers with.

Each endpoint method states its URL and its exact signed query. It also
states that its outcome is the normalisation of whatever the provider
answers.

## Model

| member | source | states |
|---|---|---|
| Strings.AtMostReflexive | mobilvest/mobilvest.py:78 | Python's string order (used by `sorted`) is reflexive |
| Strings.AtMostAntisymmetric | mobilvest/mobilvest.py:78 | two strings each at most the other are equal |
| Strings.AtMostTransitive | mobilvest/mobilvest.py:78 | the string order is transitive |
| Strings.AtMostTotal | mobilvest/mobilvest.py:78 | any two strings are comparable |
| Strings.NatToDecimal | mobilvest/mobilvest.py:55 | `str(n)` of a natural number is a non-empty digit string with no leading zero |
| Strings.IntToDecimalRoundTrip | mobilvest/mobilvest.py:55 | reading back `str(n)` gives `n` for every integer, negative ones included |
| Strings.IntToDecimalHasNoComma | mobilvest/mobilvest.py:55 | `str(n)` never contains a comma, so it cannot break a comma list |
| Strings.Padded | mobilvest/mobilvest.py:296 | a number below 10^width is written in exactly `width` digits |
| Strings.PaddedValue | mobilvest/mobilvest.py:296 | the padded digits denote the number they were made from |
| Strings.Split | mobilvest/mobilvest.py:55 | splitting always yields at least one piece, as Python's `split` does |
| Strings.SplitJoin | mobilvest/mobilvest.py:55 | splitting a join on the separator gives back the parts when none contains it |
| Strings.JoinSplit | mobilvest/mobilvest.py:55 | joining the pieces of a split gives back the string |
| Signing.Rendered | mobilvest/mobilvest.py:55 | `map(str, lst)`, built element by element, has one string per element, the i-th being `str` of the i-th element |
| Signing.ListToStr | mobilvest/mobilvest.py:51-55 | an empty list gives "" and a one-element list gives that element's string, with no comma |
| Signing.ListToStrSplit | mobilvest/mobilvest.py:51-55 | if no element's string holds a comma, splitting the result on commas gives the element strings in order |
| Signing.ListToStrSplitInts | mobilvest/mobilvest.py:51-55 | a list of integers (message IDs, phone numbers) always splits and parses back to the same integers |
| Signing.StatusAB | mobilvest/mobilvest.py:195-196 | the status IDs "A" and "B" given as a list go out as the single `state` value "A,B" |
| Signing.FlattenSpec | mobilvest/mobilvest.py:195-198 | a scalar argument is passed on unchanged; a list becomes one string that splits back into its elements |
| Signing.LeastExists | mobilvest/mobilvest.py:78 | every non-empty key set has a first key in string order |
| Signing.LeastUnique | mobilvest/mobilvest.py:78 | that first key is unique |
| Signing.Least | mobilvest/mobilvest.py:78 | the first key is one of the keys |
| Signing.LeastIsLeast | mobilvest/mobilvest.py:78 | the first key is at most every key |
| Signing.SortedKeys | mobilvest/mobilvest.py:78 | `sorted(keys)` lists only keys of the set |
| Signing.SortedKeysSpec | mobilvest/mobilvest.py:78 | `sorted(keys)` lists every key exactly once, in strictly ascending order |
| Signing.AscendingUnique | mobilvest/mobilvest.py:78 | two strictly ascending lists of the same keys are equal, so the order depends on the key names alone |
| Signing.CanonicalAlong | mobilvest/mobilvest.py:78 | the canonical string is the values concatenated along any ascending listing of the keys |
| Signing.CanonicalOfReserved | mobilvest/mobilvest.py:74-78 | a map holding only the reserved keys canonicalises to login, "json", then the timestamp in decimal |
| Signing.Unsigned | mobilvest/mobilvest.py:74-77 | the reserved keys hold the client's login, the timestamp and "json"; every other caller key keeps its value; no other key appears |
| Signing.Signed | mobilvest/mobilvest.py:74-79 | the signed set holds login, timestamp and "json" whatever the caller passed; the caller's other keys are unchanged and no others appear; the signature equals the digest of the canonical string of the set without it, followed by the key |
| Signing.SignedDomain | mobilvest/mobilvest.py:74-79 | the signed set's keys are exactly the caller's keys plus login, timestamp, return and signature |
| Signing.SignedWithoutParams | mobilvest/mobilvest.py:74-79 | with no caller parameters the signature is the digest of login + "json" + str(timestamp) + key |
| Signing.TimestampDecimal | mobilvest/test_mobilvest.py:13-15 | the timestamp 1432359515 is rendered as "1432359515" |
| Signing.BalanceSignature | mobilvest/test_mobilvest.py:33-37 | the test's client (login "user", key "123", timestamp 1432359515) signs "userjson1432359515" followed by "123" |
| Signing.CanonicalWithSignatureKey | mobilvest/mobilvest.py:74-78 | with a caller's `signature` in the copied map, the canonical string is login, "json", that signature, then the timestamp |
| Signing.UnsignedAsWritten | mobilvest/mobilvest.py:74-77 | the code as written: a caller's `signature` stays in the map that is canonicalised |
| Signing.SignedAsWritten | mobilvest/mobilvest.py:74-79 | the code as written: the signature is the digest of a canonical string that may include a caller's `signature` |
| Signing.AsWrittenAgrees | mobilvest/mobilvest.py:74-79 | without a caller-supplied `signature` the code as written and the corrected signing agree |
| Signing.AsWrittenSignatureNotReproducible | mobilvest/mobilvest.py:74-79 | with a caller-supplied `signature` the sent signature differs from the one a receiver recomputes |
| Responses.ErrorsDomain | mobilvest/mobilvest.py:13-44 | the error table holds exactly the codes 1 to 30 |
| Responses.NormaliseNoData | mobilvest/mobilvest.py:91-96 | no data comes back exactly for an empty reply or error code 19 |
| Responses.NormalisePayload | mobilvest/mobilvest.py:91-99 | a reply is handed back, unchanged, exactly when it is non-empty and has no `error` key |
| Responses.NormaliseServerError | mobilvest/mobilvest.py:93-98 | a raise happens only when the reply's `error` value finds a table entry (an integer under itself, a boolean under 0 or 1); its message is that entry's text, and error 19 never raises |
| Responses.TableCodeRaises | mobilvest/mobilvest.py:95-98 | every table code other than 19 raises with its own message |
| Responses.UnknownCodeFails | mobilvest/mobilvest.py:97 | a code outside 1..30 fails the table lookup |
| Responses.NormaliseExamples | mobilvest/test_mobilvest.py:47-74 | the balance reply is returned with its `money` key, error 7 raises "incorrect login" and error 19 gives no data |
| Dates.MonthString | mobilvest/mobilvest.py:296 | `strftime("%Y-%m")` is seven characters: four digits, a dash, two digits |
| Dates.DateString | mobilvest/mobilvest.py:317 | `strftime("%Y-%m-%d")` is ten characters with dashes at positions 4 and 7 and digits elsewhere |
| Dates.MonthRoundTrip | mobilvest/mobilvest.py:296 | the month string reads back as the year and month it was made from |
| Dates.DateRoundTrip | mobilvest/mobilvest.py:317 | the date string reads back as the year, month and day it was made from |
| Dates.August2014 | mobilvest/mobilvest.py:296 | August 2014 is sent as "2014-08", with the zero-padded month |
| Client.MobilVestApi.constructor | mobilvest/mobilvest.py:47-49 | the client keeps its login and API key |
| Client.MobilVestApi.PrepareParams | mobilvest/mobilvest.py:61-80 | the step-by-step copy, overrides and signature produce exactly the signed set |
| Client.MobilVestApi.CallApi | mobilvest/mobilvest.py:82-99 | the request goes to the base URL plus the endpoint with the signed parameters, and the outcome is the normalised reply |
| Client.MobilVestApi.GetBalance | mobilvest/mobilvest.py:101-108 | `balance.php` with no parameters of its own |
| Client.MobilVestApi.GetBase | mobilvest/mobilvest.py:110-140 | `base.php` with no parameters of its own |
| Client.MobilVestApi.GetSenders | mobilvest/mobilvest.py:142-149 | `senders.php` with no parameters of its own |
| Client.MobilVestApi.GetPhone | mobilvest/mobilvest.py:151-183 | `phone.php` with `base` and `page` |
| Client.MobilVestApi.GetStatus | mobilvest/mobilvest.py:185-199 | `status.php` with `state`, a list going through `_list_to_str` (so IDs "A" and "B" give `state` "A,B", by `Signing.StatusAB`) |
| Client.MobilVestApi.SendSms | mobilvest/mobilvest.py:201-222 | `send.php` with exactly `sender`, `text` and `phone` besides the reserved keys, a list of phones going through `_list_to_str` |
| Client.MobilVestApi.FindOnStop | mobilvest/mobilvest.py:224-232 | `find_on_stop.php` with `phone` |
| Client.MobilVestApi.AddToStop | mobilvest/mobilvest.py:234-242 | `add2stop.php` with `phone` |
| Client.MobilVestApi.GetTemplate | mobilvest/mobilvest.py:244-262 | `template.php` with no parameters of its own |
| Client.MobilVestApi.AddTemplate | mobilvest/mobilvest.py:264-273 | `add_template.php` with `name` and `text` |
| Client.MobilVestApi.StatByMonth | mobilvest/mobilvest.py:275-298 | `stat_by_month.php` with `month` as a seven-character `YYYY-MM` that reads back as the given month |
| Client.MobilVestApi.GetOperator | mobilvest/mobilvest.py:300-308 | `operator.php` with `phone` |
| Client.MobilVestApi.GetIncoming | mobilvest/mobilvest.py:310-319 | `incoming.php` with `date` as a ten-character `YYYY-MM-DD` that reads back as the given date |

## Left out

- The HTTP requests and the timestamp fetch (`mobilvest/mobilvest.py:57-59`, `90`): network I/O. The timestamp is an input to each call and the provider is a function from request to reply.
- MD5 (`hashlib.md5`): a foreign library. The digest is an uninterpreted function, so no property of MD5 itself is claimed.
- JSON decoding (`.json()`): replies are modelled as already-parsed objects. Floating-point numbers are not modelled. Non-object replies (a bare list or scalar) are not modelled either.
- Responses.Normalise: a failed table lookup is an `UnknownError` outcome. The source raises `KeyError` there, or `TypeError` when the `error` value is a list or object, rather than `ServerResponsedWithError`.
- Responses.Outcome: `ServerError` also carries the table key that was looked up, which is 1 or 0 for a boolean `error`. The source's exception carries only the message.
- The error messages are English renderings of the Russian table text. Which code maps to which message is kept.
- `str()` of a non-ASCII text value under Python 2: the model renders every text value as itself.
- Signing.Value: a parameter value is a string or an integer. Other Python values a caller could pass (floats, booleans, `None`, tuples) are not modelled.
- Dates.MonthString and Dates.DateString: the model covers years 1 to 9999 with four digits. Python 2's `strftime`, which refuses years before 1900, is not modelled.
- `datetime` objects are given as year, month and day integers.
- The exception class `ServerResponsedWithError` is modelled as the `ServerError` outcome; its message field is the exception's message.
- The test harness and `setup.py`: the tests appear only as the concrete scenarios proved in `Signing.BalanceSignature` and `Responses.NormaliseExamples`.
- Client.MobilVestApi.PrepareParams: for a caller map that already holds `signature`, the model follows the corrected behaviour (see Findings), not the code as written.
- Client.MobilVestApi.CallApi: its query is the corrected signed set too, so for a caller map holding `signature` it also departs from the code as written (see Findings).

## Findings

| source | as written | input that shows it | evidently intended | confidence | as-written member | corrected member |
|---|---|---|---|---|---|---|
| mobilvest/mobilvest.py:74-79 | the caller's map is copied with any `signature` key still in it. Line 78 therefore includes that value in the canonical string before line 79 overwrites it. | parameters `{signature: "x"}`, empty login and key, timestamp 0, identity digest: the code signs "jsonx0", but a receiver that drops `signature` and recomputes (as `mobilvest/test_mobilvest.py:33-37` does) gets "json0" | the signature covers every sent parameter except itself, so a receiver can always reproduce it. No endpoint passes a `signature` key, so endpoint calls are unaffected (`Signing.AsWrittenAgrees`). | not executed | Signing.AsWrittenSignatureNotReproducible | Signing.Signed |
