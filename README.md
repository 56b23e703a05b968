# cf-doh: a Dafny model of a DNS-over-HTTPS JSON client

cf-doh resolves names through Cloudflare's DNS-over-HTTPS JSON endpoint
(`https://1.1.1.1/dns-query`). The library has two query layers:

- **Raw query** (`queryDNSRecords`). It refuses to run without a registered transport. Otherwise it
  sends one GET request, `?name=<hostname>&type=<recordType>`, with
  `Accept: application/dns-json`. It then checks the reply in a fixed order:
  the transport answered, HTTP ok, the body is JSON, `Status` is a number.
  If every check passes it returns the decoded body unchanged.
- **Simplified query** (`queryDNS`). It runs the raw query. A `Status` other than NoError throws a
  `DOHError` carrying the whole response and the message-table text for the code.
  Otherwise it returns the `data` of each `Answer` record. Each value is JSON-decoded where that
  succeeds and kept as the raw string where it does not.

The transport lives in one process-wide slot. `setFetch` overwrites it.

Files:

- `wrappers.dfy`: `Option` and `Result`.
- `text.dfy`: decimal rendering and parsing of integers, `TakeUntil`, `IsInfix`.
- `status.dfy`: the RCODE enumeration and its message table.
- `query.dfy`: the data model, request building, error messages, both layers, and their properties.
- `client.dfy`: the transport slot as a class.
- `scenarios.dfy`: concrete exchanges.

Modelling choices:

- A transport is a value `Fetch = Request -> Result<HttpResponse, string>`. It gives the reply to
  the one request, or the reason the call threw.
- Every query returns a `Call`. A `Call` records the requests sent (`sent`) and the outcome, so
  "the transport is never invoked" can be stated.
- `JSON.parse` on record data is the parameter `decode: string -> Option<V>`. `None` means it threw.
- `JSON.stringify` is the parameter `stringify`.
- A decoded body is a `Body` record. Its `Status` is `Absent`, `Num(code)` or `NotNum(json)`.
- `DohResponse` is the subset of bodies with a numeric `Status`. This is the `as DOHResponse` cast.
- A `DOHError` whose code has no table entry gets `message: undefined` in the source. The model
  writes this as `None`.

## Model

| member | source | states |
|---|---|---|
| `DohStatus.StatusMessage` | src/index.ts:32-55 | a code has a message exactly when it is 0-11 or 16-23 (12-15 and 24 and above are unassigned), and the message is the table's entry |
| `DohStatus.MessagesNameEveryMeaning` | src/index.ts:2-55 | for every declaration of the enumeration (the commented-out second meaning of 9 included), the table's message for its code contains its registry meaning |
| `DohStatus.HeaderCodesNamed` | src/index.ts:3-15 | the same for codes 0-11, where 9 has two meanings |
| `DohStatus.ExtendedCodesNamed` | src/index.ts:17-25 | the same for codes 16-23, where BADVERS and BADSIG share 16 |
| `DohStatus.EitherNamesBoth` | src/index.ts:42-47 | a combined "X or Y" message contains both X and Y |
| `DohStatus.MessagesCoverDeclaredCodes` | src/index.ts:2-55 | every code in the message table is declared in the enumeration, and every declared code has an entry in the table |
| `DohStatus.OverloadedCodes` | src/index.ts:12-18 | only codes 9 and 16 are declared twice, and their two declarations have different meanings |
| `DohQuery.BuildRequest` | src/index.ts:210-214 | the URL starts with the endpoint and `?name=`, has exactly the length of the plain concatenation (no escaping), and the Accept header is `application/dns-json` |
| `DohQuery.RequestRoundTrip` | src/index.ts:211 | for a hostname without '&', the `name` and `type` parameters read back from the URL are the hostname and the rendered record type |
| `DohQuery.RecordCodeRoundTrip` | src/index.ts:211 | a numeric record type reads back from the URL as the same number |
| `DohQuery.AmpersandNotEscaped` | src/index.ts:211 | a '&' in the hostname is not escaped, so `a&type=TXT` yields the `name` parameter `a` |
| `DohQuery.ShowRecordType` | src/index.ts:211 | a numeric record type renders as text that parses back to the same number; a record type name is inserted as given |
| `DohQuery.FailureDetail` | src/index.ts:217-222 | the diagnostic text is the body text when it could be read, and otherwise starts with "Failed parsing, " and contains the read error (the "[binary data]" default never survives) |
| `DohQuery.RequestFailedText` | src/index.ts:223 | the HTTP-failure message can be parsed back to the HTTP status, and it contains the diagnostic text |
| `DohQuery.ErrorMessage` | src/index.ts:206-231 | every error has a message except a DoH error for an unassigned code; the configuration error has the fixed text; the request-failure message (line 223) names status and detail; the malformed-response message (lines 227-231) starts with its fixed prefix and embeds the serialised body; a DoH error's message is its table message |
| `DohQuery.DecodeOrKeep` | src/index.ts:245-251 | the value is kept raw exactly when decoding fails, and then it is the `data` itself; otherwise it is what decoding gave |
| `DohQuery.AnswersOf` | src/index.ts:244-253 | the answer records are the `Answer` list when present, and none when it is absent |
| `DohQuery.ClassifyRaw` | src/index.ts:216-233 | the raw checks succeed exactly when the transport answered, the reply is ok, the body is JSON and its `Status` is a number, and then the result is the decoded body itself |
| `DohQuery.QueryRecords` | src/index.ts:201-215 | with no transport, nothing is sent and the result is the configuration error; otherwise exactly one request, the one BuildRequest makes, is sent |
| `DohQuery.NewDohError` | src/index.ts:192-199 | the error carries the response itself, and it has a message exactly when the code is assigned |
| `DohQuery.ExtractData` | src/index.ts:244-252 | one value per record, in order: the decoded `data` where decoding succeeds, the raw `data` otherwise |
| `DohQuery.ExtractDataAt` | src/index.ts:245-252 | the i-th extracted value is the decode-or-keep of the i-th record's `data` |
| `DohQuery.ExtractDataAppend` | src/index.ts:244-252 | extraction commutes with concatenation of the record list (order is preserved) |
| `DohQuery.Simplify` | src/index.ts:241-253 | succeeds exactly when `Status` is NoError, with one value per answer record; otherwise fails with a DoH error carrying the response and its table message |
| `DohQuery.Query` | src/index.ts:236-240 | the simplified query sends exactly what the raw query sends |
| `DohQuery.FirstFailingCheckWins` | src/index.ts:205-243 | the simplified query fails exactly when one of the checks (each judged on its own) fails, and then with the first one's error: configuration, transport, HTTP ok, JSON body, numeric `Status`, NoError |
| `DohQuery.NoTransportSendsNothing` | src/index.ts:205-209 | with no transport both layers fail with the configuration error and send no request |
| `DohQuery.RequestFailureReported` | src/index.ts:216-224 | a non-ok reply fails with its HTTP status and with either the body text or "Failed parsing, " and the read error (never the "[binary data]" default) |
| `DohQuery.RawResponseUnchanged` | src/index.ts:225-233 | a successful raw query returns exactly the decoded body |
| `DohQuery.NonNumericStatusMalformed` | src/index.ts:226-231 | an ok reply whose `Status` is missing or not a number fails with the malformed-response error carrying that body |
| `DohQuery.DohErrorCarriesResponse` | src/index.ts:241-243 | a non-NoError status fails the simplified query with a DoH error whose response is the raw response and whose message is the table entry for the code |
| `DohQuery.AnswersExtractedInOrder` | src/index.ts:244-253 | a NoError response yields one value per answer record, in order, decoded or kept raw; an absent `Answer` yields [] |
| `DohClient.Client.constructor` | src/index.ts:256 | the slot starts empty |
| `DohClient.Client.SetFetch` | src/index.ts:257-259 | the slot holds the new transport, whatever it held before |
| `DohClient.Client.QueryDnsRecords` | src/index.ts:201-234 | the raw query runs against the transport currently in the slot; an empty slot sends nothing and fails with the configuration error |
| `DohClient.Client.QueryDns` | src/index.ts:236-254 | the simplified query runs against the transport currently in the slot |
| `DohClient.LastRegistrationWins` | src/index.ts:256-259 | after two registrations a query sends its request to the second transport and reports that transport's reply |
| `Text.IntToDecimal` | src/index.ts:211 | rendering an integer (HTTP status, numeric record type) in decimal and parsing it back gives the integer; the text starts with '-' exactly when the integer is negative |
| `Text.ParseIntCanonical` | src/index.ts:211 | the decimal text is canonical: the only text that reads back as an integer is that integer's rendering, so no leading zeros and no "-0" |
| `Text.DigitsCanonical` | src/index.ts:223 | a digit string without leading zeros is exactly the rendering of the number it denotes |
| `Text.DigitsRoundTrip` | src/index.ts:223 | the decimal digits of a natural number denote that number |
| `Text.NatToDecimal` | src/index.ts:223 | a rendered natural number is a non-empty digit string with no leading zero |
| `DohScenarios.ExampleComRequest` | src/index.ts:210-214 | an A query for example.com requests `https://1.1.1.1/dns-query?name=example.com&type=1` with `Accept: application/dns-json` |
| `DohScenarios.ExampleComAddress` | src/index.ts:236-253 | that query, answered with one A record whose data does not decode, returns that data unchanged |
| `DohScenarios.QuotedTextDecoded` | src/index.ts:245-249 | a TXT record `"hello"` (with quotes) that decodes to `hello` is returned decoded |
| `DohScenarios.NonExistentDomain` | src/index.ts:241-243 | a `Status` of 3 fails with a DoH error whose message is "Non-Existent Domain [RFC1035]" |
| `DohScenarios.NXDomainMessage` | src/index.ts:36 | the table's message for code 3 contains "Non-Existent Domain" |
| `DohScenarios.ServerError` | src/index.ts:216-223 | an HTTP 500 reply with body "server error" fails with a request-failure error whose message gives back the status 500 and contains "server error" |

## Left out

- The HTTP exchange itself, the `await` suspensions, and the one-time reading of a body stream. A
  reply is an `HttpResponse` value with what `text()` and `json()` would give. The raw query reads
  only the one that its branch reads.
- The internals of `JSON.parse` and `JSON.stringify`. They are the parameters `decode` and `stringify`.
- The probe for an ambient `fetch` at module load (src/index.ts:260-264). This is host detection.
  The model's slot starts empty, as the declaration on line 256 leaves it.
- The `DNSRecordType` enumeration (src/index.ts:58-157). It is static data. Only A and TXT
  appear, as record types for requests.
- JavaScript number semantics for `Status`, HTTP status and record codes (non-integers, NaN).
  They are integers here, and a non-number `Status` is the `NotNum` case.
- IntToDecimal: writes every integer in plain decimal. JavaScript writes integers of magnitude
  1e21 or more in exponent form (`1e+21`). HTTP statuses and record type codes never get that large.
- Bodies that are not JSON objects. For example, JSON `null` makes `.Status` throw a TypeError in
  the source. `Body` is always an object.
- Members other than `Status` are trusted to have the declared shape. An `Answer` that is not an
  array, or a record without a string `data`, is not represented.
- The declared return type `string[]` of `queryDNS`. `JSON.parse` can return any JSON value, so
  the model returns `Datum<V>`: decoded values or raw strings.
- How the source renders a caught error in `` `${e}` ``. The model takes the error's text as given.
- A body that is not valid JSON makes `r.json()` throw. The source does not catch this error. The
  model follows the code and reports it as `BodyNotJson` with the parser's reason. It is not
  reported as the malformed-response error, which the source raises only for a missing or
  non-numeric `Status`.
