/**
 * The two query layers of the DNS-over-HTTPS JSON client: the raw query,
 * which builds the request, hands it to the registered transport and checks
 * the reply, and the simplified query, which insists on a NoError status and
 * extracts the `data` of every answer record.
 *
 * The network exchange is a value of type Fetch (what the transport answers to
 * the one request it is given); JSON.parse and JSON.stringify are parameters.
 */
module DohQuery {
  import opened Wrappers
  import opened Text
  import opened DohStatus

  // ---------------------------------------------------------------------
  // Data model
  // ---------------------------------------------------------------------

  // A few DNS record type codes, as the enumeration's values render into a request.
  const TypeA := 1
  const TypeTXT := 16

  /** The record type argument: an enumeration value or one of its names. */
  datatype RecordType = Code(code: int) | Name(name: string)

  /** One entry of `Question`: the name and type asked about. */
  datatype Question = Question(name: string, qtype: int)

  /** One entry of `Answer`, `Authority` or `Additional`. */
  datatype ResourceRecord = ResourceRecord(name: string, rtype: int, ttl: int, data: string)

  /** The `Status` member of a decoded body: missing, a number, or some other JSON value. */
  datatype StatusField = Absent | Num(code: int) | NotNum(json: string)

  /**
   * A decoded response body, member by member (`Status`, `TC`, `RD`, `RA`,
   * `AD`, `CD`, `Question`, `Answer`, `Authority`, `Additional`, `Comment`).
   */
  datatype Body = Body(
    status: StatusField,
    tc: bool, rd: bool, ra: bool, ad: bool, cd: bool,
    question: seq<Question>,
    answer: Option<seq<ResourceRecord>>,
    authority: Option<seq<ResourceRecord>>,
    additional: Option<seq<ResourceRecord>>,
    comment: Option<seq<string>>)

  /** A body whose `Status` is a number: what the raw query hands back, unchanged. */
  type DohResponse = b: Body | b.status.Num?
    witness Body(Num(0), false, false, false, false, false, [], None, None, None, None)

  /** The request given to the transport: its URL and its `Accept` header. */
  datatype Request = Request(url: string, accept: string)

  /**
   * What the transport's reply offers: the `ok` flag, the HTTP status, what
   * reading the body as text gives (the text or the reason it failed) and
   * what reading it as JSON gives (the body or the parser's error).
   */
  datatype HttpResponse = HttpResponse(ok: bool, status: int, text: Result<string, string>, json: Result<Body, string>)

  /** A transport: the reply it produces for a request, or the reason it rejects. */
  type Fetch = Request -> Result<HttpResponse, string>

  /** The error carried by a DoH-level failure: the whole response and its table message. */
  datatype DohError = DohError(response: DohResponse, message: Option<string>)

  /** Every way a query can fail. */
  datatype QueryError =
    | NotConfigured                               // no transport registered
    | TransportRejected(reason: string)           // the transport itself threw
    | RequestFailed(httpStatus: int, detail: string)
    | BodyNotJson(reason: string)                 // reading the body as JSON threw
    | Malformed(body: Body)                       // `Status` missing or not a number
    | Protocol(error: DohError)                   // `Status` other than NoError

  /** A query's observable effect: the requests it sent, and its outcome. */
  datatype Call<R> = Call(sent: seq<Request>, result: Result<R, QueryError>)

  /** An extracted answer value: decoded, or the raw `data` when decoding failed. */
  datatype Datum<V> = Decoded(value: V) | Raw(data: string)

  // ---------------------------------------------------------------------
  // Request building
  // ---------------------------------------------------------------------

  const Endpoint := "https://1.1.1.1/dns-query"
  const NamePrefix := Endpoint + "?name="
  const TypeSeparator := "&type="
  const DnsJson := "application/dns-json"

  /** How a record type argument reads inside the URL. */
  function ShowRecordType(t: RecordType): (s: string)
    ensures t.Code? ==> ParseInt(s) == Some(t.code)
    ensures t.Name? ==> s == t.name
  {
    match t
    case Code(n) => IntToDecimal(n)
    case Name(name) => name
  }

  /** The request for a hostname and record type; nothing is escaped or normalised. */
  function BuildRequest(hostname: string, t: RecordType): (r: Request)
    ensures NamePrefix <= r.url && r.accept == DnsJson
    ensures |r.url| == |NamePrefix| + |hostname| + |TypeSeparator| + |ShowRecordType(t)|
  {
    Request(NamePrefix + hostname + TypeSeparator + ShowRecordType(t), DnsJson)
  }

  /** Reads the `name` and `type` parameters back out of a request URL. */
  function QueryOf(url: string): Option<(string, string)>
  {
    if NamePrefix <= url then
      var rest := url[|NamePrefix|..];
      var name := TakeUntil(rest, '&');
      var tail := rest[|name|..];
      if TypeSeparator <= tail then Some((name, tail[|TypeSeparator|..])) else None
    else None
  }

  /** A hostname without '&' comes back out of the URL intact, and so does the type. */
  lemma RequestRoundTrip(hostname: string, t: RecordType)
    requires '&' !in hostname
    ensures QueryOf(BuildRequest(hostname, t).url) == Some((hostname, ShowRecordType(t)))
  {
    var url := BuildRequest(hostname, t).url;
    var shown := ShowRecordType(t);
    var rest := url[|NamePrefix|..];
    assert rest == hostname + ['&'] + ("type=" + shown);
    TakeUntilDelimited(hostname, '&', "type=" + shown);
    assert rest[|hostname|..] == TypeSeparator + shown;
  }

  /** A numeric record type can be read back from the URL as the same number. */
  lemma RecordCodeRoundTrip(hostname: string, code: int)
    requires '&' !in hostname
    ensures QueryOf(BuildRequest(hostname, Code(code)).url).Some?
    ensures ParseInt(QueryOf(BuildRequest(hostname, Code(code)).url).value.1) == Some(code)
  {
    RequestRoundTrip(hostname, Code(code));
  }

  /** A '&' in the hostname is not escaped: it cuts the `name` parameter short. */
  lemma AmpersandNotEscaped()
    ensures QueryOf(BuildRequest("a&type=TXT", Code(TypeA)).url) == Some(("a", "TXT&type=1"))
  {
    var url := BuildRequest("a&type=TXT", Code(TypeA)).url;
    TypeAShown();
    var rest := url[|NamePrefix|..];
    assert rest == "a" + ['&'] + "type=TXT&type=1";
    TakeUntilDelimited("a", '&', "type=TXT&type=1");
    assert rest[1..] == TypeSeparator + "TXT&type=1";
  }

  /** The A record type renders as "1". */
  lemma TypeAShown()
    ensures ShowRecordType(Code(TypeA)) == "1"
  {
    assert NatToDecimal(1) == "1";
  }

  // ---------------------------------------------------------------------
  // Error messages
  // ---------------------------------------------------------------------

  const NotConfiguredText :=
    "Native fetch implementation not found, call setFetch with a fetch implementation before using cf-doh."
  const FailurePrefix := "DoH request failed: ["
  const MalformedPrefix := "Cloudflare returned and unexpected DoH response: "

  /**
   * The diagnostic text of a failed request: the body text when it could be
   * read, and otherwise a "Failed parsing, " note that names the reason.
   */
  function FailureDetail(text: Result<string, string>): (detail: string)
    ensures text.Success? ==> detail == text.value
    ensures text.Failure? ==> "Failed parsing, " <= detail && IsInfix(text.error, detail)
  {
    match text
    case Success(body) => body
    case Failure(reason) =>
      InfixOfConcat("Failed parsing, ", reason, "");
      assert "Failed parsing, " + reason + "" == "Failed parsing, " + reason;
      "Failed parsing, " + reason
  }

  /** Reads the HTTP status back out of a request-failure message. */
  function FailureMessageStatus(m: string): Option<int>
  {
    if FailurePrefix <= m then ParseInt(TakeUntil(m[|FailurePrefix|..], ']')) else None
  }

  /**
   * The message of a failed request: the HTTP status can be read back out of
   * it, and it contains the diagnostic text.
   */
  function RequestFailedText(httpStatus: int, detail: string): (m: string)
    ensures FailureMessageStatus(m) == Some(httpStatus)
    ensures IsInfix(detail, m)
  {
    var digits := IntToDecimal(httpStatus);
    var m := FailurePrefix + digits + "] (" + detail + ")";
    assert m[|FailurePrefix|..] == digits + [']'] + (" (" + detail + ")");
    DecimalAlphabet(httpStatus, ']');
    TakeUntilDelimited(digits, ']', " (" + detail + ")");
    assert m == (FailurePrefix + digits + "] (") + detail + ")";
    InfixOfConcat(FailurePrefix + digits + "] (", detail, ")");
    m
  }

  /**
   * The message each error carries; `stringify` is the JSON serialiser. Every
   * error has one except a DoH-level error whose code is not in the table.
   * A request-failure message names the HTTP status (it can be read back) and
   * the diagnostic text; a malformed-response message embeds the serialised body.
   */
  function ErrorMessage(e: QueryError, stringify: Body -> string): (m: Option<string>)
    ensures m.Some? <==> !e.Protocol? || e.error.message.Some?
    ensures e.NotConfigured? ==> m == Some(NotConfiguredText)
    ensures e.RequestFailed? ==>
      FailureMessageStatus(m.value) == Some(e.httpStatus) && IsInfix(e.detail, m.value)
    ensures e.Malformed? ==> MalformedPrefix <= m.value && IsInfix(stringify(e.body), m.value)
    ensures e.Protocol? ==> m == e.error.message
  {
    match e
    case NotConfigured => Some(NotConfiguredText)
    case TransportRejected(reason) => Some(reason)
    case RequestFailed(httpStatus, detail) => Some(RequestFailedText(httpStatus, detail))
    case BodyNotJson(reason) => Some(reason)
    case Malformed(body) =>
      InfixOfConcat(MalformedPrefix, stringify(body), "");
      assert MalformedPrefix + stringify(body) + "" == MalformedPrefix + stringify(body);
      Some(MalformedPrefix + stringify(body))
    case Protocol(error) => error.message
  }

  // ---------------------------------------------------------------------
  // Raw query
  // ---------------------------------------------------------------------

  /** The checks made on the transport's reply, in order; the first failure is thrown. */
  function ClassifyRaw(reply: Result<HttpResponse, string>): (r: Result<DohResponse, QueryError>)
    ensures r.Success? <==>
      reply.Success? && reply.value.ok && reply.value.json.Success? && reply.value.json.value.status.Num?
    ensures r.Success? ==> r.value == reply.value.json.value
  {
    match reply
    case Failure(reason) => Failure(TransportRejected(reason))
    case Success(resp) =>
      if !resp.ok then Failure(RequestFailed(resp.status, FailureDetail(resp.text)))
      else match resp.json
        case Failure(reason) => Failure(BodyNotJson(reason))
        case Success(body) => if body.status.Num? then Success(body) else Failure(Malformed(body))
  }

  /** The raw query: no transport is a configuration error; otherwise one request, then the checks. */
  function QueryRecords(fetch: Option<Fetch>, hostname: string, t: RecordType): (c: Call<DohResponse>)
    ensures fetch.None? ==> c.sent == [] && c.result == Failure(NotConfigured)
    ensures fetch.Some? ==> c.sent == [BuildRequest(hostname, t)]
  {
    match fetch
    case None => Call([], Failure(NotConfigured))
    case Some(f) =>
      var request := BuildRequest(hostname, t);
      Call([request], ClassifyRaw(f(request)))
  }

  // ---------------------------------------------------------------------
  // Simplified query
  // ---------------------------------------------------------------------

  /** The DoH-level error for a response: the response itself and its table message. */
  function NewDohError(response: DohResponse): (e: DohError)
    ensures e.response == response
    ensures e.message == StatusMessage(response.status.code)
    ensures e.message.Some? <==> IsAssigned(response.status.code)
  {
    DohError(response, StatusMessage(response.status.code))
  }

  /** One answer's value: decoded when decoding succeeds, the `data` itself otherwise. */
  function DecodeOrKeep<V>(data: string, decode: string -> Option<V>): (r: Datum<V>)
    ensures r.Raw? <==> decode(data).None?
    ensures r.Raw? ==> r.data == data
    ensures r.Decoded? ==> decode(data) == Some(r.value)
  {
    match decode(data)
    case Some(v) => Decoded(v)
    case None => Raw(data)
  }

  /** The `data` of each record, decoded where possible and kept as-is otherwise, in order. */
  function ExtractData<V>(records: seq<ResourceRecord>, decode: string -> Option<V>): (r: seq<Datum<V>>)
    ensures |r| == |records|
    ensures forall i :: 0 <= i < |records| ==>
      (decode(records[i].data).Some? ==> r[i] == Decoded(decode(records[i].data).value)) &&
      (decode(records[i].data).None? ==> r[i] == Raw(records[i].data))
    decreases |records|
  {
    if records == [] then []
    else [DecodeOrKeep(records[0].data, decode)] + ExtractData(records[1..], decode)
  }

  /** Extraction works record by record, so it commutes with concatenation. */
  lemma ExtractDataAppend<V>(front: seq<ResourceRecord>, back: seq<ResourceRecord>, decode: string -> Option<V>)
    ensures ExtractData(front + back, decode) == ExtractData(front, decode) + ExtractData(back, decode)
  {
    var whole := ExtractData(front + back, decode);
    var parts := ExtractData(front, decode) + ExtractData(back, decode);
    forall i | 0 <= i < |whole| ensures whole[i] == parts[i] {
      ExtractDataAt(front + back, decode, i);
      if i < |front| {
        ExtractDataAt(front, decode, i);
      } else {
        ExtractDataAt(back, decode, i - |front|);
      }
    }
  }

  lemma ExtractDataAt<V>(records: seq<ResourceRecord>, decode: string -> Option<V>, i: int)
    requires 0 <= i < |records|
    ensures ExtractData(records, decode)[i] == DecodeOrKeep(records[i].data, decode)
  {
  }

  /** The answer records of a response; an absent `Answer` counts as none. */
  function AnswersOf(response: DohResponse): (records: seq<ResourceRecord>)
    ensures response.answer.Some? ==> records == response.answer.value
    ensures response.answer.None? ==> records == []
  {
    match response.answer
    case Some(records) => records
    case None => []
  }

  /** The simplified view of a response: its answer values when NoError, a DoH error otherwise. */
  function Simplify<V>(response: DohResponse, decode: string -> Option<V>): (r: Result<seq<Datum<V>>, QueryError>)
    ensures r.Success? <==> response.status.code == NoError
    ensures r.Failure? ==> r.error == Protocol(DohError(response, StatusMessage(response.status.code)))
    ensures r.Success? ==> |r.value| == |AnswersOf(response)|
  {
    if response.status.code != NoError then Failure(Protocol(NewDohError(response)))
    else Success(ExtractData(AnswersOf(response), decode))
  }

  /** The simplified query: the raw query, then the status check and the extraction. */
  function Query<V>(fetch: Option<Fetch>, decode: string -> Option<V>, hostname: string, t: RecordType): (c: Call<seq<Datum<V>>>)
    ensures c.sent == QueryRecords(fetch, hostname, t).sent
  {
    var raw := QueryRecords(fetch, hostname, t);
    match raw.result
    case Failure(e) => Call(raw.sent, Failure(e))
    case Success(response) => Call(raw.sent, Simplify(response, decode))
  }

  // ---------------------------------------------------------------------
  // Properties of the two layers
  // ---------------------------------------------------------------------

  /**
   * Every check the reply fails, each judged on its own, in the order the
   * client makes them: transport registered, transport answered, HTTP ok,
   * body is JSON, `Status` numeric, `Status` is NoError.
   */
  function Violations(fetch: Option<Fetch>, reply: Result<HttpResponse, string>): seq<QueryError>
  {
    (if fetch.None? then [NotConfigured] else [])
    + (match reply
       case Failure(reason) => [TransportRejected(reason)]
       case Success(resp) =>
         (if !resp.ok then [RequestFailed(resp.status, FailureDetail(resp.text))] else [])
         + (match resp.json
            case Failure(reason) => [BodyNotJson(reason)]
            case Success(body) =>
              match body.status
              case Num(code) =>
                if code == NoError then [] else [Protocol(DohError(body, StatusMessage(code)))]
              case _ => [Malformed(body)]))
  }

  /**
   * The simplified query fails exactly when some check fails, and then with
   * the first failing check's error: an earlier failure masks every later one.
   * `reply` is what the transport answers, when there is one.
   */
  lemma FirstFailingCheckWins<V>(fetch: Option<Fetch>, decode: string -> Option<V>,
                                 hostname: string, t: RecordType, reply: Result<HttpResponse, string>)
    requires fetch.Some? ==> reply == fetch.value(BuildRequest(hostname, t))
    ensures Query(fetch, decode, hostname, t).result.Failure? <==> Violations(fetch, reply) != []
    ensures Query(fetch, decode, hostname, t).result.Failure? ==>
      Query(fetch, decode, hostname, t).result.error == Violations(fetch, reply)[0]
  {
  }

  /** With no transport registered both layers fail with the configuration error and send nothing. */
  lemma NoTransportSendsNothing<V>(decode: string -> Option<V>, hostname: string, t: RecordType)
    ensures QueryRecords(None, hostname, t) == Call([], Failure(NotConfigured))
    ensures Query(None, decode, hostname, t) == Call([], Failure(NotConfigured))
  {
  }

  /** A non-ok reply fails with its HTTP status and its body text or the reason it could not be read. */
  lemma RequestFailureReported(f: Fetch, hostname: string, t: RecordType)
    requires f(BuildRequest(hostname, t)).Success? && !f(BuildRequest(hostname, t)).value.ok
    ensures var resp := f(BuildRequest(hostname, t)).value;
      QueryRecords(Some(f), hostname, t).result ==
        Failure(RequestFailed(resp.status,
          if resp.text.Success? then resp.text.value else "Failed parsing, " + resp.text.error))
  {
  }

  /** A raw query that succeeds returns the decoded body itself. */
  lemma RawResponseUnchanged(f: Fetch, hostname: string, t: RecordType)
    requires QueryRecords(Some(f), hostname, t).result.Success?
    ensures f(BuildRequest(hostname, t)).Success?
    ensures f(BuildRequest(hostname, t)).value.json.Success?
    ensures QueryRecords(Some(f), hostname, t).result.value == f(BuildRequest(hostname, t)).value.json.value
  {
  }

  /** An ok reply whose `Status` is missing or not a number is a malformed response. */
  lemma NonNumericStatusMalformed(f: Fetch, hostname: string, t: RecordType)
    requires f(BuildRequest(hostname, t)).Success?
    requires f(BuildRequest(hostname, t)).value.ok
    requires f(BuildRequest(hostname, t)).value.json.Success?
    requires !f(BuildRequest(hostname, t)).value.json.value.status.Num?
    ensures QueryRecords(Some(f), hostname, t).result == Failure(Malformed(f(BuildRequest(hostname, t)).value.json.value))
  {
  }

  /**
   * A non-NoError status fails the simplified query with a DoH error that
   * carries the raw response and the table's message for the code.
   */
  lemma DohErrorCarriesResponse<V>(fetch: Option<Fetch>, decode: string -> Option<V>, hostname: string, t: RecordType)
    requires QueryRecords(fetch, hostname, t).result.Success?
    requires QueryRecords(fetch, hostname, t).result.value.status.code != NoError
    ensures var response := QueryRecords(fetch, hostname, t).result.value;
      Query(fetch, decode, hostname, t).result == Failure(Protocol(DohError(response, StatusMessage(response.status.code))))
  {
  }

  /**
   * A NoError response yields one value per answer record, in order: the
   * decoded `data` where decoding succeeds and the `data` itself otherwise.
   */
  lemma AnswersExtractedInOrder<V>(fetch: Option<Fetch>, decode: string -> Option<V>, hostname: string, t: RecordType)
    requires QueryRecords(fetch, hostname, t).result.Success?
    requires QueryRecords(fetch, hostname, t).result.value.status.code == NoError
    ensures var response := QueryRecords(fetch, hostname, t).result.value;
      var values := Query(fetch, decode, hostname, t).result;
      && values.Success?
      && (response.answer.None? ==> values.value == [])
      && |values.value| == |AnswersOf(response)|
      && forall i :: 0 <= i < |values.value| ==>
           values.value[i] == if decode(AnswersOf(response)[i].data).Some?
                              then Decoded(decode(AnswersOf(response)[i].data).value)
                              else Raw(AnswersOf(response)[i].data)
  {
  }
}
