/**
 * Concrete exchanges: a transport that always gives the same reply, and what
 * each query layer makes of it.
 */
module DohScenarios {
  import opened Wrappers
  import opened Text
  import opened DohStatus
  import opened DohQuery

  /** A transport that answers every request with the same reply. */
  function Always(reply: HttpResponse): Fetch
  {
    (request: Request) => Success(reply)
  }

  function OkReply(body: Body): HttpResponse
  {
    HttpResponse(true, 200, Failure("body already read as JSON"), Success(body))
  }

  const ExampleBody := Body(Num(0), false, true, true, false, false,
    [Question("example.com", TypeA)],
    Some([ResourceRecord("example.com", TypeA, 300, "93.184.216.34")]),
    None, None, None)

  /** The request for an A query on example.com. */
  lemma ExampleComRequest()
    ensures BuildRequest("example.com", Code(TypeA))
         == Request("https://1.1.1.1/dns-query?name=example.com&type=1", "application/dns-json")
  {
    TypeAShown();
  }

  /** An A query for example.com sends one request and returns the undecodable address as-is. */
  lemma ExampleComAddress<V>(decode: string -> Option<V>)
    requires decode("93.184.216.34").None?
    ensures var c := Query(Some(Always(OkReply(ExampleBody))), decode, "example.com", Code(TypeA));
      && c.sent == [BuildRequest("example.com", Code(TypeA))]
      && c.result == Success([Raw("93.184.216.34")])
  {
    var request := BuildRequest("example.com", Code(TypeA));
    assert Always(OkReply(ExampleBody))(request) == Success(OkReply(ExampleBody));
    assert ClassifyRaw(Success(OkReply(ExampleBody))) == Success(ExampleBody);
    assert ExtractData(AnswersOf(ExampleBody), decode) == [Raw("93.184.216.34")];
  }

  /** A quoted TXT value is returned decoded. */
  lemma QuotedTextDecoded(decode: string -> Option<string>)
    requires decode("\"hello\"") == Some("hello")
    ensures var body := Body(Num(0), false, true, true, false, false, [Question("example.com", TypeTXT)],
                            Some([ResourceRecord("example.com", TypeTXT, 300, "\"hello\"")]), None, None, None);
      Query(Some(Always(OkReply(body))), decode, "example.com", Name("TXT")).result == Success([Decoded("hello")])
  {
    var body := Body(Num(0), false, true, true, false, false, [Question("example.com", TypeTXT)],
                     Some([ResourceRecord("example.com", TypeTXT, 300, "\"hello\"")]), None, None, None);
    var request := BuildRequest("example.com", Name("TXT"));
    assert Always(OkReply(body))(request) == Success(OkReply(body));
    assert ClassifyRaw(Success(OkReply(body))) == Success(body);
    assert ExtractData(AnswersOf(body), decode) == [Decoded("hello")];
  }

  /** Status 3 fails the simplified query with the "Non-Existent Domain" message. */
  lemma NonExistentDomain<V>(decode: string -> Option<V>)
    ensures var body := Body(Num(NXDomain), false, true, true, false, false, [], None, None, None, None);
      var r := Query(Some(Always(OkReply(body))), decode, "nowhere.example", Code(TypeA)).result;
      && r == Failure(Protocol(DohError(body, Some("Non-Existent Domain [RFC1035]"))))
      && IsInfix("Non-Existent Domain", r.error.error.message.value)
  {
    var body := Body(Num(NXDomain), false, true, true, false, false, [], None, None, None, None);
    var request := BuildRequest("nowhere.example", Code(TypeA));
    assert Always(OkReply(body))(request) == Success(OkReply(body));
    assert ClassifyRaw(Success(OkReply(body))) == Success(body);
    NXDomainMessage();
  }

  lemma NXDomainMessage()
    ensures StatusMessage(NXDomain) == Some(NXDomainText)
    ensures IsInfix("Non-Existent Domain", NXDomainText)
  {
    assert "Non-Existent Domain" <= NXDomainText[0..];
  }

  /** An HTTP 500 reply fails the raw query with a message naming 500 and the body text. */
  lemma ServerError(stringify: Body -> string)
    ensures var reply := HttpResponse(false, 500, Success("server error"), Failure("not JSON"));
      var r := QueryRecords(Some(Always(reply)), "example.com", Code(TypeA)).result;
      && r == Failure(RequestFailed(500, "server error"))
      && FailureMessageStatus(ErrorMessage(r.error, stringify).value) == Some(500)
      && IsInfix("server error", ErrorMessage(r.error, stringify).value)
  {
    var reply := HttpResponse(false, 500, Success("server error"), Failure("not JSON"));
    var request := BuildRequest("example.com", Code(TypeA));
    assert Always(reply)(request) == Success(reply);
    assert FailureDetail(reply.text) == "server error";
    assert ClassifyRaw(Success(reply)) == Failure(RequestFailed(500, "server error"));
  }
}
