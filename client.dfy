/**
 * The process-wide transport slot and the two query entry points that read it.
 * The slot starts empty; `SetFetch` overwrites it, so the latest registration
 * is the one every later query uses.
 */
module DohClient {
  import opened Wrappers
  import opened DohQuery

  class Client {
    /** The registered transport, if any. */
    var fetchImpl: Option<Fetch>

    /** A client before any registration: the slot is empty. */
    constructor()
      ensures fetchImpl == None
    {
      fetchImpl := None;
    }

    /** Registers a transport, replacing whatever was registered before. */
    method SetFetch(f: Fetch)
      modifies this
      ensures fetchImpl == Some(f)
    {
      fetchImpl := Some(f);
    }

    /** The raw query through the currently registered transport. */
    method QueryDnsRecords(hostname: string, t: RecordType) returns (c: Call<DohResponse>)
      ensures fetchImpl.None? ==> c == Call([], Failure(NotConfigured))
      ensures fetchImpl.Some? ==>
        c.sent == [BuildRequest(hostname, t)] &&
        c.result == ClassifyRaw(fetchImpl.value(BuildRequest(hostname, t)))
    {
      c := QueryRecords(fetchImpl, hostname, t);
    }

    /** The simplified query through the currently registered transport. */
    method QueryDns<V>(decode: string -> Option<V>, hostname: string, t: RecordType) returns (c: Call<seq<Datum<V>>>)
      ensures c == Query(fetchImpl, decode, hostname, t)
      ensures fetchImpl.None? ==> c == Call([], Failure(NotConfigured))
    {
      c := Query(fetchImpl, decode, hostname, t);
    }
  }

  /**
   * Of two registrations the later one wins: a query after both sends its one
   * request to the second transport and reports what that transport answered.
   */
  method LastRegistrationWins(first: Fetch, second: Fetch, hostname: string, t: RecordType)
    returns (c: Call<DohResponse>)
    ensures c.sent == [BuildRequest(hostname, t)]
    ensures c.result == ClassifyRaw(second(BuildRequest(hostname, t)))
  {
    var client := new Client();
    client.SetFetch(first);
    client.SetFetch(second);
    c := client.QueryDnsRecords(hostname, t);
  }
}
