/** The client for the aviation weather provider: one GET per call, whose outcome
    is classified into a list of station records. Every failure gives an empty
    list; nothing is raised to the caller. */
module Api {
  import opened Json
  import opened Text
  import opened Const

  /** The GET request sent: the whole comma-joined code string as the `ids`
      parameter, `format=json`, and the integration's User-Agent header. */
  datatype Request = Request(url: string, ids: string, format: string, userAgent: string)

  /** What the HTTP exchange ends in. `body` is the decoded JSON of the response,
      or None when decoding it raises. */
  datatype Reply =
    | Response(status: int, body: Option<Value>)
    | Timeout
    | ConnectorError
    | ClientError
    | OtherError

  /** The client and its session; the session answers each request. */
  datatype Client = Client(session: Request -> Reply)

  function BuildRequest(url: string, ids: string): Request {
    Request(url, ids, "json", CUSTOM_USER_AGENT)
  }

  /** `item.get("icaoId", "UNKNOWN")` for one station object. */
  function StationId(r: Record): Value {
    GetOr(r, "icaoId", Str("UNKNOWN"))
  }

  /** A list body that the missing-station bookkeeping gets through without
      raising: every item is an object (so `.get` exists) and every station id
      can be put in a set. */
  predicate IsStationList(items: seq<Value>) {
    forall i :: 0 <= i < |items| ==> items[i].Dict? && Hashable(StationId(items[i].fields))
  }

  /** `_async_fetch_data`'s outcome for one reply. Only a 200 response whose body
      is a list of station objects yields records, and then it yields that list
      unchanged; a 200 with a non-list or undecodable body, any other status
      (204, 400, 429, ...), a timeout, a connection or client error, and any
      other exception (including the one a non-object item or an unhashable
      station id raises while the missing stations are computed) all yield []. */
  function Classify(reply: Reply): (records: seq<Record>)
    ensures records != [] ==> reply.Response? && reply.status == 200
    ensures reply.Response? && reply.status == 200 && reply.body.Some? && reply.body.value.List?
            && IsStationList(reply.body.value.items)
            ==> |records| == |reply.body.value.items|
                && forall i :: 0 <= i < |records| ==> Dict(records[i]) == reply.body.value.items[i]
    ensures !(reply.Response? && reply.status == 200 && reply.body.Some? && reply.body.value.List?
              && IsStationList(reply.body.value.items))
            ==> records == []
  {
    match reply
    case Response(status, body) =>
      if status == 200 && body.Some? && body.value.List? && IsStationList(body.value.items) then
        var items := body.value.items;
        seq(|items|, i requires 0 <= i < |items| => items[i].fields)
      else []
    case _ => []
  }

  /** The codes the request names: `[code.strip() for code in ids.split(",")]`. */
  function RequestedStations(ids: string): set<string> {
    set p | p in Split(ids, ',') :: Strip(p)
  }

  /** The set of station ids the reply carries. */
  function ReturnedStations(records: seq<Record>): set<Value> {
    set r | r in records :: StationId(r)
  }

  /** The requested stations the reply has no record for. It is only logged;
      Classify does not depend on it. */
  function MissingStations(ids: string, records: seq<Record>): (missing: set<string>)
    ensures forall c :: c in missing ==> c in RequestedStations(ids)
    ensures forall c :: c in RequestedStations(ids) && c !in missing ==> Str(c) in ReturnedStations(records)
    ensures forall r :: r in records && StationId(r).Str? ==> StationId(r).s !in missing
  {
    set c | c in RequestedStations(ids) && Str(c) !in ReturnedStations(records)
  }

  function FetchData(client: Client, url: string, ids: string): seq<Record> {
    Classify(client.session(BuildRequest(url, ids)))
  }

  function GetMetarData(client: Client, ids: string): seq<Record> {
    FetchData(client, METAR_API_URL, ids)
  }

  function GetTafData(client: Client, ids: string): seq<Record> {
    FetchData(client, TAF_API_URL, ids)
  }
}
