/** The two lookups of the client: one address by GET, a list of addresses by
    POST. Each validates the request, builds the query, sends one request
    through the configured transport, releases the response body exactly once
    and hands back what the body decoded to. */
module GeolocationApi {
  import opened Models
  import opened UrlValues
  import opened Utils
  import Json

  /** The query of a single lookup: the address, then what every lookup adds. */
  function SingleQuery(o: Options, ip: string, fields: seq<string>, lang: string,
                       includes: seq<string>): Values
  {
    AddAll(map["ip" := [ip]], Prepared(o.apiKey, fields, lang, includes))
  }

  /** The query of a bulk lookup: only what every lookup adds. */
  function BulkQuery(o: Options, fields: seq<string>, lang: string, includes: seq<string>): Values
  {
    AddAll(map[], Prepared(o.apiKey, fields, lang, includes))
  }

  /** The body of a bulk lookup: a JSON object whose one member "ips" holds, as
      a string, the JSON array of the addresses (the array is encoded twice). */
  function BulkBody(ips: seq<string>): string
  {
    Json.ObjectText([("ips", Json.ArrayText(ips))])
  }

  function SingleRequest(o: Options, ip: string, fields: seq<string>, lang: string,
                         includes: seq<string>): HttpRequest
  {
    HttpRequest("GET", o.endpoint + "ipgeo?", SingleQuery(o, ip, fields, lang, includes), None, None)
  }

  function BulkRequest(o: Options, ips: seq<string>, fields: seq<string>, lang: string,
                       includes: seq<string>): HttpRequest
  {
    HttpRequest("POST", o.endpoint + "ipgeo-bulk?", BulkQuery(o, fields, lang, includes),
                Some("application/json"), Some(BulkBody(ips)))
  }

  /** What a lookup returns once a response arrived: a result is always handed
      back (the zero result when the body could not be read, the partly filled
      one when it could not be decoded), with an error exactly when the body did
      not decode in full. */
  function Outcome(content: ReadOutcome): (r: (Option<GeoResult>, Option<Error>))
    ensures r.0.Some?
    ensures r.1.None? <==> content == Bytes(WellFormed(r.0.value))
    ensures content.ReadFailed? ==> r == (Some(ZeroResult()), Some(ReadError(content.cause)))
    ensures content.Bytes? && content.payload.Malformed? ==>
              r == (Some(content.payload.partial), Some(DecodeError(content.payload.cause)))
    ensures content.Bytes? && content.payload.WellFormed? ==> r == (Some(content.payload.value), None)
  {
    match content
    case ReadFailed(cause) => (Some(ZeroResult()), Some(ReadError(cause)))
    case Bytes(Malformed(partial, cause)) => (Some(partial), Some(DecodeError(cause)))
    case Bytes(WellFormed(value)) => (Some(value), None)
  }

  function Last(xs: seq<Exchange>): Exchange
    requires xs != []
  {
    xs[|xs| - 1]
  }

  /** How one exchange ended for the caller: a response body, if there was one,
      has been closed exactly once; a transport failure gives no result and the
      transport's error; otherwise the body decides, as Outcome says. */
  ghost predicate Settled(x: Exchange, result: Option<GeoResult>, err: Option<Error>)
    reads if x.response.Some? then {x.response.value.body} else {}
  {
    && (x.response.Some? ==> x.response.value.body.closes == 1)
    && (x.failure.Some? ==> result.None? && err == Some(TransportError(x.failure.value)))
    && (x.failure.None? ==> x.response.Some? && (result, err) == Outcome(x.response.value.body.content))
  }

  /** `after` is `before` with one more exchange, for `req`, settled as above. */
  ghost predicate Sent(before: seq<Exchange>, after: seq<Exchange>, req: HttpRequest,
                       result: Option<GeoResult>, err: Option<Error>)
    reads if after != [] && Last(after).response.Some? then {Last(after).response.value.body} else {}
  {
    && |after| == |before| + 1
    && after[..|before|] == before
    && Last(after).request == req
    && Settled(Last(after), result, err)
  }

  /** Sending a built request: the transport call, the release of the body on
      failure or, deferred, after reading, then reading and decoding the body. */
  method Send(http: HttpClient, req: HttpRequest) returns (result: Option<GeoResult>, err: Option<Error>)
    modifies http
    ensures Sent(old(http.exchanges), http.exchanges, req, result, err)
  {
    var resp, failure := http.Do(req);
    if failure.Some? {
      if resp.Some? {
        resp.value.body.Close();
      }
      return None, Some(TransportError(failure.value));
    }
    var body := resp.value.body;
    var read := body.content;
    if read.ReadFailed? {
      result, err := Some(ZeroResult()), Some(ReadError(read.cause));
    } else if read.payload.Malformed? {
      result, err := Some(read.payload.partial), Some(DecodeError(read.payload.cause));
    } else {
      result, err := Some(read.payload.value), None;
    }
    body.Close();
  }

  /** Looks up one address. The request must name an address of its own: a
      request with only a list of addresses passes the common validation but is
      refused here. Nothing is sent unless validation passes; the effective
      language is written back into the request. */
  method GetIPGeolocation(c: Client, params: Request?) returns (result: Option<GeoResult>, err: Option<Error>)
    requires ValidateParams(params).None? && params.ip != "" ==> c.options.httpClient != null
    modifies c.options.httpClient, params
    ensures params != null ==> unchanged(params`ip, params`ips, params`fields, params`includeSecurity,
                                         params`includeHostname, params`includeLiveHostname,
                                         params`includeHostnameFallbackLive, params`includeUseragent)
    ensures old(ValidateParams(params)).Some? ==>
              && result.None? && err == old(ValidateParams(params))
              && (c.options.httpClient != null ==> unchanged(c.options.httpClient))
              && (params != null ==> unchanged(params))
    ensures old(ValidateParams(params)).None? && params.ip == "" ==>
              && result.None? && err == Some(MissingSingleIP)
              && (c.options.httpClient != null ==> unchanged(c.options.httpClient))
              && unchanged(params)
    ensures old(ValidateParams(params)).None? && params.ip != "" ==>
              && params.language == (if old(params.language) == "" then c.options.language else old(params.language))
              && Sent(old(c.options.httpClient.exchanges), c.options.httpClient.exchanges,
                      SingleRequest(c.options, params.ip, params.fields, params.language, RequestIncludes(params)),
                      result, err)
  {
    var http := c.options.httpClient;
    var invalid := ValidateParams(params);
    if invalid.Some? {
      return None, invalid;
    }
    if params.ip == "" {
      return None, Some(MissingSingleIP);
    }
    var p := new Query(map["ip" := [params.ip]]);
    PrepareUrlParams(c, p, params);
    var req := HttpRequest("GET", c.options.endpoint + "ipgeo?", p.entries, None, None);
    result, err := Send(http, req);
  }

  /** Looks up a list of addresses. The request must carry a non-empty list: a
      request with only a single address passes the common validation but is
      refused here. The addresses travel in the body, not in the query. */
  method BulkIPGeolocation(c: Client, params: Request?) returns (result: Option<GeoResult>, err: Option<Error>)
    requires ValidateParams(params).None? && |params.ips| != 0 ==> c.options.httpClient != null
    modifies c.options.httpClient, params
    ensures params != null ==> unchanged(params`ip, params`ips, params`fields, params`includeSecurity,
                                         params`includeHostname, params`includeLiveHostname,
                                         params`includeHostnameFallbackLive, params`includeUseragent)
    ensures old(ValidateParams(params)).Some? ==>
              && result.None? && err == old(ValidateParams(params))
              && (c.options.httpClient != null ==> unchanged(c.options.httpClient))
              && (params != null ==> unchanged(params))
    ensures old(ValidateParams(params)).None? && |params.ips| == 0 ==>
              && result.None? && err == Some(MissingIPs)
              && (c.options.httpClient != null ==> unchanged(c.options.httpClient))
              && unchanged(params)
    ensures old(ValidateParams(params)).None? && |params.ips| != 0 ==>
              && params.language == (if old(params.language) == "" then c.options.language else old(params.language))
              && Sent(old(c.options.httpClient.exchanges), c.options.httpClient.exchanges,
                      BulkRequest(c.options, params.ips, params.fields, params.language, RequestIncludes(params)),
                      result, err)
  {
    var http := c.options.httpClient;
    var invalid := ValidateParams(params);
    if invalid.Some? {
      return None, invalid;
    }
    if |params.ips| == 0 {
      return None, Some(MissingIPs);
    }
    var p := new Query(map[]);
    PrepareUrlParams(c, p, params);
    var ipText := Json.ArrayText(params.ips);
    var postBody := Json.ObjectText([("ips", ipText)]);
    var req := HttpRequest("POST", c.options.endpoint + "ipgeo-bulk?", p.entries,
                           Some("application/json"), Some(postBody));
    result, err := Send(http, req);
  }

  // ---------------------------------------------------------------------------
  // What goes over the wire.

  /** The single-lookup query holds exactly one address, one API key and one
      language, the fields and include names as given and in order, and no other
      key; a key is present exactly when it has a value. */
  lemma SingleQueryShape(o: Options, ip: string, fields: seq<string>, lang: string,
                         includes: seq<string>, key: string)
    ensures var q := SingleQuery(o, ip, fields, lang, includes);
            && (key in q <==> Get(q, key) != [])
            && Get(q, key) == (if key == "ip" then [ip]
                               else if key == "apiKey" then [o.apiKey]
                               else if key == "fields" then fields
                               else if key == "lang" then [lang]
                               else if key == "include" then includes
                               else [])
  {
    var m := map["ip" := [ip]];
    var entries := Prepared(o.apiKey, fields, lang, includes);
    AddAllGet(m, entries, key);
    AddAllKeys(m, entries, key);
    PreparedValues(o.apiKey, fields, lang, includes, key);
  }

  /** The bulk query is the single one without the address: the key, fields,
      language and include names as given, and no "ip" key at all. */
  lemma BulkQueryShape(o: Options, fields: seq<string>, lang: string,
                       includes: seq<string>, key: string)
    ensures var q := BulkQuery(o, fields, lang, includes);
            && (key in q <==> Get(q, key) != [])
            && Get(q, key) == (if key == "apiKey" then [o.apiKey]
                               else if key == "fields" then fields
                               else if key == "lang" then [lang]
                               else if key == "include" then includes
                               else [])
            && "ip" !in q
  {
    var entries := Prepared(o.apiKey, fields, lang, includes);
    AddAllGet(map[], entries, key);
    AddAllKeys(map[], entries, key);
    PreparedValues(o.apiKey, fields, lang, includes, key);
    AddAllKeys(map[], entries, "ip");
    PreparedValues(o.apiKey, fields, lang, includes, "ip");
  }

  /** Fields "city" and "isp" with security and hostname included give exactly
      two fields entries and two include entries, each in order, and one
      language entry. */
  lemma CityIspSecurityHostname(o: Options, ip: string, lang: string)
    ensures var q := SingleQuery(o, ip, ["city", "isp"], lang,
                                 IncludeNames(true, true, false, false, false));
            && Get(q, "fields") == ["city", "isp"]
            && Get(q, "include") == ["security", "hostname"]
            && Get(q, "lang") == [lang]
  {
    var includes := IncludeNames(true, true, false, false, false);
    assert includes == ["security", "hostname"];
    SingleQueryShape(o, ip, ["city", "isp"], lang, includes, "fields");
    SingleQueryShape(o, ip, ["city", "isp"], lang, includes, "include");
    SingleQueryShape(o, ip, ["city", "isp"], lang, includes, "lang");
  }

  /** The bulk body is a JSON object with the single member "ips", whose value
      is a string that itself decodes, as a JSON array, to the addresses. */
  lemma BulkBodyRoundTrip(ips: seq<string>)
    ensures var members := Json.DecodeStringObject(BulkBody(ips));
            && members.Some? && |members.value| == 1
            && members.value[0].0 == "ips"
            && Json.DecodeStringArray(members.value[0].1) == Some(ips)
  {
    Json.ObjectRoundTrip([("ips", Json.ArrayText(ips))]);
    Json.ArrayRoundTrip(ips);
  }
}
