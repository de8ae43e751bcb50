/** The data the geolocation client works on: the caller's lookup request, the
    client configuration, the decoded result, the errors the client returns, and
    the HTTP transport it talks through (abstract: only what the client relies on). */
module Models {

  datatype Option<+T> = None | Some(value: T)

  /** Every error the client returns. The first five are local validation
      errors, never sent over the wire; the last three wrap a failure of the
      transport, of reading the response body, or of decoding it. */
  datatype Error =
    | MissingInput          // validateParams: no request at all
    | MissingIP             // validateParams: neither IP nor IPs given
    | MissingSingleIP       // GetIPGeolocation: IP empty (IPs alone is not enough)
    | MissingIPs            // BulkIPGeolocation: IPs empty
    | LanguageNotSupported  // New: configured language outside the supported set
    | TransportError(cause: string)
    | ReadError(cause: string)
    | DecodeError(cause: string)
  {
    /** The text the client's error carries. */
    function Message(): string
    {
      match this
      case MissingInput => "missing input"
      case MissingIP => "missing IP"
      case MissingSingleIP => "missing ip"
      case MissingIPs => "missing ips"
      case LanguageNotSupported => "language not supported"
      case TransportError(c) => c
      case ReadError(c) => c
      case DecodeError(c) => c
    }
  }

  /** The fixed connection policy of the client's own default transport
      (durations in seconds). */
  datatype Policy =
    | Standard(dialTimeout: nat, dialKeepAlive: nat,
               maxIdleConnsPerHost: nat, maxIdleConns: nat,
               idleConnTimeout: nat, tlsHandshakeTimeout: nat,
               expectContinueTimeout: nat, disableKeepAlives: bool,
               proxyFromEnvironment: bool, timeout: nat)

  /** The client configuration. A null httpClient means "use the default". */
  datatype Options = Options(apiKey: string, endpoint: string, language: string,
                             httpClient: HttpClient?)

  /** The API client; its configuration is private and set once, by New, so it
      is fixed for the client's lifetime. */
  class Client {
    const options: Options

    constructor (options: Options)
      ensures this.options == options
    {
      this.options := options;
    }
  }

  /** A lookup request. The caller owns it; encoding the query writes back the
      effective language into it, so it is an object rather than a value. */
  class Request {
    var ip: string
    var ips: seq<string>
    var fields: seq<string>
    var language: string
    var includeSecurity: bool
    var includeHostname: bool
    var includeLiveHostname: bool
    var includeHostnameFallbackLive: bool
    var includeUseragent: bool

    constructor (ip: string, ips: seq<string>, fields: seq<string>, language: string,
                 includeSecurity: bool, includeHostname: bool, includeLiveHostname: bool,
                 includeHostnameFallbackLive: bool, includeUseragent: bool)
      ensures this.ip == ip && this.ips == ips && this.fields == fields
      ensures this.language == language
      ensures this.includeSecurity == includeSecurity
      ensures this.includeHostname == includeHostname
      ensures this.includeLiveHostname == includeLiveHostname
      ensures this.includeHostnameFallbackLive == includeHostnameFallbackLive
      ensures this.includeUseragent == includeUseragent
    {
      this.ip, this.ips, this.fields, this.language := ip, ips, fields, language;
      this.includeSecurity, this.includeHostname := includeSecurity, includeHostname;
      this.includeLiveHostname := includeLiveHostname;
      this.includeHostnameFallbackLive := includeHostnameFallbackLive;
      this.includeUseragent := includeUseragent;
    }
  }

  datatype Currency = Currency(code: string, name: string, symbol: string)

  /** The time-zone block of a result; the floating-point current_time_unix
      is not modelled. */
  datatype TimeZone = TimeZone(name: string, offset: int, currentTime: string,
                               isDst: bool, dstSavings: int)

  /** The decoded response of the service. */
  datatype GeoResult = GeoResult(
    ip: string, hostname: string, continentCode: string, continentName: string,
    countryCode2: string, countryCode3: string, countryName: string,
    countryCapital: string, stateProv: string, district: string, city: string,
    zipcode: string, latitude: string, longitude: string, isEu: bool,
    callingCode: string, countryTld: string, languages: string,
    countryFlag: string, geonameId: string, isp: string, connectionType: string,
    organization: string, asn: string, currency: Currency, timeZone: TimeZone)

  /** The result before anything is decoded into it: every field at its zero value. */
  function ZeroResult(): GeoResult
  {
    GeoResult("", "", "", "", "", "", "", "", "", "", "", "", "", "", false,
              "", "", "", "", "", "", "", "", "",
              Currency("", "", ""), TimeZone("", 0, "", false, 0))
  }

  /** The fields of a result, each filled from the JSON member its tag names. */
  datatype ResultField =
    | Ip | Hostname | ContinentCode | ContinentName | CountryCode2 | CountryCode3
    | CountryName | CountryCapital | StateProv | District | City | Zipcode
    | Latitude | Longitude | IsEu | CallingCode | CountryTld | Languages
    | CountryFlag | GeonameId | Isp | ConnectionType | Organization | Asn
    | CurrencyBlock | TimeZoneBlock

  /** The JSON member name each result field is decoded from. */
  function Tag(f: ResultField): string
  {
    match f
    case Ip => "ip"
    case Hostname => "hostname"
    case ContinentCode => "continent_code"
    case ContinentName => "continent_name"
    case CountryCode2 => "country_code2"
    case CountryCode3 => "country_code3"
    case CountryName => "country_name"
    case CountryCapital => "country_capital"
    case StateProv => "state_prov"
    case District => "district"
    case City => "city"
    case Zipcode => "zipcode"
    case Latitude => "latitude"
    case Longitude => "longitude"
    case IsEu => "is_eu"
    case CallingCode => "calling_code"
    case CountryTld => "country_tld"
    case Languages => "languages"
    case CountryFlag => "country_flag"
    case GeonameId => "geoname_id"
    case Isp => "isp"
    case ConnectionType => "connection_type"
    case Organization => "organization"
    case Asn => "asn"
    case CurrencyBlock => "currency"
    case TimeZoneBlock => "time_zone"
  }

  datatype CurrencyField = Code | Name | Symbol

  function CurrencyTag(f: CurrencyField): string
  {
    match f
    case Code => "code"
    case Name => "name"
    case Symbol => "symbol"
  }

  /** The time-zone members that are decoded; current_time_unix is not modelled. */
  datatype TimeZoneField = ZoneName | Offset | CurrentTime | IsDst | DstSavings

  function TimeZoneTag(f: TimeZoneField): string
  {
    match f
    case ZoneName => "name"
    case Offset => "offset"
    case CurrentTime => "current_time"
    case IsDst => "is_dst"
    case DstSavings => "dst_savings"
  }

  // ---------------------------------------------------------------------------
  // The transport. Only its observable contract is modelled: every request it
  // is handed is logged with what came back, and a response it returns carries
  // a body that nobody has closed yet.

  /** What reading and decoding a response body yields: the full result, or a
      decode failure that leaves a partly filled result behind. */
  datatype Payload = WellFormed(value: GeoResult) | Malformed(partial: GeoResult, cause: string)

  /** What reading the whole body yields. */
  datatype ReadOutcome = Bytes(payload: Payload) | ReadFailed(cause: string)

  /** A response body; `closes` counts how often it was released. */
  class Body {
    const content: ReadOutcome
    var closes: nat

    constructor (content: ReadOutcome)
      ensures this.content == content && closes == 0
    {
      this.content := content;
      closes := 0;
    }

    method Close()
      modifies this
      ensures closes == old(closes) + 1
    {
      closes := closes + 1;
    }
  }

  datatype Response = Response(status: int, body: Body)

  /** A request: its method (verb), the URL up to and including "?", the query it encodes,
      the Content-Type header if set, and the body if any. */
  datatype HttpRequest = HttpRequest(verb: string, prefix: string,
                                     query: map<string, seq<string>>,
                                     contentType: Option<string>, body: Option<string>)

  /** One call of Do: the request and both halves of what it returned. */
  datatype Exchange = Exchange(request: HttpRequest, response: Option<Response>,
                               failure: Option<string>)

  /** Anything with Do(request) -> (response, error). `policy` is the connection
      policy of the client's default transport, and None for one the caller built. */
  class HttpClient {
    const policy: Option<Policy>
    var exchanges: seq<Exchange>

    constructor (policy: Option<Policy>)
      ensures this.policy == policy && exchanges == []
    {
      this.policy := policy;
      exchanges := [];
    }

    /** Sends `req`. Succeeds with a response, or fails with a cause and
        possibly a response as well; which one happens is not up to the client. */
    method Do(req: HttpRequest) returns (resp: Option<Response>, failure: Option<string>)
      modifies this
      ensures exchanges == old(exchanges) + [Exchange(req, resp, failure)]
      ensures failure.None? ==> resp.Some?
      ensures resp.Some? ==> fresh(resp.value.body) && resp.value.body.closes == 0
    {
      var fails: bool :| true;
      var answers: bool :| true;
      if fails {
        var cause: string :| true;
        failure := Some(cause);
      } else {
        failure := None;
        answers := true;
      }
      if answers {
        var status: int :| true;
        var content: ReadOutcome :| true;
        var body := new Body(content);
        resp := Some(Response(status, body));
      } else {
        resp := None;
      }
      exchanges := exchanges + [Exchange(req, resp, failure)];
    }
  }
}
