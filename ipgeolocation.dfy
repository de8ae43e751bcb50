/** Building a client: the fixed endpoint, the supported languages, the
    language check and the default transport. */
module Config {
  import opened Models
  import Utils

  /** The base URL of the service. */
  const Endpoint: string := "https://api.ipgeolocation.io/"

  /** The languages the service answers in. */
  const Languages: seq<string> := ["en", "de", "ru", "ja", "fr", "cn", "es", "cs", "it"]

  /** The connection policy of the transport a client gets when none is given:
      dial timeout 50 s, TCP keep-alive 90 s, at most 2 idle connections per
      host and 20 in all, idle connections dropped after 90 s, TLS handshake
      10 s, expect-continue 1 s, keep-alives off, proxy from the environment,
      and 50 s for a whole request. */
  function DefaultPolicy(): Policy
  {
    Standard(dialTimeout := 50, dialKeepAlive := 90,
             maxIdleConnsPerHost := 2, maxIdleConns := 20,
             idleConnTimeout := 90, tlsHandshakeTimeout := 10,
             expectContinueTimeout := 1, disableKeepAlives := true,
             proxyFromEnvironment := true, timeout := 50)
  }

  /** The language step of New: an empty language becomes "en"; any other
      language is kept if it is supported and refused otherwise. */
  method ResolveLanguage(language: string) returns (resolved: string, err: Option<Error>)
    ensures language == "" ==> resolved == "en" && err.None?
    ensures language != "" ==> (err.None? <==> language in Languages)
    ensures language != "" && err.None? ==> resolved == language
    ensures err.Some? ==> err.value == LanguageNotSupported
  {
    var languages := Languages;
    resolved := language;
    if resolved == "" {
      resolved := "en";
    } else {
      var found := Utils.StringInArray(languages, resolved);
      if !found {
        return resolved, Some(LanguageNotSupported);
      }
    }
    err := None;
  }

  /** New as written: the options it builds take the key and the transport from
      `config`, the endpoint from the constant, and leave the language empty,
      so whatever `config` says about language or endpoint, the client speaks
      "en" to the fixed endpoint and construction never fails. */
  method New(config: Options) returns (client: Client?, err: Option<Error>)
    ensures err.None? && client != null && fresh(client)
    ensures client.options.apiKey == config.apiKey
    ensures client.options.endpoint == Endpoint
    ensures client.options.language == "en"
    ensures config.httpClient != null ==> client.options.httpClient == config.httpClient
    ensures config.httpClient == null ==>
              && client.options.httpClient != null && fresh(client.options.httpClient)
              && client.options.httpClient.policy == Some(DefaultPolicy())
              && client.options.httpClient.exchanges == []
  {
    var opts := Options(config.apiKey, Endpoint, "", config.httpClient);
    var language, failed := ResolveLanguage(opts.language);
    if failed.Some? {
      return null, failed;
    }
    opts := opts.(language := language);
    if opts.httpClient == null {
      var transport := new HttpClient(Some(DefaultPolicy()));
      opts := opts.(httpClient := transport);
    }
    client := new Client(opts);
    err := None;
  }

  /** An unsupported language in the configuration is not refused by New:
      the client is built anyway, and it speaks "en". */
  method UnsupportedLanguageAccepted(config: Options) returns (client: Client?, err: Option<Error>)
    requires config.language != "" && config.language !in Languages
    ensures err.None? && client != null && client.options.language == "en"
    ensures client.options.language != config.language
  {
    client, err := New(config);
  }

  /** New as its language check intends: the configured language is copied,
      so an empty one becomes "en", a supported one is kept, and any other
      makes construction fail with no client. */
  method NewValidated(config: Options) returns (client: Client?, err: Option<Error>)
    ensures err.None? <==> config.language == "" || config.language in Languages
    ensures err.Some? ==> client == null && err.value == LanguageNotSupported
    ensures err.None? ==> client != null && fresh(client)
    ensures err.None? ==> client.options.apiKey == config.apiKey
    ensures err.None? ==> client.options.endpoint == Endpoint
    ensures err.None? ==> client.options.language == (if config.language == "" then "en" else config.language)
    ensures err.None? && config.httpClient != null ==> client.options.httpClient == config.httpClient
    ensures err.None? && config.httpClient == null ==>
              && client.options.httpClient != null && fresh(client.options.httpClient)
              && client.options.httpClient.policy == Some(DefaultPolicy())
              && client.options.httpClient.exchanges == []
  {
    var opts := Options(config.apiKey, Endpoint, config.language, config.httpClient);
    var language, failed := ResolveLanguage(opts.language);
    if failed.Some? {
      return null, failed;
    }
    opts := opts.(language := language);
    if opts.httpClient == null {
      var transport := new HttpClient(Some(DefaultPolicy()));
      opts := opts.(httpClient := transport);
    }
    client := new Client(opts);
    err := None;
  }
}
