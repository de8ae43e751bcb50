# ipgeolocation client, modelled in Dafny

This project models the Go client library for the ipgeolocation.io web service.
The library has three parts, and the model keeps them:

- **Building a client** (`New`) fixes the endpoint to `https://api.ipgeolocation.io/`.
  Its check of the configured language against the nine supported codes exists but cannot be reached:
  the language it tests is always empty, so every client uses "en" (see Findings).
  When the caller supplies no HTTP client, it creates one with a fixed connection policy.
- **Encoding a lookup request** does three things:
  - `validateParams` checks that the request is present and names an address.
  - `prepareUrlParams` adds the API key, the selected fields, the effective
    language and the include flags to the query multimap, in that order.
    It writes the effective language back into the caller's request.
  - `stringInArray` tests membership.
- **The two lookups**:
  - `GetIPGeolocation` sends a GET to `ipgeo?` with the address in the query.
  - `BulkIPGeolocation` sends a POST to `ipgeo-bulk?`. Its JSON body is
    `{"ips": "<JSON array of the addresses>"}`: the array is encoded a second time, as a string.
  - Both release the response body exactly once, whatever happens.
  - Both return the transport's error, or the read or decode outcome of the body.

Modules:

| module | file | models |
|---|---|---|
| `Models` | `models.dfy` | the request, options, client, result, errors, and the transport seen through its `Do` method |
| `UrlValues` | `url_values.dfy` | the query multimap (`url.Values`): `Add` appends a value to its key's list |
| `Utils` | `utils.dfy` | validation, query preparation, the include flags, membership test |
| `Json` | `json.dfy` | encoding and decoding of JSON string arrays and string objects (RFC 8259, the subset the bulk body uses) |
| `Config` | `ipgeolocation.dfy` | the endpoint, the languages, the default policy, `New` |
| `GeolocationApi` | `geolocation_api.dfy` | the two lookups, the request each sends, and how each exchange is settled |

The model follows the code as written, including where it departs from what its comments and option fields suggest:

- The configured language is never copied into the client, although `Options` is documented as
  configuring the client's behaviour (models.go:5) and New comments that it makes sure the
  language is supported (ipgeolocation.go:30). Every client therefore uses "en",
  and construction never fails. See Findings.
- The endpoint is always the package constant, although `Options` has an `Endpoint` field (models.go:8).
  No configuration can override it.

Two further facts about the code, which the model keeps:

- Preparing the query changes the caller's request: its empty language is replaced by the client's language.
- A bulk lookup decodes the response into a single result.

The transport (`Models.HttpClient`) is abstract. Each call of `Do` records the request and what came back,
in an exchange log. Whether the call fails, and with what response, is chosen non-deterministically.
A response body is a `Body` object that counts how often it was closed.
The result of reading and decoding the body is an abstract `ReadOutcome`:
- the decoded result;
- a decode failure that leaves a partly filled result;
- a read failure.

## Model

| member | source | states |
|---|---|---|
| Utils.ValidateParams | utils.go:9-19 | a nil request gives "missing input"; otherwise an error occurs exactly when both the IP and the IP list are empty, and that error is "missing IP" |
| Utils.AddUrlParams | utils.go:56-60 | the query gains one entry per value, under the given key, in order, and nothing else |
| Utils.PrepareUrlParams | utils.go:22-53 | the query gains exactly the API key, the fields, the effective language and the include names, in this order; an empty request language is replaced by the client's, and a set one is kept |
| Utils.AddIncludes | utils.go:36-52 | each set include flag appends its name under "include", in the order the flags are tested |
| Utils.StringInArray | utils.go:63-70 | the result is true exactly when the string occurs in the array |
| Utils.IncludeNamesSelected | utils.go:36-52 | the include names sent are the supported include names, filtered by the five flags |
| Utils.IncludeNamesSpec | utils.go:36-52 | there is one include name per set flag; the names keep the fixed order security, hostname, liveHostname, hostnameFallbackLive, useragent; a name is present exactly when its flag is set |
| Utils.SelectedMember | utils.go:36-52 | when names are distinct, a name survives the flag filter exactly when its flag is set |
| Utils.SelectedSubsequence | utils.go:36-52 | filtering by flags never reorders or invents names |
| Utils.PreparedValues | utils.go:22-53 | per key, one request adds exactly one API key, the fields as given, exactly one language, the include names as given, and nothing under any other key |
| UrlValues.AddAllGet | utils.go:56-60 | adding entries keeps every earlier value of a key and appends exactly that key's new values, in order |
| UrlValues.AddAllKeys | utils.go:22-53 | adding entries only creates keys that received a value |
| UrlValues.ValuesForPairs | utils.go:56-60 | adding a list under one key adds exactly that list to that key and nothing to any other |
| Json.QuoteRoundTrip | geolocation_api.go:104-107 | every string encoded as a JSON string literal decodes back to itself, and the text after it is left untouched |
| Json.ArrayRoundTrip | geolocation_api.go:104-107 | every list of strings encoded as a JSON array decodes back to the same list |
| Json.ObjectRoundTrip | geolocation_api.go:110-117 | every list of string members encoded as a JSON object decodes back to the same members |
| Config.ResolveLanguage | ipgeolocation.go:27-35 | an empty language becomes "en"; a non-empty one is accepted exactly when it is one of the nine supported codes; a refusal is "language not supported" |
| Config.New | ipgeolocation.go:16-70 | as written: construction always succeeds with a fresh client; the client has the configured key, the fixed endpoint and language "en"; it has the supplied transport, or, without one, a fresh transport with the default policy and no exchanges |
| Config.UnsupportedLanguageAccepted | ipgeolocation.go:21-35 | for every configuration whose language is non-empty and unsupported, New returns a client and no error, and that client uses "en", not the configured language |
| Config.NewValidated | ipgeolocation.go:16-70 | corrected: construction succeeds exactly when the configured language is empty or supported; a failure yields no client and "language not supported"; success keeps that language ("en" if empty), the key, the fixed endpoint, and the transport rules of New |
| GeolocationApi.Outcome | geolocation_api.go:69-81 | once a response arrived, a result is always returned: the zero result on a read failure, the partial result on a decode failure; an error is returned exactly when the body did not decode in full |
| GeolocationApi.Send | geolocation_api.go:42-81 | exactly one exchange is appended, for the given request; the response body, if any, ends closed exactly once; a transport failure returns no result and the transport's error; otherwise the body decides |
| GeolocationApi.GetIPGeolocation | geolocation_api.go:13-82 | the validation error, then "missing ip" when the address is empty, with nothing sent and nothing changed; otherwise one GET to endpoint + "ipgeo?" with the address query, settled as by Send; the effective language is written back into the request, and no other field of it changes |
| GeolocationApi.BulkIPGeolocation | geolocation_api.go:84-168 | the validation error, then "missing ips" when the list is empty, with nothing sent; otherwise one POST to endpoint + "ipgeo-bulk?" with Content-Type application/json and the doubly encoded address list as body, settled as by Send |
| GeolocationApi.SingleQueryShape | geolocation_api.go:29-32 | the single-lookup query holds exactly one address, one key and one language, the fields and include names as given, and no other key; a key is present exactly when it has values |
| GeolocationApi.BulkQueryShape | geolocation_api.go:100-101 | the bulk query holds the key, fields, language and include names as given, and has no "ip" key |
| GeolocationApi.CityIspSecurityHostname | utils.go:22-53 | fields city and isp with security and hostname set give the fields [city, isp], the includes [security, hostname], each in order, and one language |
| GeolocationApi.BulkBodyRoundTrip | geolocation_api.go:103-117 | the bulk body decodes to an object with the single member "ips", whose string value decodes as a JSON array to the addresses |
| Models.HttpClient.Do | models.go:23-25 | each call logs the request with what came back; without an error there is a response; a response body is fresh and not yet closed |
| Models.Request.constructor | models.go:69-79 | a request holds the given address, address list, fields, language and the five include flags |
| Models.Client.constructor | models.go:16-19 | a client holds the options it was built with |

## Left out

- The HTTP stack, TLS, proxies, timeouts and connection reuse are not modelled.
  The default transport is recorded only by its policy values (`Config.DefaultPolicy`).
- Rendering the query as text (`url.Values.Encode`: percent-escaping, keys sorted) is not modelled.
  A request carries the URL prefix and the structured query.
- `http.NewRequest` can fail only on a malformed method or URL, and `json.Marshal`
  of strings can never fail. Those error branches are not modelled.
- `ioutil.ReadAll` and `json.Unmarshal` are abstract. A body's `ReadOutcome` says what they yield.
  Matching JSON members to result fields is recorded only as the tag tables in `Models`.
- The HTTP status code is carried but unused, as it is in the code. The floating-point
  `current_time_unix` member of the time zone is not modelled.
- The JSON encoder (`Json.Escape`) differs from Go's `json.Marshal` in these ways:
  - It writes `<`, `>` and `&` as themselves. Go writes them as `\u003c`, `\u003e` and `\u0026`.
  - It writes U+2028 and U+2029 as themselves. Go writes them as `\u2028` and `\u2029`.
  - It writes backspace and form feed as `\u0008` and `\u000c`. Go 1.22 and later write them as `\b` and `\f`.
  - It does not replace invalid UTF-8. Dafny strings are sequences of characters, not bytes.
  IP addresses contain none of these characters.
  The decoder rejects `\u` escapes of surrogate halves rather than pairing them.
- A transport that returns neither a response nor an error is not modelled: Go would dereference nil there.
  The same holds for a response with a nil body.
- GetIPGeolocation and BulkIPGeolocation require a transport only for requests that pass validation.
  `New` always installs one. A client without one makes Go dereference nil at the `Do` call,
  which the model leaves out; the validation exits work without a transport, as in Go.
- The `fmt.Printf` logging on each error path is not modelled.
  An error returned by closing the body is only logged, so it is not modelled either.
- Concurrent use of one client from several goroutines is not modelled.
- The tests in geolocation_api_test.go call the live service with real credentials. They are not part of this model.
- Two pieces of code are moved into helpers of their own, with no change in behaviour:
  - the five include tests of prepareUrlParams (`Utils.AddIncludes`);
  - the language branch of New (`Config.ResolveLanguage`).

## Findings

| source | as written | input that shows it | evidently intended | confidence | as-written member | corrected member |
|---|---|---|---|---|---|---|
| ipgeolocation.go:21-35 | the options literal does not copy `config.Language`, so the test `opts.Language == ""` always holds and every client uses "en" | `New(Options{APIKey: "key", Language: "xx"})` returns a client using "en" and no error | copy the configured language, so an unsupported language is refused and a supported one is used | high (not executed) | Config.UnsupportedLanguageAccepted | Config.NewValidated |
