/**
 * The framework's request builders as the driver uses them: it only sets
 * headers on an API request and parameters on a redirect request.
 */
module HttpRequests {
  import opened OidcTypes

  /** The request object `httpClient(url)` returns; `header(...)` adds to it in place. */
  class ApiRequest {
    const url: string
    var headers: seq<Header>

    constructor (url: string)
      ensures this.url == url && headers == []
    {
      this.url := url;
      headers := [];
    }

    /** `request.header(name, value)` */
    method SetHeader(name: string, value: string)
      modifies this
      ensures headers == old(headers) + [Header(name, value)]
    {
      headers := headers + [Header(name, value)];
    }
  }

  /** The redirect request the base class hands to `configureRedirectRequest`. */
  class RedirectRequest {
    var params: map<string, string>

    constructor (params: map<string, string>)
      ensures this.params == params
    {
      this.params := params;
    }

    /** `request.param(key, value)` sets one query parameter of the redirect URL. */
    method Param(key: string, value: string)
      modifies this
      ensures params == old(params)[key := value]
    {
      params := params[key := value];
    }
  }
}
