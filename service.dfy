/** `EsiosService`: the API token, the indicator cache and the HTTP session, and the two
    operations the tools call. The network is a parameter: a function from the requested URL to
    what the request produced. */
module Service {
  import opened Wrappers
  import opened Catalog
  import opened Series

  /** An aiohttp client session, which is open until it is closed. */
  class ClientSession {
    var closed: bool

    constructor()
      ensures !closed
    {
      closed := false;
    }

    method Close()
      modifies this
      ensures closed
    {
      closed := true;
    }
  }

  /** Where the whole indicator catalog is requested. */
  const CatalogUrl := BaseUrl + "/indicators"

  /** The header every request carries. */
  const ApiKeyHeader := "x-api-key"

  const MissingToken := "API token is required to access ESIOS API."

  /** The outcome of `EsiosService(api_token)`: a service, or the `ValueError` it raises. */
  datatype Construction = Constructed(service: EsiosService) | ConfigError(message: string)

  class EsiosService {
    const headers: map<string, string>
    var cache: Option<seq<Indicator>>
    var session: ClientSession?
    /** How many times the catalog has been requested. */
    ghost var fetches: nat

    /** The cache is filled by the one and only catalog request. */
    ghost predicate Valid()
      reads this
    {
      fetches <= 1 && (cache.None? <==> fetches == 0)
    }

    /** There is a session and it has not been closed. */
    predicate HasOpenSession()
      reads this, session
    {
      session != null && !session.closed
    }

    /** A fresh service holds the token in its header and has neither catalog nor session. */
    constructor(apiToken: string)
      requires apiToken != ""
      ensures headers == map[ApiKeyHeader := apiToken]
      ensures cache.None? && session == null && fetches == 0
      ensures Valid()
    {
      headers := map[ApiKeyHeader := apiToken];
      cache := None;
      session := null;
      fetches := 0;
    }

    /** `EsiosService(api_token)`, which refuses an empty token. */
    static method Create(apiToken: string) returns (r: Construction)
      ensures r.ConfigError? <==> apiToken == ""
      ensures r.ConfigError? ==> r.message == MissingToken
      ensures r.Constructed? ==> fresh(r.service) && r.service.Valid()
                                 && r.service.headers == map[ApiKeyHeader := apiToken]
                                 && r.service.cache.None? && r.service.session == null
    {
      if apiToken == "" {
        return ConfigError(MissingToken);
      }
      var service := new EsiosService(apiToken);
      r := Constructed(service);
    }

    /** `_ensure_session`: an open session is kept; a missing or closed one is replaced by a
        new one. */
    method EnsureSession() returns (s: ClientSession)
      modifies this
      ensures s == session && HasOpenSession()
      ensures old(HasOpenSession()) ==> session == old(session)
      ensures !old(HasOpenSession()) ==> fresh(session)
      ensures cache == old(cache) && fetches == old(fetches)
    {
      if session == null || session.closed {
        session := new ClientSession();
      }
      s := session;
    }

    /** `_fetch_all_indicators`: the catalog is requested only while nothing is cached; a failed
        request caches the empty catalog, which is then never requested again. */
    method FetchAllIndicators(source: string -> CatalogFetch) returns (indicators: seq<Indicator>)
      requires Valid()
      modifies this
      ensures Valid() && cache == Some(indicators)
      ensures old(cache).Some? ==> cache == old(cache) && session == old(session) && fetches == old(fetches)
      ensures old(cache).None? ==> indicators == Resolve(source(CatalogUrl)) && fetches == 1 && HasOpenSession()
    {
      if cache.None? {
        var s := EnsureSession();
        cache := Some(Resolve(source(CatalogUrl)));
        fetches := fetches + 1;
      }
      indicators := cache.value;
    }

    /** `search_indicators`: the catalog is obtained first, even when the pattern turns out not
        to compile, and the text is the one `SearchText` describes. */
    method SearchIndicators(query: string, regex: RegexEngine, source: string -> CatalogFetch)
      returns (text: string)
      requires Valid()
      modifies this
      ensures Valid() && cache.Some?
      ensures text == SearchText(cache.value, regex, query)
      ensures old(cache).Some? ==> cache == old(cache) && session == old(session) && fetches == old(fetches)
      ensures old(cache).None? ==> cache == Some(Resolve(source(CatalogUrl))) && fetches == 1
    {
      var indicators := FetchAllIndicators(source);
      if !regex.compiles(query) {
        return "Invalid regex pattern: '" + query + "'";
      }
      match Select(indicators, regex, query)
      case Err(key) =>
        text := SearchFailure + Text.KeyErrorText(key);
      case Ok(rows) =>
        if rows == [] {
          text := NoResults;
        } else {
          text := BuildReport(rows);
        }
    }

    /** `get_indicator_data`: one request to `Endpoint(p)` over an open session; the cache is not
        touched. */
    method GetIndicatorData(p: DataParams, upstream: string -> SeriesFetch) returns (text: string)
      modifies this
      ensures text == DataText(p, upstream(Endpoint(p)))
      ensures HasOpenSession()
      ensures old(HasOpenSession()) ==> session == old(session)
      ensures cache == old(cache) && fetches == old(fetches)
    {
      var url := Endpoint(p);
      var s := EnsureSession();
      text := BuildDataText(p, upstream(url));
    }

    /** `close`: only an open session is closed; a missing or closed one is left as it is. */
    method Close()
      modifies session
      ensures session != null ==> session.closed
      ensures old(session != null && session.closed) ==> unchanged(session)
    {
      if session != null && !session.closed {
        session.Close();
      }
    }
  }
}
