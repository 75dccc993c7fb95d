/**
  The boundary to the protocol layer the façades call into. The layer itself
  (authentication, transport, `Query.ToUri`, JSON decoding) is not part of
  this model: a façade's request is described by the `Call` it hands over, and
  a rendered query URI by the query state `ToUri` is applied to.
 */
module Http {
  import opened Wrappers
  import opened Json

  datatype Verb = Get | Post | Put | Delete

  /** A request URI: a literal path, or `ToUri()` of a query with this feed and these parameters. */
  datatype Uri =
    | Path(path: string)
    | Rendered(feed: Option<string>, params: map<string, string>)

  /** A local file to upload and the name it gets on the server. */
  datatype MediaSource = MediaSource(filePath: string, serverFilename: string)

  /** One call into the protocol layer: verb, URI, JSON body (Null for none), upload and extra headers. */
  datatype Call = Call(verb: Verb, uri: Uri, body: Value, media: Option<MediaSource>, extraHeaders: map<string, string>)

  /** A raw transport result, as returned by `HttpRequest`. */
  datatype Response = Response(status: int, reason: string, body: seq<bv8>)

  /** The error raised for a response the caller does not accept: status, reason and raw body. */
  datatype RequestError = RequestError(status: int, reason: string, body: seq<bv8>)

  /** What a call through `Get`/`Post`/`Delete` ends in: a decoded value, or an exception. */
  datatype Outcome = Returned(value: Value) | Raised(exception: Exception)

  datatype Exception = RequestFailed(error: RequestError) | OtherException(description: string)

  /** `self.Get(uri)`, `self.Post(entry, uri)`, `self.Delete(uri)`: no upload, default headers. */
  function Request(verb: Verb, uri: Uri, body: Value): Call {
    Call(verb, uri, body, None, map[])
  }

  /**
    A query: a mapping from parameter name to value plus the `feed` attribute
    naming the base path. Like the dictionary it is, a query without
    parameters tests false.
   */
  class Query {
    var feed: Option<string>
    var params: map<string, string>

    /** `Query(params = params, feed = feed)`; `Query()` is `Query(map[], None)`. */
    constructor (params: map<string, string>, feed: Option<string>)
      ensures this.params == params && this.feed == feed
    {
      this.params := params;
      this.feed := feed;
    }

    /** `query[key] = value`: the later write replaces the earlier one. */
    method Set(key: string, value: string)
      modifies this
      ensures params == old(params)[key := value] && feed == old(feed)
    {
      params := params[key := value];
    }

    /** `if query:` on a query object. */
    predicate Truthy()
      reads this
    {
      params != map[]
    }

    /** `query.ToUri()`, kept as the state it renders. */
    function ToUri(): Uri
      reads this
    {
      Rendered(feed, params)
    }
  }

  /** The parameters of an optional query, as `if query:` sees them. */
  function QueryParams(query: Query?): Option<map<string, string>>
    reads query
  {
    if query == null then None else Some(query.params)
  }

  /**
    The URI a query-taking façade requests for base path `base`: the base path
    itself, unless a query with parameters was supplied, in which case it is
    that query rendered with its feed replaced by `base`.
   */
  function QueriedUri(base: string, params: Option<map<string, string>>): Uri {
    if params.Some? && params.value != map[] then Rendered(Some(base), params.value) else Path(base)
  }

  /**
    What `if query: query.feed = uri` leaves behind: a query with parameters
    now has `base` as its feed, an empty one keeps its old feed, and the
    parameters themselves are untouched.
   */
  twostate predicate FeedRedirected(query: Query?, base: string)
    reads query
  {
    query != null ==>
      query.params == old(query.params) &&
      query.feed == if old(query.Truthy()) then Some(base) else old(query.feed)
  }

  /**
    The shared step of every query-taking façade:
    `if query: query.feed = uri; uri = query.ToUri()`.
   */
  method ApplyQuery(base: string, query: Query?) returns (uri: Uri)
    modifies query
    ensures uri == QueriedUri(base, old(QueryParams(query)))
    ensures FeedRedirected(query, base)
  {
    uri := Path(base);
    if query != null && query.Truthy() {
      query.feed := Some(base);
      uri := query.ToUri();
    }
  }
}
