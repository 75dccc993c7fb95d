/**
  The metadata (META) façade: the URIs of content, content directories, files,
  vocabularies and external feeds of one user account, the optional query a
  caller may hang on them, the CDN flags of the delete operations, the status
  check of the Atom and MRSS feeds, and the vocabulary existence test.

  The account name (`self.username`) is the parameter `user` throughout.
 */
module Meta {
  import opened Wrappers
  import opened Json
  import opened Strings
  import opened Http

  /** The local failures of the façade, raised before any request is made. */
  datatype MetaError =
    | MalformedEntry   // entry["entry"]["content"]["params"]["name"] is missing or not a string
    | MissingPath      // a path argument left at None reaches `.lstrip("/")`

  const NamePath: seq<string> := ParamsPath + ["name"]

  /** `entry["entry"]["content"]["params"]["name"]`, which must be a string to be joined into a URI. */
  function EntryName(entry: Value): (r: Result<string, MetaError>)
    ensures r.Success? <==> (Lookup(entry, NamePath).Some? && Lookup(entry, NamePath).value.Str?)
    ensures r.Success? ==> Lookup(entry, NamePath) == Some(Str(r.value))
    ensures r.Failure? ==> r.error == MalformedEntry
  {
    match Lookup(entry, NamePath)
    case Some(Str(name)) => Success(name)
    case _ => Failure(MalformedEntry)
  }

  /** The name of an entry built around a params object is the params object's "name". */
  lemma EntryNameOfEnvelope(params: map<string, Value>, name: string)
    requires "name" in params && params["name"] == Str(name)
    ensures EntryName(Envelope(params)) == Success(name)
  {
    LookupAppend(Envelope(params), ParamsPath, ["name"]);
    EnvelopeRoundTrip(params);
  }

  // ---------------------------------------------------------------- URIs

  function ContentListUri(user: string): string {
    "/content/" + user + "/"
  }

  function ContentUri(user: string, name: string): string {
    ContentListUri(user) + name + "/"
  }

  function VocabListUri(user: string): string {
    "/vocab/" + user + "/"
  }

  function VocabUri(user: string, name: string): string {
    VocabListUri(user) + name + "/"
  }

  function ExtJsonUri(user: string): string {
    "/ext/json/" + user + "/"
  }

  function ExtAtomUri(user: string): string {
    "/ext/atom/" + user + "/"
  }

  function ExtMrssUri(user: string, rtmp: bool): string {
    if rtmp then "/ext/mrss-jw-rtmp/" + user + "/" else "/ext/mrss/" + user + "/"
  }

  /** `"/file/" + user + "/" + path.lstrip("/")` */
  function FileUri(user: string, path: string): string {
    "/file/" + user + "/" + LStrip(path, '/')
  }

  /** The directory URI of getContentDirList: the root for a missing or empty dirpath. */
  function ContentDirUri(user: string, dirpath: Option<string>): (u: string)
    ensures var root := "/contentdir/" + user + "/";
      |root| <= |u| && u[..|root|] == root && (|u| == |root| || u[|root|] != '/')
    ensures dirpath == None || dirpath == Some("") ==> u == "/contentdir/" + user + "/"
  {
    var path := if dirpath.Some? && dirpath.value != "" then "/" + LStrip(dirpath.value, '/') else "/";
    assert path == "/" + path[1..];
    "/contentdir/" + user + path
  }

  /**
    getContentDirList tests `if dirpath:` before stripping, deleteContentDir
    strips unconditionally; for a present dirpath, empty or not, the two give
    the same directory URI.
   */
  lemma ContentDirUriOfPath(user: string, d: string)
    ensures ContentDirUri(user, Some(d)) == "/contentdir/" + user + "/" + LStrip(d, '/')
  {
  }

  /** A string `p + s` ends in the same `s` only when the prefixes agree. */
  lemma AppendCancel(p: string, s: string, t: string)
    ensures p + s == p + t <==> s == t
  {
    if p + s == p + t {
      assert s == (p + s)[|p|..];
    }
  }

  /** For one user, content instance URIs of different names differ, and each lies under the content list URI. */
  lemma ContentUriInjective(user: string, name1: string, name2: string)
    ensures ContentUri(user, name1) == ContentUri(user, name2) <==> name1 == name2
    ensures ContentUri(user, name1)[..|ContentListUri(user)|] == ContentListUri(user)
  {
    var p := ContentListUri(user);
    if ContentUri(user, name1) == ContentUri(user, name2) {
      assert name1 == ContentUri(user, name1)[|p|..|ContentUri(user, name1)| - 1];
      assert name2 == ContentUri(user, name2)[|p|..|ContentUri(user, name2)| - 1];
    }
  }

  /** For one user, vocabulary instance URIs of different names differ, and each lies under the vocabulary list URI. */
  lemma VocabUriInjective(user: string, name1: string, name2: string)
    ensures VocabUri(user, name1) == VocabUri(user, name2) <==> name1 == name2
    ensures VocabUri(user, name1)[..|VocabListUri(user)|] == VocabListUri(user)
  {
    var p := VocabListUri(user);
    if VocabUri(user, name1) == VocabUri(user, name2) {
      assert name1 == VocabUri(user, name1)[|p|..|VocabUri(user, name1)| - 1];
      assert name2 == VocabUri(user, name2)[|p|..|VocabUri(user, name2)| - 1];
    }
  }

  /**
    Leading slashes of the path do not matter to a file URI; two paths name
    the same file exactly when they agree once their leading slashes are
    stripped; and exactly one slash follows the user name.
   */
  lemma FileUriIgnoresLeadingSlashes(user: string, k: nat, path: string, other: string)
    ensures FileUri(user, Repeat('/', k) + path) == FileUri(user, path)
    ensures FileUri(user, path) == FileUri(user, other) <==> LStrip(path, '/') == LStrip(other, '/')
    ensures var root := "/file/" + user + "/";
      FileUri(user, path)[..|root|] == root && (|FileUri(user, path)| == |root| || FileUri(user, path)[|root|] != '/')
  {
    LStripIgnoresPrefix('/', k, path);
    AppendCancel("/file/" + user + "/", LStrip(path, '/'), LStrip(other, '/'));
  }

  /**
    getContentDirList: a dirpath and the same dirpath behind any number of
    extra leading slashes give the same URI; an empty dirpath and a missing
    one both give the root.
   */
  lemma ContentDirUriIgnoresLeadingSlashes(user: string, k: nat, d: string)
    ensures ContentDirUri(user, Some(Repeat('/', k) + d)) == ContentDirUri(user, Some(d))
    ensures ContentDirUri(user, Some("")) == ContentDirUri(user, None)
  {
    LStripIgnoresPrefix('/', k, d);
    if d == "" {
      assert Repeat('/', k) + d == Repeat('/', k);
      if k > 0 {
        assert LStrip("", '/') == "";
      }
    }
  }

  // ------------------------------------------------------- façade calls

  /** delete: DELETE whatever URI is given. */
  function DeleteResource(uri: string): (c: Call)
    ensures c.verb == Delete && c.uri == Path(uri) && c.body == Null && c.media == None
  {
    Request(Delete, Path(uri), Null)
  }

  /** createContent: POST the entry to the user's content list. */
  function CreateContent(user: string, entry: Value): (c: Call)
    ensures c.verb == Post && c.uri == Path(ContentListUri(user)) && c.body == entry
  {
    Request(Post, Path(ContentListUri(user)), entry)
  }

  /** getContent: GET whatever URI is given. */
  function GetContent(uri: string): (c: Call)
    ensures c.verb == Get && c.uri == Path(uri) && c.body == Null
  {
    Request(Get, Path(uri), Null)
  }

  /**
    updateContent: POST the entry to the URI of the content instance it names,
    through the query when one with parameters is given. A malformed entry
    fails before the query is touched.
   */
  method UpdateContent(user: string, entry: Value, query: Query? := null) returns (r: Result<Call, MetaError>)
    modifies query
    ensures r.Success? <==> EntryName(entry).Success?
    ensures r.Failure? ==> r.error == MalformedEntry && (query != null ==> unchanged(query))
    ensures r.Success? ==>
      r.value == Request(Post, QueriedUri(ContentUri(user, EntryName(entry).value), old(QueryParams(query))), entry) &&
      FeedRedirected(query, ContentUri(user, EntryName(entry).value))
  {
    var name := EntryName(entry);
    if name.Failure? {
      return Failure(name.error);
    }
    var uri := ApplyQuery(ContentUri(user, name.value), query);
    r := Success(Request(Post, uri, entry));
  }

  /**
    deleteContent: DELETE the content instance the entry names; when the files
    are to go from the CDN as well (the flag defaults to true), through a fresh query
    carrying sync_cdn=1 with the instance URI as its feed.
   */
  method DeleteContent(user: string, entry: Value, deleteFilesFromCdn: bool := true) returns (r: Result<Call, MetaError>)
    ensures r.Success? <==> EntryName(entry).Success?
    ensures r.Failure? ==> r.error == MalformedEntry
    ensures r.Success? && deleteFilesFromCdn ==>
      r.value == Request(Delete, Rendered(Some(ContentUri(user, EntryName(entry).value)), map["sync_cdn" := "1"]), Null)
    ensures r.Success? && !deleteFilesFromCdn ==>
      r.value == Request(Delete, Path(ContentUri(user, EntryName(entry).value)), Null)
  {
    var name := EntryName(entry);
    if name.Failure? {
      return Failure(name.error);
    }
    var base := ContentUri(user, name.value);
    var uri := Path(base);
    if deleteFilesFromCdn {
      var query := new Query(map["sync_cdn" := "1"], Some(base));
      uri := query.ToUri();
    }
    r := Success(Request(Delete, uri, Null));
  }

  /** getContentList: GET the user's content list, through the query when one with parameters is given. */
  method GetContentList(user: string, query: Query? := null) returns (c: Call)
    modifies query
    ensures c == Request(Get, QueriedUri(ContentListUri(user), old(QueryParams(query))), Null)
    ensures FeedRedirected(query, ContentListUri(user))
  {
    var uri := ApplyQuery(ContentListUri(user), query);
    c := Request(Get, uri, Null);
  }

  /** getContentInstance: GET the named content instance, through the query when one with parameters is given. */
  method GetContentInstance(user: string, name: string, query: Query? := null) returns (c: Call)
    modifies query
    ensures c == Request(Get, QueriedUri(ContentUri(user, name), old(QueryParams(query))), Null)
    ensures FeedRedirected(query, ContentUri(user, name))
  {
    var uri := ApplyQuery(ContentUri(user, name), query);
    c := Request(Get, uri, Null);
  }

  /** getContentDirList: GET the directory listing, through the query when one with parameters is given. */
  method GetContentDirList(user: string, dirpath: Option<string> := None, query: Query? := null) returns (c: Call)
    modifies query
    ensures c == Request(Get, QueriedUri(ContentDirUri(user, dirpath), old(QueryParams(query))), Null)
    ensures FeedRedirected(query, ContentDirUri(user, dirpath))
  {
    var path := "/";
    if dirpath.Some? && dirpath.value != "" {
      path := "/" + LStrip(dirpath.value, '/');
    }
    var uri := ApplyQuery("/contentdir/" + user + path, query);
    c := Request(Get, uri, Null);
  }

  /**
    The request deleteContentDir makes, as written: DELETE the directory URI,
    or, when the deletion is conditional on the directory being gone from the
    CDN, a query carrying check_cdn=1 whose feed is never set.
   */
  function DeleteContentDirRequest(user: string, dirpath: Option<string>, notIfExists: bool): Result<Call, MetaError> {
    if dirpath.None? then Failure(MissingPath)
    else if notIfExists then Success(Request(Delete, Rendered(None, map["check_cdn" := "1"]), Null))
    else Success(Request(Delete, Path(ContentDirUri(user, dirpath)), Null))
  }

  /**
    deleteContentDir: strip the dirpath onto the user's contentdir URI and
    DELETE it, unless the deletion is conditional, in which case the request
    is a fresh query with check_cdn=1 and the URI just computed is dropped.
    A missing dirpath fails at the strip.
   */
  method DeleteContentDir(user: string, dirpath: Option<string> := None, notIfExists: bool := false)
    returns (r: Result<Call, MetaError>)
    ensures r == DeleteContentDirRequest(user, dirpath, notIfExists)
    ensures r.Failure? <==> dirpath == None
    ensures r.Failure? ==> r.error == MissingPath
    ensures r.Success? && !notIfExists ==> r.value == Request(Delete, Path(ContentDirUri(user, dirpath)), Null)
    ensures r.Success? && notIfExists ==> r.value.uri.Rendered? && r.value.uri.feed == None
  {
    if dirpath.None? {
      return Failure(MissingPath);
    }
    var uri := Path("/contentdir/" + user + "/" + LStrip(dirpath.value, '/'));
    ContentDirUriOfPath(user, dirpath.value);
    if notIfExists {
      var query := new Query(map[], None);
      query.Set("check_cdn", "1");
      uri := query.ToUri();
    }
    r := Success(Request(Delete, uri, Null));
  }

  /**
    As written, a conditional deleteContentDir names no directory: the
    requests for any two dirpaths are one and the same, even for two
    different directories such as "music" and "video".
   */
  lemma DeleteContentDirDiscardsDirectory(user: string, d1: string, d2: string)
    ensures ContentDirUri(user, Some("music")) != ContentDirUri(user, Some("video"))
    ensures DeleteContentDirRequest(user, Some(d1), true) == DeleteContentDirRequest(user, Some(d2), true)
  {
  }

  /**
    deleteContentDir as evidently intended, the way deleteFile does it: the
    check_cdn query takes the directory URI as its feed.
   */
  function DeleteContentDirIntended(user: string, dirpath: Option<string>, notIfExists: bool): Result<Call, MetaError> {
    if dirpath.None? then Failure(MissingPath)
    else if notIfExists then
      Success(Request(Delete, Rendered(Some(ContentDirUri(user, dirpath)), map["check_cdn" := "1"]), Null))
    else Success(Request(Delete, Path(ContentDirUri(user, dirpath)), Null))
  }

  /**
    Corrected, a conditional deleteContentDir addresses its directory: two
    dirpaths give the same request exactly when they name the same directory
    once leading slashes are stripped.
   */
  lemma DeleteContentDirIntendedKeepsDirectory(user: string, d1: string, d2: string)
    ensures DeleteContentDirIntended(user, Some(d1), true) == DeleteContentDirIntended(user, Some(d2), true)
      <==> LStrip(d1, '/') == LStrip(d2, '/')
  {
    ContentDirUriOfPath(user, d1);
    ContentDirUriOfPath(user, d2);
    AppendCancel("/contentdir/" + user + "/", LStrip(d1, '/'), LStrip(d2, '/'));
  }

  /** getFileInstance: GET the file URI of the path, through the query when one with parameters is given. */
  method GetFileInstance(user: string, path: string, query: Query? := null) returns (c: Call)
    modifies query
    ensures c == Request(Get, QueriedUri(FileUri(user, path), old(QueryParams(query))), Null)
    ensures FeedRedirected(query, FileUri(user, path))
  {
    var uri := ApplyQuery(FileUri(user, path), query);
    c := Request(Get, uri, Null);
  }

  /**
    deleteFile: DELETE the file URI of the path, or, when the deletion is
    conditional on the file being gone from the CDN, a query carrying
    check_cdn=1 with the file URI as its feed. A missing path fails.
   */
  method DeleteFile(user: string, path: Option<string> := None, notIfExists: bool := false) returns (r: Result<Call, MetaError>)
    ensures r.Failure? <==> path == None
    ensures r.Failure? ==> r.error == MissingPath
    ensures r.Success? && !notIfExists ==> r.value == Request(Delete, Path(FileUri(user, path.value)), Null)
    ensures r.Success? && notIfExists ==>
      r.value == Request(Delete, Rendered(Some(FileUri(user, path.value)), map["check_cdn" := "1"]), Null)
  {
    if path.None? {
      return Failure(MissingPath);
    }
    var uri := Path(FileUri(user, path.value));
    if notIfExists {
      var query := new Query(map[], None);
      query.Set("check_cdn", "1");
      query.feed := Some(FileUri(user, path.value));
      uri := query.ToUri();
    }
    r := Success(Request(Delete, uri, Null));
  }

  /** createVocab: POST the entry to the user's vocabulary list. */
  function CreateVocab(user: string, entry: Value): (c: Call)
    ensures c.verb == Post && c.uri == Path(VocabListUri(user)) && c.body == entry
  {
    Request(Post, Path(VocabListUri(user)), entry)
  }

  /** updateVocab: POST the entry to the URI of the vocabulary it names. */
  function UpdateVocab(user: string, entry: Value): (r: Result<Call, MetaError>)
    ensures r.Success? <==> EntryName(entry).Success?
    ensures r.Failure? ==> r.error == MalformedEntry
    ensures r.Success? ==> r.value == Request(Post, Path(VocabUri(user, EntryName(entry).value)), entry)
  {
    match EntryName(entry)
    case Success(name) => Success(Request(Post, Path(VocabUri(user, name)), entry))
    case Failure(e) => Failure(e)
  }

  /** deleteVocab: DELETE the vocabulary the entry names. */
  function DeleteVocab(user: string, entry: Value): (r: Result<Call, MetaError>)
    ensures r.Success? <==> EntryName(entry).Success?
    ensures r.Failure? ==> r.error == MalformedEntry
    ensures r.Success? ==> r.value == Request(Delete, Path(VocabUri(user, EntryName(entry).value)), Null)
  {
    match EntryName(entry)
    case Success(name) => Success(Request(Delete, Path(VocabUri(user, name)), Null))
    case Failure(e) => Failure(e)
  }

  /** getVocabList: GET the user's vocabulary list, through the query when one with parameters is given. */
  method GetVocabList(user: string, query: Query? := null) returns (c: Call)
    modifies query
    ensures c == Request(Get, QueriedUri(VocabListUri(user), old(QueryParams(query))), Null)
    ensures FeedRedirected(query, VocabListUri(user))
  {
    var uri := ApplyQuery(VocabListUri(user), query);
    c := Request(Get, uri, Null);
  }

  /** getVocabInstance: GET the named vocabulary. */
  function GetVocabInstance(user: string, name: string): (c: Call)
    ensures c.verb == Get && c.uri == Path(VocabUri(user, name)) && c.body == Null
  {
    Request(Get, Path(VocabUri(user, name)), Null)
  }

  /** updateVocabName: POST the entry to the URI of the name given, whatever name the entry holds. */
  function UpdateVocabName(user: string, entry: Value, name: string): (c: Call)
    ensures c.verb == Post && c.uri == Path(VocabUri(user, name)) && c.body == entry
  {
    Request(Post, Path(VocabUri(user, name)), entry)
  }

  /**
    vocabExists: look the vocabulary up; it exists when the lookup returns,
    does not when the lookup raises RequestError, and any other exception
    passes through. `transport` is what the protocol layer makes of a call.
   */
  method VocabExists(user: string, name: string, transport: Call -> Outcome) returns (r: Result<bool, Exception>)
    ensures r == Success(true) <==> transport(GetVocabInstance(user, name)).Returned?
    ensures r == Success(false) <==>
      transport(GetVocabInstance(user, name)).Raised? && transport(GetVocabInstance(user, name)).exception.RequestFailed?
    ensures r.Failure? ==>
      transport(GetVocabInstance(user, name)) == Raised(r.error) && r.error.OtherException?
  {
    var found := false;
    var outcome := transport(GetVocabInstance(user, name));
    match outcome {
      case Returned(_) =>
        found := true;
      case Raised(RequestFailed(_)) =>
      case Raised(e) =>
        return Failure(e);
    }
    r := Success(found);
  }

  /** getExtJson: GET the user's JSON feed, through the query when one with parameters is given. */
  method GetExtJson(user: string, query: Query? := null) returns (c: Call)
    modifies query
    ensures c == Request(Get, QueriedUri(ExtJsonUri(user), old(QueryParams(query))), Null)
    ensures FeedRedirected(query, ExtJsonUri(user))
  {
    var uri := ApplyQuery(ExtJsonUri(user), query);
    c := Request(Get, uri, Null);
  }

  /**
    The status check of the Atom and MRSS feeds: status 200 alone yields the
    decoded body; every other status, other 2xx codes included, is a
    RequestError carrying status, reason and the raw body.
   */
  function ExtResult(response: Response, decode: seq<bv8> -> string): (r: Result<string, RequestError>)
    ensures r.Success? <==> response.status == 200
    ensures r.Success? ==> r.value == decode(response.body)
    ensures r.Failure? ==> r.error == RequestError(response.status, response.reason, response.body)
  {
    if response.status == 200 then Success(decode(response.body))
    else Failure(RequestError(response.status, response.reason, response.body))
  }

  /** `HttpRequest('GET', None, uri, extra_headers = {"Accept": accept})` */
  function RawGet(uri: Uri, accept: string): Call {
    Call(Get, uri, Null, None, map["Accept" := accept])
  }

  /**
    getExtAtom: GET the user's Atom feed (through the query when one with
    parameters is given) asking for application/atom, and check the status.
    `http` is the raw transport; `decode` is UTF-8 decoding.
   */
  method GetExtAtom(user: string, query: Query? := null, http: Call -> Response, decode: seq<bv8> -> string)
    returns (r: Result<string, RequestError>)
    modifies query
    ensures r == ExtResult(http(RawGet(QueriedUri(ExtAtomUri(user), old(QueryParams(query))), "application/atom")), decode)
    ensures FeedRedirected(query, ExtAtomUri(user))
  {
    var uri := ApplyQuery(ExtAtomUri(user), query);
    var response := http(RawGet(uri, "application/atom"));
    if response.status == 200 {
      r := Success(decode(response.body));
    } else {
      r := Failure(RequestError(response.status, response.reason, response.body));
    }
  }

  /**
    getExtMrss: GET the user's MRSS feed, or its JW Player RTMP variant, (through
    the query when one with parameters is given) asking for application/xml,
    and check the status.
   */
  method GetExtMrss(user: string, rtmp: bool := false, query: Query? := null, http: Call -> Response, decode: seq<bv8> -> string)
    returns (r: Result<string, RequestError>)
    modifies query
    ensures r == ExtResult(http(RawGet(QueriedUri(ExtMrssUri(user, rtmp), old(QueryParams(query))), "application/xml")), decode)
    ensures FeedRedirected(query, ExtMrssUri(user, rtmp))
  {
    var base := "/ext/mrss/" + user + "/";
    if rtmp {
      base := "/ext/mrss-jw-rtmp/" + user + "/";
    }
    var uri := ApplyQuery(base, query);
    var response := http(RawGet(uri, "application/xml"));
    if response.status == 200 {
      r := Success(decode(response.body));
    } else {
      r := Failure(RequestError(response.status, response.reason, response.body));
    }
  }
}
