# raws-python: the RATS and META façades in Dafny

This project models the two façades of the Rambla web-services client that
hold logic of their own:

- **RATS** (transcoding; `raws_json/rats/service.py`).
  - `createJob` validates its format and location arguments. The format check comes first.
  - It then builds the job's `params` dictionary one truthy argument at a time.
  - It POSTs that dictionary to `/job/` inside the `{"entry": {"content": {"params": …}}}` envelope.
  - `getJob` refuses a missing URI. `createSrc` uploads a file to `/src/`.
  - The job status codes are modelled too.
- **META** (metadata; `raws_json/meta/service.py`).
  - The URIs of content, content directories, files, vocabularies and external feeds of one account. This includes stripping leading slashes from caller paths.
  - Every query-taking method overwrites the caller's `Query.feed` with the computed base URI before rendering it.
  - The `sync_cdn` / `check_cdn` flags of the delete operations.
  - The hand-written status check of the Atom and MRSS feeds, where only status 200 counts.
  - `vocabExists`, which turns a raised `RequestError` into `false`.

The protocol layer both façades call into (`RawsService`, `Query.ToUri`, the
transport) is not part of this model. It appears only at its boundary:

- A façade call returns the `Http.Call` it hands to `Get`/`Post`/`Put`/`Delete`: verb, URI, JSON body, upload and extra headers.
- A rendered query is `Http.Uri.Rendered(feed, params)`, i.e. the query state `ToUri()` is applied to.
- Where the façade inspects what the layer returns (`vocabExists`, `getExtAtom`, `getExtMrss`), the layer is a function parameter.

Modules, one per file:

| file | module | contents |
|---|---|---|
| `wrappers.dfy` | `Wrappers` | `Option`, `Result` |
| `json.dfy` | `Json` | Python values, Python's truth test, nested lookup, the entry envelope |
| `strings.dfy` | `Strings` | `lstrip` of one character |
| `http.dfy` | `Http` | `Call`, `Uri`, `Response`, `RequestError`, the `Query` class and the shared feed-redirecting step |
| `rats.dfy` | `Rats` | the RATS façade |
| `meta.dfy` | `Meta` | the META façade |

Python's truth test is `Json.Truthy`: `None`, `False`, `0`, `""` and `{}` are false.
`createJob`'s keyword arguments keep their Python values (`Json.Value`), because
they are copied into the request body. The boolean flags of META
(`delete_files_from_cdn`, `not_if_exists`, `rtmp`) are modelled by their truth value.
The source's default arguments are kept as Dafny default values: every `createJob` argument defaults to `Null`, every query to `null`, `delete_files_from_cdn` to true, `not_if_exists` and `rtmp` to false, and the optional paths to `None`.
The account name the service was constructed with is the parameter `user`.

`createJob` is proved in three parts:

- `CreateJob` reproduces the source's if-chain over a map variable.
- `SetOptionals` performs the nine `if arg: params[key] = arg` steps through `SetNext`. Each step extends the predicate `Handled`, which says that the first `n` keys in insertion order are as they should be and the rest are absent.
- `JobParamsUnique` shows that once all thirteen keys are handled, the map is the reference definition `JobParams`: every truthy argument under its own key, and nothing else.

## Model

| member | source | states |
|---|---|---|
| `Rats.StatusCodes` | raws_json/rats/service.py:31-40 | the ten status codes are 1..10 in order; among them a status is finished (≥ JOB_SUCCEEDED) exactly when it is JOB_SUCCEEDED or one of the three failure codes 8, 9, 10 |
| `Rats.CreateJob` | raws_json/rats/service.py:80-121 | both format and formatgroup truthy fails with the "both format and formatgroup" error; neither fails with the "no format" error; with exactly one format, both locations fail and no location fails, so a format error wins over a location error; it succeeds exactly when exactly one of format/formatgroup and exactly one of src_location/import_location is truthy, and then POSTs to `/job/` the envelope around `JobParams`, written with the source's key strings |
| `Rats.SetOptionals` | raws_json/rats/service.py:100-117 | after the location keys, setting each optional argument under its key when truthy yields exactly the reference parameter map `JobParams` |
| `Rats.SetNext` | raws_json/rats/service.py:100-101 | one `if v: params[k] = v` step on the next key in insertion order keeps every earlier key as `JobParams` has it and every later key absent |
| `Rats.JobParamsUnique` | raws_json/rats/service.py:80-117 | a map in which all thirteen keys are handled is `JobParams`: the params map is determined by the arguments alone |
| `Rats.JobParamsKeys` | raws_json/rats/service.py:84-117 | in the posted params object, the key of an argument is present iff the argument is truthy, and then holds the argument's exact value; no key other than the thirteen argument keys occurs |
| `Rats.GetJob` | raws_json/rats/service.py:123-131 | fails exactly when the URI is None, with the "valid URI" error and no request; otherwise a GET of that URI with no body |
| `Rats.CreateSrc` | raws_json/rats/service.py:59-69 | a PUT to `/src/` with no JSON body, uploading the local path under the given server file name |
| `Json.EnvelopeRoundTrip` | raws_json/rats/service.py:119 | the params object read back from `entry.content.params` of the envelope is exactly the one put in |
| `Json.LookupAppend` | raws_json/meta/service.py:61 | looking up `entry["entry"]["content"]["params"]["name"]` is looking up the params object, then `name` inside it |
| `Strings.LStrip` | raws_json/meta/service.py:126 | `lstrip("/")` never lengthens the string, leaves no leading `/`, and leaves a string without a leading `/` unchanged |
| `Strings.LStripSplit` | raws_json/meta/service.py:175 | the input is a run of `/` followed by the stripped result, so exactly the leading run is removed |
| `Strings.LStripIgnoresPrefix` | raws_json/meta/service.py:160 | extra leading `/` make no difference to the stripped result |
| `Http.Query.constructor` | raws_json/meta/service.py:77 | a new query holds exactly the given parameters and feed |
| `Http.Query.Set` | raws_json/meta/service.py:146 | `query[key] = value` replaces any earlier value of that key, adds nothing else and keeps the feed |
| `Http.ApplyQuery` | raws_json/meta/service.py:96-98 | with a query that has parameters, its feed becomes the base URI and the request URI is that query rendered; with no query or an empty one, the base URI is requested as is and the query is untouched; parameters never change |
| `Meta.EntryName` | raws_json/meta/service.py:61 | the name is found exactly when `entry.content.params.name` exists and is a string; otherwise the entry is malformed |
| `Meta.EntryNameOfEnvelope` | raws_json/meta/service.py:202 | an entry built around a params object whose `name` is a string yields that name |
| `Meta.ContentUriInjective` | raws_json/meta/service.py:108 | for one account, two content instance URIs (`ContentUri`, lines 62, 75 and 108) are equal iff the names are, and each starts with the content list URI (`ContentListUri`, lines 52 and 95) |
| `Meta.VocabUriInjective` | raws_json/meta/service.py:233 | for one account, two vocabulary URIs (`VocabUri`, lines 203, 212, 233 and 242) are equal iff the names are, and each starts with the vocabulary list URI (`VocabListUri`, lines 193 and 221) |
| `Meta.ContentDirUri` | raws_json/meta/service.py:124-127 | a contentdir URI starts with `/contentdir/<user>/` and the next character, if any, is not a `/`; a None or empty dirpath gives exactly that root |
| `Meta.ContentDirUriIgnoresLeadingSlashes` | raws_json/meta/service.py:124-127 | a dirpath with any number of extra leading `/` gives the same URI, so `d` and `"/" + d` agree; an empty dirpath gives the same URI as None |
| `Meta.ContentDirUriOfPath` | raws_json/meta/service.py:143 | for a present dirpath, empty or not, deleteContentDir's stripped URI is the URI getContentDirList lists |
| `Meta.FileUriIgnoresLeadingSlashes` | raws_json/meta/service.py:160 | leading `/` in the path do not change the file URI (`FileUri`, lines 160 and 175); two paths give the same file URI iff they agree after stripping; exactly one `/` follows the user name |
| `Meta.DeleteResource` | raws_json/meta/service.py:36-41 | a DELETE of the given URI, with no body and no upload |
| `Meta.CreateContent` | raws_json/meta/service.py:46-53 | a POST of the entry to the account's content list URI |
| `Meta.GetContent` | raws_json/meta/service.py:81-87 | a GET of the given URI, with no body |
| `Meta.UpdateContent` | raws_json/meta/service.py:55-66 | a malformed entry fails with the query untouched; otherwise a POST of the entry to the instance URI of the name it carries, through the query as `ApplyQuery` describes |
| `Meta.DeleteContent` | raws_json/meta/service.py:68-79 | a malformed entry fails; otherwise a DELETE, with no body, upload or extra header, of the instance URI, or of a query carrying `sync_cdn=1` whose feed is that URI exactly when the files are to be deleted from the CDN; the flag defaults to true |
| `Meta.GetContentList` | raws_json/meta/service.py:89-99 | a GET of the account's content list, through the query, whose feed is redirected to the list URI |
| `Meta.GetContentInstance` | raws_json/meta/service.py:101-112 | a GET of the named content instance, through the query, whose feed is redirected to the instance URI |
| `Meta.GetContentDirList` | raws_json/meta/service.py:117-131 | a GET of `ContentDirUri`, through the query, whose feed is redirected to that URI |
| `Meta.DeleteContentDir` | raws_json/meta/service.py:133-148 | returns `DeleteContentDirRequest`, the request of lines 143-147 as written: fails exactly when dirpath is None (its default); an unconditional delete is a DELETE of the same URI getContentDirList lists; a conditional one is a rendered query with no feed |
| `Meta.DeleteContentDirDiscardsDirectory` | raws_json/meta/service.py:143-147 | as written, the conditional deletes of any two dirpaths are the same request, even though "music" and "video" name different directories |
| `Meta.DeleteContentDirIntendedKeepsDirectory` | raws_json/meta/service.py:143-147 | with the feed set (`DeleteContentDirIntended`), two conditional deletes are the same request iff their dirpaths agree after stripping leading `/` |
| `Meta.GetFileInstance` | raws_json/meta/service.py:153-164 | a GET of the file URI of the path, through the query, whose feed is redirected to that URI |
| `Meta.DeleteFile` | raws_json/meta/service.py:166-181 | fails exactly when path is None (its default); otherwise a DELETE of the file URI, or of a query with `check_cdn=1` whose feed is the file URI when the delete is conditional |
| `Meta.CreateVocab` | raws_json/meta/service.py:187-194 | a POST of the entry to the account's vocabulary list URI |
| `Meta.UpdateVocab` | raws_json/meta/service.py:196-204 | a malformed entry fails; otherwise a POST of the entry to the URI of the vocabulary it names |
| `Meta.DeleteVocab` | raws_json/meta/service.py:206-213 | a malformed entry fails; otherwise a DELETE of the URI of the vocabulary it names |
| `Meta.GetVocabList` | raws_json/meta/service.py:215-225 | a GET of the account's vocabulary list, through the query, whose feed is redirected to the list URI |
| `Meta.GetVocabInstance` | raws_json/meta/service.py:227-234 | a GET of the named vocabulary's URI |
| `Meta.UpdateVocabName` | raws_json/meta/service.py:236-243 | a POST of the entry to the URI of the given name, whatever name the entry holds |
| `Meta.VocabExists` | raws_json/meta/service.py:245-252 | true iff the vocabulary lookup returns; false iff it raises RequestError; any other exception propagates unchanged |
| `Meta.GetExtJson` | raws_json/meta/service.py:257-267 | a GET of the account's JSON feed, through the query, whose feed is redirected to `/ext/json/<user>/` (`ExtJsonUri`, line 263) |
| `Meta.ExtResult` | raws_json/meta/service.py:283-287 | success iff the status is exactly 200, with the decoded body; any other status, other 2xx codes included, is a RequestError carrying status, reason and raw body |
| `Meta.GetExtAtom` | raws_json/meta/service.py:269-287 | a raw GET (`RawGet`, line 280) of the Atom feed (`ExtAtomUri`, line 275), through the query, with `Accept: application/atom`, whose response is classified by `ExtResult` |
| `Meta.GetExtMrss` | raws_json/meta/service.py:289-309 | a raw GET (`RawGet`, line 302) of the MRSS feed, or of its `mrss-jw-rtmp` variant when rtmp is set (`ExtMrssUri`, lines 295-297; rtmp defaults to false), through the query, with `Accept: application/xml`, whose response is classified by `ExtResult` |

## Left out

- The protocol layer is not part of this model. This covers authentication, credentials, host names, SSL, and the transport behind `Get`/`Post`/`Put`/`Delete`/`HttpRequest`. Requests are described by the `Call` they hand over. Where a result is inspected, the transport is a function parameter.
- `Query.ToUri` is not part of this model. It is recorded symbolically as `Uri.Rendered(feed, params)`, without its percent-encoding or the failure that an unset feed may cause in it.
- Http.Query.Truthy: `if query:` is modelled as the truth test of the dictionary a query is. A query with no parameters counts as false and is left untouched. The `Query` class itself is not among the files modelled, so this is an assumption drawn from `query["check_cdn"] = "1"`.
- UTF-8 decoding of the feed bodies is a function parameter `decode`. Decoding errors are not modelled.
- Json.Truthy covers None, booleans, integers, strings and dictionaries. Floats, lists and tuples passed to `createJob` are not modelled.
- Json.Value has no lists or floats, so META entries are modelled without them (a content entry's file list, for one). The façades forward entries unchanged and only read `entry.content.params.name`, so no façade behaviour depends on this.
- Meta.EntryName: KeyError and TypeError on a malformed entry are one error, `MalformedEntry`. The exception text is not modelled.
- Meta.GetFileInstance: the path is a string. A None path, which fails at `lstrip` as in `deleteFile`, is not modelled here.
- The service constructors are not modelled. They only store the account name (the parameter `user`) and pick a default host name.
- `RatsService.delete` (raws_json/rats/service.py:55-57) is the same call as `Meta.DeleteResource` and is not repeated.
- The RAMS, RASE, webcast and tools façades and the sample scripts are not modelled. They hold constant URI prefixes, delegated network calls, printing and polling, and nothing beyond the META query pattern.
- Rats.JobError.Message: reproduces the source's exception texts word for word. That includes a wording slip at raws_json/rats/service.py:92, where the src_location/import_location check says "both format and input_location were set". No contract depends on the texts.
- Meta.ExtResult: `getExtAtom` and `getExtMrss` accept exactly status 200 (raws_json/meta/service.py:283, 305). A 201 or 204 raises `RequestError`.
- Meta.DeleteContentDir: the conditional delete renders a query whose feed was never set. What `ToUri` makes of that is outside this model; see Findings.

## Findings

| source | as written | input that shows it | evidently intended | confidence | as-written member | corrected member |
|---|---|---|---|---|---|---|
| raws_json/meta/service.py:143-147 | with `not_if_exists`, the `check_cdn` query never gets `feed = uri`, so the directory URI just computed is discarded | `deleteContentDir("music", True)` and `deleteContentDir("video", True)` produce the same request, naming no directory | set `query.feed = uri` before `ToUri()`, as `deleteFile` does at line 179 | high; not executed | `Meta.DeleteContentDirDiscardsDirectory` | `Meta.DeleteContentDirIntendedKeepsDirectory` |
