/** The OpenAPI MCP server: it reads an OpenAPI (or Swagger 2) document once,
    keeps a flat table of its operations in module-level globals, and answers
    three tools from that table: a filtered listing, the detail of one
    operation, and a call to the API. The globals are modelled as the fields
    of `OpenApiServer`; the tools are its methods. */
module OpenApi {
  import opened Wrappers
  import opened Text
  import opened Dicts
  import opened Json
  import opened Seqs
  import Templates

  // ---------------------------------------------------------------------------
  // The document, as far as the server reads it
  // ---------------------------------------------------------------------------

  datatype ServerObject = ServerObject(url: Option<string>)

  datatype SchemaObject = SchemaObject(typ: Option<string>)

  /** A parameter object; `location` is its `in` field. */
  datatype ParamObject = ParamObject(
    name: Option<string>,
    location: Option<string>,
    required: Option<bool>,
    typ: Option<string>,
    schema: Option<SchemaObject>,
    description: Option<string>)

  datatype Operation = Operation(
    operationId: Option<string>,
    summary: Option<string>,
    description: Option<string>,
    tags: Option<seq<string>>,
    parameters: Option<seq<ParamObject>>)

  /** `servers` is the OpenAPI 3 form; `host`, `schemes` and `basePath` the
      Swagger 2 form. A path item maps each of its keys to an operation; keys
      that are not HTTP methods are never looked at. */
  datatype OpenApiDoc = OpenApiDoc(
    servers: Option<seq<ServerObject>>,
    host: Option<string>,
    schemes: Option<seq<string>>,
    basePath: Option<string>,
    paths: Option<Dict<string, Dict<string, Operation>>>)

  const EmptyDoc := OpenApiDoc(None, None, None, None, None)

  // ---------------------------------------------------------------------------
  // The endpoint table
  // ---------------------------------------------------------------------------

  datatype Param = Param(
    name: Option<string>,
    location: Option<string>,
    required: bool,
    typ: string,
    description: string)

  datatype Endpoint = Endpoint(
    path: string,
    httpMethod: string,
    operationId: string,
    summary: string,
    description: string,
    tags: seq<string>,
    parameters: seq<Param>)

  /** The methods that become endpoints, compared after lower-casing. */
  const OperationMethods: seq<string> := ["get", "post", "put", "delete", "patch"]
  /** The same methods as they are stored in the table. */
  const TableMethods: seq<string> := ["GET", "POST", "PUT", "DELETE", "PATCH"]

  predicate IsOperationMethod(m: string) {
    Lower(m) in OperationMethods
  }

  /** A key accepted by the method filter is stored as one of the five
      upper-case method names, whatever its original case. */
  lemma StoredMethod(m: string)
    requires IsOperationMethod(m)
    ensures Upper(m) in TableMethods
  {
    UpperLower(m);
    var l := Lower(m);
    if l == "get" {
      assert Upper(l) == "GET";
    } else if l == "post" {
      assert Upper(l) == "POST";
    } else if l == "put" {
      assert Upper(l) == "PUT";
    } else if l == "delete" {
      assert Upper(l) == "DELETE";
    } else {
      assert Upper(l) == "PATCH";
    }
  }

  /** The declared type of a parameter: its own `type`, else its schema's
      `type`, else `"string"`. */
  function ParamType(p: ParamObject): (t: string)
    ensures p.typ.Some? ==> t == p.typ.value
    ensures p.typ.None? && p.schema.Some? && p.schema.value.typ.Some? ==> t == p.schema.value.typ.value
    ensures p.typ.None? && (p.schema.None? || p.schema.value.typ.None?) ==> t == "string"
  {
    match p.typ
    case Some(t) => t
    case None =>
      match p.schema
      case Some(s) => s.typ.GetOr("string")
      case None => "string"
  }

  function ParamOf(p: ParamObject): Param {
    Param(p.name, p.location, p.required.GetOr(false), ParamType(p), p.description.GetOr(""))
  }

  /** `[ParamOf(p) for p in ps]`, built from the end as the loop builds it. */
  function ParamsOf(ps: seq<ParamObject>): (r: seq<Param>)
    ensures |r| == |ps|
    ensures forall k :: 0 <= k < |ps| ==> r[k] == ParamOf(ps[k])
  {
    if |ps| == 0 then [] else ParamsOf(ps[..|ps| - 1]) + [ParamOf(ps[|ps| - 1])]
  }

  function MakeEndpoint(path: string, m: string, op: Operation): Endpoint {
    Endpoint(path, Upper(m), op.operationId.GetOr(""), op.summary.GetOr(""),
             op.description.GetOr(""), op.tags.GetOr([]), ParamsOf(op.parameters.GetOr([])))
  }

  /** The endpoints of one path item, in the item's key order. */
  function PathEndpoints(path: string, item: Dict<string, Operation>): (r: seq<Endpoint>)
    ensures |r| <= |item|
    ensures forall k :: 0 <= k < |r| ==> r[k].path == path && r[k].httpMethod in TableMethods
  {
    if |item| == 0 then []
    else
      var (m, op) := item[|item| - 1];
      PathEndpoints(path, item[..|item| - 1])
        + if IsOperationMethod(m) then StoredMethod(m); [MakeEndpoint(path, m, op)] else []
  }

  /** The whole endpoint table of a `paths` object, path by path. Every entry
      comes from one of the document's paths and carries one of the five
      upper-case method names. */
  function EndpointsOf(paths: Dict<string, Dict<string, Operation>>): (r: seq<Endpoint>)
    ensures forall k :: 0 <= k < |r| ==> r[k].httpMethod in TableMethods && r[k].path in Keys(paths)
  {
    if |paths| == 0 then []
    else
      var init := paths[..|paths| - 1];
      assert forall k :: 0 <= k < |init| ==> Keys(init)[k] == Keys(paths)[k];
      EndpointsOf(init) + PathEndpoints(paths[|paths| - 1].0, paths[|paths| - 1].1)
  }

  /** Every operation under one of the five methods is in the path's list. */
  lemma {:induction false} PathEndpointsComplete(path: string, item: Dict<string, Operation>, j: nat)
    requires j < |item| && IsOperationMethod(item[j].0)
    ensures MakeEndpoint(path, item[j].0, item[j].1) in PathEndpoints(path, item)
    decreases |item|
  {
    if j < |item| - 1 {
      var init := item[..|item| - 1];
      assert init[j] == item[j];
      PathEndpointsComplete(path, init, j);
    }
  }

  /** Every operation of the document under one of the five methods is in the
      table: nothing the filter accepts is lost. */
  lemma {:induction false} EndpointsComplete(paths: Dict<string, Dict<string, Operation>>, i: nat, j: nat)
    requires i < |paths| && j < |paths[i].1| && IsOperationMethod(paths[i].1[j].0)
    ensures MakeEndpoint(paths[i].0, paths[i].1[j].0, paths[i].1[j].1) in EndpointsOf(paths)
    decreases |paths|
  {
    if i == |paths| - 1 {
      PathEndpointsComplete(paths[i].0, paths[i].1, j);
    } else {
      var init := paths[..|paths| - 1];
      assert init[i] == paths[i];
      EndpointsComplete(init, i, j);
    }
  }

  // ---------------------------------------------------------------------------
  // Base URL
  // ---------------------------------------------------------------------------

  const IndexOutOfRange := "list index out of range"

  /** The base URL guessed from the document: the first server's `url`, else
      `scheme://host basePath` with the first scheme (`https` when `schemes`
      is absent), else empty. An empty `servers` or `schemes` list is indexed
      anyway and fails. */
  function DocBaseUrl(doc: OpenApiDoc): (r: Result<string, string>)
    ensures r.Err? <==> (doc.servers.Some? && |doc.servers.value| == 0)
                        || (doc.servers.None? && doc.host.Some? && doc.schemes.Some? && |doc.schemes.value| == 0)
    ensures r.Ok? && doc.servers.None? && doc.host.Some? && doc.schemes.None? ==>
              IsPrefix("https://", r.value)
    ensures doc.servers.None? && doc.host.None? ==> r == Ok("")
  {
    if doc.servers.Some? then
      if |doc.servers.value| == 0 then Err(IndexOutOfRange) else Ok(doc.servers.value[0].url.GetOr(""))
    else if doc.host.Some? then
      var schemes := doc.schemes.GetOr(["https"]);
      if |schemes| == 0 then Err(IndexOutOfRange)
      else Ok(schemes[0] + "://" + doc.host.value + doc.basePath.GetOr(""))
    else Ok("")
  }

  /** A non-empty configured base URL wins over the document. */
  function BaseUrlFor(configured: string, doc: OpenApiDoc): (r: Result<string, string>)
    ensures configured != "" ==> r == Ok(configured)
    ensures configured == "" ==> r == DocBaseUrl(doc)
  {
    if configured != "" then Ok(configured) else DocBaseUrl(doc)
  }

  // ---------------------------------------------------------------------------
  // list_endpoints
  // ---------------------------------------------------------------------------

  const NotLoaded := "OpenAPI specが読み込まれていません。OPENAPI_SPEC_PATH環境変数を設定してください。"

  function NoMatch(query: string): string {
    "'" + query + "'に一致するエンドポイントが見つかりませんでした。"
  }

  function ListingHeader(n: nat): string {
    "エンドポイント一覧 (" + NatToString(n) + "件):\n"
  }

  function RequiredText(required: bool): string {
    if required then "必須" else "任意"
  }

  /** `str(x)` of a field that may be missing. */
  function NameText(x: Option<string>): string {
    x.GetOr("None")
  }

  function ParamSummary(p: Param): string {
    NameText(p.name) + "(" + RequiredText(p.required) + ")"
  }

  function ParamsSuffix(ps: seq<Param>): string {
    if |ps| == 0 then ""
    else " | パラメータ: " + Join(", ", seq(|ps|, k requires 0 <= k < |ps| => ParamSummary(ps[k])))
  }

  function EndpointLine(ep: Endpoint): string {
    ep.httpMethod + " " + ep.path + ": " + ep.summary + ParamsSuffix(ep.parameters)
  }

  /** The text a query is matched against: path, summary, description,
      operation id and tags. */
  function Searchable(ep: Endpoint): string {
    ep.path + " " + ep.summary + " " + ep.description + " " + ep.operationId + " " + Join(" ", ep.tags)
  }

  /** An empty query matches everything; otherwise the lower-cased query must
      occur in the lower-cased searchable text. */
  predicate Matches(ep: Endpoint, query: string) {
    query == "" || Contains(Lower(Searchable(ep)), Lower(query))
  }

  /** The lines of the matching endpoints, built from the end as the loop
      builds them. */
  function MatchedLines(eps: seq<Endpoint>, query: string): seq<string> {
    if |eps| == 0 then []
    else
      var last := eps[|eps| - 1];
      MatchedLines(eps[..|eps| - 1], query) + if Matches(last, query) then [EndpointLine(last)] else []
  }

  function Lines(eps: seq<Endpoint>): (r: seq<string>)
    ensures |r| == |eps|
  {
    seq(|eps|, k requires 0 <= k < |eps| => EndpointLine(eps[k]))
  }

  /** The whole answer of `list_endpoints`. */
  function Listing(eps: seq<Endpoint>, query: string): string {
    if |eps| == 0 then NotLoaded
    else
      var lines := MatchedLines(eps, query);
      if |lines| == 0 then NoMatch(query) else ListingHeader(|lines|) + Join("\n", lines)
  }

  /** The listed lines are exactly the lines of the matching endpoints, in
      table order; so the count in the header is the number of matches. */
  lemma {:induction false} MatchedLinesFilter(eps: seq<Endpoint>, query: string)
    ensures MatchedLines(eps, query) == Lines(Filter(eps, MatchesQuery(query)))
    decreases |eps|
  {
    if |eps| > 0 {
      var keep := MatchesQuery(query);
      var init, last := eps[..|eps| - 1], eps[|eps| - 1];
      assert eps == init + [last];
      FilterAppend(init, [last], keep);
      FilterSingle(last, keep);
      MatchedLinesFilter(init, query);
      LinesAppend(Filter(init, keep), Filter([last], keep));
    }
  }

  function MatchesQuery(query: string): Endpoint -> bool {
    (ep: Endpoint) => Matches(ep, query)
  }

  lemma LinesAppend(a: seq<Endpoint>, b: seq<Endpoint>)
    ensures Lines(a + b) == Lines(a) + Lines(b)
  {
  }

  /** With an empty query every endpoint is listed, in table order. */
  lemma {:induction false} ListingAll(eps: seq<Endpoint>)
    requires |eps| > 0
    ensures Listing(eps, "") == ListingHeader(|eps|) + Join("\n", Lines(eps))
  {
    MatchedLinesFilter(eps, "");
    FilterAll(eps, MatchesQuery(""));
  }

  lemma LowerUpper(s: string)
    ensures Lower(Upper(s)) == Lower(s)
  {
  }

  /** Matching ignores the case of the query. */
  lemma {:induction false} MatchedLinesIgnoreQueryCase(eps: seq<Endpoint>, query: string)
    ensures MatchedLines(eps, Upper(query)) == MatchedLines(eps, query)
    decreases |eps|
  {
    if |eps| > 0 {
      LowerUpper(query);
      MatchedLinesIgnoreQueryCase(eps[..|eps| - 1], query);
    }
  }

  // ---------------------------------------------------------------------------
  // get_endpoint_detail
  // ---------------------------------------------------------------------------

  /** The first table entry at `from` or later with this path and method. */
  function FindFrom(eps: seq<Endpoint>, path: string, m: string, from: nat): (r: Option<nat>)
    requires from <= |eps|
    ensures r.Some? ==> from <= r.value < |eps| && eps[r.value].path == path && eps[r.value].httpMethod == m
    ensures r.Some? ==> forall k :: from <= k < r.value ==> !(eps[k].path == path && eps[k].httpMethod == m)
    ensures r.None? ==> forall k :: from <= k < |eps| ==> !(eps[k].path == path && eps[k].httpMethod == m)
    decreases |eps| - from
  {
    if from == |eps| then None
    else if eps[from].path == path && eps[from].httpMethod == m then Some(from)
    else FindFrom(eps, path, m, from + 1)
  }

  function ParamDetail(p: Param): string {
    "- " + NameText(p.name) + " (" + p.typ + ", " + NameText(p.location) + ", "
      + RequiredText(p.required) + "): " + p.description
  }

  function DetailLines(ep: Endpoint): seq<string> {
    ["## " + ep.httpMethod + " " + ep.path,
     "概要: " + ep.summary,
     "説明: " + ep.description,
     "操作ID: " + ep.operationId,
     "タグ: " + Join(", ", ep.tags),
     "",
     "### パラメータ:"]
    + if |ep.parameters| == 0 then ["なし"]
      else seq(|ep.parameters|, k requires 0 <= k < |ep.parameters| => ParamDetail(ep.parameters[k]))
  }

  function NoEndpoint(m: string, path: string): string {
    "エンドポイント " + m + " " + path + " が見つかりませんでした。"
  }

  /** The whole answer of `get_endpoint_detail`: the detail of the first entry
      with this path and upper-cased method. */
  function Detail(eps: seq<Endpoint>, path: string, httpMethod: string): string {
    var m := Upper(httpMethod);
    match FindFrom(eps, path, m, 0)
    case Some(k) => Join("\n", DetailLines(eps[k]))
    case None => NoEndpoint(m, path)
  }

  /** A method other than the five is never found in a table built from a
      document, whatever the path. */
  lemma DetailOfOtherMethod(paths: Dict<string, Dict<string, Operation>>, path: string, httpMethod: string)
    requires Upper(httpMethod) !in TableMethods
    ensures Detail(EndpointsOf(paths), path, httpMethod) == NoEndpoint(Upper(httpMethod), path)
  {
    var eps := EndpointsOf(paths);
    var r := FindFrom(eps, path, Upper(httpMethod), 0);
    if r.Some? {
      assert false;
    }
  }

  // ---------------------------------------------------------------------------
  // call_api: the request it sends
  // ---------------------------------------------------------------------------

  const NoBaseUrl := "API_BASE_URLが設定されていません。"

  /** What `call_api` hands to the HTTP client. */
  datatype ApiRequest = ApiRequest(
    httpMethod: string,
    url: string,
    query: Option<Dict<string, Json>>,
    body: Option<Dict<string, Json>>,
    headers: Dict<string, string>)

  /** Each `{key}` of the path replaced by `str(value)`, key by key. */
  function FillPath(path: string, params: Dict<string, Json>): string
    decreases |params|
  {
    if |params| == 0 then path
    else FillPath(Replace(path, Placeholder(params[0].0), Show(params[0].1)), params[1..])
  }

  /** Filling a path is rendering it as a prompt template whose variables are
      the parameter names: one substitution rule for both servers. */
  lemma {:induction false} FillPathRendered(path: string, kvs: Dict<string, Json>, all: Dict<string, Json>)
    requires forall k :: 0 <= k < |kvs| ==> Get(all, kvs[k].0) == Some(kvs[k].1)
    ensures FillPath(path, kvs) == Templates.Rendered(path, Keys(kvs), all)
    decreases |kvs|
  {
    if |kvs| > 0 {
      assert Keys(kvs)[1..] == Keys(kvs[1..]);
      assert Templates.Substitute(path, kvs[0].0, all) == Replace(path, Placeholder(kvs[0].0), Show(kvs[0].1));
      FillPathRendered(Replace(path, Placeholder(kvs[0].0), Show(kvs[0].1)), kvs[1..], all);
    }
  }

  /** A path without braces is sent as written. */
  lemma FillPathWithoutBraces(path: string, params: Dict<string, Json>)
    requires UniqueKeys(params) && '{' !in path
    ensures FillPath(path, params) == path
  {
    forall k | 0 <= k < |params| ensures Get(params, params[k].0) == Some(params[k].1) {
      GetAt(params, k);
    }
    FillPathRendered(path, params, params);
    Templates.RenderedWithoutBraces(path, Keys(params), params);
  }

  const DefaultHeaders: Dict<string, string> := [("Content-Type", "application/json")]

  /** JSON content type, overridden or extended by the caller's headers, with
      `Authorization` set last when a token is configured. */
  function RequestHeaders(headers: Option<Dict<string, string>>, token: string): Dict<string, string> {
    var h := if headers.Some? && |headers.value| > 0 then PutAll(DefaultHeaders, headers.value) else DefaultHeaders;
    if token != "" then Put(h, "Authorization", "Bearer " + token) else h
  }

  /** Header precedence: the token beats the caller, the caller beats the
      default content type, and nothing else is added. */
  lemma HeaderLookup(headers: Option<Dict<string, string>>, token: string, k: string)
    requires headers.Some? ==> UniqueKeys(headers.value)
    ensures Get(RequestHeaders(headers, token), k) ==
      if k == "Authorization" && token != "" then Some("Bearer " + token)
      else if headers.Some? && k in Keys(headers.value) then Get(headers.value, k)
      else if k == "Content-Type" then Some("application/json")
      else None
  {
    var h := if headers.Some? && |headers.value| > 0 then PutAll(DefaultHeaders, headers.value) else DefaultHeaders;
    if headers.Some? && |headers.value| > 0 {
      PutAllLookup(DefaultHeaders, headers.value, k);
    }
    if token != "" && k != "Authorization" {
      PutOther(h, "Authorization", "Bearer " + token, k);
    }
  }

  /** The request `call_api` sends, or the message it returns when no base
      URL is known. */
  function RequestFor(
    baseUrl: string, path: string, httpMethod: string, pathParams: Option<Dict<string, Json>>,
    query: Option<Dict<string, Json>>, body: Option<Dict<string, Json>>,
    headers: Option<Dict<string, string>>, token: string): (r: Result<ApiRequest, string>)
    ensures r.Err? <==> baseUrl == ""
    ensures r.Ok? ==> r.value.httpMethod in TableMethods || Upper(httpMethod) !in TableMethods
    ensures r.Ok? ==> IsPrefix(RStrip(baseUrl, '/'), r.value.url)
    ensures r.Ok? ==>
              && r.value.url == RStrip(baseUrl, '/')
                                + (if pathParams.Some? && |pathParams.value| > 0 then FillPath(path, pathParams.value) else path)
              && r.value.headers == RequestHeaders(headers, token)
              && r.value.httpMethod == Upper(httpMethod)
              && r.value.query == query
              && (r.value.body.Some? <==> body.Some? && |body.value| > 0)
              && (r.value.body.Some? ==> r.value.body == body)
  {
    if baseUrl == "" then Err(NoBaseUrl)
    else
      var actual := if pathParams.Some? && |pathParams.value| > 0 then FillPath(path, pathParams.value) else path;
      Ok(ApiRequest(
        Upper(httpMethod),
        RStrip(baseUrl, '/') + actual,
        query,
        if body.Some? && |body.value| > 0 then body else None,
        RequestHeaders(headers, token)))
  }

  // ---------------------------------------------------------------------------
  // The server state and its tools
  // ---------------------------------------------------------------------------

  /** The three globals: the document, the base URL and the endpoint table. */
  class OpenApiServer {
    var spec: OpenApiDoc
    var baseUrl: string
    var endpoints: seq<Endpoint>

    constructor()
      ensures spec == EmptyDoc && baseUrl == "" && endpoints == []
    {
      spec := EmptyDoc;
      baseUrl := "";
      endpoints := [];
    }

    /** `load_openapi_spec`, with the two environment variables as `specPath`
        and `configuredUrl` and the file reading and YAML/JSON decoding as
        `read`. An empty path does nothing; a reading error leaves everything
        as it was; an error while guessing the base URL comes after the
        document is stored but before the table is rebuilt. */
    method Load(specPath: string, read: string -> Result<OpenApiDoc, string>, configuredUrl: string)
      returns (error: Option<string>)
      modifies this
      ensures specPath == "" || read(specPath).Err? ==>
                spec == old(spec) && baseUrl == old(baseUrl) && endpoints == old(endpoints)
      ensures specPath == "" ==> error.None?
      ensures specPath != "" && read(specPath).Err? ==> error == Some(read(specPath).error)
      ensures specPath != "" && read(specPath).Ok? ==>
                spec == read(specPath).value &&
                match BaseUrlFor(configuredUrl, spec)
                case Err(e) => error == Some(e) && baseUrl == configuredUrl && endpoints == old(endpoints)
                case Ok(u) => error.None? && baseUrl == u && endpoints == EndpointsOf(spec.paths.GetOr([]))
    {
      if specPath == "" {
        return None;
      }
      var doc := read(specPath);
      if doc.Err? {
        return Some(doc.error);
      }
      spec := doc.value;
      baseUrl := configuredUrl;
      var url := BaseUrlFor(configuredUrl, spec);
      if url.Err? {
        return Some(url.error);
      }
      baseUrl := url.value;
      var paths := spec.paths.GetOr([]);
      endpoints := [];
      for i := 0 to |paths|
        invariant spec == doc.value && baseUrl == url.value
        invariant endpoints == EndpointsOf(paths[..i])
      {
        assert paths[..i + 1][..i] == paths[..i];
        var more := BuildPathEndpoints(paths[i].0, paths[i].1);
        endpoints := endpoints + more;
      }
      assert paths[..|paths|] == paths;
      error := None;
    }

    /** `list_endpoints(query)`. */
    method ListEndpoints(query: string) returns (r: string)
      ensures r == Listing(endpoints, query)
    {
      if |endpoints| == 0 {
        return NotLoaded;
      }
      var results := [];
      var queryLower := Lower(query);
      for i := 0 to |endpoints|
        invariant results == MatchedLines(endpoints[..i], query)
      {
        var ep := endpoints[i];
        assert endpoints[..i + 1][..i] == endpoints[..i];
        if query == "" || Contains(Lower(Searchable(ep)), queryLower) {
          results := results + [EndpointLine(ep)];
        }
      }
      assert endpoints[..|endpoints|] == endpoints;
      if |results| == 0 {
        return NoMatch(query);
      }
      r := ListingHeader(|results|) + Join("\n", results);
    }

    /** `get_endpoint_detail(path, method)`: the loop returns at the first
        match. */
    method GetEndpointDetail(path: string, httpMethod: string) returns (r: string)
      ensures r == Detail(endpoints, path, httpMethod)
    {
      var m := Upper(httpMethod);
      var i := 0;
      while i < |endpoints|
        invariant i <= |endpoints|
        invariant FindFrom(endpoints, path, m, i) == FindFrom(endpoints, path, m, 0)
      {
        var ep := endpoints[i];
        if ep.path == path && ep.httpMethod == m {
          return Join("\n", DetailLines(ep));
        }
        i := i + 1;
      }
      r := NoEndpoint(m, path);
    }

    /** The part of `call_api` before the network: the request it would send,
        with the `API_AUTH_TOKEN` environment variable as `token`. */
    method CallApi(
      path: string, httpMethod: string, pathParams: Option<Dict<string, Json>>,
      query: Option<Dict<string, Json>>, body: Option<Dict<string, Json>>,
      headers: Option<Dict<string, string>>, token: string)
      returns (r: Result<ApiRequest, string>)
      ensures r == RequestFor(baseUrl, path, httpMethod, pathParams, query, body, headers, token)
    {
      if baseUrl == "" {
        return Err(NoBaseUrl);
      }
      var actual := path;
      if pathParams.Some? && |pathParams.value| > 0 {
        var ps := pathParams.value;
        for i := 0 to |ps|
          invariant FillPath(path, ps) == FillPath(actual, ps[i..])
        {
          assert ps[i..][1..] == ps[i + 1..];
          actual := Replace(actual, Placeholder(ps[i].0), Show(ps[i].1));
        }
      }
      var url := RStrip(baseUrl, '/') + actual;
      var h := DefaultHeaders;
      if headers.Some? && |headers.value| > 0 {
        h := PutAll(h, headers.value);
      }
      if token != "" {
        h := Put(h, "Authorization", "Bearer " + token);
      }
      var json := if body.Some? && |body.value| > 0 then body else None;
      r := Ok(ApiRequest(Upper(httpMethod), url, query, json, h));
    }
  }

  /** The endpoints of one path item, in item order. */
  method BuildPathEndpoints(path: string, item: Dict<string, Operation>) returns (eps: seq<Endpoint>)
    ensures eps == PathEndpoints(path, item)
  {
    eps := [];
    for j := 0 to |item|
      invariant eps == PathEndpoints(path, item[..j])
    {
      assert item[..j + 1][..j] == item[..j];
      var (m, op) := item[j];
      if Lower(m) in OperationMethods {
        var params := BuildParams(op.parameters.GetOr([]));
        eps := eps + [Endpoint(path, Upper(m), op.operationId.GetOr(""), op.summary.GetOr(""),
                               op.description.GetOr(""), op.tags.GetOr([]), params)];
      }
    }
    assert item[..|item|] == item;
  }

  /** The parameter records of one operation. */
  method BuildParams(ps: seq<ParamObject>) returns (params: seq<Param>)
    ensures params == ParamsOf(ps)
  {
    params := [];
    for k := 0 to |ps|
      invariant params == ParamsOf(ps[..k])
    {
      assert ps[..k + 1][..k] == ps[..k];
      params := params + [ParamOf(ps[k])];
    }
    assert ps[..|ps|] == ps;
  }
}
