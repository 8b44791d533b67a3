/**
 * `CUIContext`: what a handler sees of one request. The constructor copies a
 * few request properties with defaults; `url` builds a link relative to where
 * the router is mounted. The context is never changed after construction.
 */
module Context {
  import opened Js
  import opened Wrappers
  import opened Tools
  import opened Http

  /**
   * `options` are the validated options' properties. `id` is the identity of
   * the context object, which user callbacks receive as a handle. A `flash` of
   * `None` is the empty object `{}` the constructor puts in place.
   */
  datatype Context = Context(
    id: nat,
    options: Props,
    idParam: Value,
    body: Value,
    originalUrl: string,
    baseUrl: string,
    routeName: string,
    csrfToken: Value,
    flash: Option<Flash>)
  {
    /** The shortcut getters: each reads one property of the options. */
    function Actions(): Value { Prop(options, "actions") }
    function Fields(): Value { Prop(options, "fields") }
    function Tweaks(): Value { Prop(options, "tweaks") }
    function Views(): Value { Prop(options, "views") }
    function Texts(): Value { Prop(options, "texts") }
    function Icons(): Value { Prop(options, "icons") }
    function Routes(): Value { Prop(options, "routes") }

    /**
     * The context as user callbacks receive it: an object with the request
     * properties it copied. The options and the flash are not part of the handle.
     */
    function Handle(): Value {
      Inst("CUIContext", id, map[
        "idParam" := idParam, "body" := body, "originalUrl" := Str(originalUrl),
        "baseUrl" := Str(baseUrl), "routeName" := Str(routeName), "csrfToken" := csrfToken])
    }
  }

  /** `(req.params && req.params.id) || null` */
  function IdParam(params: Value): (r: Value)
    ensures Truthy(r) <==> Truthy(params) && Truthy(Get(params, "id"))
    ensures Truthy(r) ==> r == Get(params, "id")
    ensures !Truthy(r) ==> r == Null
  {
    if Truthy(params) && Truthy(Get(params, "id")) then Get(params, "id") else Null
  }

  /** `req.body || null` */
  function Body(body: Value): (r: Value)
    ensures Truthy(body) ==> r == body
    ensures !Truthy(body) ==> r == Null
  {
    if Truthy(body) then body else Null
  }

  /** `new CUIContext(options, req, routeName)` */
  function New(options: Props, req: Request, routeName: string, id: nat): (ctx: Context)
    reads req
    ensures ctx.options == options && ctx.routeName == routeName && ctx.id == id
    ensures ctx.idParam == IdParam(req.params) && ctx.body == Body(req.body)
    ensures ctx.originalUrl == req.originalUrl && ctx.baseUrl == req.baseUrl && ctx.csrfToken == req.csrfToken
    ensures ctx.flash == req.flash
  {
    Context(id, options, IdParam(req.params), Body(req.body), req.originalUrl, req.baseUrl, routeName, req.csrfToken, req.flash)
  }

  // ---------------------------------------------------------------------------
  // url(path, query)

  /** `ensureLeadingChar('/', path)`, as `+` turns it into text. */
  function PathText(path: Value): (r: string)
    ensures path.Str? ==> |r| >= 1 && r[0] == '/' && (r == path.s || r == "/" + path.s)
    ensures path.Str? && StartsWith(path.s, "/") ==> r == path.s
    ensures !path.Str? ==> r == ToStr(path)
  {
    ToStr(EnsureLeadingChar("/", path))
  }

  /** The query part: nothing for a falsy query, a `?`-led string, or `?` and the encoded object. */
  function QueryText(env: Env, query: Value): (r: string)
    ensures !Truthy(query) ==> r == ""
    ensures Truthy(query) ==> |r| >= 1 && r[0] == '?'
    ensures Truthy(query) && query.Str? ==> r == query.s || r == "?" + query.s
    ensures Truthy(query) && query.Str? && query.s[0] == '?' ==> r == query.s
    ensures Truthy(query) && !query.Str? ==> r == "?" + env.qsEncode(query)
  {
    if !Truthy(query) then ""
    else if TypeOf(query) == "string" then ToStr(EnsureLeadingChar("?", query))
    else "?" + env.qsEncode(query)
  }

  /** The text `url` hands to `encodeURI`. */
  function UrlText(env: Env, baseUrl: string, path: Value, query: Value): string {
    baseUrl + PathText(path) + QueryText(env, query)
  }

  /** `ctx.url(path, query)` */
  function Url(env: Env, ctx: Context, path: Value, query: Value): string {
    env.encodeUri(UrlText(env, ctx.baseUrl, path, query))
  }

  /**
   * For a string path, the text is the mount point, a single `/`-led path and
   * the query part, which is empty exactly when the query is falsy.
   */
  lemma {:induction false} UrlTextParts(env: Env, baseUrl: string, path: Value, query: Value)
    requires path.Str?
    ensures var t := UrlText(env, baseUrl, path, query);
            && StartsWith(t, baseUrl)
            && t[|baseUrl|] == '/'
            && (!Truthy(query) <==> |t| == |baseUrl| + |PathText(path)|)
            && (Truthy(query) ==> t[|baseUrl| + |PathText(path)|] == '?')
  {
    var p := PathText(path);
    var q := QueryText(env, query);
    var t := baseUrl + p + q;
    assert t[..|baseUrl|] == baseUrl;
    assert t[|baseUrl|] == p[0];
    if Truthy(query) {
      assert t[|baseUrl| + |p|] == q[0];
    }
  }

  /** Passing a path that already has its `/` gives the same URL: the path is normalised once. */
  lemma {:induction false} UrlPathNormalised(env: Env, ctx: Context, path: Value, query: Value)
    ensures Url(env, ctx, EnsureLeadingChar("/", path), query) == Url(env, ctx, path, query)
  {
    EnsureLeadingCharIdempotent("/", path);
  }

  /**
   * The same holds for a non-empty string query: one that already starts with
   * `?` is not given a second. (The empty string is falsy and adds nothing,
   * while `"?"` adds a lone `?`.)
   */
  lemma {:induction false} UrlQueryNormalised(env: Env, ctx: Context, path: Value, query: Value)
    requires query.Str? && query.s != ""
    ensures Url(env, ctx, path, EnsureLeadingChar("?", query)) == Url(env, ctx, path, query)
  {
    EnsureLeadingCharIdempotent("?", query);
  }
}
