/**
 * `CUIResponse` and `createHandlerResponseWrapper`: what a handler returns and
 * how the wrapper turns it into an Express response. A handler returns a view's
 * output (any value) or a response the library built; the wrapper casts it,
 * stores its flash if it has one, then redirects, sends HTML, or fails.
 * Every failure goes to `next`.
 */
module Responses {
  import opened Js
  import opened Wrappers
  import opened Errors
  import opened Tools
  import opened Http
  import Context
  import FlashStore

  /**
   * `CUIHtmlResponse`, `CUIRedirectResponse`, the empty object `{}` that
   * `cast` makes of a falsy value, and any other value a handler returns.
   */
  datatype Response =
    | Html(html: Value, flash: Option<Flash>)
    | Redirect(redirect: string, flash: Option<Flash>)
    | Blank
    | Other(value: Value)

  const InvalidResponseMessage := "Invalid handler response"

  /** `CUIResponse.cast(hr)`: a string becomes an HTML response without a flash, a falsy value `{}`, anything else stays. */
  function Cast(hr: Response): (r: Response)
    ensures hr.Other? && hr.value.Str? ==> r == Html(hr.value, None)
    ensures hr.Other? && !hr.value.Str? && !Truthy(hr.value) ==> r == Blank
    ensures !(hr.Other? && (hr.value.Str? || !Truthy(hr.value))) ==> r == hr
    ensures !r.Other? || (Truthy(r.value) && !r.value.Str?)
  {
    if hr.Other? && TypeOf(hr.value) == "string" then Html(hr.value, None)
    else if hr.Other? && !Truthy(hr.value) then Blank
    else hr
  }

  /** `resp.flash`, when it is truthy. */
  function FlashOf(resp: Response): (f: Option<Flash>)
    ensures resp.Blank? ==> f == None
    ensures resp.Html? || resp.Redirect? ==> f == resp.flash
    ensures resp.Other? ==> (f.Some? <==> Truthy(Get(resp.value, "flash")))
  {
    match resp
    case Html(_, flash) => flash
    case Redirect(_, flash) => flash
    case Blank => None
    case Other(v) => if Truthy(Get(v, "flash")) then Some(Raw(Get(v, "flash"))) else None
  }

  /** What the cast response asks of Express: a redirect, an HTML body, or nothing and a `CUIError`. */
  function Emitted(resp: Response): (r: Result<Effect, Error>)
    ensures r.Success? <==> resp.Redirect? || resp.Html?
    ensures resp.Redirect? ==> r == Success(RedirectTo(resp.redirect))
    ensures resp.Html? ==> r == Success(SendHtml(resp.html))
    ensures r.Failure? ==> r.error == NewCUIError(InvalidResponseMessage, None) && r.error.Code() == Some(500)
  {
    match resp
    case Redirect(url, _) => Success(RedirectTo(url))
    case Html(html, _) => Success(SendHtml(html))
    case _ => Failure(CUIError(InvalidResponseMessage, 500))
  }

  /**
   * The store after the wrapper stores `data` under `token`: the TypeScript
   * `setFlash` sweeps first, the JavaScript one (src/web/flash_manager.js:65-67)
   * runs a sweep that deletes nothing.
   */
  function StoredIn(tree: Tree, flashes: FlashStore.Store, data: Flash, token: string, now: int, maxAge: int): (r: FlashStore.Store)
    ensures token in r && r[token] == FlashStore.Entry(data, now)
    ensures forall k :: k in r ==> k == token || k in flashes
  {
    if tree.TypeScript? then FlashStore.Stored(flashes, data, token, now, maxAge)
    else FlashStore.SweptAsWritten(flashes, now, maxAge)[token := FlashStore.Entry(data, now)]
  }

  /**
   * Storing a flash drops an outdated entry in the TypeScript tree and keeps it,
   * unchanged, in the JavaScript tree.
   */
  lemma StoredInOutdated(tree: Tree, flashes: FlashStore.Store, data: Flash, token: string, now: int, maxAge: int, k: string)
    requires k in flashes && k != token && FlashStore.Outdated(flashes[k], now, maxAge)
    ensures tree.TypeScript? ==> k !in StoredIn(tree, flashes, data, token, now, maxAge)
    ensures tree.JavaScript? ==> k in StoredIn(tree, flashes, data, token, now, maxAge)
                                 && StoredIn(tree, flashes, data, token, now, maxAge)[k] == flashes[k]
  {
    if tree.TypeScript? {
      FlashStore.SweptExactly(flashes, now, maxAge, k);
    }
  }

  /**
   * `expressHandler(req, res, next)`: remember the route (TypeScript tree only),
   * build the context, run the handler, cast, store the flash, emit. The value
   * returned is what reaches `next`, if anything. The handler is a function of
   * the context; `ctxId` is the identity of the new context, and `token` and
   * `now` are what storing a flash draws. Each tree
   * stores through its own `setFlash`, the JavaScript one as written.
   */
  method HandleRequest(
    tree: Tree, options: Props, flashes: FlashStore.FlashManager,
    handler: Context.Context -> Result<Response, Error>, routeName: string,
    req: Request, reply: Reply, ctxId: nat, token: string, now: int)
    returns (failure: Option<Error>)
    modifies req`routeName, flashes`flashes, reply`effects
    ensures tree.TypeScript? ==> req.routeName == Str(routeName)
    ensures tree.JavaScript? ==> req.routeName == old(req.routeName)
    ensures var out := handler(Context.New(options, req, routeName, ctxId));
            if out.Failure? then
              && failure == Some(out.error)
              && flashes.flashes == old(flashes.flashes) && reply.effects == old(reply.effects)
            else
              var resp := Cast(out.value);
              var stored := FlashOf(resp);
              var cookie := if stored.Some? then [SetCookie(flashes.cookieName, token)] else [];
              && flashes.flashes == (if stored.Some? then StoredIn(tree, old(flashes.flashes), stored.value, token, now, flashes.maxAge)
                                     else old(flashes.flashes))
              && (failure.None? <==> Emitted(resp).Success?)
              && (Emitted(resp).Failure? ==> failure == Some(Emitted(resp).error) && reply.effects == old(reply.effects) + cookie)
              && (Emitted(resp).Success? ==> reply.effects == old(reply.effects) + cookie + [Emitted(resp).value])
  {
    if tree.TypeScript? {
      req.routeName := Str(routeName);
    }
    var ctx := Context.New(options, req, routeName, ctxId);
    var out := handler(ctx);
    if out.Failure? {
      return Some(out.error);
    }
    var resp := Cast(out.value);
    var stored := FlashOf(resp);
    if stored.Some? {
      if tree.TypeScript? {
        flashes.SetFlash(reply, stored.value, token, now);
      } else {
        flashes.SetFlashAsWritten(reply, stored.value, token, now);
      }
    }
    match resp
    case Redirect(url, _) =>
      reply.effects := reply.effects + [RedirectTo(url)];
      failure := None;
    case Html(html, _) =>
      reply.effects := reply.effects + [SendHtml(html)];
      failure := None;
    case _ =>
      failure := Some(CUIError(InvalidResponseMessage, 500));
  }

  // ---------------------------------------------------------------------------
  // Properties

  /** Casting twice is casting once. */
  lemma CastIdempotent(hr: Response)
    ensures Cast(Cast(hr)) == Cast(hr)
  {
  }

  /** A view's string output is sent as HTML and stores no flash. */
  lemma StringIsSent(s: string)
    ensures Emitted(Cast(Other(Str(s)))) == Success(SendHtml(Str(s)))
    ensures FlashOf(Cast(Other(Str(s)))) == None
  {
  }

  /** A handler result that is falsy and not a string is not a response: it fails with code 500 and stores no flash. */
  lemma FalsyIsInvalid(v: Value)
    requires !Truthy(v) && !v.Str?
    ensures Emitted(Cast(Other(v))).Failure? && Emitted(Cast(Other(v))).error.Code() == Some(500)
    ensures FlashOf(Cast(Other(v))) == None
  {
  }

  /**
   * A plain object is not a response either, yet a truthy `flash` on it is
   * still stored before the invalid-response error is raised.
   */
  lemma PlainObjectFlashStored(v: Value)
    requires Truthy(v) && !v.Str? && Truthy(Get(v, "flash"))
    ensures Emitted(Cast(Other(v))).Failure?
    ensures FlashOf(Cast(Other(v))) == Some(Raw(Get(v, "flash")))
  {
  }
}
