/**
 * `createCSRFMiddleware`: the two CSRF checks. The TypeScript tree uses a
 * double-submit cookie: the token in the cookie must come back in a form
 * field, and a client without the cookie is given one. The JavaScript tree
 * compares the form field with the token of the request's session and never
 * issues a token itself. Only `POST`, `PUT` and `DELETE` are checked.
 */
module Csrf {
  import opened Js
  import opened Wrappers
  import opened Errors
  import opened Tools
  import opened Http
  import Cookies

  /** The methods that carry a form body and are checked. */
  predicate Mutating(verb: string) {
    verb == "POST" || verb == "PUT" || verb == "DELETE"
  }

  // ---------------------------------------------------------------------------
  // Double-submit cookie (TypeScript)

  /** The check itself: a mutating request needs a non-empty cookie token that the form field repeats exactly. */
  function DoubleSubmitCheck(verb: string, cookie: Option<string>, body: Value, fieldName: string): (r: Exit)
    ensures r.Throw? ==> Mutating(verb) && r.error.TypeError?
    ensures r.Reject? ==> r.error == CSRFError && r.error.Code() == Some(403)
  {
    if !Mutating(verb) then Continue
    else match Index(body, fieldName)
      case Failure(e) => Throw(e)
      case Success(submitted) =>
        if cookie.None? || cookie.value == "" || !Truthy(submitted) || !StrictEquals(Str(cookie.value), submitted) then
          Reject(CSRFError)
        else Continue
  }

  /**
   * `csrfMiddleware(req, res, next)`: extract the cookie token, check, then mint
   * and send a token when the client had none, and tell downstream code which
   * token to use. A rejected or throwing request changes nothing.
   */
  method DoubleSubmit(fieldName: string, cookieName: string, req: Request, reply: Reply, token: string) returns (exit: Exit)
    modifies req`csrfToken, reply`effects
    ensures var cookie := Cookies.ExtractCookieSpec(req.cookieHeader, cookieName);
            && exit == DoubleSubmitCheck(req.verb, cookie, req.body, fieldName)
            && (!exit.Continue? ==> req.csrfToken == old(req.csrfToken) && reply.effects == old(reply.effects))
            && (exit.Continue? && cookie.Some? && cookie.value != "" ==>
                  req.csrfToken == Str(cookie.value) && reply.effects == old(reply.effects))
            && (exit.Continue? && (cookie.None? || cookie.value == "") ==>
                  req.csrfToken == Str(token) && reply.effects == old(reply.effects) + [SetCookie(cookieName, token)])
  {
    var csrf := Cookies.ExtractCookie(req.cookieHeader, cookieName);
    if Mutating(req.verb) {
      var submitted := Index(req.body, fieldName);
      if submitted.Failure? {
        return Throw(submitted.error);
      }
      if csrf.None? || csrf.value == "" || !Truthy(submitted.value) || !StrictEquals(Str(csrf.value), submitted.value) {
        return Reject(CSRFError);
      }
    }
    var current := csrf.GetOr("");
    if current == "" {
      current := token;
      reply.effects := reply.effects + [SetCookie(cookieName, current)];
    }
    req.csrfToken := Str(current);
    exit := Continue;
  }

  /** Requests that do not mutate are never rejected. */
  lemma ReadsAlwaysPass(verb: string, cookie: Option<string>, body: Value, fieldName: string)
    requires !Mutating(verb)
    ensures DoubleSubmitCheck(verb, cookie, body, fieldName) == Continue
  {
  }

  /** A mutating request with a body passes exactly when the field holds the non-empty cookie token. */
  lemma DoubleSubmitPassesIff(verb: string, cookie: Option<string>, body: Value, fieldName: string)
    requires Mutating(verb) && !body.Undefined? && !body.Null?
    ensures DoubleSubmitCheck(verb, cookie, body, fieldName) == Continue <==>
              cookie.Some? && cookie.value != "" && Get(body, fieldName) == Str(cookie.value)
  {
  }

  /** The check precedes minting, so a mutating request from a client without the cookie never passes. */
  lemma NoCookieNoMutation(verb: string, cookie: Option<string>, body: Value, fieldName: string)
    requires Mutating(verb) && (cookie.None? || cookie.value == "")
    ensures DoubleSubmitCheck(verb, cookie, body, fieldName) != Continue
  {
  }

  // ---------------------------------------------------------------------------
  // Session-bound token (JavaScript)

  const NoSessionMessage := "Session not found in request. Is session middleware present?"

  /**
   * `middleware(req, res, next)` of the JavaScript tree. It only reads the
   * request: without a session it throws, and a mutating request must repeat
   * the session's token in the form field.
   */
  function SessionBound(fieldName: string, req: Request): (exit: Exit)
    reads req
    ensures req.session.None? <==> exit == Throw(PlainError(NoSessionMessage))
    ensures req.session.Some? && !Mutating(req.verb) ==> exit == Continue
    ensures exit.Reject? ==> exit.error == CSRFError
  {
    if req.session.None? then Throw(PlainError(NoSessionMessage))
    else if !Mutating(req.verb) then Continue
    else match Index(req.body, fieldName)
      case Failure(e) => Throw(e)
      case Success(submitted) =>
        if !Truthy(submitted) || !StrictEquals(Str(req.session.value.csrfToken), submitted) then Reject(CSRFError)
        else Continue
  }

  /** With a session and a body, a mutating request passes exactly when the field repeats the session's token, which must be non-empty. */
  lemma SessionBoundPassesIff(fieldName: string, req: Request)
    requires req.session.Some? && Mutating(req.verb) && !req.body.Undefined? && !req.body.Null?
    ensures SessionBound(fieldName, req) == Continue <==>
              req.session.value.csrfToken != "" && Get(req.body, fieldName) == Str(req.session.value.csrfToken)
  {
  }
}
