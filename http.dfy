/**
 * The pieces of an Express request and response the middleware and handlers
 * touch. The request is an object the middleware decorate in place (`flash`,
 * `csrfToken`, `session`, `routeName`); the response is modelled by the
 * effects the library asks of it, in order.
 */
module Http {
  import opened Js
  import opened Wrappers
  import opened Errors

  /**
   * What a flash carries from one request to the next: a `{message}` made from
   * an action's result, an `{error}` holding a validation error, or whatever a
   * handler's plain return value had under `flash`.
   */
  datatype Flash = Message(message: Value) | Invalid(error: Error) | Raw(value: Value)

  /**
   * `CUISession`. Its `flash` property is always `undefined` in the code that
   * is modelled and is not represented.
   */
  datatype Session = Session(key: string, createdAt: int, lastSeenAt: int, csrfToken: string, editBackUrl: Value)

  /** How a middleware ends: `next()`, `next(err)`, or a synchronous throw. */
  datatype Exit = Continue | Reject(error: Error) | Throw(error: Error)

  /** What the library asks of Express's `res`. */
  datatype Effect =
    | SetCookie(name: string, value: string)
    | ClearCookie(name: string)
    | RedirectTo(url: string)
    | SendHtml(html: Value)

  /** `req`; `verb` is `req.method`. */
  class Request {
    /** `req.headers.cookie`; a missing header is `None`. */
    var cookieHeader: Option<string>
    var verb: string
    var params: Value
    var body: Value
    var originalUrl: string
    var baseUrl: string
    /** Set by the double-submit CSRF middleware; `undefined` before. */
    var csrfToken: Value
    /** Set by the flash middleware when a flash is consumed; `None` is `undefined`. */
    var flash: Option<Flash>
    /** Set by the session middleware. */
    var session: Option<Session>
    /** Set by the TypeScript response wrapper. */
    var routeName: Value
  }

  class Reply {
    var effects: seq<Effect>
  }
}
