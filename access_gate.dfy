/**
 * The optional shared-secret gate run before every request, and the entry
 * page's rule that turns an `access_token` query parameter into a cookie
 * (app.py).
 */
module AccessGate {
  import opened Wrappers

  /** Python truthiness of an optional string: present and non-empty. */
  predicate Truthy(v: Option<string>)
  {
    v.Some? && v.value != ""
  }

  /** Python `a or b`: `a` when truthy, otherwise `b` (even a falsy `b`). */
  function Or(a: Option<string>, b: Option<string>): Option<string>
  {
    if Truthy(a) then a else b
  }

  /** The first non-empty token among header, query and cookie, if any. */
  function FirstNonEmpty(header: Option<string>, query: Option<string>, cookie: Option<string>): (t: Option<string>)
    ensures t.Some? <==> Truthy(header) || Truthy(query) || Truthy(cookie)
    ensures t.Some? ==> t.value != ""
  {
    if Truthy(header) then header
    else if Truthy(query) then query
    else if Truthy(cookie) then cookie
    else None
  }

  /**
   * `header or query or cookie` agrees with `FirstNonEmpty` on every
   * non-empty value; when all three are falsy it yields the (falsy) cookie.
   */
  lemma OrChainIsFirstNonEmpty(header: Option<string>, query: Option<string>, cookie: Option<string>)
    ensures Truthy(Or(Or(header, query), cookie)) <==> FirstNonEmpty(header, query, cookie).Some?
    ensures Truthy(Or(Or(header, query), cookie)) ==>
      Or(Or(header, query), cookie) == FirstNonEmpty(header, query, cookie)
  {
  }

  /** Paths served without a token: the entry page, static assets, the icon. */
  predicate IsPublicPath(path: string)
  {
    path == "/" || "/static/" <= path || path == "/favicon.ico"
  }

  datatype Decision = Allow | Unauthorized
  {
    function Status(): (code: Option<int>)
      ensures code == None <==> Allow?
      ensures code == Some(401) <==> Unauthorized?
    {
      if Allow? then None else Some(401)
    }
  }

  /**
   * `require_access_token`: no configured token (absent or empty) lets
   * everything through, public paths always pass, and otherwise the value
   * of the Python `or` chain must equal the configured token.
   */
  function Gate(configured: Option<string>, path: string,
                header: Option<string>, query: Option<string>, cookie: Option<string>): (d: Decision)
    ensures !Truthy(configured) ==> d == Allow
    ensures IsPublicPath(path) ==> d == Allow
    ensures Truthy(configured) && !IsPublicPath(path) ==>
      (d == Allow <==> FirstNonEmpty(header, query, cookie) == configured)
  {
    if !Truthy(configured) then Allow
    else if IsPublicPath(path) then Allow
    else
      var token := Or(Or(header, query), cookie);
      OrChainIsFirstNonEmpty(header, query, cookie);
      if token != configured then Unauthorized else Allow
  }

  /** With a token configured, a protected request carrying none is refused. */
  lemma NoTokenRefused(configured: Option<string>, path: string)
    requires Truthy(configured) && !IsPublicPath(path)
    ensures Gate(configured, path, None, None, None) == Unauthorized
    ensures Gate(configured, path, Some(""), Some(""), Some("")) == Unauthorized
  {
  }

  /** The correct token on any one channel, the others empty, gets through. */
  lemma AnyChannelAccepted(secret: string, path: string)
    requires secret != ""
    ensures Gate(Some(secret), path, Some(secret), None, None) == Allow
    ensures Gate(Some(secret), path, None, Some(secret), None) == Allow
    ensures Gate(Some(secret), path, None, None, Some(secret)) == Allow
  {
  }

  /**
   * Precedence: a non-empty header is the only token looked at, so a wrong
   * header is refused even when the query or cookie holds the right token.
   */
  lemma HeaderShadowsOthers(secret: string, path: string, header: string, query: Option<string>, cookie: Option<string>)
    requires secret != "" && header != "" && header != secret
    requires !IsPublicPath(path)
    ensures Gate(Some(secret), path, Some(header), query, cookie) == Unauthorized
  {
  }

  /**
   * The entry page's cookie rule: a non-empty `access_token` query value is
   * set as the `access_token` cookie; an empty or absent one sets nothing.
   */
  function IndexCookie(query: Option<string>): (c: Option<string>)
    ensures c.Some? <==> Truthy(query)
    ensures c.Some? ==> c == query
  {
    if Truthy(query) then query else None
  }

  /**
   * Opening the entry page with the right token lets later API requests
   * that carry only the cookie it set (no header, no query) through.
   */
  lemma CookieHandOff(secret: string, query: Option<string>, path: string)
    requires secret != "" && query == Some(secret)
    ensures Gate(Some(secret), path, None, None, IndexCookie(query)) == Allow
  {
  }
}
