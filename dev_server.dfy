/**
 * The development server's access restriction: a middleware that lets a
 * request through only when it comes from the host application, and the
 * hook that installs it at the head of the middleware chain.
 */
module DevServer {
  import opened Options
  import opened Strings

  /** The request headers the middleware reads; an absent header is `None`. */
  datatype Headers = Headers(
    origin: Option<string>,
    referer: Option<string>,
    secFetchMode: Option<string>,
    secFetchDest: Option<string>)

  const AllowedOrigins: seq<string> := ["http://localhost:3000", "http://127.0.0.1:3000"]

  const DeniedMessage := "Access denied. Request must originate from host application."

  /** The body of a refusal: the static HTML page, or the JSON error object. */
  datatype Body = AccessDeniedPage | AccessDeniedJson(error: string, allowedOrigins: seq<string>)

  /** What the middleware does with a request: pass it on, or answer it itself. */
  datatype Verdict = CallNext | Respond(status: int, contentType: string, body: Body)

  /** JavaScript truthiness of a header value: present and non-empty. */
  predicate Truthy(h: Option<string>) {
    h.Some? && h.value != ""
  }

  /** `(h && h.startsWith(allowed))`. */
  predicate HeaderStartsWith(h: Option<string>, allowed: string) {
    Truthy(h) && StartsWith(h.value, allowed)
  }

  /** The callback given to `some`: origin or referer begins with `allowed`. */
  predicate MatchesOrigin(origin: Option<string>, referer: Option<string>, allowed: string) {
    HeaderStartsWith(origin, allowed) || HeaderStartsWith(referer, allowed)
  }

  /** `allowed.some(...)`. */
  function SomeAllowed(allowed: seq<string>, origin: Option<string>, referer: Option<string>): (r: bool)
    ensures r <==> exists i :: 0 <= i < |allowed| && MatchesOrigin(origin, referer, allowed[i])
  {
    if allowed == [] then false
    else if MatchesOrigin(origin, referer, allowed[0]) then
      assert 0 < |allowed|;
      true
    else
      var r := SomeAllowed(allowed[1..], origin, referer);
      assert forall i :: 1 <= i < |allowed| ==> allowed[i] == allowed[1..][i - 1];
      r
  }

  /** A typed-in address: a top-level document navigation. */
  predicate IsDirectNavigation(h: Headers) {
    h.secFetchMode == Some("navigate") && h.secFetchDest == Some("document")
  }

  /** `restrictAccessMiddleware`, with the response it would send as a value. */
  function RestrictAccess(h: Headers): (v: Verdict)
    ensures v.Respond? ==> v.status == 403
    ensures !Truthy(h.origin) && !Truthy(h.referer) ==>
      (v == CallNext <==> !IsDirectNavigation(h)) &&
      (v.Respond? ==> v.contentType == "text/html" && v.body == AccessDeniedPage)
    ensures Truthy(h.origin) || Truthy(h.referer) ==>
      (v == CallNext <==>
         exists i :: 0 <= i < |AllowedOrigins| && MatchesOrigin(h.origin, h.referer, AllowedOrigins[i]))
    ensures (Truthy(h.origin) || Truthy(h.referer)) && v.Respond? ==>
      v.contentType == "application/json" && v.body == AccessDeniedJson(DeniedMessage, AllowedOrigins)
  {
    if !Truthy(h.origin) && !Truthy(h.referer) then
      if IsDirectNavigation(h) then Respond(403, "text/html", AccessDeniedPage)
      else CallNext
    else if !SomeAllowed(AllowedOrigins, h.origin, h.referer) then
      Respond(403, "application/json", AccessDeniedJson(DeniedMessage, AllowedOrigins))
    else
      CallNext
  }

  /** A request from a page of the host passes. */
  lemma HostPagePasses()
    ensures RestrictAccess(Headers(None, Some("http://localhost:3000/app3/reports"), None, None)) == CallNext
  {
    assert HeaderStartsWith(Some("http://localhost:3000/app3/reports"), AllowedOrigins[0]);
  }

  /** The test is a prefix test, so an origin that merely begins like the host passes too. */
  lemma PrefixIsNotEquality()
    ensures RestrictAccess(Headers(Some("http://localhost:3000.example.com"), None, None, None)) == CallNext
  {
    assert HeaderStartsWith(Some("http://localhost:3000.example.com"), AllowedOrigins[0]);
  }

  /** An empty origin counts as absent: with no referer either, only navigations are refused. */
  lemma EmptyOriginIsAbsent(mode: Option<string>, dest: Option<string>)
    ensures RestrictAccess(Headers(Some(""), Some(""), mode, dest)) ==
      RestrictAccess(Headers(None, None, mode, dest))
  {
  }

  /** A middleware entry of the dev server. */
  datatype Middleware = Middleware(name: string, handler: Handler)

  /** Which function handles requests: ours, or one installed by the server itself. */
  datatype Handler = RestrictAccessHandler | ServerHandler(id: nat)

  const RestrictAccessEntry := Middleware("restrict-access", RestrictAccessHandler)

  /** The dev server's middleware array, which the hook changes in place. */
  class MiddlewareList {
    var entries: seq<Middleware>

    constructor (entries: seq<Middleware>)
      ensures this.entries == entries
    {
      this.entries := entries;
    }

    /** `Array.prototype.unshift` with one element. */
    method Unshift(m: Middleware)
      modifies this
      ensures entries == [m] + old(entries)
    {
      entries := [m] + entries;
    }
  }

  /** `setupMiddlewares`: put the restriction first and hand back the same array. */
  method SetupMiddlewares(middlewares: MiddlewareList) returns (r: MiddlewareList)
    modifies middlewares
    ensures r == middlewares
    ensures |r.entries| == |old(middlewares.entries)| + 1
    ensures r.entries[0] == RestrictAccessEntry
    ensures r.entries[1..] == old(middlewares.entries)
  {
    middlewares.Unshift(RestrictAccessEntry);
    r := middlewares;
  }
}
