/**
 * `CorsMiddleware::handle`: after the inner handler has produced its
 * response, write the five CORS headers into it and, for a preflight
 * `OPTIONS` request, force the status to 200.
 *
 * Header names are kept as the header bag stores them, lower-cased; a
 * header bag holds one value per name here.
 */
module CorsMiddleware {

  /** The parts of the request the middleware reads. */
  datatype Request = Request(verb: string, headers: map<string, string>)

  /** The response the inner handler returned; the middleware changes it in place. */
  class Response {
    var status: nat
    var headers: map<string, string>

    constructor (status: nat, headers: map<string, string>)
      ensures this.status == status && this.headers == headers
    {
      this.status := status;
      this.headers := headers;
    }

    /** `$response->headers->set($name, $value)`: replace that one header. */
    method SetHeader(name: string, value: string)
      modifies this
      ensures headers == old(headers)[name := value]
      ensures status == old(status)
    {
      headers := headers[name := value];
    }

    /** `$response->setStatusCode($code)`. */
    method SetStatus(code: nat)
      modifies this
      ensures status == code && headers == old(headers)
    {
      status := code;
    }
  }

  const AllowOrigin := "access-control-allow-origin"
  const Vary := "vary"
  const AllowMethods := "access-control-allow-methods"
  const AllowHeaders := "access-control-allow-headers"
  const AllowCredentials := "access-control-allow-credentials"

  /** The five names the middleware writes. */
  const CorsNames: set<string> := {AllowOrigin, Vary, AllowMethods, AllowHeaders, AllowCredentials}

  const Methods := "GET, POST, PUT, PATCH, DELETE, OPTIONS"
  const Headers := "Content-Type, Authorization, X-Requested-With"

  /** `$request->headers->get('Origin', '*')`. */
  function OriginOf(req: Request): (o: string)
    ensures "origin" in req.headers ==> o == req.headers["origin"]
    ensures "origin" !in req.headers ==> o == "*"
  {
    if "origin" in req.headers then req.headers["origin"] else "*"
  }

  /** The headers the middleware writes for a request. */
  function CorsHeaders(req: Request): (h: map<string, string>)
    ensures h.Keys == CorsNames
    ensures h[AllowOrigin] == OriginOf(req)
    ensures h[Vary] == "Origin"
    ensures h[AllowMethods] == Methods
    ensures h[AllowHeaders] == Headers
    ensures h[AllowCredentials] == "true"
  {
    map[AllowOrigin := OriginOf(req), Vary := "Origin", AllowMethods := Methods, AllowHeaders := Headers, AllowCredentials := "true"]
  }

  /** The status after the middleware: 200 for a preflight, the inner status otherwise. */
  function StatusAfter(req: Request, inner: nat): (s: nat)
    ensures req.verb == "OPTIONS" ==> s == 200
    ensures req.verb != "OPTIONS" ==> s == inner
  {
    if req.verb == "OPTIONS" then 200 else inner
  }

  /**
   * The header bag after the middleware: the five CORS names take the
   * middleware's values and every other header keeps the inner handler's.
   */
  function HeadersAfter(req: Request, inner: map<string, string>): (h: map<string, string>)
    ensures h.Keys == inner.Keys + CorsNames
    ensures forall name :: name in CorsNames ==> h[name] == CorsHeaders(req)[name]
    ensures forall name :: name in inner && name !in CorsNames ==> h[name] == inner[name]
  {
    inner + CorsHeaders(req)
  }

  /** Running the middleware twice writes nothing new: the second run leaves what the first left. */
  lemma HeadersAfterIdempotent(req: Request, inner: map<string, string>)
    ensures HeadersAfter(req, HeadersAfter(req, inner)) == HeadersAfter(req, inner)
  {
  }

  /** Writing the five headers one after another gives the header bag above. */
  lemma HeadersAfterIsFiveWrites(req: Request, inner: map<string, string>)
    ensures HeadersAfter(req, inner)
         == inner[AllowOrigin := OriginOf(req)][Vary := "Origin"][AllowMethods := Methods][AllowHeaders := Headers][AllowCredentials := "true"]
  {
  }

  /** `handle`: write the five headers one by one, then the preflight status. */
  method Handle(req: Request, response: Response)
    modifies response
    ensures response.headers == HeadersAfter(req, old(response.headers))
    ensures response.status == StatusAfter(req, old(response.status))
  {
    var origin := OriginOf(req);
    response.SetHeader(AllowOrigin, origin);
    response.SetHeader(Vary, "Origin");
    response.SetHeader(AllowMethods, Methods);
    response.SetHeader(AllowHeaders, Headers);
    response.SetHeader(AllowCredentials, "true");
    HeadersAfterIsFiveWrites(req, old(response.headers));
    if req.verb == "OPTIONS" {
      response.SetStatus(200);
    }
  }
}
