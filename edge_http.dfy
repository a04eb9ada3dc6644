/**
 * What the Supabase edge functions share: the request as a handler sees it
 * and the origin-echo rule of their CORS headers.
 */
module EdgeHttp {
  import opened Wrappers
  import opened Js

  /** The request method: the preflight, POST, or anything else. */
  datatype Verb = Options | Post | OtherVerb(name: string)

  /** `origin` is None without an Origin header; `body` is None when `req.json()` would throw. */
  datatype Request = Request(verb: Verb, origin: Option<string>, body: Option<Value>)

  datatype Cors = Cors(allowOrigin: string, allowMethods: string, allowHeaders: string, maxAge: string)

  /** `origin && (allowed.has("*") || allowed.has(origin)) ? origin : "*"`. */
  function AllowOrigin(allowed: set<string>, origin: Option<string>): (o: string)
    ensures o == "*" || (origin.Some? && o == origin.value)
  {
    var v := origin.GetOr("");
    if v != "" && ("*" in allowed || v in allowed) then v else "*"
  }

  /** With "*" in the allowed set, any non-empty origin is echoed and a missing one becomes "*". */
  lemma AllowOriginEchoes(allowed: set<string>, origin: Option<string>)
    requires "*" in allowed
    ensures AllowOrigin(allowed, origin) == if origin.Some? && origin.value != "" then origin.value else "*"
  {
  }
}
