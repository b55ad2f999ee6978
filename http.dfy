/** The parts of the Fetch API's `Request` and `Response` that the gateway
    and the middlewares read or build, and the per-request context bag. */
module Http {
  import opened Wrappers

  /** A request: its HTTP method, the `pathname` of its URL, and its headers. */
  datatype Request = Request(httpMethod: string, pathname: string, headers: map<string, string>)

  /** A response body: plain text, a JSON document `{"error": error}`, or an
      XML document. */
  datatype Body = Text(text: string) | JsonError(error: string) | Xml(document: string)

  /** `contentType` is `None` when the code leaves the header to the runtime. */
  datatype Response = Response(status: int, body: Body, contentType: Option<string>)

  const JsonType := "application/json"

  /** The mutable `ctx` object: the path parameters the gateway stores in
      `ctx.params`, and the scratch fields middlewares add. */
  datatype Ctx = Ctx(params: map<string, string>, data: map<string, string>)

  /** ASCII lower-casing of one character, as header names are compared. */
  function LowerChar(c: char): (l: char)
    ensures 'A' <= c <= 'Z' ==> l as int == c as int + 32
    ensures !('A' <= c <= 'Z') ==> l == c
    ensures !('A' <= l <= 'Z')
  {
    if 'A' <= c <= 'Z' then (c as int + 32) as char else c
  }

  /** A header name in the lower-case form the Fetch `Headers` object keeps
      it under: header names are case-insensitive. */
  function LowerName(name: string): (l: string)
    ensures |l| == |name|
    ensures forall i :: 0 <= i < |name| ==> l[i] == LowerChar(name[i])
  {
    seq(|name|, i requires 0 <= i < |name| => LowerChar(name[i]))
  }

  /** `req.headers.get(name)`: `None` stands for `null`. The `headers` map of
      a `Request` is keyed by lower-case names, as `Headers` stores them, so
      the name asked for is lower-cased before the lookup. */
  function Header(req: Request, name: string): (v: Option<string>)
    ensures v.Some? <==> LowerName(name) in req.headers
    ensures v.Some? ==> v.value == req.headers[LowerName(name)]
  {
    var key := LowerName(name);
    if key in req.headers then Some(req.headers[key]) else None
  }

  /** Two names that differ only in the case of their letters read the same
      header. */
  lemma {:induction false} HeaderIgnoresCase(req: Request, a: string, b: string)
    requires |a| == |b|
    requires forall i :: 0 <= i < |a| ==> LowerChar(a[i]) == LowerChar(b[i])
    ensures Header(req, a) == Header(req, b)
  {
    assert LowerName(a) == LowerName(b);
  }
}
