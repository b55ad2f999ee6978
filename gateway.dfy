/** The request gateway of src/libs/gateway.ts: path templates compiled into
    anchored matchers, a global and a per-route middleware chain with
    first-response short-circuit, first-match dispatch and the mapping of
    thrown errors to responses. */
module Gateway {
  import opened Wrappers
  import opened Http

  // ---------------------------------------------------------------------
  // Errors and error responses

  /** What a middleware, loader or handler may throw: an `ApiError` (or a
      subclass) with its own status, or any other value. */
  datatype Thrown = ApiError(message: string, status: int) | OtherError(message: string)

  const NotFoundDefault := "Resource not found"
  const BadRequestDefault := "Bad request"

  /** `new NotFoundError(message?)`; `None` is an omitted argument. */
  function NotFoundError(message: Option<string>): (e: Thrown)
    ensures e.ApiError? && e.status == 404
    ensures e.message == (if message.Some? then message.value else NotFoundDefault)
  {
    ApiError(if message.Some? then message.value else NotFoundDefault, 404)
  }

  /** `new BadRequestError(message?)`. */
  function BadRequestError(message: Option<string>): (e: Thrown)
    ensures e.ApiError? && e.status == 400
    ensures e.message == (if message.Some? then message.value else BadRequestDefault)
  {
    ApiError(if message.Some? then message.value else BadRequestDefault, 400)
  }

  /** `handleErrorResponse(message, statusCode = 400)`. */
  function HandleErrorResponse(message: string, statusCode: Option<int>): (r: Response)
    ensures r.status == (if statusCode.Some? then statusCode.value else 400)
    ensures r.body == JsonError(message) && r.contentType == Some(JsonType)
  {
    Response(if statusCode.Some? then statusCode.value else 400, JsonError(message), Some(JsonType))
  }

  const InternalErrorText := "Internal Server Error"

  /** `handleError`: a typed error keeps its status and message; anything else
      becomes a generic 500 that does not carry the thrown message. */
  function HandleError(error: Thrown): (r: Response)
    ensures error.ApiError? ==> r == Response(error.status, Text(error.message), None)
    ensures error.OtherError? ==> r.status == 500 && r.body == Text(InternalErrorText)
  {
    match error
    case ApiError(message, status) => Response(status, Text(message), None)
    case OtherError(_) => Response(500, Text(InternalErrorText), None)
  }

  /** A status the Fetch `Response` constructor accepts for a response with a
      body: 200 to 599, and not one of the null-body statuses 204, 205, 304. */
  predicate BodyStatus(status: int) {
    200 <= status <= 599 && status !in {204, 205, 304}
  }

  /** Every error the repository itself throws or answers with has a status
      `Response` accepts, so its error responses can be built. */
  lemma RepositoryErrorStatuses(message: Option<string>, text: string, statusCode: Option<int>)
    requires statusCode.Some? ==> BodyStatus(statusCode.value)
    ensures BodyStatus(HandleError(NotFoundError(message)).status)
    ensures BodyStatus(HandleError(BadRequestError(message)).status)
    ensures BodyStatus(HandleError(OtherError(text)).status)
    ensures BodyStatus(HandleErrorResponse(text, statusCode).status)
  {
  }

  /** The response for an unexpected error does not depend on what was thrown. */
  lemma InternalErrorsDoNotLeak(a: string, b: string)
    ensures HandleError(OtherError(a)) == HandleError(OtherError(b))
    ensures HandleError(OtherError(a)).status == 500
  {
  }

  /** The two typed errors map to 404 and 400 with their messages. */
  lemma TypedErrorStatus(message: Option<string>)
    ensures HandleError(NotFoundError(message)).status == 404
    ensures HandleError(BadRequestError(message)).status == 400
    ensures HandleError(NotFoundError(message)).body == Text(NotFoundError(message).message)
  {
  }

  const NotFoundResponse := Response(404, Text("Not Found"), None)

  // ---------------------------------------------------------------------
  // Middlewares and handlers

  /** What one middleware call does: fall through (`void`) with the context
      it leaves behind, answer with a response, or throw. */
  datatype Step = Next(ctx: Ctx) | Answer(response: Response) | Raise(error: Thrown)

  type Middleware = (Request, Ctx) -> Step

  /** What a route handler call does. */
  datatype Outcome = Returned(response: Response) | Raised(error: Thrown)

  type RouteHandler = (Request, Ctx) -> Outcome

  /** What a handler loader call does. */
  datatype Loaded = LoadedHandler(handler: RouteHandler) | LoadFailed(error: Thrown)

  /** A route's handler: registered ready by `on`, or a loader by `onAsync`. */
  datatype HandlerRef = Ready(run: RouteHandler) | Loader(load: (Request, Ctx) -> Loaded)

  // ---------------------------------------------------------------------
  // Path templates

  /** `\w` of JavaScript regular expressions. */
  predicate IsWordChar(c: char) {
    'a' <= c <= 'z' || 'A' <= c <= 'Z' || '0' <= c <= '9' || c == '_'
  }

  predicate IsName(s: string) {
    |s| > 0 && forall i | 0 <= i < |s| :: IsWordChar(s[i])
  }

  /** A compiled template is a sequence of literal characters and capture
      groups `([^/]+)`, each group named by the `:name` it replaced. */
  datatype Tok = Chr(c: char) | Group(name: string)

  /** The length of the longest prefix of word characters. */
  function WordLength(s: string): (n: nat)
    ensures n <= |s|
    ensures forall i | 0 <= i < n :: IsWordChar(s[i])
    ensures n < |s| ==> !IsWordChar(s[n])
  {
    if s == [] || !IsWordChar(s[0]) then 0 else 1 + WordLength(s[1..])
  }

  /** The template text a token sequence stands for. */
  function Spell(toks: seq<Tok>): string
  {
    if toks == [] then []
    else match toks[0]
      case Chr(c) => [c] + Spell(toks[1..])
      case Group(n) => ":" + n + Spell(toks[1..])
  }

  predicate StartsWithWordChar(toks: seq<Tok>) {
    |toks| > 0 && toks[0].Chr? && IsWordChar(toks[0].c)
  }

  /** The tokens are what the global replacement of `/:([\w]+)/g` yields:
      every group name is a word, every group took the longest word after its
      colon, and no literal colon is followed by a word character. */
  predicate Canonical(toks: seq<Tok>) {
    && (forall i | 0 <= i < |toks| && toks[i].Group? :: IsName(toks[i].name))
    && (forall i | 0 <= i < |toks| - 1 && (toks[i].Group? || toks[i] == Chr(':')) ::
          !StartsWithWordChar(toks[i + 1..]))
  }

  lemma {:induction false} TokenizeLiteralPrefix(lit: string, t: string)
    requires forall i | 0 <= i < |lit| :: lit[i] != ':'
    ensures Tokenize(lit + t) == Literal(lit) + Tokenize(t)
    decreases |lit|
  {
    if lit == [] {
      assert lit + t == t;
      assert Literal(lit) == [];
    } else {
      var c, tail := lit[0], lit[1..];
      calc {
        Tokenize(lit + t);
        { assert lit + t == [c] + (tail + t); }
        Tokenize([c] + (tail + t));
        { TokenizeCons(c, tail + t); }
        [Chr(c)] + Tokenize(tail + t);
        { TokenizeLiteralPrefix(tail, t); }
        [Chr(c)] + (Literal(tail) + Tokenize(t));
        ([Chr(c)] + Literal(tail)) + Tokenize(t);
        { LiteralCons(lit); }
        Literal(lit) + Tokenize(t);
      }
    }
  }

  lemma LiteralCons(lit: string)
    requires lit != []
    ensures Literal(lit) == [Chr(lit[0])] + Literal(lit[1..])
  {
    assert Literal(lit)[1..] == Literal(lit[1..]);
  }

  lemma TokenizeCons(c: char, rest: string)
    requires c != ':'
    ensures Tokenize([c] + rest) == [Chr(c)] + Tokenize(rest)
  {
    assert ([c] + rest)[1..] == rest;
  }

  /** A template ending in `:name` ends in that one group. */
  lemma TokenizeTrailingName(name: string)
    requires IsName(name)
    ensures Tokenize(":" + name) == [Group(name)]
  {
    var t := ":" + name;
    assert t[1..] == name;
    WordLengthOfName(name);
    assert t[1 + |name|..] == [];
    assert t[1..1 + |name|] == name;
  }

  /** A template of literal text followed by one `:name`. */
  lemma TemplateWithTrailingParam(lit: string, name: string)
    requires forall i | 0 <= i < |lit| :: lit[i] != ':'
    requires IsName(name)
    ensures Compile(lit + ":" + name).pattern == Literal(lit) + [Group(name)]
    ensures Compile(lit + ":" + name).params == [name]
    ensures Compile(lit + ":" + name).source == "^" + lit + "([^/]+)" + "$"
  {
    assert lit + ":" + name == lit + (":" + name);
    TokenizeLiteralPrefix(lit, ":" + name);
    TokenizeTrailingName(name);
    GroupNamesAppend(Literal(lit), [Group(name)]);
    RenderAppend(Literal(lit), [Group(name)]);
    LiteralRenders(lit);
  }

  lemma {:induction false} WordLengthOfName(name: string)
    requires forall i | 0 <= i < |name| :: IsWordChar(name[i])
    ensures WordLength(name) == |name|
    decreases |name|
  {
    if name != [] { WordLengthOfName(name[1..]); }
  }

  /** `path.replace(/:([\w]+)/g, …)`, scanning left to right. */
  function Tokenize(t: string): (toks: seq<Tok>)
    ensures Spell(toks) == t
    ensures |t| > 0 ==> |toks| > 0 && (toks[0].Chr? ==> toks[0].c == t[0])
    decreases |t|
  {
    if t == [] then []
    else if t[0] == ':' && WordLength(t[1..]) > 0 then
      var n := WordLength(t[1..]);
      var rest := Tokenize(t[1 + n..]);
      assert t == ":" + t[1..1 + n] + t[1 + n..];
      [Group(t[1..1 + n])] + rest
    else
      [Chr(t[0])] + Tokenize(t[1..])
  }

  /** Tokenizing performs exactly the greedy, left-to-right replacement. */
  lemma {:induction false} TokenizeCanonical(t: string)
    ensures Canonical(Tokenize(t))
    decreases |t|
  {
    if t != [] {
      var toks := Tokenize(t);
      if t[0] == ':' && WordLength(t[1..]) > 0 {
        var n := WordLength(t[1..]);
        TokenizeCanonical(t[1 + n..]);
        assert toks[1..] == Tokenize(t[1 + n..]);
      } else {
        TokenizeCanonical(t[1..]);
        assert toks[1..] == Tokenize(t[1..]);
      }
      forall i | 0 <= i < |toks| - 1 && (toks[i].Group? || toks[i] == Chr(':'))
        ensures !StartsWithWordChar(toks[i + 1..])
      {
        if i > 0 { assert toks[i + 1..] == toks[1..][i..]; }
      }
    }
  }

  /** The regular-expression text a token sequence compiles to. */
  function Render(toks: seq<Tok>): string
  {
    if toks == [] then []
    else match toks[0]
      case Chr(c) => [c] + Render(toks[1..])
      case Group(_) => "([^/]+)" + Render(toks[1..])
  }

  /** The group names, left to right. */
  function GroupNames(toks: seq<Tok>): (names: seq<string>)
    ensures |names| <= |toks|
  {
    if toks == [] then []
    else match toks[0]
      case Chr(_) => GroupNames(toks[1..])
      case Group(n) => [n] + GroupNames(toks[1..])
  }

  lemma {:induction false} GroupNamesAppend(a: seq<Tok>, b: seq<Tok>)
    ensures GroupNames(a + b) == GroupNames(a) + GroupNames(b)
    decreases |a|
  {
    if a == [] {
      assert a + b == b;
    } else {
      assert (a + b)[0] == a[0] && (a + b)[1..] == a[1..] + b;
      GroupNamesAppend(a[1..], b);
    }
  }

  lemma {:induction false} RenderAppend(a: seq<Tok>, b: seq<Tok>)
    ensures Render(a + b) == Render(a) + Render(b)
    decreases |a|
  {
    if a == [] {
      assert a + b == b;
    } else {
      assert (a + b)[0] == a[0] && (a + b)[1..] == a[1..] + b;
      RenderAppend(a[1..], b);
    }
  }

  /** A template text taken literally, as `onAsync` compiles it. */
  function Literal(t: string): (toks: seq<Tok>)
    ensures |toks| == |t|
    ensures forall i | 0 <= i < |t| :: toks[i] == Chr(t[i])
  {
    seq(|t|, i requires 0 <= i < |t| => Chr(t[i]))
  }

  lemma {:induction false} LiteralRenders(t: string)
    ensures Render(Literal(t)) == t
    ensures GroupNames(Literal(t)) == []
    decreases |t|
  {
    if t != [] {
      assert Literal(t)[1..] == Literal(t[1..]);
      LiteralRenders(t[1..]);
    }
  }

  /** A compiled route path: the regular expression's `source`, the
      structured pattern it denotes, and the recorded parameter names. */
  datatype Compiled = Compiled(source: string, pattern: seq<Tok>, params: seq<string>)

  predicate WellCompiled(c: Compiled) {
    c.source == "^" + Render(c.pattern) + "$" && c.params == GroupNames(c.pattern)
  }

  /** The path compilation of `on`: every `:name` becomes one `([^/]+)`
      group, its name is recorded in left-to-right order, all other text is
      kept, and the whole is anchored. */
  function Compile(path: string): (c: Compiled)
    ensures WellCompiled(c)
    ensures Spell(c.pattern) == path && Canonical(c.pattern)
    ensures c.source[0] == '^' && c.source[|c.source| - 1] == '$'
  {
    var toks := Tokenize(path);
    TokenizeCanonical(path);
    Compiled("^" + Render(toks) + "$", toks, GroupNames(toks))
  }

  /** The path compilation of `onAsync`: `new RegExp('^' + path + '$')` with
      no parameter substitution and no parameter list. */
  function CompileLiteral(path: string): (c: Compiled)
    ensures WellCompiled(c)
    ensures c.source == "^" + path + "$" && c.params == []
  {
    LiteralRenders(path);
    Compiled("^" + path + "$", Literal(path), [])
  }

  // ---------------------------------------------------------------------
  // Matching

  predicate NoSlash(s: string) {
    forall i | 0 <= i < |s| :: s[i] != '/'
  }

  /** The regular expression accepts `s` (`test`): each group takes one or
      more characters other than `/`, every other token its own character,
      and nothing is left over at either end. */
  ghost predicate Matches(p: seq<Tok>, s: string)
    decreases |p|
  {
    if p == [] then s == []
    else match p[0]
      case Chr(c) => s != [] && s[0] == c && Matches(p[1..], s[1..])
      case Group(_) => exists k | 1 <= k <= |s| :: NoSlash(s[..k]) && Matches(p[1..], s[k..])
  }

  /** The number of leading characters other than `/`. */
  function RunLength(s: string): (n: nat)
    ensures n <= |s| && NoSlash(s[..n])
    ensures n < |s| ==> s[n] == '/'
  {
    if s == [] || s[0] == '/' then 0 else 1 + RunLength(s[1..])
  }

  /** Substitutes captures for the groups, giving back the matched path. */
  function Fill(p: seq<Tok>, caps: seq<string>): string
    decreases |p|
  {
    if p == [] then []
    else match p[0]
      case Chr(c) => [c] + Fill(p[1..], caps)
      case Group(_) =>
        if caps == [] then Fill(p[1..], []) else caps[0] + Fill(p[1..], caps[1..])
  }

  predicate GoodCaptures(p: seq<Tok>, s: string, caps: seq<string>) {
    && |caps| == |GroupNames(p)|
    && (forall i | 0 <= i < |caps| :: |caps[i]| > 0 && NoSlash(caps[i]))
    && Fill(p, caps) == s
  }

  /** `s.match(regex)`: the captures JavaScript's backtracking matcher finds,
      where each group first tries its longest run of non-`/` characters. */
  function Captures(p: seq<Tok>, s: string): (r: Option<seq<string>>)
    ensures r.Some? ==> GoodCaptures(p, s, r.value)
    decreases |p|, |s| + 1
  {
    if p == [] then (if s == [] then Some([]) else None)
    else match p[0]
      case Chr(c) => if s != [] && s[0] == c then Captures(p[1..], s[1..]) else None
      case Group(_) => TryGroup(p[1..], s, RunLength(s))
  }

  /** The group in front of `rest` takes `s[..k]`, else a shorter run. */
  function TryGroup(rest: seq<Tok>, s: string, k: nat): (r: Option<seq<string>>)
    requires k <= RunLength(s)
    ensures r.Some? ==> |r.value| > 0 && 1 <= |r.value[0]| <= k && r.value[0] == s[..|r.value[0]|]
    ensures r.Some? ==> GoodCaptures(rest, s[|r.value[0]|..], r.value[1..])
    decreases |rest| + 1, k
  {
    if k == 0 then None
    else match Captures(rest, s[k..])
      case Some(cs) => Some([s[..k]] + cs)
      case None => TryGroup(rest, s, k - 1)
  }

  lemma {:induction false} CapturesSound(p: seq<Tok>, s: string)
    requires Captures(p, s).Some?
    ensures Matches(p, s)
    decreases |p|
  {
    if p != [] {
      match p[0]
      case Chr(c) => CapturesSound(p[1..], s[1..]);
      case Group(_) =>
        var cs := TryGroup(p[1..], s, RunLength(s)).value;
        var k := |cs[0]|;
        TryGroupCaptures(p[1..], s, RunLength(s));
        CapturesSound(p[1..], s[k..]);
        assert s[..k] == s[..RunLength(s)][..k];
    }
  }

  /** A successful `TryGroup` leaves a successful match of the rest. */
  lemma {:induction false} TryGroupCaptures(rest: seq<Tok>, s: string, k: nat)
    requires k <= RunLength(s)
    requires TryGroup(rest, s, k).Some?
    ensures var k' := |TryGroup(rest, s, k).value[0]|;
      1 <= k' <= k && Captures(rest, s[k'..]).Some?
    decreases k
  {
    if Captures(rest, s[k..]).None? {
      TryGroupCaptures(rest, s, k - 1);
    }
  }

  lemma {:induction false} CapturesComplete(p: seq<Tok>, s: string)
    requires Matches(p, s)
    ensures Captures(p, s).Some?
    decreases |p|
  {
    if p != [] {
      match p[0]
      case Chr(c) => CapturesComplete(p[1..], s[1..]);
      case Group(_) =>
        var k :| 1 <= k <= |s| && NoSlash(s[..k]) && Matches(p[1..], s[k..]);
        CapturesComplete(p[1..], s[k..]);
        RunLengthBound(s, k);
        TryGroupFinds(p[1..], s, RunLength(s), k);
    }
  }

  lemma {:induction false} RunLengthBound(s: string, k: nat)
    requires k <= |s| && NoSlash(s[..k])
    ensures k <= RunLength(s)
    decreases k
  {
    if k > 0 {
      assert s[0] == s[..k][0];
      assert s[1..][..k - 1] == s[..k][1..];
      RunLengthBound(s[1..], k - 1);
    }
  }

  lemma {:induction false} TryGroupFinds(rest: seq<Tok>, s: string, k: nat, j: nat)
    requires 1 <= j <= k <= RunLength(s)
    requires Captures(rest, s[j..]).Some?
    ensures TryGroup(rest, s, k).Some?
    decreases k
  {
    if k > j && Captures(rest, s[k..]).None? {
      TryGroupFinds(rest, s, k - 1, j);
    }
  }

  /** The matcher's verdict is exactly "the regular expression accepts". */
  lemma CapturesIffMatches(p: seq<Tok>, s: string)
    ensures Captures(p, s).Some? <==> Matches(p, s)
  {
    if Captures(p, s).Some? { CapturesSound(p, s); }
    if Matches(p, s) { CapturesComplete(p, s); }
  }

  /** Literal template text must be matched character for character. */
  lemma {:induction false} CapturesLiteralPrefix(lit: string, p: seq<Tok>, s: string)
    ensures Captures(Literal(lit) + p, s) ==
      if |s| >= |lit| && s[..|lit|] == lit then Captures(p, s[|lit|..]) else None
    decreases |lit|
  {
    if lit == [] {
      assert Literal(lit) + p == p;
    } else {
      var q := Literal(lit) + p;
      assert q[0] == Chr(lit[0]) && q[1..] == Literal(lit[1..]) + p;
      if s != [] && s[0] == lit[0] {
        CapturesLiteralPrefix(lit[1..], p, s[1..]);
        if |s| >= |lit| {
          assert (s[..|lit|] == lit) == (s[1..][..|lit| - 1] == lit[1..]);
          assert s[1..][|lit| - 1..] == s[|lit|..];
        }
      }
    }
  }

  /** A lone group captures the whole rest of the path exactly when it is
      non-empty and holds no `/`. */
  lemma SingleGroupCaptures(name: string, s: string)
    ensures Captures([Group(name)], s) == if |s| > 0 && NoSlash(s) then Some([s]) else None
  {
    var p := [Group(name)];
    assert p[1..] == [];
    var k := RunLength(s);
    assert Captures(p, s) == TryGroup([], s, k);
    if |s| > 0 && NoSlash(s) {
      TryGroupWhole(s);
    } else {
      if k == |s| { assert s[..k] == s; }
      TryGroupNone(s, k);
    }
  }

  lemma TryGroupWhole(s: string)
    requires |s| > 0 && NoSlash(s)
    ensures TryGroup([], s, RunLength(s)) == Some([s])
  {
    var k := RunLength(s);
    RunLengthBound(s, |s|);
    assert k == |s| && s[k..] == [] && s[..k] == s;
    assert Captures([], s[k..]) == Some([]);
    assert TryGroup([], s, k) == Some([s[..k]] + []);
    assert [s[..k]] + [] == [s];
  }

  lemma {:induction false} TryGroupNone(s: string, k: nat)
    requires k <= RunLength(s) && (k < |s| || k == 0)
    ensures TryGroup([], s, k) == None
    decreases k
  {
    if k > 0 { TryGroupNone(s, k - 1); }
  }

  // ---------------------------------------------------------------------
  // Parameters

  /** The record `extractParams` fills: the i-th name gets the i-th capture,
      a later occurrence of a name overwriting an earlier one. */
  function ZipParams(names: seq<string>, caps: seq<string>): (m: map<string, string>)
    requires |names| == |caps|
    ensures forall x :: x in m <==> x in names
    decreases |names|
  {
    if names == [] then map[]
    else
      var n := |names| - 1;
      assert names == names[..n] + [names[n]];
      ZipParams(names[..n], caps[..n])[names[n] := caps[n]]
  }

  /** A name that does not occur again later is given its own capture. */
  lemma {:induction false} ZipParamsAt(names: seq<string>, caps: seq<string>, i: nat)
    requires |names| == |caps| && i < |names|
    requires forall j | i < j < |names| :: names[j] != names[i]
    ensures names[i] in ZipParams(names, caps) && ZipParams(names, caps)[names[i]] == caps[i]
    decreases |names|
  {
    var n := |names| - 1;
    if i < n {
      ZipParamsAt(names[..n], caps[..n], i);
    }
  }

  // ---------------------------------------------------------------------
  // Routes

  datatype Route = Route(
    httpMethod: string,
    path: Compiled,
    handler: HandlerRef,
    middlewares: seq<Middleware>)

  predicate RouteAccepts(r: Route, req: Request) {
    r.httpMethod == req.httpMethod && Captures(r.path.pattern, req.pathname).Some?
  }

  /** `routes.find(route => route.method === req.method && route.path.test(pathname))`. */
  function FindRoute(routes: seq<Route>, req: Request): (r: Option<nat>)
    ensures r.Some? ==> r.value < |routes| && RouteAccepts(routes[r.value], req)
    ensures r.Some? ==> forall j | 0 <= j < r.value :: !RouteAccepts(routes[j], req)
    ensures r.None? ==> forall j | 0 <= j < |routes| :: !RouteAccepts(routes[j], req)
  {
    if routes == [] then None
    else if RouteAccepts(routes[0], req) then Some(0)
    else match FindRoute(routes[1..], req)
      case None => None
      case Some(i) => Some(i + 1)
  }

  /** `routes.find(route => route.path.source === source)`. */
  function FindBySource(routes: seq<Route>, source: string): (r: Option<nat>)
    ensures r.Some? ==> r.value < |routes| && routes[r.value].path.source == source
    ensures r.Some? ==> forall j | 0 <= j < r.value :: routes[j].path.source != source
    ensures r.None? ==> forall j | 0 <= j < |routes| :: routes[j].path.source != source
  {
    if routes == [] then None
    else if routes[0].path.source == source then Some(0)
    else match FindBySource(routes[1..], source)
      case None => None
      case Some(i) => Some(i + 1)
  }

  /** The routes after `useOn(path, m)`. */
  function AttachMiddleware(routes: seq<Route>, path: string, m: Middleware): seq<Route>
  {
    match FindBySource(routes, "^" + path + "$")
    case None => routes
    case Some(i) => routes[i := routes[i].(middlewares := routes[i].middlewares + [m])]
  }

  /** `ctx.params` for a matched route. */
  function RouteParams(r: Route, pathname: string): map<string, string>
    requires WellCompiled(r.path)
  {
    match Captures(r.path.pattern, pathname)
    case None => map[]
    case Some(cs) => ZipParams(r.path.params, cs)
  }

  // ---------------------------------------------------------------------
  // Request handling, as a function of the registered state

  datatype ChainResult = Continue(ctx: Ctx) | Stop(response: Response)

  /** Runs middlewares in order until one answers or throws. */
  function RunChain(mws: seq<Middleware>, req: Request, ctx: Ctx): ChainResult
  {
    if mws == [] then Continue(ctx)
    else match mws[0](req, ctx)
      case Next(c) => RunChain(mws[1..], req, c)
      case Answer(r) => Stop(r)
      case Raise(e) => Stop(HandleError(e))
  }

  function Invoke(h: HandlerRef, req: Request, ctx: Ctx): Response
  {
    match h
    case Ready(run) => ResponseOf(run(req, ctx))
    case Loader(load) =>
      match load(req, ctx)
      case LoadFailed(e) => HandleError(e)
      case LoadedHandler(run) => ResponseOf(run(req, ctx))
  }

  function ResponseOf(o: Outcome): Response
  {
    match o
    case Returned(r) => r
    case Raised(e) => HandleError(e)
  }

  /** Route-level half of `handleRequest`. */
  function Dispatch(r: Route, req: Request, ctx: Ctx): Response
    requires WellCompiled(r.path)
  {
    match RunChain(r.middlewares, req, ctx.(params := RouteParams(r, req.pathname)))
    case Stop(resp) => resp
    case Continue(c) => Invoke(r.handler, req, c)
  }

  ghost predicate AllWellCompiled(routes: seq<Route>) {
    forall i | 0 <= i < |routes| :: WellCompiled(routes[i].path)
  }

  /** `handleRequest`, as a function of the registered middlewares and routes. */
  function Handle(mws: seq<Middleware>, routes: seq<Route>, req: Request, ctx: Ctx): Response
    requires AllWellCompiled(routes)
  {
    match RunChain(mws, req, ctx)
    case Stop(r) => r
    case Continue(c) =>
      match FindRoute(routes, req)
      case None => NotFoundResponse
      case Some(i) => Dispatch(routes[i], req, c)
  }

  // ---------------------------------------------------------------------
  // Properties of request handling

  /** Running two chains one after the other is running their concatenation. */
  lemma {:induction false} RunChainAppend(a: seq<Middleware>, b: seq<Middleware>, req: Request, ctx: Ctx)
    ensures RunChain(a + b, req, ctx) ==
      match RunChain(a, req, ctx)
      case Stop(r) => Stop(r)
      case Continue(c) => RunChain(b, req, c)
    decreases |a|
  {
    if a != [] {
      assert (a + b)[0] == a[0] && (a + b)[1..] == a[1..] + b;
      match a[0](req, ctx) {
        case Next(c) =>
          RunChainAppend(a[1..], b, req, c);
        case Answer(_) =>
        case Raise(_) =>
      }
    } else {
      assert a + b == b;
    }
  }

  /** When the k-th global middleware is the first to answer, its response is
      the result, whatever middlewares follow it and whatever routes exist. */
  lemma GlobalShortCircuit(mws: seq<Middleware>, k: nat, req: Request, ctx: Ctx, c: Ctx, r: Response,
                           later: seq<Middleware>, routes: seq<Route>)
    requires k < |mws| && RunChain(mws[..k], req, ctx) == Continue(c) && mws[k](req, c) == Answer(r)
    requires AllWellCompiled(routes)
    ensures Handle(mws[..k + 1] + later, routes, req, ctx) == r
  {
    RunChainAppend(mws[..k], [mws[k]] + later, req, ctx);
    assert mws[..k + 1] + later == mws[..k] + ([mws[k]] + later);
  }

  /** A thrown global middleware error is mapped by `handleError`, and nothing
      after it runs. */
  lemma GlobalMiddlewareError(mws: seq<Middleware>, k: nat, req: Request, ctx: Ctx, c: Ctx, e: Thrown,
                              later: seq<Middleware>, routes: seq<Route>)
    requires k < |mws| && RunChain(mws[..k], req, ctx) == Continue(c) && mws[k](req, c) == Raise(e)
    requires AllWellCompiled(routes)
    ensures Handle(mws[..k + 1] + later, routes, req, ctx) == HandleError(e)
  {
    RunChainAppend(mws[..k], [mws[k]] + later, req, ctx);
    assert mws[..k + 1] + later == mws[..k] + ([mws[k]] + later);
  }

  /** With no route of the request's method whose pattern accepts the path,
      the answer is the 404 "Not Found" response, not an error. */
  lemma NoRouteIsNotFound(mws: seq<Middleware>, routes: seq<Route>, req: Request, ctx: Ctx, c: Ctx)
    requires AllWellCompiled(routes) && RunChain(mws, req, ctx) == Continue(c)
    requires forall j | 0 <= j < |routes| ::
      routes[j].httpMethod != req.httpMethod || !Matches(routes[j].path.pattern, req.pathname)
    ensures Handle(mws, routes, req, ctx) == NotFoundResponse
  {
    match FindRoute(routes, req)
    case None =>
    case Some(i) => CapturesIffMatches(routes[i].path.pattern, req.pathname);
  }

  /** The first route whose method and pattern accept the request handles it;
      routes registered after it are never consulted. */
  lemma FirstMatchWins(mws: seq<Middleware>, routes: seq<Route>, i: nat, req: Request, ctx: Ctx, c: Ctx,
                       later: seq<Route>)
    requires AllWellCompiled(routes) && AllWellCompiled(later) && i < |routes|
    requires RunChain(mws, req, ctx) == Continue(c)
    requires routes[i].httpMethod == req.httpMethod && Matches(routes[i].path.pattern, req.pathname)
    requires forall j | 0 <= j < i ::
      routes[j].httpMethod != req.httpMethod || !Matches(routes[j].path.pattern, req.pathname)
    ensures Handle(mws, routes, req, ctx) == Dispatch(routes[i], req, c)
    ensures Handle(mws, routes[..i + 1] + later, req, ctx) == Dispatch(routes[i], req, c)
  {
    CapturesIffMatches(routes[i].path.pattern, req.pathname);
    forall j | 0 <= j < i ensures !RouteAccepts(routes[j], req) {
      CapturesIffMatches(routes[j].path.pattern, req.pathname);
    }
    var all := routes[..i + 1] + later;
    assert AllWellCompiled(all);
    assert forall j | 0 <= j <= i :: all[j] == routes[j];
  }

  /** Route middlewares see the extracted parameters and run in order with
      the same short-circuit rule; what they leave in the context is what the
      handler receives. */
  lemma RouteMiddlewaresThenHandler(r: Route, req: Request, ctx: Ctx)
    requires WellCompiled(r.path)
    ensures RunChain(r.middlewares, req, ctx.(params := RouteParams(r, req.pathname))).Stop? ==>
      Dispatch(r, req, ctx) == RunChain(r.middlewares, req, ctx.(params := RouteParams(r, req.pathname))).response
    ensures RunChain(r.middlewares, req, ctx.(params := RouteParams(r, req.pathname))).Continue? ==>
      Dispatch(r, req, ctx) ==
        Invoke(r.handler, req, RunChain(r.middlewares, req, ctx.(params := RouteParams(r, req.pathname))).ctx)
  {
  }

  // ---------------------------------------------------------------------
  // The gateway object

  class ApiGateway {
    var middlewares: seq<Middleware>
    var routes: seq<Route>

    ghost predicate Valid()
      reads this
    {
      AllWellCompiled(routes)
    }

    constructor ()
      ensures Valid() && middlewares == [] && routes == []
    {
      middlewares := [];
      routes := [];
    }

    /** `use(middleware)`: appends to the global chain. */
    method Use(m: Middleware)
      requires Valid()
      modifies this
      ensures Valid()
      ensures middlewares == old(middlewares) + [m] && routes == old(routes)
    {
      middlewares := middlewares + [m];
    }

    /** `useOn(path, middleware)`: appends to the first route whose compiled
      source is `^path$`; otherwise nothing changes. */
    method UseOn(path: string, m: Middleware)
      requires Valid()
      modifies this
      ensures Valid()
      ensures middlewares == old(middlewares)
      ensures routes == AttachMiddleware(old(routes), path, m)
      ensures |routes| == |old(routes)|
      ensures forall j | 0 <= j < |routes| ::
        routes[j].path == old(routes)[j].path && routes[j].handler == old(routes)[j].handler
    {
      var found := FindBySource(routes, "^" + path + "$");
      if found.Some? {
        var i := found.value;
        routes := routes[i := routes[i].(middlewares := routes[i].middlewares + [m])];
      }
    }

    /** `on(method, path, handler)`. */
    method On(httpMethod: string, path: string, handler: RouteHandler)
      requires Valid()
      modifies this
      ensures Valid()
      ensures middlewares == old(middlewares)
      ensures routes == old(routes) + [Route(httpMethod, Compile(path), Ready(handler), [])]
    {
      routes := routes + [Route(httpMethod, Compile(path), Ready(handler), [])];
    }

    /** `onAsync(method, path, handlerLoader)`. */
    method OnAsync(httpMethod: string, path: string, loader: (Request, Ctx) -> Loaded)
      requires Valid()
      modifies this
      ensures Valid()
      ensures middlewares == old(middlewares)
      ensures routes == old(routes) + [Route(httpMethod, CompileLiteral(path), Loader(loader), [])]
    {
      routes := routes + [Route(httpMethod, CompileLiteral(path), Loader(loader), [])];
    }

    /** `extractParams(route, pathname)`, filling the record name by name. */
    method ExtractParams(route: Route, pathname: string) returns (params: map<string, string>)
      requires WellCompiled(route.path)
      ensures params == RouteParams(route, pathname)
      ensures Captures(route.path.pattern, pathname).Some? ==>
        forall i | 0 <= i < |route.path.params| ::
          route.path.params[i] in params &&
          ((forall j | i < j < |route.path.params| :: route.path.params[j] != route.path.params[i]) ==>
            params[route.path.params[i]] == Captures(route.path.pattern, pathname).value[i])
    {
      params := map[];
      var matches := Captures(route.path.pattern, pathname);
      if matches.Some? {
        var names := route.path.params;
        var caps := matches.value;
        var i := 0;
        while i < |names|
          invariant 0 <= i <= |names|
          invariant params == ZipParams(names[..i], caps[..i])
        {
          params := params[names[i] := caps[i]];
          i := i + 1;
          assert names[..i][..i - 1] == names[..i - 1];
          assert caps[..i][..i - 1] == caps[..i - 1];
        }
        assert names[..i] == names && caps[..i] == caps;
        forall k | 0 <= k < |names| && (forall j | k < j < |names| :: names[j] != names[k])
          ensures params[names[k]] == caps[k]
        {
          ZipParamsAt(names, caps, k);
        }
      }
    }

    /** `handleRequest(req, env, ctx)`. */
    method HandleRequest(req: Request, ctx: Ctx) returns (resp: Response)
      requires Valid()
      ensures resp == Handle(middlewares, routes, req, ctx)
    {
      var c := ctx;
      var i := 0;
      while i < |middlewares|
        invariant 0 <= i <= |middlewares|
        invariant RunChain(middlewares, req, ctx) == RunChain(middlewares[i..], req, c)
      {
        match middlewares[i](req, c) {
          case Answer(r) => return r;
          case Raise(e) => return HandleError(e);
          case Next(c') => c := c';
        }
        assert middlewares[i..][1..] == middlewares[i + 1..];
        i := i + 1;
      }
      var found := FindRoute(routes, req);
      if found.None? {
        return NotFoundResponse;
      }
      resp := HandleRoute(routes[found.value], req, c);
    }

    /** The part of `handleRequest` after a route has been found. */
    method HandleRoute(route: Route, req: Request, ctx: Ctx) returns (resp: Response)
      requires WellCompiled(route.path)
      ensures resp == Dispatch(route, req, ctx)
    {
      var params := ExtractParams(route, req.pathname);
      var c := ctx.(params := params);
      ghost var entry := c;
      var j := 0;
      while j < |route.middlewares|
        invariant 0 <= j <= |route.middlewares|
        invariant RunChain(route.middlewares, req, entry) == RunChain(route.middlewares[j..], req, c)
      {
        match route.middlewares[j](req, c) {
          case Answer(r) => return r;
          case Raise(e) => return HandleError(e);
          case Next(c') => c := c';
        }
        assert route.middlewares[j..][1..] == route.middlewares[j + 1..];
        j := j + 1;
      }
      var outcome: Outcome;
      match route.handler {
        case Ready(run) =>
          outcome := run(req, c);
        case Loader(load) =>
          match load(req, c) {
            case LoadFailed(e) => return HandleError(e);
            case LoadedHandler(run) => outcome := run(req, c);
          }
      }
      match outcome {
        case Returned(r) => resp := r;
        case Raised(e) => resp := HandleError(e);
      }
    }
  }
}
