/** An Express router as far as access control goes: a stack of layers built
    in registration order, where `use` layers (middleware) run for every
    request that reaches them and route layers answer the requests whose verb
    and path they match. Authentication and role gates are abstract: a
    request carries the principal the authentication gate would establish. */
module Routing {
  import opened Common
  import opened UserModel

  datatype Verb = Get | Post | Patch | Delete

  /** One segment of a route path: literal text, or a `:name` parameter. */
  datatype Segment = Lit(text: string) | Param(name: string)

  /** The middleware a router can `use`: CORS (lets everything through),
      the authentication gate, and the role gate. */
  datatype Middleware = Cors | Protect | RestrictTo(roles: set<Role>)

  datatype Layer<H> =
    | UseLayer(middleware: Middleware)
    | RouteLayer(pattern: seq<Segment>, endpoints: map<Verb, seq<H>>)

  /** A request: its verb and the segments of its path below the router's
      mount point ("/resetPassword/abc" is ["resetPassword", "abc"]). */
  datatype Request = Request(verb: Verb, path: seq<string>)

  /** Who the caller is once the authentication gate has looked at it. */
  datatype Principal = Anonymous | LoggedIn(role: Role)

  datatype Verdict = Allowed | Unauthenticated | Forbidden

  datatype Outcome<H> =
    | Served(handlers: seq<H>, params: map<string, string>)
    | Refused(verdict: Verdict)
    | NoRoute

  // ---------------------------------------------------------------------------
  // Path matching (case-insensitive, as Express routers are by default)

  function Lower(c: char): char
  {
    if 'A' <= c <= 'Z' then (c as int + 32) as char else c
  }

  function LowerStr(s: string): (r: string)
    ensures |r| == |s|
    ensures forall i :: 0 <= i < |s| ==> r[i] == Lower(s[i])
  {
    seq(|s|, i requires 0 <= i < |s| => Lower(s[i]))
  }

  /** A literal matches the same text up to ASCII case; a parameter matches
      any non-empty segment. */
  predicate SegmentMatches(pat: Segment, seg: string)
    ensures pat.Lit? ==> (SegmentMatches(pat, seg) <==>
      |seg| == |pat.text| && forall i :: 0 <= i < |seg| ==> Lower(seg[i]) == Lower(pat.text[i]))
  {
    match pat
    case Lit(text) => |seg| == |text| && LowerStr(seg) == LowerStr(text)
    case Param(_) => seg != ""
  }

  /** A pattern matches a path of as many segments, segment by segment. */
  predicate Matches(pattern: seq<Segment>, path: seq<string>)
    ensures Matches(pattern, path) ==> |pattern| == |path|
    decreases |pattern|
  {
    if pattern == [] then path == []
    else path != [] && SegmentMatches(pattern[0], path[0]) && Matches(pattern[1..], path[1..])
  }

  /** A layer answers a request when it is a route with an endpoint for the
      request's verb and a pattern that matches its path. */
  predicate Handles<H>(layer: Layer<H>, req: Request)
  {
    layer.RouteLayer? && req.verb in layer.endpoints && Matches(layer.pattern, req.path)
  }

  /** No parameter at or after position `i` of the pattern has this name. */
  predicate LastParamAt(pattern: seq<Segment>, i: nat)
    requires i < |pattern|
  {
    pattern[i].Param? &&
    forall j :: i < j < |pattern| && pattern[j].Param? ==> pattern[j].name != pattern[i].name
  }

  /** The route parameters a matching pattern binds. Parameters are written
      from left to right, so when a name repeats the last segment wins. */
  function Bind(pattern: seq<Segment>, path: seq<string>): (params: map<string, string>)
    requires |pattern| == |path|
    ensures forall i :: 0 <= i < |pattern| && pattern[i].Param? ==> pattern[i].name in params
    ensures forall k :: k in params ==> exists i :: 0 <= i < |pattern| && pattern[i] == Param(k)
    ensures forall i :: 0 <= i < |pattern| && LastParamAt(pattern, i) ==> params[pattern[i].name] == path[i]
    decreases |pattern|
  {
    if pattern == [] then map[]
    else
      var rest := Bind(pattern[1..], path[1..]);
      assert forall i :: 0 < i < |pattern| ==> pattern[1..][i - 1] == pattern[i] && path[1..][i - 1] == path[i];
      assert forall i :: 0 < i < |pattern| && LastParamAt(pattern, i) ==> LastParamAt(pattern[1..], i - 1);
      if pattern[0].Param? && pattern[0].name !in rest then rest[pattern[0].name := path[0]] else rest
  }

  /** The router object: `use` and `route` (with its `get`/`post`/... calls)
      append a layer to the stack. */
  class Router<H> {
    var stack: seq<Layer<H>>

    constructor ()
      ensures stack == []
    {
      stack := [];
    }

    method Use(m: Middleware)
      modifies this
      ensures stack == old(stack) + [UseLayer(m)]
    {
      stack := stack + [UseLayer(m)];
    }

    method Route(pattern: seq<Segment>, endpoints: map<Verb, seq<H>>)
      modifies this
      ensures stack == old(stack) + [RouteLayer(pattern, endpoints)]
    {
      stack := stack + [RouteLayer(pattern, endpoints)];
    }
  }

  // ---------------------------------------------------------------------------
  // Dispatch: walking the stack in registration order

  /** What a gate decides about a principal. The role gate, reached with no
      principal at all, refuses it as unauthenticated. */
  function GateVerdict(m: Middleware, p: Principal): (v: Verdict)
    ensures v == Allowed <==> m.Cors? || (p.LoggedIn? && (m.Protect? || p.role in m.roles))
    ensures v == Unauthenticated <==> !m.Cors? && p.Anonymous?
    ensures v == Forbidden <==> m.RestrictTo? && p.LoggedIn? && p.role !in m.roles
  {
    match m
    case Cors => Allowed
    case Protect => if p.Anonymous? then Unauthenticated else Allowed
    case RestrictTo(roles) =>
      if p.Anonymous? then Unauthenticated
      else if p.role in roles then Allowed
      else Forbidden
  }

  /** The router at work: each middleware met before the first matching route
      runs, and the first one that refuses ends the request; a request that no
      route answers falls out of the router after passing every gate. */
  function Dispatch<H>(stack: seq<Layer<H>>, req: Request, p: Principal): Outcome<H>
    decreases |stack|
  {
    if stack == [] then NoRoute
    else match stack[0]
      case UseLayer(m) =>
        if GateVerdict(m, p) == Allowed then Dispatch(stack[1..], req, p)
        else Refused(GateVerdict(m, p))
      case RouteLayer(pattern, endpoints) =>
        if Handles(stack[0], req) then Served(endpoints[req.verb], Bind(pattern, req.path))
        else Dispatch(stack[1..], req, p)
  }

  // ---------------------------------------------------------------------------
  // Access levels: the declarative view of the same stack

  datatype Level = Public | Authenticated | AdminOnly

  function Rank(l: Level): nat
  {
    match l
    case Public => 0
    case Authenticated => 1
    case AdminOnly => 2
  }

  function Max(a: Level, b: Level): (m: Level)
    ensures Rank(m) >= Rank(a) && Rank(m) >= Rank(b)
    ensures m == a || m == b
  {
    if Rank(a) >= Rank(b) then a else b
  }

  /** The level a layer adds: `protect` demands a principal, the role gate an
      admin one; CORS and routes demand nothing. */
  function LayerLevel<H>(layer: Layer<H>): Level
  {
    match layer
    case UseLayer(Protect) => Authenticated
    case UseLayer(RestrictTo(_)) => AdminOnly
    case _ => Public
  }

  /** The level a request reaching layer `i` has passed: the strongest level
      among the layers registered before `i`. */
  function RequiredLevel<H>(stack: seq<Layer<H>>, i: nat): Level
    requires i <= |stack|
    decreases i
  {
    if i == 0 then Public else Max(RequiredLevel(stack, i - 1), LayerLevel(stack[i - 1]))
  }

  /** What a level decides about a principal. */
  function Authorize(level: Level, p: Principal): (v: Verdict)
    ensures v == Allowed <==> level == Public || (p.LoggedIn? && (level == Authenticated || p.role == Admin))
    ensures v == Unauthenticated <==> level != Public && p.Anonymous?
    ensures v == Forbidden <==> level == AdminOnly && p.LoggedIn? && p.role != Admin
  {
    match level
    case Public => Allowed
    case Authenticated => if p.Anonymous? then Unauthenticated else Allowed
    case AdminOnly =>
      if p.Anonymous? then Unauthenticated
      else if p.role == Admin then Allowed
      else Forbidden
  }

  /** The first route layer that answers the request, if any. */
  function FirstRoute<H>(stack: seq<Layer<H>>, req: Request): (r: Option<nat>)
    ensures r.Some? ==> r.value < |stack| && Handles(stack[r.value], req)
    ensures r.Some? ==> forall j :: 0 <= j < r.value ==> !Handles(stack[j], req)
    ensures r.None? ==> forall j :: 0 <= j < |stack| ==> !Handles(stack[j], req)
    decreases |stack|
  {
    if stack == [] then None
    else if Handles(stack[0], req) then Some(0)
    else match FirstRoute(stack[1..], req)
      case None => None
      case Some(i) => Some(i + 1)
  }

  /** Every role gate in the stack admits exactly the admin role. */
  predicate AdminGatesOnly<H>(stack: seq<Layer<H>>)
  {
    forall i :: 0 <= i < |stack| && stack[i].UseLayer? && stack[i].middleware.RestrictTo? ==>
      stack[i].middleware.roles == {Admin}
  }

  /** `outcome` if the level admits the principal, the refusal otherwise. */
  function Admit<H>(level: Level, p: Principal, outcome: Outcome<H>): Outcome<H>
  {
    var v := Authorize(level, p);
    if v == Allowed then outcome else Refused(v)
  }

  /** The access decision read off the table: the first matching route, and
      the level of the gates registered before it. */
  function Decide<H>(stack: seq<Layer<H>>, req: Request, p: Principal): (r: Outcome<H>)
    ensures r.NoRoute? ==> Unanswered(stack, req)
    ensures r.Served? ==> !Unanswered(stack, req)
    ensures p.LoggedIn? && p.role == Admin ==> !r.Refused?
    ensures r.Refused? && r.verdict == Forbidden ==> p.LoggedIn? && RequiredLevel(stack, |stack|) == AdminOnly
  {
    LevelIsStrongestGate(stack, |stack|);
    match FirstRoute(stack, req)
    case Some(i) =>
      LevelIsStrongestGate(stack, i);
      Admit(RequiredLevel(stack, i), p, Served(stack[i].endpoints[req.verb], Bind(stack[i].pattern, req.path)))
    case None =>
      Admit(RequiredLevel(stack, |stack|), p, NoRoute)
  }

  // ---------------------------------------------------------------------------
  // Lemmas

  /** Passing one admin-only-or-weaker gate and then a level is the same as
      passing the stronger of the two. */
  lemma GateThenLevel(m: Middleware, l: Level, p: Principal)
    requires m.RestrictTo? ==> m.roles == {Admin}
    ensures Authorize(Max(LayerLevel<int>(UseLayer(m)), l), p)
         == if GateVerdict(m, p) == Allowed then Authorize(l, p) else GateVerdict(m, p)
  {
  }

  /** The level before layer `i + 1` is the first layer's level combined with
      the level of the rest of the stack before `i`. */
  lemma {:induction false} RequiredLevelOfTail<H>(stack: seq<Layer<H>>, i: nat)
    requires i < |stack|
    ensures RequiredLevel(stack, i + 1) == Max(LayerLevel(stack[0]), RequiredLevel(stack[1..], i))
    decreases i
  {
    if i > 0 {
      RequiredLevelOfTail(stack, i - 1);
      assert stack[1..][i - 1] == stack[i];
    }
  }

  /** Walking the stack decides exactly what the level table says. */
  lemma {:induction false} DispatchFollowsLevels<H>(stack: seq<Layer<H>>, req: Request, p: Principal)
    requires AdminGatesOnly(stack)
    ensures Dispatch(stack, req, p) == Decide(stack, req, p)
    decreases |stack|
  {
    if stack != [] {
      var tail := stack[1..];
      assert AdminGatesOnly(tail) by {
        forall i | 0 <= i < |tail| && tail[i].UseLayer? && tail[i].middleware.RestrictTo?
          ensures tail[i].middleware.roles == {Admin}
        {
          assert tail[i] == stack[i + 1];
        }
      }
      DispatchFollowsLevels(tail, req, p);
      if !Handles(stack[0], req) {
        var i := match FirstRoute(tail, req) case Some(k) => k case None => |tail|;
        RequiredLevelOfTail(stack, i);
        if stack[0].UseLayer? {
          GateThenLevel(stack[0].middleware, RequiredLevel(tail, i), p);
        }
      }
    }
  }

  /** Gates only accumulate: the level never drops along registration order. */
  lemma {:induction false} LevelsNeverDecrease<H>(stack: seq<Layer<H>>, i: nat, j: nat)
    requires i <= j <= |stack|
    ensures Rank(RequiredLevel(stack, i)) <= Rank(RequiredLevel(stack, j))
    decreases j
  {
    if i < j {
      LevelsNeverDecrease(stack, i, j - 1);
    }
  }

  /** A request that reaches route `i` without an earlier route answering it
      is decided by the level of the gates before `i`. */
  lemma DecidedAt<H>(stack: seq<Layer<H>>, req: Request, p: Principal, i: nat)
    requires AdminGatesOnly(stack)
    requires i < |stack| && Handles(stack[i], req)
    requires forall j :: 0 <= j < i ==> !Handles(stack[j], req)
    ensures Dispatch(stack, req, p)
         == Admit(RequiredLevel(stack, i), p, Served(stack[i].endpoints[req.verb], Bind(stack[i].pattern, req.path)))
  {
    DispatchFollowsLevels(stack, req, p);
    assert FirstRoute(stack, req) == Some(i);
  }

  /** A request that no route answers is decided by every gate in the stack. */
  lemma DecidedNowhere<H>(stack: seq<Layer<H>>, req: Request, p: Principal)
    requires AdminGatesOnly(stack)
    requires forall j :: 0 <= j < |stack| ==> !Handles(stack[j], req)
    ensures Dispatch(stack, req, p) == Admit(RequiredLevel(stack, |stack|), p, NoRoute)
  {
    DispatchFollowsLevels(stack, req, p);
  }

  /** No route among `layers` answers the request. */
  predicate Unanswered<H>(layers: seq<Layer<H>>, req: Request)
  {
    forall j :: 0 <= j < |layers| ==> !Handles(layers[j], req)
  }

  lemma UnansweredAppend<H>(a: seq<Layer<H>>, b: seq<Layer<H>>, req: Request)
    requires Unanswered(a, req) && Unanswered(b, req)
    ensures Unanswered(a + b, req)
  {
    forall j | 0 <= j < |a + b|
      ensures !Handles((a + b)[j], req)
    {
      if j >= |a| {
        assert (a + b)[j] == b[j - |a|];
      }
    }
  }

  lemma AdminGatesOnlyAppend<H>(a: seq<Layer<H>>, b: seq<Layer<H>>)
    requires AdminGatesOnly(a + b)
    ensures AdminGatesOnly(a) && AdminGatesOnly(b)
  {
    forall i | 0 <= i < |b| && b[i].UseLayer? && b[i].middleware.RestrictTo?
      ensures b[i].middleware.roles == {Admin}
    {
      assert (a + b)[|a| + i] == b[i];
    }
    forall i | 0 <= i < |a| && a[i].UseLayer? && a[i].middleware.RestrictTo?
      ensures a[i].middleware.roles == {Admin}
    {
      assert (a + b)[i] == a[i];
    }
  }

  /** A request that no route of `a` answers passes `a`'s gates (or is refused
      by them) and goes on to `b`. */
  lemma {:induction false} DispatchPastUnanswered<H>(a: seq<Layer<H>>, b: seq<Layer<H>>, req: Request, p: Principal)
    requires AdminGatesOnly(a) && Unanswered(a, req)
    ensures Dispatch(a + b, req, p) == Admit(RequiredLevel(a, |a|), p, Dispatch(b, req, p))
    decreases |a|
  {
    if a == [] {
      assert a + b == b;
    } else {
      var tail := a[1..];
      assert (a + b)[1..] == tail + b;
      AdminGatesOnlyAppend(a[..1], tail);
      assert a[..1] + tail == a;
      DispatchPastUnanswered(tail, b, req, p);
      RequiredLevelOfTail(a, |a| - 1);
      if a[0].UseLayer? {
        GateThenLevel(a[0].middleware, RequiredLevel(tail, |tail|), p);
      }
    }
  }

  /** A request that some route of `a` answers never gets past `a`. */
  lemma {:induction false} DispatchWithinPrefix<H>(a: seq<Layer<H>>, b: seq<Layer<H>>, req: Request, p: Principal)
    requires !Unanswered(a, req)
    ensures Dispatch(a + b, req, p) == Dispatch(a, req, p)
    decreases |a|
  {
    assert (a + b)[0] == a[0];
    if !Handles(a[0], req) {
      assert (a + b)[1..] == a[1..] + b;
      var j :| 0 <= j < |a| && Handles(a[j], req);
      assert a[1..][j - 1] == a[j];
      DispatchWithinPrefix(a[1..], b, req, p);
    }
  }

  /** The level after `a + b` is the stronger of the levels after each. */
  lemma {:induction false} RequiredLevelAppend<H>(a: seq<Layer<H>>, b: seq<Layer<H>>, k: nat)
    requires k <= |b|
    ensures RequiredLevel(a + b, |a| + k) == Max(RequiredLevel(a, |a|), RequiredLevel(b, k))
    decreases k
  {
    if k == 0 {
      assert (a + b)[..|a|] == a;
      PrefixLevel(a + b, a, |a|);
    } else {
      RequiredLevelAppend(a, b, k - 1);
      assert (a + b)[|a| + k - 1] == b[k - 1];
    }
  }

  /** The level at `i` depends only on the layers before `i`. */
  lemma {:induction false} PrefixLevel<H>(s: seq<Layer<H>>, t: seq<Layer<H>>, i: nat)
    requires i <= |s| && i <= |t| && s[..i] == t[..i]
    ensures RequiredLevel(s, i) == RequiredLevel(t, i)
    decreases i
  {
    if i > 0 {
      assert s[i - 1] == s[..i][i - 1] == t[..i][i - 1] == t[i - 1];
      assert s[..i - 1] == s[..i][..i - 1];
      assert t[..i - 1] == t[..i][..i - 1];
      PrefixLevel(s, t, i - 1);
    }
  }

  /** A run of route layers adds no gate. */
  lemma {:induction false} RoutesArePublic<H>(routes: seq<Layer<H>>, i: nat)
    requires i <= |routes|
    requires forall j :: 0 <= j < |routes| ==> routes[j].RouteLayer?
    ensures RequiredLevel(routes, i) == Public
    decreases i
  {
    if i > 0 {
      RoutesArePublic(routes, i - 1);
    }
  }

  /** A router built as gates `pre`, then a run of routes, then anything: a
      request that nothing in `pre` answers and that route `k` of the run is
      the first to answer is decided by `pre`'s level and served by route `k`. */
  lemma DispatchSection<H>(pre: seq<Layer<H>>, routes: seq<Layer<H>>, post: seq<Layer<H>>,
                           req: Request, p: Principal, k: nat)
    requires AdminGatesOnly(pre) && Unanswered(pre, req)
    requires forall j :: 0 <= j < |routes| ==> routes[j].RouteLayer?
    requires k < |routes| && Handles(routes[k], req) && Unanswered(routes[..k], req)
    ensures Dispatch(pre + routes + post, req, p)
         == Admit(RequiredLevel(pre, |pre|), p,
                  Served(routes[k].endpoints[req.verb], Bind(routes[k].pattern, req.path)))
  {
    assert pre + routes + post == pre + (routes + post);
    DispatchPastUnanswered(pre, routes + post, req, p);
    assert !Unanswered(routes, req) by {
      assert Handles(routes[k], req);
    }
    DispatchWithinPrefix(routes, post, req, p);
    var before := routes[..k];
    assert routes == before + routes[k..];
    assert AdminGatesOnly(before) by {
      forall j | 0 <= j < |before| ensures !before[j].UseLayer? {
        assert before[j] == routes[j];
      }
    }
    DispatchPastUnanswered(before, routes[k..], req, p);
    assert forall j :: 0 <= j < |before| ==> before[j].RouteLayer?;
    RoutesArePublic(before, |before|);
    assert routes[k..][0] == routes[k];
  }

  /** A parameter name that repeats in a pattern takes the later segment. */
  lemma RepeatedParamTakesLast(first: string, second: string)
    ensures Bind([Param("a"), Param("a")], [first, second]) == map["a" := second]
  {
    assert LastParamAt([Param("a"), Param("a")], 1);
  }

  /** Matching does not depend on the letter case of the request path. */
  lemma {:induction false} MatchIgnoresCase(pattern: seq<Segment>, path: seq<string>, other: seq<string>)
    requires |path| == |other|
    requires forall i :: 0 <= i < |path| ==> LowerStr(path[i]) == LowerStr(other[i])
    ensures Matches(pattern, path) <==> Matches(pattern, other)
  {
    forall i | 0 <= i < |pattern| && i < |path|
      ensures SegmentMatches(pattern[i], path[i]) <==> SegmentMatches(pattern[i], other[i])
    {
      assert |LowerStr(path[i])| == |LowerStr(other[i])|;
      if pattern[i].Param? && path[i] == "" {
        assert LowerStr(other[i]) == [];
      }
      if pattern[i].Param? && other[i] == "" {
        assert LowerStr(path[i]) == [];
      }
    }
    MatchesSegmentwise(pattern, path);
    MatchesSegmentwise(pattern, other);
  }

  /** The level before layer `i` is the strongest level of the layers before
      `i`: no earlier layer demands more, and some earlier layer demands it
      unless it is public. */
  lemma {:induction false} LevelIsStrongestGate<H>(stack: seq<Layer<H>>, i: nat)
    requires i <= |stack|
    ensures forall j :: 0 <= j < i ==> Rank(LayerLevel(stack[j])) <= Rank(RequiredLevel(stack, i))
    ensures RequiredLevel(stack, i) == Public || exists j :: 0 <= j < i && LayerLevel(stack[j]) == RequiredLevel(stack, i)
    decreases i
  {
    if i > 0 {
      LevelIsStrongestGate(stack, i - 1);
    }
  }

  /** What walking the stack can end in: falling out of the router means no
      route answered, being served means one did, and a refusal carries the
      refusing gate's verdict. */
  lemma {:induction false} DispatchOutcomes<H>(stack: seq<Layer<H>>, req: Request, p: Principal)
    ensures Dispatch(stack, req, p).NoRoute? ==> Unanswered(stack, req)
    ensures Dispatch(stack, req, p).Served? ==> !Unanswered(stack, req)
    ensures Dispatch(stack, req, p).Refused? ==> Dispatch(stack, req, p).verdict != Allowed
    decreases |stack|
  {
    if stack != [] {
      DispatchOutcomes(stack[1..], req, p);
      assert forall j :: 0 < j < |stack| ==> stack[1..][j - 1] == stack[j];
    }
  }

  /** A pattern matches a path exactly when both have as many segments and
      each segment matches its pattern segment. */
  lemma {:induction false} MatchesSegmentwise(pattern: seq<Segment>, path: seq<string>)
    ensures Matches(pattern, path) <==>
      |pattern| == |path| && forall i :: 0 <= i < |pattern| ==> SegmentMatches(pattern[i], path[i])
    decreases |pattern|
  {
    if pattern != [] && path != [] {
      MatchesSegmentwise(pattern[1..], path[1..]);
      assert forall i :: 0 < i < |pattern| && 0 < i < |path| ==>
        pattern[1..][i - 1] == pattern[i] && path[1..][i - 1] == path[i];
    }
  }
}
