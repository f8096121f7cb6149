/** The user router: public account routes, then the authentication gate,
    then the caller's own-account routes, then the admin gate and the
    user-administration routes. */
module UserRoutes {
  import opened Common
  import opened UserModel
  import opened Routing

  /** The handlers the user router mounts. */
  datatype Handler =
    | SignUp | Login | Logout | ForgotPassword | ResetPassword
    | UpdatePassword | GetMe | GetUser | UpdateMe | DeleteMe | AddDrink | RemoveDrink
    | GetAllUsers | CreateUser | UpdateUser | DeleteUser

  /** The routes registered before `protect`. */
  const PUBLIC_ROUTES: seq<Layer<Handler>> := [
    RouteLayer([Lit("signup")], map[Post := [SignUp]]),
    RouteLayer([Lit("login")], map[Post := [Login]]),
    RouteLayer([Lit("logout")], map[Post := [Logout]]),
    RouteLayer([Lit("forgotPassword")], map[Post := [ForgotPassword]]),
    RouteLayer([Lit("resetPassword"), Param("token")], map[Patch := [ResetPassword]])
  ]

  /** The routes registered between `protect` and `restrictTo('admin')`. */
  const ACCOUNT_ROUTES: seq<Layer<Handler>> := [
    RouteLayer([Lit("updateMyPassword")], map[Patch := [UpdatePassword]]),
    RouteLayer([Lit("me")], map[Get := [GetMe, GetUser]]),
    RouteLayer([Lit("updateMe")], map[Patch := [UpdateMe]]),
    RouteLayer([Lit("deleteMe")], map[Delete := [DeleteMe]]),
    RouteLayer([Lit("addDrink"), Param("id")], map[Patch := [AddDrink]]),
    RouteLayer([Lit("removeDrink"), Param("id")], map[Patch := [RemoveDrink]])
  ]

  /** The routes registered after `restrictTo('admin')`. */
  const ADMIN_ROUTES: seq<Layer<Handler>> := [
    RouteLayer([], map[Get := [GetAllUsers], Post := [CreateUser]]),
    RouteLayer([Param("id")], map[Get := [GetUser], Patch := [UpdateUser], Delete := [DeleteUser]])
  ]

  const BEFORE_ACCOUNT: seq<Layer<Handler>> := [UseLayer(Cors)] + PUBLIC_ROUTES + [UseLayer(Protect)]
  const BEFORE_ADMIN: seq<Layer<Handler>> := BEFORE_ACCOUNT + ACCOUNT_ROUTES + [UseLayer(RestrictTo({Admin}))]

  /** The whole stack, in registration order. */
  const USER_STACK: seq<Layer<Handler>> := BEFORE_ADMIN + ADMIN_ROUTES

  /** Builds the router by the same successive calls as the route file. */
  method BuildUserRouter() returns (router: Router<Handler>)
    ensures fresh(router)
    ensures router.stack == USER_STACK
  {
    router := new Router();
    router.Use(Cors);
    MountPublicRoutes(router);
    router.Use(Protect);
    MountAccountRoutes(router);
    router.Use(RestrictTo({Admin}));
    MountAdminRoutes(router);
  }

  method MountPublicRoutes(router: Router<Handler>)
    modifies router
    ensures router.stack == old(router.stack) + PUBLIC_ROUTES
  {
    router.Route([Lit("signup")], map[Post := [SignUp]]);
    router.Route([Lit("login")], map[Post := [Login]]);
    router.Route([Lit("logout")], map[Post := [Logout]]);
    router.Route([Lit("forgotPassword")], map[Post := [ForgotPassword]]);
    router.Route([Lit("resetPassword"), Param("token")], map[Patch := [ResetPassword]]);
  }

  method MountAccountRoutes(router: Router<Handler>)
    modifies router
    ensures router.stack == old(router.stack) + ACCOUNT_ROUTES
  {
    router.Route([Lit("updateMyPassword")], map[Patch := [UpdatePassword]]);
    router.Route([Lit("me")], map[Get := [GetMe, GetUser]]);
    router.Route([Lit("updateMe")], map[Patch := [UpdateMe]]);
    router.Route([Lit("deleteMe")], map[Delete := [DeleteMe]]);
    router.Route([Lit("addDrink"), Param("id")], map[Patch := [AddDrink]]);
    router.Route([Lit("removeDrink"), Param("id")], map[Patch := [RemoveDrink]]);
  }

  method MountAdminRoutes(router: Router<Handler>)
    modifies router
    ensures router.stack == old(router.stack) + ADMIN_ROUTES
  {
    router.Route([], map[Get := [GetAllUsers], Post := [CreateUser]]);
    router.Route([Param("id")], map[Get := [GetUser], Patch := [UpdateUser], Delete := [DeleteUser]]);
  }

  // ---------------------------------------------------------------------------
  // The gates of each section

  /** The only role gate on the stack admits admins. */
  lemma UserStackAdminGatesOnly()
    ensures AdminGatesOnly(USER_STACK)
    ensures AdminGatesOnly(BEFORE_ADMIN) && AdminGatesOnly(BEFORE_ACCOUNT)
  {
    assert AdminGatesOnly(USER_STACK);
    AdminGatesOnlyAppend(BEFORE_ADMIN, ADMIN_ROUTES);
    assert BEFORE_ADMIN == BEFORE_ACCOUNT + (ACCOUNT_ROUTES + [UseLayer(RestrictTo({Admin}))]);
    AdminGatesOnlyAppend(BEFORE_ACCOUNT, ACCOUNT_ROUTES + [UseLayer(RestrictTo({Admin}))]);
  }

  /** The public routes sit behind no gate and the account routes behind
      `protect`. */
  lemma AccountSectionLevel()
    ensures RequiredLevel(BEFORE_ACCOUNT, |BEFORE_ACCOUNT|) == Authenticated
  {
    var cors: seq<Layer<Handler>> := [UseLayer(Cors)];
    RoutesArePublic(PUBLIC_ROUTES, |PUBLIC_ROUTES|);
    RequiredLevelAppend(cors, PUBLIC_ROUTES, |PUBLIC_ROUTES|);
    RequiredLevelAppend(cors + PUBLIC_ROUTES, [UseLayer(Protect)], 1);
  }

  /** The administration routes sit behind `protect` and the admin gate, and
      so does whatever falls out of the router. */
  lemma SectionLevels()
    ensures RequiredLevel(BEFORE_ACCOUNT, |BEFORE_ACCOUNT|) == Authenticated
    ensures RequiredLevel(BEFORE_ADMIN, |BEFORE_ADMIN|) == AdminOnly
    ensures RequiredLevel(USER_STACK, |USER_STACK|) == AdminOnly
  {
    AccountSectionLevel();
    RoutesArePublic(ACCOUNT_ROUTES, |ACCOUNT_ROUTES|);
    RequiredLevelAppend(BEFORE_ACCOUNT, ACCOUNT_ROUTES, |ACCOUNT_ROUTES|);
    RequiredLevelAppend(BEFORE_ACCOUNT + ACCOUNT_ROUTES, [UseLayer(RestrictTo({Admin}))], 1);
    RoutesArePublic(ADMIN_ROUTES, |ADMIN_ROUTES|);
    RequiredLevelAppend(BEFORE_ADMIN, ADMIN_ROUTES, |ADMIN_ROUTES|);
  }

  /** Gates only accumulate: every layer registered after `protect` is behind
      it, and every layer registered after the admin gate is admin-only. */
  lemma GatesAccumulate(i: nat)
    requires i <= |USER_STACK|
    ensures |BEFORE_ACCOUNT| <= i ==> Rank(RequiredLevel(USER_STACK, i)) >= Rank(Authenticated)
    ensures |BEFORE_ADMIN| <= i ==> RequiredLevel(USER_STACK, i) == AdminOnly
  {
    SectionLevels();
    var n := |BEFORE_ACCOUNT|;
    assert USER_STACK[..n] == BEFORE_ACCOUNT[..n] by {
      assert USER_STACK == BEFORE_ACCOUNT + (ACCOUNT_ROUTES + [UseLayer(RestrictTo({Admin}))] + ADMIN_ROUTES);
    }
    PrefixLevel(USER_STACK, BEFORE_ACCOUNT, n);
    var m := |BEFORE_ADMIN|;
    assert USER_STACK[..m] == BEFORE_ADMIN[..m];
    PrefixLevel(USER_STACK, BEFORE_ADMIN, m);
    if n <= i {
      LevelsNeverDecrease(USER_STACK, n, i);
    }
    if m <= i {
      LevelsNeverDecrease(USER_STACK, m, i);
    }
  }

  // ---------------------------------------------------------------------------
  // Dispatch, section by section

  /** A request answered first by public route `k` is served to anyone. */
  lemma ServedPublicly(req: Request, p: Principal, k: nat)
    requires k < |PUBLIC_ROUTES| && Handles(PUBLIC_ROUTES[k], req) && Unanswered(PUBLIC_ROUTES[..k], req)
    ensures Dispatch(USER_STACK, req, p)
         == Served(PUBLIC_ROUTES[k].endpoints[req.verb], Bind(PUBLIC_ROUTES[k].pattern, req.path))
  {
    var cors: seq<Layer<Handler>> := [UseLayer(Cors)];
    var post := [UseLayer(Protect)] + ACCOUNT_ROUTES + [UseLayer(RestrictTo({Admin}))] + ADMIN_ROUTES;
    assert USER_STACK == cors + PUBLIC_ROUTES + post;
    DispatchSection(cors, PUBLIC_ROUTES, post, req, p, k);
  }

  /** A request that no public route answers and that account route `k`
      answers first is served to any logged-in caller. */
  lemma ServedToMembers(req: Request, p: Principal, k: nat)
    requires Unanswered(PUBLIC_ROUTES, req)
    requires k < |ACCOUNT_ROUTES| && Handles(ACCOUNT_ROUTES[k], req) && Unanswered(ACCOUNT_ROUTES[..k], req)
    ensures Dispatch(USER_STACK, req, p)
         == Admit(Authenticated, p, Served(ACCOUNT_ROUTES[k].endpoints[req.verb], Bind(ACCOUNT_ROUTES[k].pattern, req.path)))
  {
    var post := [UseLayer(RestrictTo({Admin}))] + ADMIN_ROUTES;
    assert USER_STACK == BEFORE_ACCOUNT + ACCOUNT_ROUTES + post;
    UserStackAdminGatesOnly();
    SectionLevels();
    UnansweredAppend([UseLayer(Cors)], PUBLIC_ROUTES, req);
    UnansweredAppend([UseLayer(Cors)] + PUBLIC_ROUTES, [UseLayer(Protect)], req);
    DispatchSection(BEFORE_ACCOUNT, ACCOUNT_ROUTES, post, req, p, k);
  }

  /** A request that no public or account route answers and that
      administration route `k` answers first is served to admins only. */
  lemma ServedToAdmins(req: Request, p: Principal, k: nat)
    requires Unanswered(PUBLIC_ROUTES, req) && Unanswered(ACCOUNT_ROUTES, req)
    requires k < |ADMIN_ROUTES| && Handles(ADMIN_ROUTES[k], req) && Unanswered(ADMIN_ROUTES[..k], req)
    ensures Dispatch(USER_STACK, req, p)
         == Admit(AdminOnly, p, Served(ADMIN_ROUTES[k].endpoints[req.verb], Bind(ADMIN_ROUTES[k].pattern, req.path)))
  {
    assert USER_STACK == BEFORE_ADMIN + ADMIN_ROUTES + [];
    UserStackAdminGatesOnly();
    SectionLevels();
    UnansweredAppend([UseLayer(Cors)], PUBLIC_ROUTES, req);
    UnansweredAppend([UseLayer(Cors)] + PUBLIC_ROUTES, [UseLayer(Protect)], req);
    UnansweredAppend(BEFORE_ACCOUNT, ACCOUNT_ROUTES, req);
    UnansweredAppend(BEFORE_ACCOUNT + ACCOUNT_ROUTES, [UseLayer(RestrictTo({Admin}))], req);
    DispatchSection(BEFORE_ADMIN, ADMIN_ROUTES, [], req, p, k);
  }

  // ---------------------------------------------------------------------------
  // The routes, one by one

  lemma SignUpIsPublic(p: Principal)
    ensures Dispatch(USER_STACK, Request(Post, ["signup"]), p) == Served([SignUp], map[])
  {
    ServedPublicly(Request(Post, ["signup"]), p, 0);
  }

  lemma LoginIsPublic(p: Principal)
    ensures Dispatch(USER_STACK, Request(Post, ["login"]), p) == Served([Login], map[])
  {
    ServedPublicly(Request(Post, ["login"]), p, 1);
  }

  lemma LogoutIsPublic(p: Principal)
    ensures Dispatch(USER_STACK, Request(Post, ["logout"]), p) == Served([Logout], map[])
  {
    assert LowerStr("logout")[0] != LowerStr("signup")[0];
    ServedPublicly(Request(Post, ["logout"]), p, 2);
  }

  lemma ForgotPasswordIsPublic(p: Principal)
    ensures Dispatch(USER_STACK, Request(Post, ["forgotPassword"]), p) == Served([ForgotPassword], map[])
  {
    ServedPublicly(Request(Post, ["forgotPassword"]), p, 3);
  }

  lemma ResetPasswordIsPublic(p: Principal, token: string)
    requires token != ""
    ensures Dispatch(USER_STACK, Request(Patch, ["resetPassword", token]), p)
         == Served([ResetPassword], map["token" := token])
  {
    var req := Request(Patch, ["resetPassword", token]);
    assert Bind(PUBLIC_ROUTES[4].pattern, req.path) == map["token" := token];
    ServedPublicly(req, p, 4);
  }

  /** Outside POST, the only public route is the two-segment reset link. */
  lemma PublicRoutesAnswerOnly(req: Request)
    requires req.verb == Post ==> |req.path| != 1
    requires req.verb == Patch ==> |req.path| != 2 || !SegmentMatches(Lit("resetPassword"), req.path[0])
    ensures Unanswered(PUBLIC_ROUTES, req)
  {
  }

  lemma UpdateMyPasswordNeedsLogin(p: Principal)
    ensures Dispatch(USER_STACK, Request(Patch, ["updateMyPassword"]), p)
         == if p.Anonymous? then Refused(Unauthenticated) else Served([UpdatePassword], map[])
  {
    var req := Request(Patch, ["updateMyPassword"]);
    PublicRoutesAnswerOnly(req);
    ServedToMembers(req, p, 0);
  }

  /** `/me`, in any letter case, runs the handler that copies the caller's id
      into the route parameters and then the handler that reads one user. */
  lemma MeNeedsLogin(p: Principal, seg: string)
    requires LowerStr(seg) == "me"
    ensures Dispatch(USER_STACK, Request(Get, [seg]), p)
         == if p.Anonymous? then Refused(Unauthenticated) else Served([GetMe, GetUser], map[])
  {
    var req := Request(Get, [seg]);
    PublicRoutesAnswerOnly(req);
    assert LowerStr("me") == "me";
    ServedToMembers(req, p, 1);
  }

  lemma UpdateMeNeedsLogin(p: Principal)
    ensures Dispatch(USER_STACK, Request(Patch, ["updateMe"]), p)
         == if p.Anonymous? then Refused(Unauthenticated) else Served([UpdateMe], map[])
  {
    var req := Request(Patch, ["updateMe"]);
    PublicRoutesAnswerOnly(req);
    ServedToMembers(req, p, 2);
  }

  lemma DeleteMeNeedsLogin(p: Principal)
    ensures Dispatch(USER_STACK, Request(Delete, ["deleteMe"]), p)
         == if p.Anonymous? then Refused(Unauthenticated) else Served([DeleteMe], map[])
  {
    var req := Request(Delete, ["deleteMe"]);
    PublicRoutesAnswerOnly(req);
    ServedToMembers(req, p, 3);
  }

  lemma AddDrinkNeedsLogin(p: Principal, id: string)
    requires id != ""
    ensures Dispatch(USER_STACK, Request(Patch, ["addDrink", id]), p)
         == if p.Anonymous? then Refused(Unauthenticated) else Served([AddDrink], map["id" := id])
  {
    var req := Request(Patch, ["addDrink", id]);
    assert !SegmentMatches(Lit("resetPassword"), req.path[0]);
    PublicRoutesAnswerOnly(req);
    assert Bind(ACCOUNT_ROUTES[4].pattern, req.path) == map["id" := id];
    ServedToMembers(req, p, 4);
  }

  lemma RemoveDrinkNeedsLogin(p: Principal, id: string)
    requires id != ""
    ensures Dispatch(USER_STACK, Request(Patch, ["removeDrink", id]), p)
         == if p.Anonymous? then Refused(Unauthenticated) else Served([RemoveDrink], map["id" := id])
  {
    var req := Request(Patch, ["removeDrink", id]);
    assert !SegmentMatches(Lit("resetPassword"), req.path[0]);
    PublicRoutesAnswerOnly(req);
    assert !SegmentMatches(Lit("addDrink"), req.path[0]);
    assert Bind(ACCOUNT_ROUTES[5].pattern, req.path) == map["id" := id];
    ServedToMembers(req, p, 5);
  }

  /** The single-segment paths that routes registered before the
      administration routes take for a verb. */
  function EarlierLiterals(verb: Verb): set<string>
  {
    match verb
    case Get => {"me"}
    case Post => {"signup", "login", "logout", "forgotPassword"}
    case Patch => {"updateMyPassword", "updateMe"}
    case Delete => {"deleteMe"}
  }

  lemma ListUsersNeedsAdmin(p: Principal)
    ensures Dispatch(USER_STACK, Request(Get, []), p)
         == if p.Anonymous? then Refused(Unauthenticated)
            else if p.role == Admin then Served([GetAllUsers], map[])
            else Refused(Forbidden)
  {
    var req := Request(Get, []);
    PublicRoutesAnswerOnly(req);
    ServedToAdmins(req, p, 0);
  }

  lemma CreateUserNeedsAdmin(p: Principal)
    ensures Dispatch(USER_STACK, Request(Post, []), p)
         == if p.Anonymous? then Refused(Unauthenticated)
            else if p.role == Admin then Served([CreateUser], map[])
            else Refused(Forbidden)
  {
    var req := Request(Post, []);
    PublicRoutesAnswerOnly(req);
    ServedToAdmins(req, p, 0);
  }

  /** `/:id` reads, updates or deletes any user, for admins only, unless the
      segment is one of the names an earlier route takes for that verb. */
  lemma UserByIdNeedsAdmin(p: Principal, verb: Verb, id: string)
    requires verb != Post && id != ""
    requires forall name :: name in EarlierLiterals(verb) ==> LowerStr(id) != LowerStr(name)
    ensures Dispatch(USER_STACK, Request(verb, [id]), p)
         == var h := if verb == Get then GetUser else if verb == Patch then UpdateUser else DeleteUser;
            if p.Anonymous? then Refused(Unauthenticated)
            else if p.role == Admin then Served([h], map["id" := id])
            else Refused(Forbidden)
  {
    var req := Request(verb, [id]);
    PublicRoutesAnswerOnly(req);
    ServedToAdmins(req, p, 1);
  }

  /** A request that no route answers still meets every gate: it is refused
      unless the caller is an admin. */
  lemma UnroutedNeedsAdmin(req: Request, p: Principal)
    requires Unanswered(USER_STACK, req)
    ensures Dispatch(USER_STACK, req, p)
         == if p.Anonymous? then Refused(Unauthenticated)
            else if p.role == Admin then NoRoute
            else Refused(Forbidden)
  {
    UserStackAdminGatesOnly();
    DecidedNowhere(USER_STACK, req, p);
    SectionLevels();
  }

  /** A POST to a single segment that is none of the public names has no
      route, and so ends at the admin gate like any unknown path. */
  lemma PostByIdIsUnrouted(p: Principal, id: string)
    requires forall name :: name in EarlierLiterals(Post) ==> LowerStr(id) != LowerStr(name)
    ensures Dispatch(USER_STACK, Request(Post, [id]), p)
         == if p.Anonymous? then Refused(Unauthenticated)
            else if p.role == Admin then NoRoute
            else Refused(Forbidden)
  {
    var req := Request(Post, [id]);
    var cors: seq<Layer<Handler>> := [UseLayer(Cors)];
    var protect: seq<Layer<Handler>> := [UseLayer(Protect)];
    var restrict: seq<Layer<Handler>> := [UseLayer(RestrictTo({Admin}))];
    UnansweredAppend(cors, PUBLIC_ROUTES, req);
    UnansweredAppend(cors + PUBLIC_ROUTES, protect, req);
    UnansweredAppend(BEFORE_ACCOUNT, ACCOUNT_ROUTES, req);
    UnansweredAppend(BEFORE_ACCOUNT + ACCOUNT_ROUTES, restrict, req);
    UnansweredAppend(BEFORE_ADMIN, ADMIN_ROUTES, req);
    UnroutedNeedsAdmin(req, p);
  }
}
