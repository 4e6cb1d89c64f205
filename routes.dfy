/** The REST routes this layer registers on `rest_api_init`, and the server
    step that runs a route: its permission callback first, if any, and the
    handler only when that callback admits the request. WordPress reads the
    guard from the `permission_callback` key alone; the `delete-post` route
    spells it `permission` (and names `varify_jwt_token`), so it runs
    unguarded. */
module Routes {
  import opened Base
  import opened Jwt
  import opened Records
  import opened Http
  import opened Verifier
  import opened Store

  datatype Callback =
    | AddUserCb | LegacyLoginCb | SignInCb | CreateUserCb
    | FetchPostsCb | FetchBooksCb | FetchPlaylistCb | FetchCategoriesCb
    | CreatePostCb | UpdatePostCb | DeletePostCb

  /** One `register_rest_route($namespace, $path, $args)` call; `args` holds
      the string-valued keys of `$args` other than `methods` and `callback`. */
  datatype Route = Route(namespace: string, path: string, methods: string, callback: Callback, args: map<string, string>)

  datatype Guard = Open | JwtRequired

  /** The guard WordPress derives from a route's arguments: only the
      `permission_callback` key is read, and only `verify_jwt_token` guards. */
  function GuardOf(r: Route): (g: Guard)
    ensures g == JwtRequired ==> "permission_callback" in r.args && r.args["permission_callback"] == "verify_jwt_token"
    ensures "permission_callback" !in r.args ==> g == Open
  {
    if "permission_callback" in r.args && r.args["permission_callback"] == "verify_jwt_token" then JwtRequired else Open
  }

  const AddUserRoute: Route := Route("custom-api/v1", "/add-user/", "POST", AddUserCb, map[])
  const LegacyLoginRoute: Route := Route("custom-api/v1", "/login/", "POST", LegacyLoginCb, map[])
  const SignInRoute: Route := Route("custom/v1", "/sign-in", "POST", SignInCb, map[])
  const CreateUserRoute: Route := Route("custom/v1", "/create-user", "POST", CreateUserCb, map[])
  const FetchPostsRoute: Route := Route("custom/v1", "/fetch-posts", "GET", FetchPostsCb, map[])
  const FetchBooksRoute: Route :=
    Route("custom/v1", "/fetch-books", "GET", FetchBooksCb, map["permission_callback" := "verify_jwt_token"])
  const FetchPlaylistRoute: Route :=
    Route("custom/v1", "/fetch-playlist", "GET", FetchPlaylistCb, map["permission_callback" := "verify_jwt_token"])
  const FetchCategoriesRoute: Route :=
    Route("custom/v1", "fetch-categories", "GET", FetchCategoriesCb, map["permission_callback" := "verify_jwt_token"])
  const CreatePostRoute: Route :=
    Route("custom/v1", "/create-post", "POST", CreatePostCb, map["permission_callback" := "verify_jwt_token"])
  const UpdatePostRoute: Route :=
    Route("custom/v1", "/update-post", "POST", UpdatePostCb, map["permission_callback" := "verify_jwt_token"])
  const DeletePostRoute: Route :=
    Route("custom/v1", "delete-post", "POST", DeletePostCb, map["permission" := "varify_jwt_token"])

  const RouteTable: seq<Route> := [
    AddUserRoute, LegacyLoginRoute, SignInRoute, CreateUserRoute, FetchPostsRoute, FetchBooksRoute,
    FetchPlaylistRoute, FetchCategoriesRoute, CreatePostRoute, UpdatePostRoute, DeletePostRoute]

  /** Which routes the table guards: exactly the three listings other than
      fetch-posts, and create-post and update-post. The delete route, though
      it names a verifier, and the registration and login routes are open. */
  lemma GuardTable()
    ensures forall r :: r in RouteTable ==>
      (GuardOf(r) == JwtRequired <==>
         r.callback in {FetchBooksCb, FetchPlaylistCb, FetchCategoriesCb, CreatePostCb, UpdatePostCb})
    ensures GuardOf(DeletePostRoute) == Open && "permission" in DeletePostRoute.args
    ensures forall r :: r in RouteTable ==> "permission_callback" in r.args ==> GuardOf(r) == JwtRequired
  {
  }

  /** The request reaches the route's handler: the route is open, or the
      verifier grants the token. */
  predicate Admitted(route: Route, header: Option<string>, cfg: Config, now: int) {
    GuardOf(route) == Open || VerifyToken(header, cfg, now).verdict == Granted
  }

  /** What the handler `cb` answers and leaves behind, given the store's
      contents `s` before it ran: each handler's own outcome. */
  predicate Handled(store: Store, cb: Callback, s: Contents, p: Params, userId: Option<int>, cfg: Config, now: int,
                    apiToken: string, resp: Response)
    reads store
  {
    match cb
    case AddUserCb => store.UserAdded(s.users, s.meta, p, apiToken, resp)
    case CreateUserCb => store.UserRegistered(s.users, p, cfg, now, resp)
    case SignInCb => resp == store.SignIn(p, cfg, now)
    case LegacyLoginCb => resp == store.LegacyLogin(p)
    case FetchPostsCb => resp == Response(200, PostList(store.PublishedOfType("post")))
    case FetchBooksCb => resp == Response(200, PostList(store.PublishedOfType("book")))
    case FetchPlaylistCb => resp == Response(200, PostList(store.PublishedOfType("bb_playlist_player")))
    case FetchCategoriesCb => resp.status == 200 && resp.body.CategoryList? && store.ListsCategories(resp.body.categories)
    case CreatePostCb => store.PostCreated(s.posts, s.nextPostId, s.terms, p, userId, resp)
    case UpdatePostCb => store.PostRewritten(s.posts, s.terms, p, resp)
    case DeletePostCb => store.PostRemoved(s.posts, p, resp)
  }

  /** What the handler `cb` never changes: registration writes no post or
      term (and create-user no meta); the logins and listings change
      nothing; the post handlers never touch users or meta, update and
      delete keep the next post ID, and delete keeps the terms. */
  predicate KeepsOthers(store: Store, cb: Callback, s: Contents)
    reads store
  {
    var c := store.Snapshot();
    match cb
    case AddUserCb => c.posts == s.posts && c.nextPostId == s.nextPostId && c.terms == s.terms
    case CreateUserCb => c.meta == s.meta && c.posts == s.posts && c.nextPostId == s.nextPostId && c.terms == s.terms
    case SignInCb | LegacyLoginCb | FetchPostsCb | FetchBooksCb | FetchPlaylistCb | FetchCategoriesCb => c == s
    case CreatePostCb => c.users == s.users && c.meta == s.meta
    case UpdatePostCb => c.users == s.users && c.meta == s.meta && c.nextPostId == s.nextPostId
    case DeletePostCb => c.users == s.users && c.meta == s.meta && c.nextPostId == s.nextPostId && c.terms == s.terms
  }

  /** Runs one of the account handlers: the two registrations and the two
      logins. */
  method RunAccountHandler(store: Store, req: Request, cb: Callback, cfg: Config, now: int, apiToken: string)
    returns (resp: Response)
    requires cb in {AddUserCb, LegacyLoginCb, SignInCb, CreateUserCb}
    requires store.Valid() && IsGeneratedPassword(apiToken, 32)
    modifies store
    ensures store.Valid()
    ensures cb in {SignInCb, LegacyLoginCb} ==> unchanged(store)
    ensures KeepsOthers(store, cb, old(store.Snapshot()))
    ensures Handled(store, cb, old(store.Snapshot()), req.params, req.userId, cfg, now, apiToken, resp)
  {
    match cb
    case AddUserCb =>
      resp := store.AddUser(req.params, apiToken);
    case LegacyLoginCb =>
      resp := store.LegacyLogin(req.params);
    case SignInCb =>
      resp := store.SignIn(req.params, cfg, now);
    case CreateUserCb =>
      resp := store.RestCreateUser(req.params, cfg, now);
  }

  /** Runs one of the listing handlers; none of them changes the store. */
  method RunListingHandler(store: Store, req: Request, cb: Callback, cfg: Config, now: int, apiToken: string)
    returns (resp: Response)
    requires cb in {FetchPostsCb, FetchBooksCb, FetchPlaylistCb, FetchCategoriesCb}
    requires store.Valid()
    ensures Handled(store, cb, store.Snapshot(), req.params, req.userId, cfg, now, apiToken, resp)
  {
    match cb
    case FetchPostsCb =>
      resp := Response(200, PostList(store.PublishedOfType("post")));
    case FetchBooksCb =>
      resp := Response(200, PostList(store.PublishedOfType("book")));
    case FetchPlaylistCb =>
      resp := Response(200, PostList(store.PublishedOfType("bb_playlist_player")));
    case FetchCategoriesCb =>
      var categories := store.CategoriesWithPosts();
      resp := Response(200, CategoryList(categories));
  }

  /** Runs one of the post handlers. */
  method RunPostHandler(store: Store, req: Request, cb: Callback, cfg: Config, now: int, apiToken: string)
    returns (resp: Response)
    requires cb in {CreatePostCb, UpdatePostCb, DeletePostCb}
    requires store.Valid()
    modifies store
    ensures store.Valid()
    ensures KeepsOthers(store, cb, old(store.Snapshot()))
    ensures Handled(store, cb, old(store.Snapshot()), req.params, req.userId, cfg, now, apiToken, resp)
  {
    match cb
    case CreatePostCb =>
      resp := store.CreatePost(req);
    case UpdatePostCb =>
      resp := store.UpdatePost(req);
    case DeletePostCb =>
      resp := store.DeletePost(req);
  }

  /** Serves one request on one route. `apiToken` is the value
      `wp_generate_password(32, false)` would give to the add-user handler. */
  method Serve(store: Store, req: Request, route: Route, cfg: Config, now: int, apiToken: string)
    returns (resp: Response)
    requires store.Valid() && IsGeneratedPassword(apiToken, 32)
    modifies store, req
    ensures store.Valid()
    // an open route never attaches an identity
    ensures GuardOf(route) == Open ==> req.userId == old(req.userId)
    // a guarded route runs the verifier first; a refusal is its 401 and the handler never runs
    ensures GuardOf(route) == JwtRequired ==>
      var o := VerifyToken(req.authorization, cfg, now);
      && req.userId == (if o.attach.SetUserId? then o.attach.value else old(req.userId))
      && (o.verdict.Denied? ==> resp == DeniedResponse(o.verdict.error) && unchanged(store))
    // the logins and listings change nothing, and no handler changes what it never writes
    ensures route.callback in {FetchPostsCb, FetchBooksCb, FetchPlaylistCb, FetchCategoriesCb, SignInCb, LegacyLoginCb} ==>
      unchanged(store)
    ensures KeepsOthers(store, route.callback, old(store.Snapshot()))
    // an admitted request is answered by its handler; on a guarded route the request's user_id,
    // which create-post records as the author, is the user the token names
    ensures Admitted(route, req.authorization, cfg, now) ==>
      Handled(store, route.callback, old(store.Snapshot()), req.params, req.userId, cfg, now, apiToken, resp)
    ensures GuardOf(route) == JwtRequired && VerifyToken(req.authorization, cfg, now).verdict == Granted ==>
      req.userId == VerifyToken(req.authorization, cfg, now).attach.value
  {
    if GuardOf(route) == JwtRequired {
      var v := VerifyJwtToken(req, cfg, now);
      if v.Denied? {
        return DeniedResponse(v.error);
      }
    }
    assert store.Snapshot() == old(store.Snapshot());
    match route.callback
    case AddUserCb | LegacyLoginCb | SignInCb | CreateUserCb =>
      resp := RunAccountHandler(store, req, route.callback, cfg, now, apiToken);
    case FetchPostsCb | FetchBooksCb | FetchPlaylistCb | FetchCategoriesCb =>
      resp := RunListingHandler(store, req, route.callback, cfg, now, apiToken);
    case CreatePostCb | UpdatePostCb | DeletePostCb =>
      resp := RunPostHandler(store, req, route.callback, cfg, now, apiToken);
  }
}
