/** Request sequences against a fresh site, proved from the contracts of the
    handlers, the verifier and the server step alone: what a client of the
    API can rely on. */
module Scenarios {
  import opened Base
  import opened Jwt
  import opened Records
  import opened Http
  import opened Verifier
  import opened Store
  import opened Routes

  /** A visitor's `GET custom/v1/fetch-books` with the given header: the
      verifier's refusal, or the published books once admitted. */
  method FetchBooks(store: Store, header: Option<string>, cfg: Config, now: int, apiToken: string)
    returns (resp: Response)
    requires store.Valid() && IsGeneratedPassword(apiToken, 32)
    modifies store
    ensures store.Valid() && unchanged(store)
    ensures var v := VerifyToken(header, cfg, now).verdict;
      resp == if v.Granted? then Response(200, PostList(store.PublishedOfType("book"))) else DeniedResponse(v.error)
  {
    assert GuardOf(FetchBooksRoute) == JwtRequired;
    var req := new Request(header, None, Form("", "", ""));
    resp := Serve(store, req, FetchBooksRoute, cfg, now, apiToken);
  }

  /** Register alice on a fresh site: 200, user ID 1, and a token that
      verifies for her now and is expired a week and a second later. */
  method RegisterAlice(cfg: Config, now: int) returns (store: Store, registered: Response, token: string)
    requires Sound(cfg.codec) && !Falsy(SecretKey(cfg))
    ensures fresh(store) && store.Valid() && store.posts == map[]
    ensures registered.status == 200 && registered.body.Issued? && registered.body.data.userId == 1
    ensures registered.body.token == Token(token)
    ensures VerifyToken(Some("Bearer " + token), cfg, now) == Outcome(Granted, SetUserId(Some(1)))
    ensures VerifyToken(Some("Bearer " + token), cfg, now + TokenLifetime + 1)
      == Outcome(Denied(JwtExpired), SetUserId(Some(1)))
  {
    store := new Store(Subscriber);
    registered := store.RestCreateUser(Form("alice", "alice@x.com", "pw123"), cfg, now);
    IssuedTokenAccepted(cfg, 1, "alice@x.com", "alice", "alice", "", now, now);
    IssuedTokenAccepted(cfg, 1, "alice@x.com", "alice", "alice", "", now, now + TokenLifetime + 1);
    token := registered.body.token.value;
  }

  /** Register alice; her token opens `fetch-books` at once; without a
      header the route answers jwt_missing; a week and a second later her
      token answers jwt_expired. */
  method RegisterThenFetchBooks(cfg: Config, now: int, apiToken: string)
    returns (registered: Response, withToken: Response, withoutHeader: Response, expired: Response)
    requires Sound(cfg.codec) && !Falsy(SecretKey(cfg))
    requires IsGeneratedPassword(apiToken, 32)
    ensures registered.status == 200 && registered.body.Issued? && registered.body.data.userId == 1
    ensures withToken == Response(200, PostList(map[]))
    ensures withoutHeader == DeniedResponse(JwtMissing)
    ensures expired == DeniedResponse(JwtExpired)
  {
    var store, token;
    store, registered, token := RegisterAlice(cfg, now);
    withToken := FetchBooks(store, Some("Bearer " + token), cfg, now, apiToken);
    assert store.PublishedOfType("book") == map[];
    withoutHeader := FetchBooks(store, None, cfg, now, apiToken);
    expired := FetchBooks(store, Some("Bearer " + token), cfg, now + TokenLifetime + 1, apiToken);
  }

  /** Two sign-ins of one user, each followed by a login through
      WordPress's own login form (the `wp_login` hook, not the sign-in
      route, writes `custom_token`): the stored `custom_token` is the second
      login's value, and both claim tokens from the two sign-ins verify on
      their own, since verification keeps no state. */
  method TwoLogins(cfg: Config, now: int, first: string, second: string)
    returns (stored: string, firstToken: Minted, secondToken: Minted)
    requires Sound(cfg.codec) && !Falsy(SecretKey(cfg))
    requires IsGeneratedPassword(first, 64) && IsGeneratedPassword(second, 64)
    ensures stored == second
    ensures firstToken.Token? && secondToken.Token?
    ensures VerifyToken(Some("Bearer " + firstToken.value), cfg, now + 1) == Outcome(Granted, SetUserId(Some(1)))
    ensures VerifyToken(Some("Bearer " + secondToken.value), cfg, now + 1) == Outcome(Granted, SetUserId(Some(1)))
  {
    var store := new Store(Subscriber);
    var form := Form("alice", "alice@x.com", "pw123");
    var registered := store.RestCreateUser(form, cfg, now);

    var signIn := Form("alice", "", "pw123");
    SignInFindsUser(store, 1, "pw123", cfg, now);
    var r1 := store.SignIn(signIn, cfg, now);
    store.OnLogin(1, first);
    SignInFindsUser(store, 1, "pw123", cfg, now + 1);
    var r2 := store.SignIn(signIn, cfg, now + 1);
    store.OnLogin(1, second);
    stored := store.MetaGet(1, CustomToken);

    firstToken, secondToken := r1.body.token, r2.body.token;
    IssuedTokenAccepted(cfg, 1, "alice@x.com", "alice", "alice", "", now, now + 1);
    IssuedTokenAccepted(cfg, 1, "alice@x.com", "alice", "alice", "", now + 1, now + 1);
  }

  /** `POST custom/v1/create-post` without an `Authorization` header is
      refused before the handler runs, and stores nothing. */
  method AnonymousCreate(store: Store, post: Params, cfg: Config, now: int, apiToken: string)
    returns (resp: Response)
    requires store.Valid() && IsGeneratedPassword(apiToken, 32)
    modifies store
    ensures store.Valid() && unchanged(store)
    ensures resp == DeniedResponse(JwtMissing)
  {
    assert GuardOf(CreatePostRoute) == JwtRequired;
    var req := new Request(None, None, post);
    resp := Serve(store, req, CreatePostRoute, cfg, now, apiToken);
  }

  /** `POST custom/v1/delete-post` without an `Authorization` header still
      deletes an existing post, since the route has no guard. */
  method AnonymousDelete(store: Store, postId: int, cfg: Config, now: int, apiToken: string)
    returns (resp: Response)
    requires store.Valid() && IsGeneratedPassword(apiToken, 32)
    modifies store
    ensures store.Valid()
    ensures store.users == old(store.users) && store.meta == old(store.meta) && store.terms == old(store.terms)
    ensures postId in old(store.posts) ==>
      resp == Response(200, Text("Post deleted successfully")) && store.posts == old(store.posts) - {postId}
    ensures postId !in old(store.posts) && postId != 0 ==>
      resp == Response(404, Text("No post found with this ID")) && store.posts == old(store.posts)
  {
    assert GuardOf(DeletePostRoute) == Open;
    var req := new Request(None, None, Params("", "", "", "", "", "", Some(postId), "", ""));
    resp := Serve(store, req, DeletePostRoute, cfg, now, apiToken);
  }

  /** `POST custom/v1/create-user` without a username is the 400 for a
      missing field, and no user, meta, post or term is written. */
  method RegisterWithoutUsername(store: Store, email: string, password: string, cfg: Config, now: int,
                                 apiToken: string)
    returns (resp: Response)
    requires store.Valid() && IsGeneratedPassword(apiToken, 32)
    modifies store
    ensures store.Valid()
    ensures resp == Response(400, Text("Missing required parameters."))
    ensures store.users == old(store.users) && store.meta == old(store.meta)
    ensures store.posts == old(store.posts) && store.nextPostId == old(store.nextPostId) && store.terms == old(store.terms)
  {
    assert GuardOf(CreateUserRoute) == Open;
    var req := new Request(None, None, Params("", email, password, "", "", "", None, "", ""));
    resp := Serve(store, req, CreateUserRoute, cfg, now, apiToken);
  }

  /** On a site with one post, an anonymous create-post is refused while an
      anonymous delete-post removes the post. */
  method DeleteWithoutHeader(cfg: Config, now: int, apiToken: string)
    returns (create: Response, delete: Response, remaining: map<int, Post>)
    requires IsGeneratedPassword(apiToken, 32)
    ensures create == DeniedResponse(JwtMissing)
    ensures delete == Response(200, Text("Post deleted successfully"))
    ensures remaining == map[]
  {
    var store := new Store(Subscriber);
    var post := Params("", "", "", "Hello", "World", "", None, "", "");
    var author := new Request(None, Some(7), post);
    var created := store.CreatePost(author);
    create := AnonymousCreate(store, post, cfg, now, apiToken);
    delete := AnonymousDelete(store, 1, cfg, now, apiToken);
    remaining := store.posts;
  }
}
