/** The WordPress store the handlers act on — users, user meta, posts and
    category terms — and the handlers themselves: registration, the two
    login flows, the `wp_login` token hook, and the post endpoints. */
module Store {
  import opened Base
  import opened Jwt
  import opened Records
  import opened Http

  /** Why `wp_insert_user` refuses a new user. */
  datatype InsertError = EmptyLogin | LoginTooLong | LoginExists | EmailExists

  const MaxLoginLength: nat := 60
  const MaxNicenameLength: nat := 50

  function InsertMessage(e: InsertError): string {
    match e
    case EmptyLogin => "Cannot create a user with an empty login name."
    case LoginTooLong => "Username may not be longer than 60 characters."
    case LoginExists => "Sorry, that username already exists!"
    case EmailExists => "Sorry, that email address is already used!"
  }

  /** Why `wp_authenticate` refuses a login. */
  datatype AuthFailure = EmptyCredentials | InvalidUsername | IncorrectPassword

  function AuthMessage(f: AuthFailure, username: string): string {
    match f
    case EmptyCredentials => "The username or the password field is empty."
    case InvalidUsername => "The username " + username + " is not registered on this site."
    case IncorrectPassword => "The password you entered for the username " + username + " is incorrect."
  }

  /** `username_exists($login)` */
  predicate LoginTaken(users: seq<User>, login: string) {
    exists i :: 0 <= i < |users| && users[i].login == login
  }

  /** `email_exists($email)`; no user is found under the empty address. */
  predicate EmailTaken(users: seq<User>, email: string) {
    email != "" && exists i :: 0 <= i < |users| && users[i].email == email
  }

  /** The store's invariant on accounts: logins are unique, and so are
      non-empty e-mail addresses. */
  ghost predicate UniqueAccounts(users: seq<User>) {
    forall i, j :: 0 <= i < j < |users| ==>
      users[i].login != users[j].login && (users[i].email == "" || users[i].email != users[j].email)
  }

  /** `get_user_by('login', $login)`: the index of the first user with that login. */
  function FindLogin(users: seq<User>, login: string): (r: Option<nat>)
    ensures r.Some? ==> r.value < |users| && users[r.value].login == login
    ensures r.Some? ==> forall j :: 0 <= j < r.value ==> users[j].login != login
    ensures r.None? <==> !LoginTaken(users, login)
  {
    if users == [] then None
    else if users[0].login == login then Some(0)
    else
      match FindLogin(users[1..], login)
      case None =>
        assert forall j :: 1 <= j < |users| ==> users[j] == users[1..][j - 1];
        None
      case Some(i) => Some(i + 1)
  }

  /** The row `wp_insert_user` creates from a login, address and password,
      simplified: the nicename is the login cut to 50 characters (without
      WordPress's sanitising and de-duplication), the display name is the
      login. */
  function NewUser(login: string, email: string, password: string, role: Role): (u: User)
    ensures u.login == login && u.email == email && u.password == password && u.role == role
    ensures |u.nicename| <= MaxNicenameLength && u.nicename <= login
  {
    var nicename := if |login| <= MaxNicenameLength then login else login[..MaxNicenameLength];
    User(login, email, password, nicename, login, role)
  }

  /** `wp_authenticate($username, $password)` over the user rows: the index
      of the authenticated user, or why authentication failed. */
  function Authenticate(users: seq<User>, username: string, password: string): (r: Result<nat, AuthFailure>)
    ensures r.Ok? ==> r.value < |users| && users[r.value].login == username && users[r.value].password == password
    ensures r.Ok? ==> !Falsy(username) && !Falsy(password)
    ensures r == Err(EmptyCredentials) <==> Falsy(username) || Falsy(password)
    ensures r == Err(InvalidUsername) <==> !Falsy(username) && !Falsy(password) && !LoginTaken(users, username)
    ensures r == Err(IncorrectPassword) ==>
      exists i :: 0 <= i < |users| && users[i].login == username && users[i].password != password
  {
    if Falsy(username) || Falsy(password) then Err(EmptyCredentials)
    else
      match FindLogin(users, username)
      case None => Err(InvalidUsername)
      case Some(i) => if users[i].password == password then Ok(i) else Err(IncorrectPassword)
  }

  /** With unique logins, authentication succeeds exactly for the stored
      credential of the user holding that login. */
  lemma AuthenticateExact(users: seq<User>, i: nat, password: string)
    requires UniqueAccounts(users) && i < |users|
    requires !Falsy(users[i].login) && !Falsy(password)
    ensures Authenticate(users, users[i].login, password) ==
      (if users[i].password == password then Ok(i) else Err(IncorrectPassword))
  {
  }

  /** The mutable part of a store at one moment, to compare before and after. */
  datatype Contents = Contents(
    users: seq<User>,
    meta: map<int, map<string, string>>,
    posts: map<int, Post>,
    nextPostId: int,
    terms: seq<string>)

  class Store {
    /** The user with ID `i + 1` is `users[i]`: IDs are handed out in order
        and this layer never deletes a user. */
    var users: seq<User>
    /** User meta, by user ID. */
    var meta: map<int, map<string, string>>
    var posts: map<int, Post>
    /** The ID the next inserted post receives. */
    var nextPostId: int
    /** Category terms by name; the term with ID `i + 1` is `terms[i]`. */
    var terms: seq<string>
    /** The site's `default_role` option, given to users `wp_insert_user` creates. */
    const defaultRole: Role

    ghost predicate Valid()
      reads this
    {
      && UniqueAccounts(users)
      && (forall id :: id in meta ==> 1 <= id <= |users|)
      && 1 <= nextPostId
      && (forall id :: id in posts ==> 1 <= id < nextPostId)
      && (forall id :: id in posts && posts[id].category != "" ==> posts[id].category in terms)
    }

    /** A fresh site: no users, no posts, the one default category. */
    constructor (defaultRole: Role)
      ensures Valid()
      ensures users == [] && meta == map[] && posts == map[] && nextPostId == 1
      ensures terms == ["Uncategorized"] && this.defaultRole == defaultRole
    {
      users := [];
      meta := map[];
      posts := map[];
      nextPostId := 1;
      terms := ["Uncategorized"];
      this.defaultRole := defaultRole;
    }

    function Snapshot(): Contents
      reads this
    {
      Contents(users, meta, posts, nextPostId, terms)
    }

    predicate IsUserId(id: int)
      reads this
    {
      1 <= id <= |users|
    }

    /** All meta of a user; empty when none was ever written. */
    function MetaOf(id: int): (m: map<string, string>)
      reads this
      ensures id !in meta ==> m == map[]
      ensures id in meta ==> m == meta[id]
    {
      if id in meta then meta[id] else map[]
    }

    /** `get_user_meta($id, $key, true)`: the stored value, `""` when absent. */
    function MetaGet(id: int, key: string): (v: string)
      reads this
      ensures key in MetaOf(id) ==> v == MetaOf(id)[key]
      ensures key !in MetaOf(id) ==> v == ""
    {
      var m := MetaOf(id);
      if key in m then m[key] else ""
    }

    /** `wp_insert_user` / `wp_create_user`: appends one user or refuses.
        The login is checked and stored as given; WordPress's
        `sanitize_user($login, true)` step is not part of this model. */
    method InsertUser(login: string, email: string, password: string) returns (r: Result<int, InsertError>)
      requires Valid()
      modifies this
      ensures Valid()
      ensures r == Err(EmptyLogin) <==> Falsy(login)
      ensures r == Err(LoginTooLong) <==> !Falsy(login) && |login| > MaxLoginLength
      ensures r == Err(LoginExists) <==>
        !Falsy(login) && |login| <= MaxLoginLength && LoginTaken(old(users), login)
      ensures r == Err(EmailExists) <==>
        !Falsy(login) && |login| <= MaxLoginLength && !LoginTaken(old(users), login) && EmailTaken(old(users), email)
      ensures r.Err? ==> users == old(users)
      ensures r.Ok? ==> r.value == |old(users)| + 1 && users == old(users) + [NewUser(login, email, password, defaultRole)]
      ensures meta == old(meta) && posts == old(posts) && nextPostId == old(nextPostId) && terms == old(terms)
    {
      if Falsy(login) {
        return Err(EmptyLogin);
      }
      if |login| > MaxLoginLength {
        return Err(LoginTooLong);
      }
      if LoginTaken(users, login) {
        return Err(LoginExists);
      }
      if EmailTaken(users, email) {
        return Err(EmailExists);
      }
      var u := NewUser(login, email, password, defaultRole);
      assert forall i :: 0 <= i < |users| ==> users[i].login != login;
      assert email == "" || forall i :: 0 <= i < |users| ==> users[i].email != email;
      users := users + [u];
      r := Ok(|users|);
    }

    /** What `rest_create_user` leaves behind, from the users before it:
        400 for a missing field; 400 for a taken login or e-mail; 500 when
        the insertion refuses (here, with the login unsanitised, only a
        login over 60 characters); otherwise 200
        with the new user appended under the next ID and a token minted for
        that ID. Every refusal leaves the users as they were. */
    predicate UserRegistered(oldUsers: seq<User>, p: Params, cfg: Config, now: int, resp: Response)
      reads this
    {
      if Falsy(p.username) || Falsy(p.email) || Falsy(p.password) then
        resp == Response(400, Text("Missing required parameters.")) && users == oldUsers
      else if LoginTaken(oldUsers, p.username) || EmailTaken(oldUsers, p.email) then
        resp == Response(400, Text("Username or email already exists.")) && users == oldUsers
      else if |p.username| > MaxLoginLength then
        resp == Response(500, Text("Failed to create user.")) && users == oldUsers
      else
        var id := |oldUsers| + 1;
        var u := NewUser(p.username, p.email, p.password, defaultRole);
        && users == oldUsers + [u]
        && resp == Response(200, Issued(GenerateJwtToken(cfg, id, u.email, u.nicename, u.displayName, "", now),
                                        Profile(id, u.email, u.nicename, u.displayName, "")))
    }

    /** `rest_create_user` (POST custom/v1/create-user): field check, then
        uniqueness check, then insertion, then a signed token for the new
        user. A refused request leaves the store as it was. */
    method RestCreateUser(p: Params, cfg: Config, now: int) returns (resp: Response)
      requires Valid()
      modifies this
      ensures Valid()
      ensures meta == old(meta) && posts == old(posts) && nextPostId == old(nextPostId) && terms == old(terms)
      ensures UserRegistered(old(users), p, cfg, now, resp)
      ensures resp.status == 200 <==>
        && !Falsy(p.username) && !Falsy(p.email) && !Falsy(p.password)
        && !LoginTaken(old(users), p.username) && !EmailTaken(old(users), p.email)
        && |p.username| <= MaxLoginLength
    {
      if Falsy(p.username) || Falsy(p.email) || Falsy(p.password) {
        return Response(400, Text("Missing required parameters."));
      }
      if LoginTaken(users, p.username) || EmailTaken(users, p.email) {
        return Response(400, Text("Username or email already exists."));
      }
      var r := InsertUser(p.username, p.email, p.password);
      if r.Err? {
        assert r.error == LoginTooLong;
        return Response(500, Text("Failed to create user."));
      }
      var id := r.value;
      var u := users[id - 1];
      var firstName := MetaGet(id, FirstName);
      var token := GenerateJwtToken(cfg, id, u.email, u.nicename, u.displayName, firstName, now);
      return Response(200, Issued(token, Profile(id, u.email, u.nicename, u.displayName, firstName)));
    }

    /** What `custom_add_user_callback` leaves behind, from the users and
        meta before it: 400 `registration_error` exactly when the insertion
        refuses, with nothing written; otherwise 200 with the new subscriber
        appended, its `custom_api_token` stored, and the same token returned. */
    predicate UserAdded(oldUsers: seq<User>, oldMeta: map<int, map<string, string>>, p: Params, token: string,
                        resp: Response)
      reads this
    {
      if Falsy(p.username) || |p.username| > MaxLoginLength
         || LoginTaken(oldUsers, p.username) || EmailTaken(oldUsers, p.email) then
        && resp.status == 400 && resp.body.WpError? && resp.body.code == "registration_error"
        && users == oldUsers && meta == oldMeta
      else
        var id := |oldUsers| + 1;
        && resp == Response(200, LegacyToken("User created successfully", id, token))
        && users == oldUsers + [NewUser(p.username, p.email, p.password, Subscriber)]
        && meta == oldMeta[id := map[CustomApiToken := token]]
    }

    /** `custom_add_user_callback` (POST custom-api/v1/add-user): creates the
        user, stores the opaque 32-character token under `custom_api_token`,
        makes the user a subscriber and returns the token. No field is checked
        here beyond what the insertion itself refuses. */
    method AddUser(p: Params, token: string) returns (resp: Response)
      requires Valid()
      requires IsGeneratedPassword(token, 32)
      modifies this
      ensures Valid()
      ensures posts == old(posts) && nextPostId == old(nextPostId) && terms == old(terms)
      ensures UserAdded(old(users), old(meta), p, token, resp)
    {
      var r := InsertUser(p.username, p.email, p.password);
      if r.Err? {
        return Response(400, WpError("registration_error", InsertMessage(r.error)));
      }
      var id := r.value;
      meta := meta[id := MetaOf(id)[CustomApiToken := token]];
      users := users[id - 1 := users[id - 1].(role := Subscriber)];
      assert users == old(users) + [NewUser(p.username, p.email, p.password, Subscriber)];
      return Response(200, LegacyToken("User created successfully", id, token));
    }

    /** `generate_custom_token_on_login`, run on the `wp_login` action:
        overwrites the user's `custom_token` with a fresh 64-character value.
        Of several logins, the last one's value is what remains. */
    method OnLogin(id: int, token: string)
      requires Valid() && IsUserId(id)
      requires IsGeneratedPassword(token, 64)
      modifies this
      ensures Valid()
      ensures meta == old(meta)[id := old(MetaOf(id))[CustomToken := token]]
      ensures MetaGet(id, CustomToken) == token
      ensures forall other :: other != id ==> MetaOf(other) == old(MetaOf(other))
      ensures users == old(users) && posts == old(posts) && nextPostId == old(nextPostId) && terms == old(terms)
    {
      meta := meta[id := MetaOf(id)[CustomToken := token]];
    }

    /** `custom_login_endpoint` (POST custom/v1/sign-in): every failed
        authentication gets the same 401 body, so the response does not
        tell an unknown user from a wrong password; success mints a token. */
    function SignIn(p: Params, cfg: Config, now: int): (r: Response)
      reads this
      ensures r.status == 401 <==> Authenticate(users, p.username, p.password).Err?
      ensures r.status == 401 ==> r == Response(401, ErrorField("Invalid username or password"))
      ensures r.status != 401 ==>
        && r.status == 200 && r.body.Issued?
        && IsUserId(r.body.data.userId)
        && users[r.body.data.userId - 1].login == p.username
        && users[r.body.data.userId - 1].password == p.password
      ensures r.status == 200 ==>
        var id := r.body.data.userId;
        var u := users[id - 1];
        r.body.token == GenerateJwtToken(cfg, id, u.email, u.nicename, u.displayName, MetaGet(id, FirstName), now)
    {
      match Authenticate(users, p.username, p.password)
      case Err(_) => Response(401, ErrorField("Invalid username or password"))
      case Ok(i) =>
        var id := i + 1;
        var u := users[i];
        var firstName := MetaGet(id, FirstName);
        Response(200, Issued(GenerateJwtToken(cfg, id, u.email, u.nicename, u.displayName, firstName, now),
                             Profile(id, u.email, u.nicename, u.displayName, firstName)))
    }

    /** `custom_user_login_callback` (POST custom-api/v1/login): returns the
        stored `custom_api_token` as it is, and never writes it. Unlike the
        sign-in endpoint it passes the authentication error message through. */
    function LegacyLogin(p: Params): (r: Response)
      reads this
      ensures Falsy(p.username) || Falsy(p.password) ==>
        r == Response(400, WpError("login_error", "Username and password are required."))
      ensures !Falsy(p.username) && !Falsy(p.password) && Authenticate(users, p.username, p.password).Err? ==>
        r == Response(401, WpError("login_error", AuthMessage(Authenticate(users, p.username, p.password).error, p.username)))
      ensures Authenticate(users, p.username, p.password).Ok? ==>
        var id := Authenticate(users, p.username, p.password).value + 1;
        r == if Falsy(MetaGet(id, CustomApiToken))
             then Response(401, WpError("token_error", "Token not found for the user."))
             else Response(200, LegacyToken("User logged in successfully", id, MetaGet(id, CustomApiToken)))
    {
      if Falsy(p.username) || Falsy(p.password) then
        Response(400, WpError("login_error", "Username and password are required."))
      else
        match Authenticate(users, p.username, p.password)
        case Err(f) => Response(401, WpError("login_error", AuthMessage(f, p.username)))
        case Ok(i) =>
          var stored := MetaGet(i + 1, CustomApiToken);
          if Falsy(stored) then Response(401, WpError("token_error", "Token not found for the user."))
          else Response(200, LegacyToken("User logged in successfully", i + 1, stored))
    }

    /** `get_posts` for one post type: the published posts of that type. */
    function PublishedOfType(postType: string): (r: map<int, Post>)
      reads this
      ensures forall id :: id in r <==> id in posts && posts[id].postType == postType && posts[id].status == "publish"
      ensures forall id :: id in r ==> r[id] == posts[id]
    {
      map id | id in posts && posts[id].postType == postType && posts[id].status == "publish" :: posts[id]
    }

    /** `wp_set_object_terms($id, $name, 'category', false)`: the post's
        category becomes `name` (none for `""`), and an unknown name becomes a
        new term, whether or not the post exists. */
    method SetObjectTerms(id: int, name: string)
      requires Valid()
      modifies this
      ensures Valid()
      ensures terms == if name == "" || name in old(terms) then old(terms) else old(terms) + [name]
      ensures posts == if id in old(posts) then old(posts)[id := old(posts)[id].(category := name)] else old(posts)
      ensures users == old(users) && meta == old(meta) && nextPostId == old(nextPostId)
    {
      if name != "" && name !in terms {
        terms := terms + [name];
      }
      if id in posts {
        posts := posts[id := posts[id].(category := name)];
      }
    }

    /** What `create_post_callback` leaves behind, from the posts, next post
        ID and terms before it: with neither title nor content nothing is
        stored and the answer is the 500; otherwise a published post by
        `author` under the next ID, filed under the category or `shopping`. */
    predicate PostCreated(oldPosts: map<int, Post>, oldNext: int, oldTerms: seq<string>,
                          p: Params, author: Option<int>, resp: Response)
      reads this
    {
      if Falsy(p.title) && Falsy(p.content) then
        && resp == Response(500, WpError("error_creating_post", "Unknown error occurred while creating post"))
        && posts == oldPosts && nextPostId == oldNext && terms == oldTerms
      else
        var cat := if Falsy(p.category) then DefaultPostCategory else p.category;
        && resp == Response(200, Text("Post created successfully"))
        && nextPostId == oldNext + 1
        && oldNext !in oldPosts
        && posts == oldPosts[oldNext := Post(p.title, p.content, "publish", "post", author, cat)]
        && terms == if cat in oldTerms then oldTerms else oldTerms + [cat]
    }

    /** `create_post_callback` (POST custom/v1/create-post): inserts a
        published post whose author is the request's `user_id` (the verifier
        attaches it) and files it under the given category, or `shopping`
        when none is given. The store refuses a post with neither title nor
        content, which the handler reports as a 500. */
    method CreatePost(req: Request) returns (resp: Response)
      requires Valid()
      modifies this
      ensures Valid()
      ensures users == old(users) && meta == old(meta)
      ensures PostCreated(old(posts), old(nextPostId), old(terms), req.params, req.userId, resp)
    {
      var p := req.params;
      if Falsy(p.title) && Falsy(p.content) {
        return Response(500, WpError("error_creating_post", "Unknown error occurred while creating post"));
      }
      var id := nextPostId;
      posts := posts[id := Post(p.title, p.content, "publish", "post", req.userId, "")];
      nextPostId := nextPostId + 1;
      if Falsy(p.category) {
        SetObjectTerms(id, DefaultPostCategory);
      } else {
        SetObjectTerms(id, p.category);
      }
      return Response(200, Text("Post created successfully"));
    }

    /** What `update_posts` leaves behind, from the posts and terms before
        it: the 200 answer in every case; the named post, if it exists, gets
        the new title and content (unless both are empty) and the category;
        no other post changes; a truthy post ID files it under the category,
        creating the term if it is new. */
    predicate PostRewritten(oldPosts: map<int, Post>, oldTerms: seq<string>, p: Params, resp: Response)
      reads this
    {
      && resp == Response(200, PostUpdated("Post updated successfully", p.postId))
      && terms == (if FalsyId(p.postId) || p.category == "" || p.category in oldTerms
                   then oldTerms else oldTerms + [p.category])
      && posts.Keys == oldPosts.Keys
      && (forall k :: k in posts && p.postId != Some(k) ==> posts[k] == oldPosts[k])
      && (p.postId.Some? && p.postId.value in oldPosts ==>
            var id := p.postId.value;
            posts[id] == (if Falsy(p.postTitle) && Falsy(p.postContent) then oldPosts[id]
                          else oldPosts[id].(title := p.postTitle, content := p.postContent)).(category := p.category))
    }

    /** What `delete_posts` leaves behind: 400 without a post ID, 404 for an
        unknown one, otherwise that post and only that post is removed. */
    predicate PostRemoved(oldPosts: map<int, Post>, p: Params, resp: Response)
      reads this
    {
      if FalsyId(p.postId) then resp == Response(400, Text("Post ID is required")) && posts == oldPosts
      else if p.postId.value !in oldPosts then resp == Response(404, Text("No post found with this ID")) && posts == oldPosts
      else resp == Response(200, Text("Post deleted successfully")) && posts == oldPosts - {p.postId.value}
    }

    /** The listing `get_all_categories_with_posts` answers: one entry per
        category in term order, with its ID, name and CategoryPosts. */
    predicate ListsCategories(r: seq<FormattedCategory>)
      reads this
    {
      && |r| == |terms|
      && forall i :: 0 <= i < |terms| ==>
           r[i] == FormattedCategory(i + 1, terms[i], CategoryPosts(posts, terms[i], 1, nextPostId))
    }

    /** `update_posts` (POST custom/v1/update-post): rewrites title and
        content of an existing post (unless both are empty, which the store
        refuses), sets its category, and answers 200 in every case — also
        for a missing or unknown post ID. */
    method UpdatePost(req: Request) returns (resp: Response)
      requires Valid()
      modifies this
      ensures Valid()
      ensures users == old(users) && meta == old(meta) && nextPostId == old(nextPostId)
      ensures PostRewritten(old(posts), old(terms), req.params, resp)
    {
      var p := req.params;
      if p.postId.Some? && p.postId.value in posts && !(Falsy(p.postTitle) && Falsy(p.postContent)) {
        var id := p.postId.value;
        posts := posts[id := posts[id].(title := p.postTitle, content := p.postContent)];
      }
      if !FalsyId(p.postId) {
        SetObjectTerms(p.postId.value, p.category);
      }
      return Response(200, PostUpdated("Post updated successfully", p.postId));
    }

    /** `delete_posts` (POST custom/v1/delete-post): 400 without a post ID,
        404 for an unknown one, otherwise that post and only that post is
        removed. */
    method DeletePost(req: Request) returns (resp: Response)
      requires Valid()
      modifies this
      ensures Valid()
      ensures users == old(users) && meta == old(meta) && nextPostId == old(nextPostId) && terms == old(terms)
      ensures PostRemoved(old(posts), req.params, resp)
    {
      var postId := req.params.postId;
      if FalsyId(postId) {
        return Response(400, Text("Post ID is required"));
      }
      if postId.value !in posts {
        return Response(404, Text("No post found with this ID"));
      }
      posts := posts - {postId.value};
      return Response(200, Text("Post deleted successfully"));
    }

    /** `get_all_categories_with_posts`: for every category, in term order,
        its published posts newest first, each as id, title and content. */
    method CategoriesWithPosts() returns (r: seq<FormattedCategory>)
      requires Valid()
      ensures ListsCategories(r)
    {
      r := [];
      var i := 0;
      while i < |terms|
        invariant 0 <= i <= |terms|
        invariant |r| == i
        invariant forall j :: 0 <= j < i ==>
          r[j] == FormattedCategory(j + 1, terms[j], CategoryPosts(posts, terms[j], 1, nextPostId))
      {
        var formatted: seq<FormattedPost> := [];
        var k := nextPostId;
        while k > 1
          invariant 1 <= k <= nextPostId
          invariant formatted == CategoryPosts(posts, terms[i], k, nextPostId)
        {
          k := k - 1;
          if k in posts && InCategory(posts[k], terms[i]) {
            formatted := formatted + [FormattedPost(k, posts[k].title, posts[k].content)];
          }
        }
        r := r + [FormattedCategory(i + 1, terms[i], formatted)];
        i := i + 1;
      }
    }
  }

  /** A post `get_posts(['category' => ...])` lists for a category: a
      published post of type `post` filed under it. */
  predicate InCategory(p: Post, name: string) {
    p.postType == "post" && p.status == "publish" && p.category == name
  }

  /** The formatted posts of a category among IDs `lo .. hi - 1`, highest
      (newest) ID first. */
  function CategoryPosts(posts: map<int, Post>, name: string, lo: int, hi: int): seq<FormattedPost>
    decreases hi - lo
  {
    if lo >= hi then []
    else
      CategoryPosts(posts, name, lo + 1, hi)
      + (if lo in posts && InCategory(posts[lo], name) then [FormattedPost(lo, posts[lo].title, posts[lo].content)] else [])
  }

  /** A category's listing holds exactly its posts in the ID range, each
      formatted from its row, in strictly decreasing ID order. */
  lemma {:induction false} CategoryPostsExact(posts: map<int, Post>, name: string, lo: int, hi: int)
    ensures forall fp :: fp in CategoryPosts(posts, name, lo, hi) <==>
      && lo <= fp.id < hi && fp.id in posts && InCategory(posts[fp.id], name)
      && fp == FormattedPost(fp.id, posts[fp.id].title, posts[fp.id].content)
    ensures forall i, j :: 0 <= i < j < |CategoryPosts(posts, name, lo, hi)| ==>
      CategoryPosts(posts, name, lo, hi)[i].id > CategoryPosts(posts, name, lo, hi)[j].id
    decreases hi - lo
  {
    if lo < hi {
      CategoryPostsExact(posts, name, lo + 1, hi);
    }
  }

  /** The opaque token stored for a user is what the legacy login hands back
      for that user's credentials, unchanged. */
  lemma LegacyLoginReturnsStoredToken(s: Store, id: int, password: string)
    requires s.Valid() && s.IsUserId(id)
    requires s.users[id - 1].password == password
    requires !Falsy(s.users[id - 1].login) && !Falsy(password)
    requires !Falsy(s.MetaGet(id, CustomApiToken))
    ensures s.LegacyLogin(Form(s.users[id - 1].login, "", password))
      == Response(200, LegacyToken("User logged in successfully", id, s.MetaGet(id, CustomApiToken)))
  {
    AuthenticateExact(s.users, id - 1, password);
  }

  /** A user's own credentials sign that user in, with a token minted for
      that user at the time of the request. */
  lemma SignInFindsUser(s: Store, id: int, password: string, cfg: Config, now: int)
    requires s.Valid() && s.IsUserId(id)
    requires s.users[id - 1].password == password
    requires !Falsy(s.users[id - 1].login) && !Falsy(password)
    ensures var r := s.SignIn(Form(s.users[id - 1].login, "", password), cfg, now);
      var u := s.users[id - 1];
      && r.status == 200 && r.body.data.userId == id
      && r.body.token == GenerateJwtToken(cfg, id, u.email, u.nicename, u.displayName, s.MetaGet(id, FirstName), now)
  {
    AuthenticateExact(s.users, id - 1, password);
  }
}
