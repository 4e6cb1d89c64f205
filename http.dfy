/** REST requests and responses as the handlers see them. The request's
    parameter bag is given one typed field per parameter the handlers read;
    an absent string parameter reads as `""`, as `sanitize_text_field(null)`
    gives. */
module Http {
  import opened Base
  import opened Jwt
  import opened Records

  datatype Params = Params(
    username: string,
    email: string,
    password: string,
    title: string,
    content: string,
    category: string,
    postId: Option<int>,
    postTitle: string,
    postContent: string)

  /** The parameters of a request that sends only these fields. */
  function Form(username: string, email: string, password: string): Params {
    Params(username, email, password, "", "", "", None, "", "")
  }

  /** An inbound request. The `Authorization` header is fixed; the `user_id`
      parameter is the one thing a handler or guard writes (`set_param`). A
      client may send `user_id` itself, so it starts as whatever was sent. */
  class Request {
    const authorization: Option<string>
    var userId: Option<int>
    const params: Params

    constructor (authorization: Option<string>, userId: Option<int>, params: Params)
      ensures this.authorization == authorization && this.userId == userId && this.params == params
    {
      this.authorization := authorization;
      this.userId := userId;
      this.params := params;
    }
  }

  /** The `data` object of the sign-in and sign-up responses. */
  datatype Profile = Profile(
    userId: int,
    userEmail: string,
    userNicename: string,
    userDisplayName: string,
    firstName: string)

  datatype FormattedPost = FormattedPost(id: int, title: string, content: string)

  datatype FormattedCategory = FormattedCategory(id: int, name: string, posts: seq<FormattedPost>)

  datatype Body =
    | Text(text: string)                                   // a bare string response
    | WpError(code: string, message: string)               // a WP_Error
    | ErrorField(error: string)                            // { "error": ... }
    | Issued(token: Minted, data: Profile)                 // { success, token, data }
    | LegacyToken(message: string, userId: int, storedToken: string)
    | PostUpdated(updateMessage: string, postId: Option<int>)
    | PostList(posts: map<int, Post>)                      // { success, data: [...] }
    | CategoryList(categories: seq<FormattedCategory>)

  datatype Response = Response(status: int, body: Body)
}
