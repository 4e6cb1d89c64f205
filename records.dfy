/** The rows of the WordPress store that the authentication layer and the
    post handlers read and write. */
module Records {
  import opened Base

  datatype Role = Subscriber | Contributor | Author | Editor | Administrator

  /** A user row. `password` is the credential as given; WordPress keeps a
      hash of it, which this model does not reproduce. */
  datatype User = User(
    login: string,
    email: string,
    password: string,
    nicename: string,
    displayName: string,
    role: Role)

  /** A post row. `category` is the name of its one category term, `""`
      when it has none; `author` is the `post_author` given at insertion. */
  datatype Post = Post(
    title: string,
    content: string,
    status: string,
    postType: string,
    author: Option<int>,
    category: string)

  /** The meta keys the layer uses. */
  const CustomToken: string := "custom_token"
  const CustomApiToken: string := "custom_api_token"
  const FirstName: string := "first_name"

  /** The category `create_post_callback` files a post under when the request names none. */
  const DefaultPostCategory: string := "shopping"
}
