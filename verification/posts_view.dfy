/** `FetchWithReactQuery`: the posts query derived from a category, the heading,
    and which of the loading, error, empty and list panels the view shows for
    the query's state. */
module PostsView {

  import opened Options
  import opened AsciiText
  import opened QueryCache

  datatype Post = Post(id: int, title: string, body: string)

  /** `queryKey: ["posts", category]`. */
  function PostsKey(category: string): QueryKey {
    ["posts", category]
  }

  /** Distinct categories are cached under distinct keys, and no category's key is
      the comments key. */
  lemma PostsKeyInjective(a: string, b: string)
    ensures PostsKey(a) == PostsKey(b) <==> a == b
    ensures PostsKey(a) != ["comments"]
  {
  }

  const PostsPath := "/api/posts?category="

  /** `/api/posts?category=${category}`: the category is appended as is, with no
      encoding. */
  function PostsUrl(category: string): (url: string)
    ensures |url| == |PostsPath| + |category|
  {
    PostsPath + category
  }

  /** Reads the category back out of a posts URL. */
  function CategoryOfUrl(url: string): Option<string> {
    if |url| >= |PostsPath| && url[..|PostsPath|] == PostsPath then Some(url[|PostsPath|..]) else None
  }

  /** The URL carries the category verbatim, so distinct categories fetch distinct
      URLs. */
  lemma PostsUrlRoundTrip(a: string, b: string)
    ensures CategoryOfUrl(PostsUrl(a)) == Some(a)
    ensures PostsUrl(a) == PostsUrl(b) ==> a == b
  {
  }

  const HeadingSuffix := " Posts"

  /** `{category.charAt(0).toUpperCase() + category.slice(1)} Posts`. */
  function Heading(category: string): (h: string)
    ensures |h| == |category| + |HeadingSuffix|
    ensures h[|category|..] == HeadingSuffix
    ensures category != [] ==> h[0] == ToUpper(category[0]) && h[1..|category|] == category[1..]
    ensures category == [] ==> h == " Posts"
  {
    Capitalize(category) + HeadingSuffix
  }

  /** Categories that differ only in the case of their first letter share a
      heading; otherwise the heading tells categories apart. */
  lemma HeadingIgnoresOnlyFirstLetterCase(a: string, b: string)
    ensures Heading(a) == Heading(b) <==>
      |a| == |b| && (a != [] ==> ToUpper(a[0]) == ToUpper(b[0]) && a[1..] == b[1..])
  {
  }

  // ---------------------------------------------------------------------------
  // The panels.

  /** The parts of the query result the view reads: `isLoading`, `isError`, the
      error's message, and `data` (undefined as `None`). */
  datatype QueryView = QueryView(isLoading: bool, isError: bool, errorMessage: string, posts: Option<seq<Post>>)

  /** One `<li key={post.id}>` with the post's title and body. */
  datatype ListItem = ListItem(key: int, title: string, body: string)

  datatype Screen = Screen(
    heading: string,
    loading: Option<string>,
    error: Option<string>,
    empty: Option<string>,
    list: Option<seq<ListItem>>)

  const LoadingText := "Loading posts..."
  const EmptyText := "No posts found for this category."

  /** `posts.map(...)`: one item per post, in order. */
  function Items(posts: seq<Post>): (items: seq<ListItem>)
    ensures |items| == |posts|
    ensures forall i :: 0 <= i < |posts| ==>
      items[i] == ListItem(posts[i].id, posts[i].title, posts[i].body)
    decreases |posts|
  {
    if posts == [] then []
    else [ListItem(posts[0].id, posts[0].title, posts[0].body)] + Items(posts[1..])
  }

  /** The rendered view. */
  function Render(category: string, q: QueryView): (r: Screen)
    ensures r.heading == Heading(category)
    ensures r.loading.Some? <==> q.isLoading
    ensures r.error.Some? <==> q.isError
    ensures q.isError ==> r.error == Some("Error: " + q.errorMessage)
    ensures r.empty.Some? <==> q.posts == Some([]) && !q.isError && !q.isLoading
    ensures r.list.Some? <==> q.posts.Some? && |q.posts.value| > 0
    ensures r.list.Some? ==>
      && |r.list.value| == |q.posts.value|
      && forall i :: 0 <= i < |q.posts.value| ==>
           r.list.value[i] == ListItem(q.posts.value[i].id, q.posts.value[i].title, q.posts.value[i].body)
  {
    Screen(
      Heading(category),
      if q.isLoading then Some(LoadingText) else None,
      if q.isError then Some("Error: " + q.errorMessage) else None,
      if q.posts == Some([]) && !q.isError && !q.isLoading then Some(EmptyText) else None,
      if q.posts.Some? && |q.posts.value| > 0 then Some(Items(q.posts.value)) else None)
  }

  /** The empty-state message and the list are never shown together, and once the
      query has settled with data exactly one of them is shown. */
  lemma EmptyAndListExclusive(category: string, q: QueryView)
    ensures var r := Render(category, q); !(r.empty.Some? && r.list.Some?)
    ensures q.posts.Some? && !q.isLoading && !q.isError ==>
      var r := Render(category, q); r.empty.Some? != r.list.Some?
  {
  }

  /** With no data yet only the loading or error panels can appear. */
  lemma NoDataShowsNoPostsPanel(category: string, q: QueryView)
    requires q.posts.None?
    ensures Render(category, q).empty.None? && Render(category, q).list.None?
  {
  }
}
