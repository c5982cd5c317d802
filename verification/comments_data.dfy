/** The comment records the infinite-comments query caches, and the cache updater
    both create-comment hooks pass to `setQueryData`: prepend one comment to the
    first page and count it in that page's `totalComments`. Only the fields the
    code touches are modelled. */
module CommentsData {

  import opened Options

  datatype User = User(name: string, avatar: string)

  datatype Comment = Comment(id: int, text: string, user: User, createdAt: string)

  /** One page as the comments endpoint returns it; `nextCursor` is `null` on the
      last page. */
  datatype CommentsResponse = CommentsResponse(comments: seq<Comment>, totalComments: int, nextCursor: Option<int>)

  /** `InfiniteData<CommentsResponse, number | undefined>`: the pages fetched so
      far, oldest first, and the page parameter each was fetched with. */
  datatype InfiniteData = InfiniteData(pages: seq<CommentsResponse>, pageParams: seq<Option<int>>)

  /** `oldData?.pages[0]` is truthy: there is data and it has a first page. */
  predicate HasFirstPage(data: Option<InfiniteData>) {
    data.Some? && |data.value.pages| > 0
  }

  /** The relation a prepend establishes between the data before and after:
      page 0 gains `c` at its head and one in its count, and nothing else differs. */
  predicate PrependedTo(before: InfiniteData, after: InfiniteData, c: Comment) {
    && |before.pages| > 0
    && |after.pages| == |before.pages|
    && after.pageParams == before.pageParams
    && (forall i :: 1 <= i < |after.pages| ==> after.pages[i] == before.pages[i])
    && |after.pages[0].comments| == |before.pages[0].comments| + 1
    && after.pages[0].comments[0] == c
    && (forall j :: 0 <= j < |before.pages[0].comments| ==>
          after.pages[0].comments[j + 1] == before.pages[0].comments[j])
    && after.pages[0].totalComments == before.pages[0].totalComments + 1
    && after.pages[0].nextCursor == before.pages[0].nextCursor
  }

  /** The `setQueryData` updater of both create-comment hooks: with a first page,
      `{...oldData, pages: [{...firstPage, totalComments + 1, comments: [c, ...]},
      ...pages.slice(1)]}`; otherwise the arrow function falls off its end and
      returns `undefined`. */
  function PrependComment(oldData: Option<InfiniteData>, c: Comment): (r: Option<InfiniteData>)
    ensures r.Some? <==> HasFirstPage(oldData)
    ensures r.Some? ==> PrependedTo(oldData.value, r.value, c)
  {
    if HasFirstPage(oldData) then
      var d := oldData.value;
      var first := d.pages[0];
      var first' := first.(totalComments := first.totalComments + 1, comments := [c] + first.comments);
      Some(d.(pages := [first'] + d.pages[1..]))
    else
      None
  }

  /** `PrependedTo` leaves no freedom: the updated data is a function of the old
      data and the comment. */
  lemma PrependedToDeterministic(before: InfiniteData, a1: InfiniteData, a2: InfiniteData, c: Comment)
    requires PrependedTo(before, a1, c) && PrependedTo(before, a2, c)
    ensures a1 == a2
  {
    assert a1.pages[0].comments == a2.pages[0].comments by {
      forall j | 0 <= j < |a1.pages[0].comments|
        ensures a1.pages[0].comments[j] == a2.pages[0].comments[j]
      {
        if j > 0 {
          assert a1.pages[0].comments[(j - 1) + 1] == before.pages[0].comments[j - 1];
        }
      }
    }
    assert a1.pages[0] == a2.pages[0];
    assert a1.pages == a2.pages by {
      forall i | 0 <= i < |a1.pages|
        ensures a1.pages[i] == a2.pages[i]
      {
      }
    }
  }

  /** The inverse edit: drop the head comment of page 0 and uncount it. */
  function RemoveFirstComment(data: Option<InfiniteData>): Option<InfiniteData> {
    if HasFirstPage(data) && |data.value.pages[0].comments| > 0 then
      var d := data.value;
      var first := d.pages[0];
      var first' := first.(totalComments := first.totalComments - 1, comments := first.comments[1..]);
      Some(d.(pages := [first'] + d.pages[1..]))
    else
      data
  }

  /** Prepending a comment and then removing the first comment restores the data. */
  lemma PrependThenRemove(data: Option<InfiniteData>, c: Comment)
    requires HasFirstPage(data)
    ensures RemoveFirstComment(PrependComment(data, c)) == data
  {
    var d := data.value;
    var after := PrependComment(data, c).value;
    assert after.pages[0].comments[1..] == d.pages[0].comments;
    assert [after.pages[0].(totalComments := after.pages[0].totalComments - 1,
                            comments := after.pages[0].comments[1..])] + after.pages[1..] == d.pages;
  }

  // ---------------------------------------------------------------------------
  // The comments of all pages, in display order.

  function AllComments(pages: seq<CommentsResponse>): seq<Comment>
    decreases |pages|
  {
    if pages == [] then [] else pages[0].comments + AllComments(pages[1..])
  }

  /** Across all pages the updater adds exactly `c`, at the very front, and keeps
      every other comment in its place. */
  lemma PrependAddsExactlyOneComment(data: Option<InfiniteData>, c: Comment)
    requires HasFirstPage(data)
    ensures AllComments(PrependComment(data, c).value.pages) == [c] + AllComments(data.value.pages)
  {
  }
}
