/** `useCommentsQuery` and `useCreateCommentMutation`: the page URL built from a
    cursor, the first and next page parameters, the way the infinite query strings
    pages together from them, and the create hook's success handler. */
module CommentsHooks {

  import opened Options
  import opened AsciiText
  import opened QueryCache
  import opened CommentsData

  const CommentsKey: QueryKey := ["comments"]

  const CommentsPath := "/api/comments?"
  const CursorField := "cursor="

  /** A `number | undefined` page parameter is truthy when defined and non-zero. */
  predicate IsTruthy(pageParam: Option<int>) {
    pageParam.Some? && pageParam.value != 0
  }

  /** The URL `queryFn` fetches: `/api/comments?${pageParam ? `cursor=${pageParam}` : ""}`. */
  function CommentsUrl(pageParam: Option<int>): (url: string)
    ensures |url| >= |CommentsPath| && url[..|CommentsPath|] == CommentsPath
    ensures url == CommentsPath <==> !IsTruthy(pageParam)
  {
    CommentsPath + (if IsTruthy(pageParam) then CursorField + IntToDecimal(pageParam.value) else "")
  }

  /** Reads the cursor back out of a comments URL; `None` when there is none. */
  function CursorOfUrl(url: string): Option<int> {
    if |url| >= |CommentsPath| + |CursorField| && url[..|CommentsPath|] == CommentsPath
       && url[|CommentsPath|..|CommentsPath| + |CursorField|] == CursorField
    then ParseInt(url[|CommentsPath| + |CursorField|..])
    else None
  }

  /** The URL carries exactly the truthy cursors: a truthy cursor is read back
      unchanged, while an undefined cursor and the cursor 0 leave no trace. */
  lemma {:induction false} CommentsUrlCarriesTruthyCursor(pageParam: Option<int>)
    ensures CursorOfUrl(CommentsUrl(pageParam)) == (if IsTruthy(pageParam) then pageParam else None)
  {
    if IsTruthy(pageParam) {
      var tail := IntToDecimal(pageParam.value);
      var url := CommentsPath + (CursorField + tail);
      assert url == CommentsUrl(pageParam);
      var n := |CommentsPath|;
      var m := |CommentsPath| + |CursorField|;
      assert url[..n] == CommentsPath;
      assert url[n..m] == CursorField;
      assert url[m..] == tail;
      IntDecimalRoundTrip(pageParam.value);
    }
  }

  /** Distinct truthy cursors fetch distinct URLs; the cursor 0 fetches the same
      URL as no cursor, i.e. the first page. */
  lemma CommentsUrlCollapsesOnlyFalsyCursors(p: Option<int>, q: Option<int>)
    ensures IsTruthy(p) && IsTruthy(q) ==> (CommentsUrl(p) == CommentsUrl(q) <==> p == q)
    ensures CommentsUrl(Some(0)) == CommentsUrl(None) == CommentsPath
  {
    CommentsUrlCarriesTruthyCursor(p);
    CommentsUrlCarriesTruthyCursor(q);
  }

  /** `initialPageParam: undefined`. */
  const InitialPageParam: Option<int> := None

  /** `getNextPageParam: (lastPage) => lastPage.nextCursor`. */
  function GetNextPageParam(lastPage: CommentsResponse): Option<int> {
    lastPage.nextCursor
  }

  // ---------------------------------------------------------------------------
  // How the infinite query strings pages together from the options above. The
  // library's own bookkeeping is reduced to this: the first fetch uses the
  // initial page parameter, each later one the next page parameter of the last
  // page, and a null or undefined next page parameter means there is no next page.

  datatype FetchStep = FetchPage(pageParam: Option<int>, url: string) | NoNextPage

  function Last<T>(s: seq<T>): T
    requires |s| > 0
  {
    s[|s| - 1]
  }

  /** The fetch the query would make next for the data it holds. */
  function NextFetch(data: Option<InfiniteData>): (r: FetchStep)
    ensures !HasFirstPage(data) ==> r == FetchPage(None, CommentsPath)
    ensures HasFirstPage(data) ==> (r.NoNextPage? <==> Last(data.value.pages).nextCursor.None?)
    ensures HasFirstPage(data) && r.FetchPage? ==> r.pageParam == Last(data.value.pages).nextCursor
    ensures r.FetchPage? ==> r.url == CommentsUrl(r.pageParam)
  {
    if !HasFirstPage(data) then
      FetchPage(InitialPageParam, CommentsUrl(InitialPageParam))
    else
      var next := GetNextPageParam(Last(data.value.pages));
      if next.None? then NoNextPage else FetchPage(next, CommentsUrl(next))
  }

  /** `fetchNextPage()` with `server` standing for the endpoint: `queryFn` asks
      it for the page URL, and the page it returns is appended together with the
      page parameter the URL was built from. */
  function FetchNextPage(data: Option<InfiniteData>, server: string -> CommentsResponse): Option<InfiniteData> {
    match NextFetch(data)
    case NoNextPage => data
    case FetchPage(param, url) =>
      var held := Held(data);
      Some(InfiniteData(held.pages + [server(url)], held.pageParams + [param]))
  }

  /** The shape the options above give the data: one page parameter per page,
      page 0 fetched with the initial parameter and every later page with its
      predecessor's `nextCursor`. */
  predicate CursorChain(d: InfiniteData) {
    && |d.pageParams| == |d.pages|
    && |d.pages| > 0
    && d.pageParams[0] == InitialPageParam
    && forall i :: 1 <= i < |d.pages| ==> d.pageParams[i] == d.pages[i - 1].nextCursor
  }

  /** Fetching a page keeps the chain, or starts it when there is no first page yet,
      and is a no-op exactly when the last page has no next cursor. */
  lemma FetchNextPageKeepsChain(data: Option<InfiniteData>, server: string -> CommentsResponse)
    requires data.None? || CursorChain(data.value)
    ensures
      var r := FetchNextPage(data, server);
      && r.Some?
      && CursorChain(r.value)
      && (r == data <==> NextFetch(data).NoNextPage?)
  {
  }

  /** A `nextCursor` of 0 does not end pagination, but it is falsy, so the next
      fetch asks for the bare `/api/comments?` and appends the first page again. */
  lemma ZeroCursorRefetchesFirstPage(data: Option<InfiniteData>, server: string -> CommentsResponse)
    requires HasFirstPage(data) && Last(data.value.pages).nextCursor == Some(0)
    ensures FetchNextPage(data, server)
         == Some(InfiniteData(data.value.pages + [server(CommentsPath)], data.value.pageParams + [Some(0)]))
    ensures Last(FetchNextPage(data, server).value.pages) == FetchNextPage(None, server).value.pages[0]
  {
  }

  /** The data a fetch appends to: nothing until there is a first page. */
  function Held(data: Option<InfiniteData>): InfiniteData {
    if HasFirstPage(data) then data.value else InfiniteData([], [])
  }

  /** The comment updater keeps the chain: page 0's cursor and the later pages are
      untouched. */
  lemma PrependCommentKeepsChain(data: Option<InfiniteData>, c: Comment)
    requires data.Some? && CursorChain(data.value)
    ensures CursorChain(PrependComment(data, c).value)
  {
  }

  /** The walk traced in the hook's comments: the first fetch has no cursor; a
      first page whose `nextCursor` is 5 makes the next fetch use cursor 5; and
      after a page with a null cursor there is nothing more to fetch. */
  lemma PaginationWalk(server: string -> CommentsResponse)
    requires server("/api/comments?").nextCursor == Some(5)
    requires server("/api/comments?cursor=5").nextCursor == Some(9)
    requires server("/api/comments?cursor=9").nextCursor == None
    ensures NextFetch(None) == FetchPage(None, "/api/comments?")
    ensures NextFetch(FetchNextPage(None, server)) == FetchPage(Some(5), "/api/comments?cursor=5")
    ensures
      var d3 := FetchNextPage(FetchNextPage(FetchNextPage(None, server), server), server);
      && d3 == Some(InfiniteData(
        [server("/api/comments?"), server("/api/comments?cursor=5"), server("/api/comments?cursor=9")],
        [None, Some(5), Some(9)]))
      && FetchNextPage(d3, server) == d3
  {
    var p0, p1, p2 := server("/api/comments?"), server("/api/comments?cursor=5"), server("/api/comments?cursor=9");
    var d1 := FetchNextPage(None, server);
    assert d1 == Some(InfiniteData([p0], [None])) by {
      assert NextFetch(None) == FetchPage(None, CommentsPath);
      assert Held(None) == InfiniteData([], []);
      assert [] + [p0] == [p0];
      assert [] + [InitialPageParam] == [InitialPageParam];
    }
    assert NextFetch(d1) == FetchPage(Some(5), "/api/comments?cursor=5") by {
      assert IntToDecimal(5) == "5";
    }
    var d2 := FetchNextPage(d1, server);
    assert d2 == Some(InfiniteData([p0, p1], [None, Some(5)])) by {
      assert [p0] + [p1] == [p0, p1];
      assert [None] + [Some(5)] == [None, Some(5)];
    }
    var d3 := FetchNextPage(d2, server);
    assert d3 == Some(InfiniteData([p0, p1, p2], [None, Some(5), Some(9)])) by {
      assert NextFetch(d2) == FetchPage(Some(9), "/api/comments?cursor=9") by {
        assert IntToDecimal(9) == "9";
      }
      assert [p0, p1] + [p2] == [p0, p1, p2];
      assert [None, Some(5)] + [Some(9)] == [None, Some(5), Some(9)];
    }
    assert NextFetch(d3) == NoNextPage;
  }

  // ---------------------------------------------------------------------------
  // useCreateCommentMutation: on success, cancel the comments query, then write
  // the server's comment through the prepend updater.

  function OnCreateSuccess(s: Slot<InfiniteData>, comment: Comment, policy: UndefinedWrite): (r: Slot<InfiniteData>)
    ensures r.events == s.events + [Cancelled(CommentsKey), Written(CommentsKey)]
    ensures HasFirstPage(s.data) ==> r.data.Some? && PrependedTo(s.data.value, r.data.value, comment)
    ensures !HasFirstPage(s.data) ==> r.data == (if policy == KeepsData then s.data else None)
  {
    var cancelled := CancelQueries(s, CommentsKey);
    SetQueryData(cancelled, CommentsKey, PrependComment(cancelled.data, comment), policy)
  }
}
