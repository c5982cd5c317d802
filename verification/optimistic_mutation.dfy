/** `useCreateCommentMutationOptimistic`: before the post is sent, `onMutate`
    cancels the comments query, snapshots its data, and prepends a placeholder
    comment; if the post fails, `onError` writes the snapshot back. The hook has
    no success handler. */
module OptimisticMutation {

  import opened Options
  import opened QueryCache
  import opened CommentsData
  import CommentsHooks

  /** The two clock reads of `onMutate`: `Date.now()` and `new Date().toISOString()`. */
  datatype Clock = Clock(nowMillis: int, isoNow: string)

  /** The mutation variables `{ text }`. */
  datatype NewComment = NewComment(text: string)

  /** The context `onMutate` returns: `{ previousData }`. */
  datatype MutationContext = MutationContext(previousData: Option<InfiniteData>)

  /** What the post to `/api/comments/` came back with. A failure carries the
      error as a template literal renders it (`${error}`). */
  datatype PostOutcome = Posted(comment: Comment) | PostFailed(error: string)

  const CurrentUser := User("Current User", "CU")

  /** The locally built stand-in for the comment being posted. */
  function Placeholder(vars: NewComment, clock: Clock): Comment {
    Comment(clock.nowMillis, vars.text, CurrentUser, clock.isoNow)
  }

  /** `onMutate`: the slot after its three calls, and the context it returns. */
  function OnMutate(s: Slot<InfiniteData>, vars: NewComment, clock: Clock, policy: UndefinedWrite): (r: (Slot<InfiniteData>, MutationContext))
    ensures r.1.previousData == s.data
    ensures r.0.events == s.events + [Cancelled(CommentsHooks.CommentsKey), Read(CommentsHooks.CommentsKey), Written(CommentsHooks.CommentsKey)]
    ensures HasFirstPage(s.data) ==>
      && r.0.data.Some?
      && PrependedTo(s.data.value, r.0.data.value, Placeholder(vars, clock))
      && r.0.data.value.pages[0].comments[0].text == vars.text
      && r.0.data.value.pages[0].comments[0].user == User("Current User", "CU")
      && r.0.data.value.pages[0].comments[0].id == clock.nowMillis
      && r.0.data.value.pages[0].comments[0].createdAt == clock.isoNow
    ensures !HasFirstPage(s.data) ==> r.0.data == (if policy == KeepsData then s.data else None)
  {
    var key := CommentsHooks.CommentsKey;
    var cancelled := CancelQueries(s, key);
    var (read, previousData) := GetQueryData(cancelled, key);
    var written := SetQueryData(read, key, PrependComment(read.data, Placeholder(vars, clock)), policy);
    (written, MutationContext(previousData))
  }

  /** `onError`: `setQueryData(["comments"], context?.previousData)`. The value
      written is the captured snapshot, whatever the slot holds by then. */
  function OnError(s: Slot<InfiniteData>, context: Option<MutationContext>, policy: UndefinedWrite): (r: Slot<InfiniteData>)
    ensures r.events == s.events + [Written(CommentsHooks.CommentsKey)]
    ensures context.Some? && context.value.previousData.Some? ==> r.data == context.value.previousData
    ensures policy == ClearsData ==> r.data == (if context.Some? then context.value.previousData else None)
  {
    var previous := if context.Some? then context.value.previousData else None;
    SetQueryData(s, CommentsHooks.CommentsKey, previous, policy)
  }

  /** `onMutate` followed by `onError` leaves the data exactly as it was before the
      mutation, under either reading of an undefined write. */
  lemma RollbackRestoresSnapshot(s: Slot<InfiniteData>, vars: NewComment, clock: Clock, policy: UndefinedWrite)
    ensures
      var (m, context) := OnMutate(s, vars, clock, policy);
      OnError(m, Some(context), policy).data == s.data
  {
  }

  /** Rollback writes the snapshot, not something derived from the slot: whatever
      landed in the slot after `onMutate` is overwritten — always when the
      snapshot held data, and for an empty snapshot when an undefined write
      clears the slot. */
  lemma RollbackOverwritesInterimWrites(s: Slot<InfiniteData>, vars: NewComment, clock: Clock, policy: UndefinedWrite, interim: Slot<InfiniteData>)
    requires s.data.Some? || policy == ClearsData
    ensures
      var context := OnMutate(s, vars, clock, policy).1;
      OnError(interim, Some(context), policy).data == s.data
  {
  }

  /** The one case the snapshot does not win: if an undefined write keeps the
      data, an empty snapshot leaves whatever landed in the slot meanwhile. */
  lemma EmptySnapshotUnderKeepsData(s: Slot<InfiniteData>, vars: NewComment, clock: Clock, interim: Slot<InfiniteData>)
    requires s.data.None?
    ensures
      var context := OnMutate(s, vars, clock, KeepsData).1;
      OnError(interim, Some(context), KeepsData).data == interim.data
  {
  }

  /** The whole mutation against the cache: `onMutate`, the post, then `onError`
      on failure. A successful post makes no further cache write. */
  function RunMutation(s: Slot<InfiniteData>, vars: NewComment, clock: Clock, outcome: PostOutcome, policy: UndefinedWrite): (r: Slot<InfiniteData>)
    ensures outcome.PostFailed? ==> r.data == s.data
    ensures outcome.Posted? ==> r == OnMutate(s, vars, clock, policy).0
    ensures outcome.Posted? && HasFirstPage(s.data) ==>
      r.data.Some? && PrependedTo(s.data.value, r.data.value, Placeholder(vars, clock))
    ensures |r.events| == |s.events| + (if outcome.Posted? then 3 else 4)
  {
    var (m, context) := OnMutate(s, vars, clock, policy);
    RollbackRestoresSnapshot(s, vars, clock, policy);
    match outcome
    case Posted(_) => m
    case PostFailed(_) => OnError(m, Some(context), policy)
  }

  /** With no first page the optimistic updater builds nothing, and a failed post
      restores the same snapshot. */
  lemma EmptySlotMutation(s: Slot<InfiniteData>, vars: NewComment, clock: Clock, error: string, policy: UndefinedWrite)
    requires !HasFirstPage(s.data)
    ensures PrependComment(s.data, Placeholder(vars, clock)).None?
    ensures OnMutate(s, vars, clock, policy).1.previousData == s.data
    ensures RunMutation(s, vars, clock, PostFailed(error), policy).data == s.data
  {
  }

  /** The behaviour spelled out for a first page with no comments: the placeholder
      is counted at once, and a failure brings the count back to zero. */
  lemma OptimisticExample(pageParams: seq<Option<int>>, clock: Clock)
    ensures
      var start := Slot(Some(InfiniteData([CommentsResponse([], 0, None)], pageParams)), []);
      var (m, _) := OnMutate(start, NewComment("hi"), clock, KeepsData);
      && m.data.value.pages[0].totalComments == 1
      && m.data.value.pages[0].comments == [Comment(clock.nowMillis, "hi", CurrentUser, clock.isoNow)]
      && RunMutation(start, NewComment("hi"), clock, PostFailed("boom"), KeepsData).data == start.data
  {
  }
}
