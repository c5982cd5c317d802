# Comments and posts glue around a query cache — a Dafny model

The repository is a tutorial application built on a query-cache library. The
library itself is not part of this model. The model covers the logic the
application owns:

- **Infinite comments query** (`useCommentsQuery`). It builds the page URL from
  the page cursor. It starts from an undefined cursor, and it takes the next
  cursor from the last page's `nextCursor`.
- **Create-comment success handler** (`useCreateCommentMutation`). It cancels
  the `["comments"]` query and then writes through an updater. The updater puts
  the new comment at the head of page 0 and adds one to `totalComments`.
- **Optimistic create-comment protocol** (`useCreateCommentMutationOptimistic`).
  `onMutate` cancels the query, takes a snapshot, writes a placeholder comment
  through the same updater, and returns `{previousData}`. `onError` writes the
  snapshot back.
- **Comment form** (`CommentForm`). Blank text is never submitted. A success
  clears the field. A failure keeps the field and shows a notice built from the
  hook's `error` as of the render that created the submit handler
  (`CommentForm.Settle` follows the code; `CommentForm.SettleIntended` is the
  corrected variant, see "## Findings"). The button and input are enabled or
  disabled according to the text and the pending flag.
- **Posts view** (`FetchWithReactQuery`). It derives the query key and the URL
  from the category, capitalises the heading, and decides which of the loading,
  error, empty and list panels to show.

The three `queryClient` methods the code calls (`cancelQueries`, `getQueryData`,
`setQueryData`) are modelled on one abstract cache slot (`QueryCache.Slot`). The slot
holds `Option<InfiniteData>` and records each call, with its key, in an event
trace. This makes the order of the calls something a contract can state. The
slot does not model how the library treats an `undefined` write. That choice is
the parameter `UndefinedWrite`: either the existing data is kept, or it is
cleared. Every theorem states which reading it needs. Other inputs are also
parameters: the clock reads (`Clock`), the outcome of the post (`PostOutcome`)
and the comments endpoint (`server`, which maps a page URL to the page it
returns). The library's other entry points appear only through what the code
gives them or reads from them. The paging `useInfiniteQuery` performs with the
code's options is modelled by `CommentsHooks.NextFetch` and
`CommentsHooks.FetchNextPage`. The posts `useQuery` result is the input
`PostsView.QueryView`. `useMutation` is modelled by the callbacks the code hands
it, run in order by `OptimisticMutation.RunMutation`. `useQueryClient` only
supplies the slot.

Modules: `Options`, `AsciiText` (trim, upper-case, decimal numerals),
`QueryCache`, `CommentsData` (records and the prepend updater), `CommentsHooks`,
`OptimisticMutation`, `CommentForm`, `PostsView`.

Three behaviours of the code are worth stating up front:

- The only direct cache operations the code performs are the three
  `queryClient` calls `cancelQueries`, `getQueryData` and `setQueryData`.
- The optimistic hook defines no success handler. After a successful post the
  placeholder stays as `onMutate` left it (`RunMutation`).
- A `nextCursor` of 0 does not end pagination. It is falsy, so the next fetch
  uses the URL with no cursor and appends the first page again
  (`ZeroCursorRefetchesFirstPage`).

## Model

| member | source | states |
|---|---|---|
| AsciiText.Trim | src/app/infinite-query/CommentForm.tsx:17 | the trimmed text has no white space at either end, and it is empty exactly when every character of the input is white space |
| AsciiText.IntDecimalRoundTrip | src/app/infinite-query/use-comments-hooks.ts:20 | the decimal numeral the template literal writes for a cursor reads back to the same integer |
| AsciiText.Capitalize | src/app/basic-react-query/FetchWithReactQuery.tsx:21 | the length is kept, the first character is upper-cased and the rest is unchanged |
| CommentsData.PrependComment | src/app/infinite-query/use-comments-hooks.ts:53-70 | the updater yields data exactly when there is a first page; the page count and `pageParams` are kept; pages 1 and later are unchanged; page 0 gets the comment at its head, then its old comments in order, one more in `totalComments`, and the same `nextCursor` |
| CommentsData.PrependedToDeterministic | src/app/infinite-query/use-comments-hooks.ts:58-68 | the before/after relation leaves no freedom: nothing outside page 0's head and count can change |
| CommentsData.PrependThenRemove | src/app/infinite-query/use-comments-hooks.ts:62-64 | dropping page 0's head comment and uncounting it undoes the updater exactly |
| CommentsData.PrependAddsExactlyOneComment | src/app/infinite-query/use-comments-hooks.ts:59-67 | across all pages in display order, the updater adds exactly the new comment at the very front |
| CommentsHooks.CommentsUrl | src/app/infinite-query/use-comments-hooks.ts:16-21 | every page URL starts with `/api/comments?`, and it is exactly that, with no cursor, iff the cursor is undefined or 0 |
| CommentsHooks.CommentsUrlCarriesTruthyCursor | src/app/infinite-query/use-comments-hooks.ts:18-20 | the cursor can be read back from the URL when it is truthy; an undefined cursor and the cursor 0 leave no trace |
| CommentsHooks.CommentsUrlCollapsesOnlyFalsyCursors | src/app/infinite-query/use-comments-hooks.ts:18-20 | distinct truthy cursors give distinct URLs; the cursor 0 gives the same URL as no cursor |
| CommentsHooks.NextFetch | src/app/infinite-query/use-comments-hooks.ts:23-31 | with no first page the fetch uses the undefined initial cursor; otherwise the cursor is the last page's `nextCursor`, and there is no next page iff that is null |
| CommentsHooks.FetchNextPageKeepsChain | src/app/infinite-query/use-comments-hooks.ts:25-31 | fetching a page keeps one page parameter per page, with page 0 at the initial cursor and each later page at its predecessor's `nextCursor`; it is a no-op iff there is no next page |
| CommentsHooks.PrependCommentKeepsChain | src/app/infinite-query/use-comments-hooks.ts:57-67 | the comment updater preserves that cursor chain |
| CommentsHooks.ZeroCursorRefetchesFirstPage | src/app/infinite-query/use-comments-hooks.ts:18-20 | after a page whose `nextCursor` is 0, the next fetch asks for `/api/comments?` and appends what the first fetch got, with page parameter 0 |
| CommentsHooks.PaginationWalk | src/app/infinite-query/use-comments-hooks.ts:33-41 | the first fetch has no cursor; a first page whose `nextCursor` is 5 makes the next fetch use `?cursor=5`; pages are accumulated in fetch order; after a page whose `nextCursor` is null, fetching again changes nothing |
| CommentsHooks.OnCreateSuccess | src/app/infinite-query/use-comments-hooks.ts:50-71 | the comments key is cancelled before the write; with a first page, the server's comment is prepended as the updater promises |
| OptimisticMutation.OnMutate | src/app/infinite-query/use-comments-hook-optimistic.tsx:10-42 | calls run in the order cancel, read, write, all on `["comments"]`; the returned `previousData` is the slot's data before the write; with a first page, a placeholder that carries the text verbatim, user "Current User"/"CU" and the clock's id and timestamp is prepended |
| OptimisticMutation.OnError | src/app/infinite-query/use-comments-hook-optimistic.tsx:43-45 | a snapshot that holds data is written back whatever the slot holds now; the call is recorded as a write to `["comments"]` |
| OptimisticMutation.RollbackRestoresSnapshot | src/app/infinite-query/use-comments-hook-optimistic.tsx:10-45 | `onMutate` followed by `onError` leaves the slot's data exactly as before the mutation, under either reading of an undefined write |
| OptimisticMutation.RollbackOverwritesInterimWrites | src/app/infinite-query/use-comments-hook-optimistic.tsx:44 | whatever landed in the slot after `onMutate` is replaced by the snapshot: always when the snapshot held data, and for an empty snapshot when an undefined write clears the slot |
| OptimisticMutation.EmptySnapshotUnderKeepsData | src/app/infinite-query/use-comments-hook-optimistic.tsx:44 | if an undefined write keeps the data, rolling back an empty snapshot leaves any interim data in place |
| OptimisticMutation.RunMutation | src/app/infinite-query/use-comments-hook-optimistic.tsx:8-46 | a failed post ends with the pre-mutation data; a successful post makes no write after `onMutate`, so the placeholder stays |
| OptimisticMutation.EmptySlotMutation | src/app/infinite-query/use-comments-hook-optimistic.tsx:25-27 | with no first page the updater builds nothing, the snapshot is the slot's data, and a failure restores it |
| OptimisticMutation.OptimisticExample | src/app/infinite-query/use-comments-hook-optimistic.tsx:25-41 | from an empty first page, posting "hi" shows one placeholder and a count of 1 at once; a failure brings the data back to the start |
| CommentForm.HandleSubmit | src/app/infinite-query/CommentForm.tsx:14-20 | nothing is dispatched, and nothing changes, iff the text is white space throughout; otherwise one mutation is dispatched with the untrimmed text, it is pending with no error yet, and its error callback closes over the error the form showed at that render |
| CommentForm.Settle | src/app/infinite-query/CommentForm.tsx:21-27 | a success clears the text and shows the success notice; a failure keeps the text and shows the prefix followed by the error closed over at submission, or `null` when there was none; either way nothing is pending afterwards, and after a failure the next render sees the new error |
| CommentForm.SettleIntended | src/app/infinite-query/CommentForm.tsx:21-27 | the corrected callbacks: the same form state as `Settle`, but a failure's notice is the prefix followed by exactly that failure's text |
| CommentForm.ErrorNotice | src/app/infinite-query/CommentForm.tsx:26 | the corrected notice is the fixed prefix followed by exactly the failure's text |
| CommentForm.ErrorNoticeAsWritten | src/app/infinite-query/CommentForm.tsx:26 | the notice is the fixed prefix followed by the closed-over error, and `null` renders as "null" |
| CommentForm.StaleErrorNotice | src/app/infinite-query/CommentForm.tsx:26 | as written, a failure's notice names that failure iff the error closed over at submission renders as the same text |
| CommentForm.FirstFailureNotice | src/app/infinite-query/CommentForm.tsx:12-27 | on a fresh form, a first failure ("boom") is reported as "Error adding comment: null", where the corrected callbacks report "boom" |
| CommentForm.SecondFailureNotice | src/app/infinite-query/CommentForm.tsx:12-27 | submitting again after that failure, a second failure ("bang") is reported as the first one, "boom" |
| CommentForm.ButtonDisabledIff | src/app/infinite-query/CommentForm.tsx:40 | the button is disabled iff a mutation is pending or the text is white space throughout |
| CommentForm.EnabledButtonDispatches | src/app/infinite-query/CommentForm.tsx:17-20 | an enabled button always leads to a dispatch of the text as typed, and the label reads "Post" |
| CommentForm.ControlsAcrossSubmission | src/app/infinite-query/CommentForm.tsx:14-41 | once a submission is dispatched, the input and the button are disabled and the label is "Posting...", so the form cannot send a second one; once it settles, the input is enabled, the label is "Post", and the button is enabled again iff the post failed |
| CommentForm.SubmitRound | src/app/infinite-query/CommentForm.tsx:14-28 | end to end: blank text changes neither the form nor the cache; a successful post clears the text and leaves the placeholder in place; a failed post keeps the text, restores the cache data, records the new error, and reports the error the form held before the submission |
| PostsView.PostsKeyInjective | src/app/basic-react-query/FetchWithReactQuery.tsx:11 | distinct categories give distinct keys `["posts", category]`, none equal to the comments key |
| PostsView.PostsUrlRoundTrip | src/app/basic-react-query/FetchWithReactQuery.tsx:12 | the category can be read back from the URL exactly as given, with no encoding, so distinct categories fetch distinct URLs |
| PostsView.Heading | src/app/basic-react-query/FetchWithReactQuery.tsx:21 | the heading is the category with its first character upper-cased, followed by " Posts"; an empty category gives " Posts" |
| PostsView.HeadingIgnoresOnlyFirstLetterCase | src/app/basic-react-query/FetchWithReactQuery.tsx:21 | two categories share a heading iff they differ at most in the case of their first letter |
| PostsView.Items | src/app/basic-react-query/FetchWithReactQuery.tsx:42-47 | one list item per post, in order, keyed by the post's id and carrying its title and body |
| PostsView.Render | src/app/basic-react-query/FetchWithReactQuery.tsx:18-51 | the loading panel is shown iff loading; the error panel iff in error; the empty message iff the posts are defined and empty and the view is neither loading nor in error; the list iff the posts are defined and non-empty, with one item per post |
| PostsView.EmptyAndListExclusive | src/app/basic-react-query/FetchWithReactQuery.tsx:34-40 | the empty message and the list are never shown together; once settled with data, exactly one of them is shown |
| PostsView.NoDataShowsNoPostsPanel | src/app/basic-react-query/FetchWithReactQuery.tsx:34-40 | with undefined posts, neither the empty message nor the list is shown |

## Left out

- Query-library internals are not modelled. These include deduplication, supersession of in-flight fetches, staleness, garbage collection, observers, retries and refetch on focus. The code does not implement them; it only calls the library. `CancelQueries` therefore records the call and leaves the data alone.
- The library's treatment of an `undefined` write is not visible. Both readings are carried by the `UndefinedWrite` parameter, and no stronger claim is made.
- `fetchData`/`postData` and the API route handlers are network I/O. The post's result is the parameter `PostOutcome`, and the comments endpoint is the function parameter `server`.
- `Date.now()` and `toISOString()` are read from the parameter `Clock`.
- `async`/`await` scheduling is not modelled. Each handler runs as one sequential step.
- Only the record fields the code touches are modelled: `comments`, `totalComments` and `nextCursor` of a page, and `id`, `text`, `user` and `createdAt` of a comment.
- The mutation error is carried as the text `${error}` renders. The helper that throws it (src/lib/fetch-utils) is not part of this model, so the model does not say whether that text is `"Error: "` followed by a message.
- `isLoading` and `isError` are independent inputs to `PostsView.Render`. How the library derives them is not modelled.
- JSX markup, styling, notifications as UI, React state plumbing and the whole of src/app/layout.tsx carry no stateable logic and are not modelled.
- Cursors are integers. Fractional, NaN and infinite numbers are not modelled. `AsciiText.IntToDecimal` writes the plain decimal numeral, which is what JavaScript writes only for integers below 10^21 in magnitude. Integers beyond 2^53 are not even representable as JavaScript numbers. So `CommentsUrl` is the code's URL only for safe integers.
- AsciiText.Trim: strips ASCII white space only. JavaScript's `trim` also strips U+00A0, U+FEFF, the other Zs space separators and U+2028/U+2029. Here those count as text, so a comment made of a single no-break space is dispatched, where the code would refuse it.
- AsciiText.Capitalize: upper-cases ASCII letters only. A category starting with "é" keeps it lower-case, where the code writes "É". A category starting with "ß" keeps that one character, where the code writes "SS".

## Findings

| source | as written | input that shows it | evidently intended | confidence | as-written member | corrected member |
|---|---|---|---|---|---|---|
| src/app/infinite-query/CommentForm.tsx:26 | the error notice interpolates the hook's `error` as captured when `handleSubmit` was created, and that value is `null` until some earlier mutation has failed | on a fresh form, submit "hi" and let the post fail with "boom": the notice reads "Error adding comment: null" | the notice names the failure being reported (the error passed to the callback) | medium; not executed | CommentForm.FirstFailureNotice | CommentForm.SettleIntended |
