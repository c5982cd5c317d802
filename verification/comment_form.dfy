/** `CommentForm`: the text field and the mutation's pending flag, the submit
    handler that refuses blank text, what the mutation's settle callbacks do to
    the field, and the enabled/label predicates of the controls. */
module CommentForm {

  import opened Options
  import opened AsciiText
  import opened QueryCache
  import opened CommentsData
  import opened OptimisticMutation

  /** `commentText`, and the mutation hook's `isPending` and `error` as the
      current render sees them (`error` as its template-literal rendering; `null`
      as `None`). */
  datatype Form = Form(text: string, pending: bool, error: Option<string>)

  /** What `handleSubmit` hands to `mutate`: the variables, and the `error` its
      `onError` callback closed over, i.e. the hook's error at the render that
      created this `handleSubmit`. */
  datatype Submission = Submission(vars: NewComment, errorAtRender: Option<string>)

  datatype Toast = SuccessToast(message: string) | ErrorToast(message: string)

  const SuccessMessage := "Comment added successfully"
  const ErrorPrefix := "Error adding comment: "

  /** `handleSubmit`: blank text returns early; otherwise `mutate({ text:
      commentText }, callbacks)` is dispatched with the text as typed. The new
      mutation is pending and, having not failed, has no error yet. */
  function HandleSubmit(f: Form): (r: (Form, Option<Submission>))
    ensures r.1.None? <==> forall i :: 0 <= i < |f.text| ==> IsWhitespace(f.text[i])
    ensures r.1.None? ==> r.0 == f
    ensures r.1.Some? ==>
      && r.1.value.vars.text == f.text
      && r.1.value.errorAtRender == f.error
      && r.0 == Form(f.text, true, None)
  {
    if IsBlank(f.text) then (f, None)
    else (Form(f.text, true, None), Some(Submission(NewComment(f.text), f.error)))
  }

  /** The text of the error notification, naming the failure that just happened:
      the fixed prefix, then exactly the failure's text. */
  function ErrorNotice(error: string): (msg: string)
    ensures |msg| == |ErrorPrefix| + |error|
    ensures msg[..|ErrorPrefix|] == ErrorPrefix && msg[|ErrorPrefix|..] == error
  {
    ErrorPrefix + error
  }

  /** The error notification as the component builds it: `${error}` on the
      closed-over error, which renders `null` as "null". */
  function ErrorNoticeAsWritten(errorAtRender: Option<string>): (msg: string)
    ensures errorAtRender.Some? ==> msg == ErrorNotice(errorAtRender.value)
    ensures errorAtRender.None? ==> msg == ErrorNotice("null")
  {
    ErrorPrefix + (if errorAtRender.Some? then errorAtRender.value else "null")
  }

  /** The mutation's per-call callbacks as written: success clears the field,
      failure keeps it and reports the error the submission closed over; either
      way the mutation is no longer pending, one notification is shown, and the
      next render sees the mutation's error. */
  function Settle(f: Form, sub: Submission, outcome: PostOutcome): (r: (Form, Toast))
    ensures !r.0.pending
    ensures outcome.Posted? ==> r.0 == Form("", false, None) && r.1 == SuccessToast(SuccessMessage)
    ensures outcome.PostFailed? ==>
      && r.0 == Form(f.text, false, Some(outcome.error))
      && r.1.ErrorToast?
      && |r.1.message| >= |ErrorPrefix|
      && r.1.message[..|ErrorPrefix|] == ErrorPrefix
      && r.1.message[|ErrorPrefix|..] == (if sub.errorAtRender.Some? then sub.errorAtRender.value else "null")
  {
    match outcome
    case Posted(_) => (Form("", false, None), SuccessToast(SuccessMessage))
    case PostFailed(error) => (Form(f.text, false, Some(error)), ErrorToast(ErrorNoticeAsWritten(sub.errorAtRender)))
  }

  /** The callbacks as evidently intended: a failure's notification names that
      failure. Everything else is as in `Settle`. */
  function SettleIntended(f: Form, sub: Submission, outcome: PostOutcome): (r: (Form, Toast))
    ensures r.0 == Settle(f, sub, outcome).0
    ensures outcome.Posted? ==> r.1 == SuccessToast(SuccessMessage)
    ensures outcome.PostFailed? ==>
      && r.1.ErrorToast?
      && |r.1.message| >= |ErrorPrefix|
      && r.1.message[..|ErrorPrefix|] == ErrorPrefix
      && r.1.message[|ErrorPrefix|..] == outcome.error
  {
    match outcome
    case Posted(_) => Settle(f, sub, outcome)
    case PostFailed(error) => (Form(f.text, false, Some(error)), ErrorToast(ErrorNotice(error)))
  }

  /** As written, a failure's notification names that failure only when the
      error the submission closed over renders as the same text: a stale error
      from an earlier failure, or `null` for a failure whose text is "null". */
  lemma {:induction false} StaleErrorNotice(f: Form, sub: Submission, error: string)
    ensures Settle(f, sub, PostFailed(error)).1 == SettleIntended(f, sub, PostFailed(error)).1
        <==> sub.errorAtRender == Some(error) || (sub.errorAtRender.None? && error == "null")
  {
    var shown := Settle(f, sub, PostFailed(error)).1.message;
    var meant := SettleIntended(f, sub, PostFailed(error)).1.message;
    assert shown == meant <==> shown[|ErrorPrefix|..] == meant[|ErrorPrefix|..] by {
      if shown[|ErrorPrefix|..] == meant[|ErrorPrefix|..] {
        assert shown == shown[..|ErrorPrefix|] + shown[|ErrorPrefix|..];
        assert meant == meant[..|ErrorPrefix|] + meant[|ErrorPrefix|..];
      }
    }
  }

  /** The first failed submission of "hi" from a fresh form: the notification
      names `null`, where the intended one names the failure, "boom". */
  lemma FirstFailureNotice()
    ensures HandleSubmit(Form("hi", false, None))
         == (Form("hi", true, None), Some(Submission(NewComment("hi"), None)))
    ensures Settle(Form("hi", true, None), Submission(NewComment("hi"), None), PostFailed("boom"))
         == (Form("hi", false, Some("boom")), ErrorToast(ErrorPrefix + "null"))
    ensures SettleIntended(Form("hi", true, None), Submission(NewComment("hi"), None), PostFailed("boom")).1
         == ErrorToast(ErrorPrefix + "boom")
  {
    HiIsNotBlank();
  }

  /** Submitting again after that failure and failing with "bang": the
      notification names the earlier failure, "boom". */
  lemma SecondFailureNotice()
    ensures HandleSubmit(Form("hi", false, Some("boom")))
         == (Form("hi", true, None), Some(Submission(NewComment("hi"), Some("boom"))))
    ensures Settle(Form("hi", true, None), Submission(NewComment("hi"), Some("boom")), PostFailed("bang")).1
         == ErrorToast(ErrorPrefix + "boom")
  {
    HiIsNotBlank();
  }

  lemma HiIsNotBlank()
    ensures !IsBlank("hi")
  {
    assert !IsWhitespace("hi"[0]);
  }

  // ---------------------------------------------------------------------------
  // The controls.

  /** `disabled={!commentText.trim() || isPending}` on the button. */
  predicate ButtonDisabled(f: Form) {
    IsBlank(f.text) || f.pending
  }

  /** `disabled={isPending}` on the input. */
  predicate InputDisabled(f: Form) {
    f.pending
  }

  /** `{isPending ? 'Posting...' : 'Post'}`. */
  function ButtonLabel(f: Form): string {
    if f.pending then "Posting..." else "Post"
  }

  /** The button is disabled exactly when a mutation is pending or the field holds
      nothing but white space. */
  lemma ButtonDisabledIff(f: Form)
    ensures ButtonDisabled(f) <==> f.pending || forall i :: 0 <= i < |f.text| ==> IsWhitespace(f.text[i])
  {
  }

  /** An enabled button submits: the handler dispatches the text as typed. */
  lemma EnabledButtonDispatches(f: Form)
    requires !ButtonDisabled(f)
    ensures HandleSubmit(f).1.Some? && HandleSubmit(f).1.value.vars == NewComment(f.text)
    ensures ButtonLabel(f) == "Post" && !InputDisabled(f)
  {
  }

  /** Across one submission: once a mutation is dispatched both controls are
      locked and the label says "Posting...", so no second mutation can be sent
      from the form; once it settles the input is free again and the label is
      "Post", and the button is enabled again exactly when the post failed (the
      typed text is still there to retry). */
  lemma ControlsAcrossSubmission(f: Form, outcome: PostOutcome)
    requires !IsBlank(f.text)
    ensures
      var (submitted, sub) := HandleSubmit(f);
      && InputDisabled(submitted) && ButtonDisabled(submitted) && ButtonLabel(submitted) == "Posting..."
      && var settled := Settle(submitted, sub.value, outcome).0;
         && !InputDisabled(settled)
         && ButtonLabel(settled) == "Post"
         && (ButtonDisabled(settled) <==> outcome.Posted?)
  {
  }

  // ---------------------------------------------------------------------------
  // One submission end to end, against the comments cache.

  datatype Round = Round(form: Form, slot: Slot<InfiniteData>, toast: Option<Toast>)

  /** Submit, run the optimistic mutation with the post's `outcome`, settle. */
  function SubmitRound(f: Form, s: Slot<InfiniteData>, clock: Clock, outcome: PostOutcome, policy: UndefinedWrite): (r: Round)
    ensures IsBlank(f.text) ==> r == Round(f, s, None)
    ensures !IsBlank(f.text) ==> !r.form.pending && r.toast.Some?
    ensures !IsBlank(f.text) && outcome.Posted? ==>
      && r.form.text == ""
      && (HasFirstPage(s.data) ==> r.slot.data.Some? && PrependedTo(s.data.value, r.slot.data.value, Placeholder(NewComment(f.text), clock)))
    ensures !IsBlank(f.text) && outcome.PostFailed? ==>
      && r.form.text == f.text
      && r.form.error == Some(outcome.error)
      && r.slot.data == s.data
      && r.toast == Some(ErrorToast(ErrorNoticeAsWritten(f.error)))
  {
    var (submitted, dispatched) := HandleSubmit(f);
    match dispatched
    case None => Round(f, s, None)
    case Some(sub) =>
      var slot := RunMutation(s, sub.vars, clock, outcome, policy);
      var (settled, toast) := Settle(submitted, sub, outcome);
      Round(settled, slot, Some(toast))
  }
}
