/** The applications page controller: which dialog is open, which
    application is being edited or deleted, the state of the three mutation
    hooks it drives, and the calls it makes on them. The mutation hooks are
    an abstract create/update/delete interface: each call starts a mutation,
    and the server's answer later settles it, with the page's success
    callback run on success. */
module TableFeature {
  import opened Wrappers
  import opened JobTypes
  import TableCells
  import ApplicationForm

  /** The part of a mutation hook's state the page reads. */
  datatype Mutation = Mutation(isPending: bool, error: Option<string>)

  /** A hook that has not run, or whose last run succeeded. */
  const Idle: Mutation := Mutation(false, None)

  /** A hook after `mutate`: pending, with the previous error cleared. */
  const Started: Mutation := Mutation(true, None)

  /** How the server answered a mutation, as far as the page sees it:
      whether it succeeded, or the error message the hook shows. The page's
      success callbacks take no argument (ApplicationTableFeature.tsx
      passes `() => ...` to each hook), so unlike `JobsQueries.Reply`
      the entity the server returned is not part of an outcome here. */
  datatype Outcome = Succeeded | Failed(message: string)

  /** A hook after its request has been answered. */
  function Settled(outcome: Outcome): (m: Mutation)
    ensures !m.isPending
    ensures m.error.Some? <==> outcome.Failed?
    ensures outcome.Failed? ==> m.error.value == outcome.message
  {
    match outcome
    case Succeeded => Idle
    case Failed(message) => Mutation(false, Some(message))
  }

  /** A call the page makes on a mutation hook. */
  datatype MutateCall =
    | CreateCall(request: CreateRequest)
    | UpdateCall(id: string, request: CreateRequest)
    | DeleteCall(id: string)

  /** What can happen on the page: the user's clicks and submissions, and
      the answers to the mutations. */
  datatype Event =
    | NewClick
    | EditClick(job: JobApplication)
    | DeleteClick(job: JobApplication)
    | SubmitForm(request: CreateRequest)
    | ConfirmDelete
    | CloseDialog
    | CancelDelete
    | CreateSettled(outcome: Outcome)
    | UpdateSettled(outcome: Outcome)
    | DeleteSettled(outcome: Outcome)

  /** The page's state together with its mutation hooks and the log of
      calls made on them. */
  datatype State = State(
    isDialogOpen: bool,
    editingJob: Option<JobApplication>,
    deletingJob: Option<JobApplication>,
    createMutation: Mutation,
    updateMutation: Mutation,
    deleteMutation: Mutation,
    calls: seq<MutateCall>)

  /** The page as first rendered. */
  const Initial: State := State(false, None, None, Idle, Idle, Idle, [])

  /** `isSubmitting` as passed to the form dialog. */
  predicate IsSubmitting(s: State) {
    s.createMutation.isPending || s.updateMutation.isPending
  }

  /** The form dialog's `mode`. */
  function Mode(s: State): (m: ApplicationForm.Mode)
    ensures m == ApplicationForm.Edit <==> s.editingJob.Some?
  {
    if s.editingJob.Some? then ApplicationForm.Edit else ApplicationForm.Create
  }

  /** The delete dialog is open exactly while an application is marked for
      deletion (`open={Boolean(deletingJob)}`). */
  predicate DeleteDialogOpen(s: State) {
    s.deletingJob.Some?
  }

  /** `saveError`: the update hook's error while editing, the create hook's
      otherwise. */
  function SaveError(s: State): (e: Option<string>)
    ensures s.editingJob.Some? ==> e == s.updateMutation.error
    ensures s.editingJob.None? ==> e == s.createMutation.error
  {
    if s.editingJob.Some? then s.updateMutation.error else s.createMutation.error
  }

  /** The two error alerts above the table: the error's message, or the
      translated fallback when the message is empty. */
  function SaveAlert(s: State, t: string -> string): (r: Option<string>)
    ensures r.Some? <==> SaveError(s).Some?
    ensures r.Some? && SaveError(s).value != "" ==> r.value == SaveError(s).value
    ensures r.Some? && SaveError(s).value == "" ==> r.value == t("errors.saveApplication")
  {
    match SaveError(s)
    case None => None
    case Some(message) => Some(TableCells.ErrorText(message, t("errors.saveApplication")))
  }

  function DeleteAlert(s: State, t: string -> string): (r: Option<string>)
    ensures r.Some? <==> s.deleteMutation.error.Some?
    ensures r.Some? && s.deleteMutation.error.value != "" ==> r.value == s.deleteMutation.error.value
    ensures r.Some? && s.deleteMutation.error.value == "" ==> r.value == t("errors.deleteApplication")
  {
    match s.deleteMutation.error
    case None => None
    case Some(message) => Some(TableCells.ErrorText(message, t("errors.deleteApplication")))
  }

  /** The page's reaction to one event. Only submitting the form and
      confirming a marked deletion call a hook, each exactly once. */
  function Step(s: State, e: Event): (r: State)
    ensures |s.calls| <= |r.calls| <= |s.calls| + 1 && r.calls[..|s.calls|] == s.calls
    ensures |r.calls| == |s.calls| + 1 <==> e.SubmitForm? || (e.ConfirmDelete? && s.deletingJob.Some?)
  {
    match e
    case NewClick => s.(editingJob := None, isDialogOpen := true)
    case EditClick(job) => s.(editingJob := Some(job), isDialogOpen := true)
    case DeleteClick(job) => s.(deletingJob := Some(job))
    case SubmitForm(request) =>
      if s.editingJob.Some? then
        s.(updateMutation := Started, calls := s.calls + [UpdateCall(s.editingJob.value.id, request)])
      else
        s.(createMutation := Started, calls := s.calls + [CreateCall(request)])
    case ConfirmDelete =>
      if s.deletingJob.None? then s
      else s.(deleteMutation := Started, calls := s.calls + [DeleteCall(s.deletingJob.value.id)])
    case CloseDialog =>
      if IsSubmitting(s) then s else s.(isDialogOpen := false, editingJob := None)
    case CancelDelete =>
      if s.deleteMutation.isPending then s else s.(deletingJob := None)
    case CreateSettled(outcome) =>
      var settled := s.(createMutation := Settled(outcome));
      if outcome.Succeeded? then settled.(isDialogOpen := false, editingJob := None) else settled
    case UpdateSettled(outcome) =>
      var settled := s.(updateMutation := Settled(outcome));
      if outcome.Succeeded? then settled.(isDialogOpen := false, editingJob := None) else settled
    case DeleteSettled(outcome) =>
      var settled := s.(deleteMutation := Settled(outcome));
      if outcome.Succeeded? then settled.(deletingJob := None) else settled
  }

  /** Submitting updates the application being edited, by its id, and
      creates one otherwise; never both. */
  lemma SubmitRoutes(s: State, request: CreateRequest)
    ensures var r := Step(s, SubmitForm(request));
      && (s.editingJob.Some? ==> r.calls == s.calls + [UpdateCall(s.editingJob.value.id, request)] && r.updateMutation.isPending)
      && (s.editingJob.None? ==> r.calls == s.calls + [CreateCall(request)] && r.createMutation.isPending)
      && r.isDialogOpen == s.isDialogOpen && r.editingJob == s.editingJob && r.deletingJob == s.deletingJob
  {
  }

  /** Confirming with nothing marked does nothing; otherwise it deletes
      exactly the marked application. */
  lemma ConfirmDeletesMarked(s: State)
    ensures s.deletingJob.None? ==> Step(s, ConfirmDelete) == s
    ensures s.deletingJob.Some? ==> Step(s, ConfirmDelete).calls == s.calls + [DeleteCall(s.deletingJob.value.id)]
  {
  }

  /** A successful save closes the form dialog and forgets the edited
      application; a successful delete forgets the marked application and
      nothing else. */
  lemma SuccessResets(s: State)
    ensures var r := Step(s, CreateSettled(Succeeded));
      !r.isDialogOpen && r.editingJob.None? && r.deletingJob == s.deletingJob
    ensures var r := Step(s, UpdateSettled(Succeeded));
      !r.isDialogOpen && r.editingJob.None? && r.deletingJob == s.deletingJob
    ensures Step(s, DeleteSettled(Succeeded)) == s.(deletingJob := None, deleteMutation := Idle)
  {
  }

  /** "New" opens the form dialog in create mode; "Edit" opens it in edit
      mode on the clicked application; a row's delete button marks that
      application; and, when nothing is pending, closing the form dialog
      closes it and forgets the edited application, and cancelling the
      delete dialog unmarks. */
  lemma ClicksOpenAndCloseDialogs(s: State, job: JobApplication)
    ensures var r := Step(s, NewClick);
      r.isDialogOpen && Mode(r) == ApplicationForm.Create
    ensures var r := Step(s, EditClick(job));
      r.isDialogOpen && r.editingJob == Some(job) && Mode(r) == ApplicationForm.Edit
    ensures Step(s, DeleteClick(job)).deletingJob == Some(job)
    ensures !IsSubmitting(s) ==>
      !Step(s, CloseDialog).isDialogOpen && Step(s, CloseDialog).editingJob.None?
    ensures !s.deleteMutation.isPending ==> Step(s, CancelDelete).deletingJob.None?
  {
  }

  /** While a save is pending, closing the form dialog changes nothing;
      while a delete is pending, cancelling changes nothing. */
  lemma PendingBlocksClosing(s: State)
    ensures IsSubmitting(s) ==> Step(s, CloseDialog) == s
    ensures s.deleteMutation.isPending ==> Step(s, CancelDelete) == s
  {
  }

  /** The events the page can receive in a state. Both dialogs are modal,
      so the table's buttons only work while neither is open; the submit
      button is disabled while saving and the confirm button while
      deleting or with nothing marked; a dialog can only be closed while
      open; and an answer only arrives for a pending mutation. */
  predicate Enabled(s: State, e: Event) {
    match e
    case NewClick => !s.isDialogOpen && !DeleteDialogOpen(s)
    case EditClick(_) => !s.isDialogOpen && !DeleteDialogOpen(s)
    case DeleteClick(_) => !s.isDialogOpen && !DeleteDialogOpen(s)
    case SubmitForm(_) => s.isDialogOpen && !IsSubmitting(s)
    case ConfirmDelete => s.deletingJob.Some? && !s.deleteMutation.isPending
    case CloseDialog => s.isDialogOpen
    case CancelDelete => s.deletingJob.Some?
    case CreateSettled(_) => s.createMutation.isPending
    case UpdateSettled(_) => s.updateMutation.isPending
    case DeleteSettled(_) => s.deleteMutation.isPending
  }

  /** What stays true of the page: at most one dialog is open; an edited
      application implies an open form dialog; at most one save is in
      flight, always with the form dialog open and through the hook that
      matches the dialog's mode; and a pending delete has its application
      marked. */
  predicate Inv(s: State) {
    && !(s.isDialogOpen && DeleteDialogOpen(s))
    && (s.editingJob.Some? ==> s.isDialogOpen)
    && (IsSubmitting(s) ==> s.isDialogOpen)
    && (s.createMutation.isPending ==> s.editingJob.None?)
    && (s.updateMutation.isPending ==> s.editingJob.Some?)
    && (s.deleteMutation.isPending ==> s.deletingJob.Some?)
  }

  lemma InitialInv()
    ensures Inv(Initial)
  {
  }

  lemma StepPreservesInv(s: State, e: Event)
    requires Inv(s) && Enabled(s, e)
    ensures Inv(Step(s, e))
  {
  }

  /** A failed save leaves the dialog open in the same mode and the alert
      above the table shows the failure. */
  lemma FailedSaveIsShown(s: State, e: Event, message: string)
    requires Inv(s) && Enabled(s, e)
    requires e == CreateSettled(Failed(message)) || e == UpdateSettled(Failed(message))
    ensures var r := Step(s, e);
      r.isDialogOpen && r.editingJob == s.editingJob && SaveError(r) == Some(message)
  {
  }

  /** The state after a sequence of events. */
  function Run(s: State, events: seq<Event>): State
    decreases |events|
  {
    if events == [] then s else Run(Step(s, events[0]), events[1..])
  }

  /** Every event of the sequence is enabled when it happens. */
  predicate Allowed(s: State, events: seq<Event>)
    decreases |events|
  {
    events == [] || (Enabled(s, events[0]) && Allowed(Step(s, events[0]), events[1..]))
  }

  lemma {:induction false} RunPreservesInv(s: State, events: seq<Event>)
    requires Inv(s) && Allowed(s, events)
    ensures Inv(Run(s, events))
    decreases |events|
  {
    if events != [] {
      StepPreservesInv(s, events[0]);
      RunPreservesInv(Step(s, events[0]), events[1..]);
    }
  }

  /** Every state the page can reach satisfies the invariant. */
  lemma ReachableInv(events: seq<Event>)
    requires Allowed(Initial, events)
    ensures Inv(Run(Initial, events))
  {
    InitialInv();
    RunPreservesInv(Initial, events);
  }

  /** Whatever the user does, the form dialog and the delete dialog are
      never open together. */
  lemma OneDialogAtATime(events: seq<Event>)
    requires Allowed(Initial, events)
    ensures var r := Run(Initial, events);
      !(r.isDialogOpen && DeleteDialogOpen(r))
  {
    ReachableInv(events);
  }

  /** Calls are only ever appended: a run keeps the calls made before it,
      and makes at most one per event. */
  lemma {:induction false} RunExtendsCalls(s: State, events: seq<Event>)
    ensures var r := Run(s, events);
      |s.calls| <= |r.calls| <= |s.calls| + |events| && r.calls[..|s.calls|] == s.calls
    decreases |events|
  {
    if events != [] {
      var next := Step(s, events[0]);
      RunExtendsCalls(next, events[1..]);
      var r := Run(next, events[1..]);
      assert r.calls[..|s.calls|] == r.calls[..|next.calls|][..|s.calls|];
    }
  }

  /** The page component: its three state variables, the state of the
      three mutation hooks, and the calls made on them. */
  class ApplicationTableFeature {
    var isDialogOpen: bool
    var editingJob: Option<JobApplication>
    var deletingJob: Option<JobApplication>
    var createMutation: Mutation
    var updateMutation: Mutation
    var deleteMutation: Mutation
    var calls: seq<MutateCall>

    function Snapshot(): State
      reads this
    {
      State(isDialogOpen, editingJob, deletingJob, createMutation, updateMutation, deleteMutation, calls)
    }

    constructor ()
      ensures Snapshot() == Initial
    {
      isDialogOpen := false;
      editingJob := None;
      deletingJob := None;
      createMutation := Idle;
      updateMutation := Idle;
      deleteMutation := Idle;
      calls := [];
    }

    /** The table's "new" button. */
    method OnNewClick()
      modifies this
      ensures Snapshot() == Step(old(Snapshot()), NewClick)
    {
      editingJob := None;
      isDialogOpen := true;
    }

    /** A row's edit button. */
    method OnEditClick(job: JobApplication)
      modifies this
      ensures Snapshot() == Step(old(Snapshot()), EditClick(job))
    {
      editingJob := Some(job);
      isDialogOpen := true;
    }

    /** A row's delete button. */
    method OnDeleteClick(job: JobApplication)
      modifies this
      ensures Snapshot() == Step(old(Snapshot()), DeleteClick(job))
    {
      deletingJob := Some(job);
    }

    /** `handleSubmit`, the form dialog's `onSubmit`. */
    method HandleSubmit(request: CreateRequest)
      modifies this
      ensures Snapshot() == Step(old(Snapshot()), SubmitForm(request))
    {
      if editingJob.Some? {
        calls := calls + [UpdateCall(editingJob.value.id, request)];
        updateMutation := Started;
        return;
      }
      calls := calls + [CreateCall(request)];
      createMutation := Started;
    }

    /** `handleDeleteConfirm`, the delete dialog's `onConfirm`. */
    method HandleDeleteConfirm()
      modifies this
      ensures Snapshot() == Step(old(Snapshot()), ConfirmDelete)
    {
      if deletingJob.None? {
        return;
      }
      calls := calls + [DeleteCall(deletingJob.value.id)];
      deleteMutation := Started;
    }

    /** The form dialog's `onClose`. */
    method OnClose()
      modifies this
      ensures Snapshot() == Step(old(Snapshot()), CloseDialog)
    {
      if createMutation.isPending || updateMutation.isPending {
        return;
      }
      isDialogOpen := false;
      editingJob := None;
    }

    /** The delete dialog's `onCancel`. */
    method OnCancel()
      modifies this
      ensures Snapshot() == Step(old(Snapshot()), CancelDelete)
    {
      if deleteMutation.isPending {
        return;
      }
      deletingJob := None;
    }

    /** The create hook settles; on success the page's callback closes the
        dialog. */
    method OnCreateSettled(outcome: Outcome)
      modifies this
      ensures Snapshot() == Step(old(Snapshot()), CreateSettled(outcome))
    {
      createMutation := Settled(outcome);
      if outcome.Succeeded? {
        isDialogOpen := false;
        editingJob := None;
      }
    }

    /** The update hook settles; on success the page's callback closes the
        dialog. */
    method OnUpdateSettled(outcome: Outcome)
      modifies this
      ensures Snapshot() == Step(old(Snapshot()), UpdateSettled(outcome))
    {
      updateMutation := Settled(outcome);
      if outcome.Succeeded? {
        isDialogOpen := false;
        editingJob := None;
      }
    }

    /** The delete hook settles; on success the page's callback unmarks the
        application. */
    method OnDeleteSettled(outcome: Outcome)
      modifies this
      ensures Snapshot() == Step(old(Snapshot()), DeleteSettled(outcome))
    {
      deleteMutation := Settled(outcome);
      if outcome.Succeeded? {
        deletingJob := None;
      }
    }
  }
}
