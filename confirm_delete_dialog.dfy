/** The delete confirmation dialog: the text naming the application and
    what its controls allow while a delete is or is not in flight. */
module ConfirmDeleteDialog {
  import opened Wrappers
  import opened Text
  import opened JobTypes

  /** The separator between company and role in the label. */
  const Separator: string := " - "

  /** How the question names the application: "company - role" for a
      given application, "this application" without one. */
  function DeleteLabel(job: Option<JobApplication>): (r: string)
    ensures job.None? ==> r == "this application"
    ensures job.Some? ==>
      && |r| == |job.value.company| + |Separator| + |job.value.role|
      && StartsWith(r, job.value.company)
      && r[|job.value.company|..|job.value.company| + |Separator|] == Separator
      && r[|job.value.company| + |Separator|..] == job.value.role
  {
    match job
    case None => "this application"
    case Some(j) =>
      var r := j.company + Separator + j.role;
      assert r[|j.company|..|j.company| + |Separator|] == Separator;
      r
  }

  /** The label names the application: when neither company contains the
      separator's dash, equal labels mean equal company and role. */
  lemma {:induction false} DeleteLabelIdentifies(a: JobApplication, b: JobApplication)
    requires '-' !in a.company && '-' !in b.company
    requires DeleteLabel(Some(a)) == DeleteLabel(Some(b))
    ensures a.company == b.company && a.role == b.role
  {
    DashAfterCompany(a);
    DashAfterCompany(b);
    if |a.company| != |b.company| {
      assert false;
    }
  }

  /** The label has the separator's dash right after the company. */
  lemma DashAfterCompany(job: JobApplication)
    ensures |job.company| + 1 < |DeleteLabel(Some(job))|
    ensures DeleteLabel(Some(job))[|job.company| + 1] == '-'
  {
  }

  /** What the dialog's controls allow. */
  datatype Controls = Controls(
    dismissible: bool,
    cancelDisabled: bool,
    confirmDisabled: bool,
    confirmText: string)

  /** While deleting, neither the backdrop, Escape nor Cancel closes the
      dialog and confirm is disabled and reads "Deleting..."; confirm is
      also disabled when no application is given. */
  function DialogControls(job: Option<JobApplication>, isDeleting: bool): (r: Controls)
    ensures r.dismissible <==> !isDeleting
    ensures r.cancelDisabled <==> isDeleting
    ensures r.confirmDisabled <==> isDeleting || job.None?
    ensures r.confirmText == "Deleting..." <==> isDeleting
    ensures !isDeleting ==> r.confirmText == "Delete"
  {
    Controls(!isDeleting, isDeleting, isDeleting || job.None?, if isDeleting then "Deleting..." else "Delete")
  }
}
