/** The feature's applications table: every text it shows goes through the
    translation function `t`, passed in as a parameter. */
module ApplicationsTable {
  import opened Wrappers
  import opened JobTypes
  import opened TableCells
  import StatusTranslation

  /** The table's columns, by accessor key, in display order. */
  const Columns: seq<string> := [
    "company", "role", "location", "isRemote", "referral", "contactPerson",
    "dateApplied", "status", "compensationRange", "lastTouch", "nextAction",
    "nextActionDate", "notes", "link"]

  const StatusColumn: nat := 7
  const LinkColumn: nat := 13

  /** The texts of the columns before the link column: company, role and
      location as stored (a null location shows nothing), the remote flag
      as yes/no, optional texts and dates formatted with the `common.empty`
      placeholder, and the status through its translation key. */
  function TextColumns(job: JobApplication, t: string -> string): (texts: seq<string>)
    ensures |texts| == LinkColumn && texts[0] == job.company && texts[1] == job.role
    ensures texts[2] == job.location.GetOr("")
    ensures texts[3] == if job.isRemote then t("common.yes") else t("common.no")
    ensures var empty := t("common.empty");
      && texts[4] == FormatTextValue(job.referral, empty)
      && texts[5] == FormatTextValue(job.contactPerson, empty)
      && texts[6] == FormatDateValue(job.dateApplied, empty)
      && texts[8] == FormatTextValue(job.compensationRange, empty)
      && texts[9] == FormatDateValue(job.lastTouch, empty)
      && texts[10] == FormatTextValue(job.nextAction, empty)
      && texts[11] == FormatDateValue(job.nextActionDate, empty)
      && texts[12] == FormatTextValue(job.notes, empty)
    ensures texts[StatusColumn] == t(StatusTranslation.StatusTranslationKey(job.status))
  {
    var empty := t("common.empty");
    [ job.company,
      job.role,
      job.location.GetOr(""),
      if job.isRemote then t("common.yes") else t("common.no"),
      FormatTextValue(job.referral, empty),
      FormatTextValue(job.contactPerson, empty),
      FormatDateValue(job.dateApplied, empty),
      t(StatusTranslation.StatusTranslationKey(job.status)),
      FormatTextValue(job.compensationRange, empty),
      FormatDateValue(job.lastTouch, empty),
      FormatTextValue(job.nextAction, empty),
      FormatDateValue(job.nextActionDate, empty),
      FormatTextValue(job.notes, empty) ]
  }

  /** One table row, one cell per column; only the link column can hold a
      link. */
  function Row(job: JobApplication, t: string -> string): (r: seq<Cell>)
    ensures |r| == |Columns|
    ensures r[StatusColumn] == PlainText(t(StatusTranslation.StatusTranslationKey(job.status)))
    ensures r[LinkColumn] == LinkCell(job.link, t("common.empty"), t("common.open"))
    ensures forall i :: 0 <= i < LinkColumn ==> r[i] == PlainText(TextColumns(job, t)[i])
  {
    RowCells(TextColumns(job, t), LinkCell(job.link, t("common.empty"), t("common.open")))
  }

  /** What the component renders: loading wins over an error, an error
      over the data; the error alert shows the error's message or, when
      that is empty, the translated fallback. */
  function View(isLoading: bool, error: Option<string>, jobs: seq<JobApplication>, t: string -> string): (r: View)
    ensures isLoading ==> r == Loading(t("common.loading"))
    ensures !isLoading && error.Some? ==> r.ErrorAlert?
    ensures !isLoading && error.Some? && error.value != "" ==> r.text == error.value
    ensures !isLoading && error.Some? && error.value == "" ==> r.text == t("errors.loadApplications")
    ensures r.Table? <==> !isLoading && error.None?
    ensures r.Table? ==> |r.rows| == |jobs| && forall i :: 0 <= i < |jobs| ==> r.rows[i] == Row(jobs[i], t)
  {
    if isLoading then Loading(t("common.loading"))
    else if error.Some? then ErrorAlert(ErrorText(error.value, t("errors.loadApplications")))
    else Table(seq(|jobs|, i requires 0 <= i < |jobs| => Row(jobs[i], t)))
  }
}
