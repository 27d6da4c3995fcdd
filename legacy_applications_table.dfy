/** The older applications table: the same columns and formatting as the
    feature table, with fixed English texts and the status shown through
    its enum name. */
module LegacyApplicationsTable {
  import opened Wrappers
  import opened JobTypes
  import opened TableCells
  import StatusTranslation
  import ApplicationsTable

  /** The placeholder for a missing value. */
  const Empty: string := "-"

  /** The texts of the columns before the link column, as in the feature
      table but in fixed English and with the status's enum name. */
  function TextColumns(job: JobApplication): (texts: seq<string>)
    ensures |texts| == ApplicationsTable.LinkColumn && texts[0] == job.company && texts[1] == job.role
    ensures texts[2] == job.location.GetOr("")
    ensures texts[3] == if job.isRemote then "Yes" else "No"
    ensures && texts[4] == FormatTextValue(job.referral, Empty)
            && texts[5] == FormatTextValue(job.contactPerson, Empty)
            && texts[6] == FormatDateValue(job.dateApplied, Empty)
            && texts[8] == FormatTextValue(job.compensationRange, Empty)
            && texts[9] == FormatDateValue(job.lastTouch, Empty)
            && texts[10] == FormatTextValue(job.nextAction, Empty)
            && texts[11] == FormatDateValue(job.nextActionDate, Empty)
            && texts[12] == FormatTextValue(job.notes, Empty)
    ensures texts[ApplicationsTable.StatusColumn] == StatusLabel(job.status)
  {
    [ job.company,
      job.role,
      job.location.GetOr(""),
      if job.isRemote then "Yes" else "No",
      FormatTextValue(job.referral, Empty),
      FormatTextValue(job.contactPerson, Empty),
      FormatDateValue(job.dateApplied, Empty),
      StatusLabel(job.status),
      FormatTextValue(job.compensationRange, Empty),
      FormatDateValue(job.lastTouch, Empty),
      FormatTextValue(job.nextAction, Empty),
      FormatDateValue(job.nextActionDate, Empty),
      FormatTextValue(job.notes, Empty) ]
  }

  /** One table row, column for column as in the feature table. */
  function Row(job: JobApplication): (r: seq<Cell>)
    ensures |r| == |ApplicationsTable.Columns|
    ensures r[ApplicationsTable.StatusColumn] == PlainText(StatusLabel(job.status))
    ensures r[ApplicationsTable.LinkColumn] == LinkCell(job.link, Empty, "Open")
    ensures forall i :: 0 <= i < ApplicationsTable.LinkColumn ==> r[i] == PlainText(TextColumns(job)[i])
  {
    RowCells(TextColumns(job), LinkCell(job.link, Empty, "Open"))
  }

  /** What the component renders, with the same precedence as the feature
      table. */
  function View(isLoading: bool, error: Option<string>, jobs: seq<JobApplication>): (r: View)
    ensures isLoading ==> r == Loading("Loading...")
    ensures !isLoading && error.Some? ==> r.ErrorAlert?
    ensures !isLoading && error.Some? && error.value != "" ==> r.text == error.value
    ensures !isLoading && error.Some? && error.value == "" ==> r.text == "Failed to load job applications."
    ensures r.Table? <==> !isLoading && error.None?
    ensures r.Table? ==> |r.rows| == |jobs| && forall i :: 0 <= i < |jobs| ==> r.rows[i] == Row(jobs[i])
  {
    if isLoading then Loading("Loading...")
    else if error.Some? then ErrorAlert(ErrorText(error.value, "Failed to load job applications."))
    else Table(seq(|jobs|, i requires 0 <= i < |jobs| => Row(jobs[i])))
  }

  /** Under a translation that gives the feature table's keys the older
      table's English words (the placeholder is "-" in German too), the
      two tables render every application identically. */
  lemma RowIsEnglishTranslation(job: JobApplication, t: string -> string)
    requires t("common.empty") == Empty && t("common.open") == "Open"
    requires t("common.yes") == "Yes" && t("common.no") == "No"
    requires t(StatusTranslation.StatusTranslationKey(job.status)) == StatusLabel(job.status)
    ensures ApplicationsTable.Row(job, t) == Row(job)
  {
  }

  /** The same for the whole component, in every loading and error state. */
  lemma ViewIsEnglishTranslation(isLoading: bool, error: Option<string>, jobs: seq<JobApplication>, t: string -> string)
    requires t("common.empty") == Empty && t("common.open") == "Open"
    requires t("common.yes") == "Yes" && t("common.no") == "No"
    requires t("common.loading") == "Loading..."
    requires t("errors.loadApplications") == "Failed to load job applications."
    requires forall job :: job in jobs ==> t(StatusTranslation.StatusTranslationKey(job.status)) == StatusLabel(job.status)
    ensures ApplicationsTable.View(isLoading, error, jobs, t) == View(isLoading, error, jobs)
  {
    if !isLoading && error.None? {
      var feature := ApplicationsTable.View(isLoading, error, jobs, t);
      var legacy := View(isLoading, error, jobs);
      forall i | 0 <= i < |jobs|
        ensures feature.rows[i] == legacy.rows[i]
      {
        RowIsEnglishTranslation(jobs[i], t);
      }
    }
  }
}
