/** The application-table feature's own copy of the status type: a constant
    object from member name to number, a `switch`-based label function and
    the same options list. Its request and response shapes are field for
    field those of `JobTypes`, and TypeScript compares object types by
    structure, so they are the same types here. */
module FeatureJobTypes {
  import JobTypes

  type Status = JobTypes.Status
  type JobApplication = JobTypes.JobApplication
  type CreateRequest = JobTypes.CreateRequest
  type UpdateRequest = JobTypes.CreateRequest

  /** The `ApplicationStatus` constant object: member name to value. */
  const ApplicationStatus: map<string, Status> := map[
    "Planned" := 0, "Applied" := 1, "Interviewing" := 2,
    "Offer" := 3, "Rejected" := 4, "Accepted" := 5
  ]

  /** The constant object maps the six names to 0..5 respectively. */
  lemma ApplicationStatusValues()
    ensures ApplicationStatus["Planned"] == 0 && ApplicationStatus["Applied"] == 1
    ensures ApplicationStatus["Interviewing"] == 2 && ApplicationStatus["Offer"] == 3
    ensures ApplicationStatus["Rejected"] == 4 && ApplicationStatus["Accepted"] == 5
    ensures forall v :: v in ApplicationStatus.Values <==> 0 <= v < 6
  {
  }

  /** `getApplicationStatusLabel`: a `switch` on the value, whose `default`
      branch answers "Unknown". */
  function StatusLabel(status: Status): (r: string)
    ensures r == "Unknown" <==> status !in ApplicationStatus.Values
    ensures status in ApplicationStatus.Values ==> r in ApplicationStatus && ApplicationStatus[r] == status
  {
    if status == ApplicationStatus["Planned"] then "Planned"
    else if status == ApplicationStatus["Applied"] then "Applied"
    else if status == ApplicationStatus["Interviewing"] then "Interviewing"
    else if status == ApplicationStatus["Offer"] then "Offer"
    else if status == ApplicationStatus["Rejected"] then "Rejected"
    else if status == ApplicationStatus["Accepted"] then "Accepted"
    else "Unknown"
  }

  /** The switch and the enum's reverse mapping give the same label for
      every number: the two copies of the type agree. */
  lemma StatusLabelMatchesEnum(status: Status)
    ensures StatusLabel(status) == JobTypes.StatusLabel(status)
  {
    ApplicationStatusValues();
    if 0 <= status < |JobTypes.Members| {
      assert JobTypes.StatusLabel(status) == JobTypes.Members[status].0;
      assert StatusLabel(status) == JobTypes.Members[status].0;
    } else {
      assert status !in ApplicationStatus.Values;
    }
  }

  const StatusOptions: seq<JobTypes.StatusOption> := [
    JobTypes.StatusOption(ApplicationStatus["Planned"], "Planned"),
    JobTypes.StatusOption(ApplicationStatus["Applied"], "Applied"),
    JobTypes.StatusOption(ApplicationStatus["Interviewing"], "Interviewing"),
    JobTypes.StatusOption(ApplicationStatus["Offer"], "Offer"),
    JobTypes.StatusOption(ApplicationStatus["Rejected"], "Rejected"),
    JobTypes.StatusOption(ApplicationStatus["Accepted"], "Accepted")
  ]

  /** The options are the six values 0..5 in ascending order, each captioned
      with the label the switch gives its value. */
  lemma StatusOptionsMatchLabels()
    ensures |StatusOptions| == |ApplicationStatus|
    ensures forall i :: 0 <= i < |StatusOptions| ==>
      StatusOptions[i].value == i && StatusOptions[i].caption == StatusLabel(i)
  {
  }
}
