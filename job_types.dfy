/** The shared types of the application: the `ApplicationStatus` numeric
    enum with its reverse mapping, the status options of the select list,
    and the request and response records exchanged with the REST API. */
module JobTypes {
  import opened Wrappers

  /** A status as the application carries it: a JavaScript number. The
      enum gives meaning to 0..5; the server may send anything else. */
  type Status = int

  /** The members of the numeric enum, name and value, in declaration order. */
  const Members: seq<(string, Status)> := [
    ("Planned", 0), ("Applied", 1), ("Interviewing", 2),
    ("Offer", 3), ("Rejected", 4), ("Accepted", 5)
  ]

  const Planned: Status := 0

  /** The reverse mapping TypeScript emits for a numeric enum: value to name. */
  function ReverseMapping(): (m: map<Status, string>)
    ensures forall v :: v in m <==> 0 <= v < |Members|
    ensures forall v :: v in m ==> m[v] == Members[v].0
  {
    var m := map i | 0 <= i < |Members| :: Members[i].1 := Members[i].0;
    assert forall v :: 0 <= v < |Members| ==> v in m by {
      forall v | 0 <= v < |Members| ensures v in m {
        assert Members[v].1 == v;
      }
    }
    m
  }

  /** `ApplicationStatus[status] ?? "Unknown"`: the enum member's name for a
      value of the enum, "Unknown" for every other number. */
  function StatusLabel(status: Status): (r: string)
    ensures 0 <= status < |Members| ==> r == Members[status].0
    ensures !(0 <= status < |Members|) ==> r == "Unknown"
  {
    var m := ReverseMapping();
    if status in m then m[status] else "Unknown"
  }

  /** The six member names are pairwise distinct, and none is "Unknown". */
  lemma MemberNamesDistinct()
    ensures forall i :: 0 <= i < |Members| ==> Members[i].0 != "Unknown"
    ensures forall i, j :: 0 <= i < j < |Members| ==> Members[i].0 != Members[j].0
  {
    assert "Unknown"[0] == 'U' && "Planned"[0] == 'P' && "Applied"[0] == 'A';
    assert "Rejected"[0] == 'R' && "Accepted"[0] == 'A';
  }

  /** Distinct labels for distinct statuses: a label other than "Unknown"
      identifies its status. */
  lemma StatusLabelInjective(a: Status, b: Status)
    requires StatusLabel(a) == StatusLabel(b) && StatusLabel(a) != "Unknown"
    ensures a == b
  {
    MemberNamesDistinct();
    assert 0 <= a < |Members| && 0 <= b < |Members|;
  }

  /** One entry of the status select list; `caption` is its `label`. */
  datatype StatusOption = StatusOption(value: Status, caption: string)

  const StatusOptions: seq<StatusOption> := [
    StatusOption(0, "Planned"), StatusOption(1, "Applied"),
    StatusOption(2, "Interviewing"), StatusOption(3, "Offer"),
    StatusOption(4, "Rejected"), StatusOption(5, "Accepted")
  ]

  /** The options list every enum value once, in ascending order, each with
      the label that `StatusLabel` gives it. */
  lemma StatusOptionsMatchLabels()
    ensures |StatusOptions| == |Members|
    ensures forall i :: 0 <= i < |StatusOptions| ==>
      StatusOptions[i].value == i && StatusOptions[i].caption == StatusLabel(i)
  {
  }

  /** `JobApplicationResponseDto`: an application as the server returns it.
      `id`, `company` and `role` are never null; the other text fields may
      be null (`None`). */
  datatype JobApplication = JobApplication(
    id: string,
    company: string,
    role: string,
    location: Option<string>,
    isRemote: bool,
    referral: Option<string>,
    contactPerson: Option<string>,
    dateApplied: Option<string>,
    status: Status,
    compensationRange: Option<string>,
    lastTouch: Option<string>,
    nextAction: Option<string>,
    nextActionDate: Option<string>,
    notes: Option<string>,
    link: Option<string>)

  /** `CreateJobApplicationRequestDto`: the body of a create request. The
      optional fields are sent as a string or as null (`None`). */
  datatype CreateRequest = CreateRequest(
    company: string,
    role: string,
    location: Option<string>,
    isRemote: bool,
    referral: Option<string>,
    contactPerson: Option<string>,
    dateApplied: Option<string>,
    status: Status,
    compensationRange: Option<string>,
    lastTouch: Option<string>,
    nextAction: Option<string>,
    nextActionDate: Option<string>,
    notes: Option<string>,
    link: Option<string>)

  /** `UpdateJobApplicationRequestDto` is the create body itself, so every
      create payload is an update payload. */
  type UpdateRequest = CreateRequest
}
