/** `getStatusTranslationKey`, which the feature's dialog and table both
    define, word for word: the i18n key of a status's display text. */
module StatusTranslation {
  import JobTypes
  import opened Text

  /** The key for a status: one `status.*` key per enum value, and
      `status.unknown` for any other number. */
  function StatusTranslationKey(status: JobTypes.Status): (r: string)
    ensures StartsWith(r, "status.")
    ensures r == "status.unknown" <==> !(0 <= status < |JobTypes.Members|)
  {
    match status
    case 0 => "status.planned"
    case 1 => "status.applied"
    case 2 => "status.interviewing"
    case 3 => "status.offer"
    case 4 => "status.rejected"
    case 5 => "status.accepted"
    case _ => "status.unknown"
  }

  /** The key is "status." followed by the lower-cased English label: the
      six keys are as distinct as the labels, and the default branches of
      the two functions agree. */
  lemma KeyIsLowerCasedLabel(status: JobTypes.Status)
    ensures StatusTranslationKey(status) == "status." + ToLowerCase(JobTypes.StatusLabel(status))
  {
    assert ToLowerCase("Planned") == "planned" && ToLowerCase("Applied") == "applied";
    assert ToLowerCase("Interviewing") == "interviewing" && ToLowerCase("Offer") == "offer";
    assert ToLowerCase("Rejected") == "rejected" && ToLowerCase("Accepted") == "accepted";
    assert ToLowerCase("Unknown") == "unknown";
    assert "status." + "planned" == "status.planned" && "status." + "applied" == "status.applied";
    assert "status." + "interviewing" == "status.interviewing" && "status." + "offer" == "status.offer";
    assert "status." + "rejected" == "status.rejected" && "status." + "accepted" == "status.accepted";
    assert "status." + "unknown" == "status.unknown";
    var name := JobTypes.StatusLabel(status);
    if status == 0 { assert name == "Planned"; }
    else if status == 1 { assert name == "Applied"; }
    else if status == 2 { assert name == "Interviewing"; }
    else if status == 3 { assert name == "Offer"; }
    else if status == 4 { assert name == "Rejected"; }
    else if status == 5 { assert name == "Accepted"; }
    else { assert name == "Unknown"; }
  }

  /** Distinct statuses of the enum have distinct keys. */
  lemma KeysDistinct(a: JobTypes.Status, b: JobTypes.Status)
    requires StatusTranslationKey(a) == StatusTranslationKey(b)
    requires StatusTranslationKey(a) != "status.unknown"
    ensures a == b
  {
  }

  /** `statusValues`, the entries of the feature dialog's status select,
      each shown as the translation of its key. */
  const StatusValues: seq<JobTypes.Status> := [0, 1, 2, 3, 4, 5]

  /** The select offers the same values, in the same order, as the older
      dialog's options list, and shows each with its own known key. */
  lemma StatusMenuMatchesOptions()
    ensures |StatusValues| == |JobTypes.StatusOptions|
    ensures forall i :: 0 <= i < |StatusValues| ==>
      StatusValues[i] == JobTypes.StatusOptions[i].value
      && StatusTranslationKey(StatusValues[i]) != "status.unknown"
    ensures forall i, j :: 0 <= i < j < |StatusValues| ==>
      StatusTranslationKey(StatusValues[i]) != StatusTranslationKey(StatusValues[j])
  {
    forall i, j | 0 <= i < j < |StatusValues|
      ensures StatusTranslationKey(StatusValues[i]) != StatusTranslationKey(StatusValues[j])
    {
      if StatusTranslationKey(StatusValues[i]) == StatusTranslationKey(StatusValues[j]) {
        KeysDistinct(StatusValues[i], StatusValues[j]);
      }
    }
  }
}
