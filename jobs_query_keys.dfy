/** The react-query keys of the job applications cache. */
module JobsQueryKeys {

  /** A query key: a tuple of strings. */
  type QueryKey = seq<string>

  /** The key of the list of all applications. */
  const All: QueryKey := ["jobApplications"]

  /** The key of one application: the list key followed by the id. */
  function ById(id: string): (k: QueryKey)
    ensures |k| == 2 && k[0] == All[0] && k[1] == id
  {
    ["jobApplications", id]
  }

  /** Whether `prefix` is a prefix of `key`, the relation react-query's
      partial key matching uses. */
  predicate IsPrefix(prefix: QueryKey, key: QueryKey) {
    |prefix| <= |key| && key[..|prefix|] == prefix
  }

  /** The list key is a proper prefix of every single-application key. */
  lemma AllIsProperPrefixOfById(id: string)
    ensures IsPrefix(All, ById(id)) && All != ById(id)
  {
    assert ById(id)[..1] == [ById(id)[0]];
  }

  /** Different ids have different keys. */
  lemma ByIdInjective(a: string, b: string)
    requires ById(a) == ById(b)
    ensures a == b
  {
    assert ById(a)[1] == ById(b)[1];
  }
}
