/**
 * `DataCategory`, a string enumeration: every member is also the string it
 * stands for, so it compares equal to that string and `str()` returns it.
 */
module DataCategories {
  import opened Wrappers

  datatype DataCategory =
    | Prompt
    | Queries
    | InstructDatasetSamples
    | InstructDataset
    | PreferenceDatasetSamples
    | PreferenceDataset
    | Posts
    | Articles
    | Repositories

  /** The members in declaration order. */
  const Members: seq<DataCategory> := [
    Prompt, Queries,
    InstructDatasetSamples, InstructDataset, PreferenceDatasetSamples, PreferenceDataset,
    Posts, Articles, Repositories
  ]

  /** The string value of a member. */
  function ValueOf(c: DataCategory): string
  {
    match c
    case Prompt => "prompt"
    case Queries => "queries"
    case InstructDatasetSamples => "instruct_dataset_samples"
    case InstructDataset => "instruct_dataset"
    case PreferenceDatasetSamples => "preference_dataset_samples"
    case PreferenceDataset => "preference_dataset"
    case Posts => "posts"
    case Articles => "articles"
    case Repositories => "repositories"
  }

  /** `str(member)`: the member's value, from which `DataCategory(...)` recovers the member. */
  function Str(c: DataCategory): (s: string)
    ensures FromValue(s) == Some(c)
  {
    FromValueInverts(c);
    ValueOf(c)
  }

  /** `member == s` for a plain string `s`. */
  predicate EqualsString(c: DataCategory, s: string)
  {
    ValueOf(c) == s
  }

  /** `DataCategory(s)`: the member whose value is `s`, or `ValueError` (`None` here). */
  function FromValue(s: string): (r: Option<DataCategory>)
    ensures r.Some? ==> ValueOf(r.value) == s
  {
    FindValue(Members, s)
  }

  function FindValue(cs: seq<DataCategory>, s: string): (r: Option<DataCategory>)
    ensures r.Some? ==> r.value in cs && ValueOf(r.value) == s
    ensures r.None? ==> forall i | 0 <= i < |cs| :: ValueOf(cs[i]) != s
  {
    if cs == [] then None
    else if ValueOf(cs[0]) == s then Some(cs[0])
    else FindValue(cs[1..], s)
  }

  // ---------------------------------------------------------------------
  // Lemmas
  // ---------------------------------------------------------------------

  /** Nine members, each listed once. */
  lemma MembersComplete(c: DataCategory)
    ensures |Members| == 9
    ensures c in Members
  {
  }

  /** No two members share a string value. */
  lemma ValuesDistinct(c: DataCategory, d: DataCategory)
    requires c != d
    ensures ValueOf(c) != ValueOf(d)
  {
  }

  /** Lookup by value inverts `ValueOf`. */
  lemma FromValueInverts(c: DataCategory)
    ensures FromValue(ValueOf(c)) == Some(c)
  {
    MembersComplete(c);
    var r := FromValue(ValueOf(c));
    if r.Some? && r.value != c {
      ValuesDistinct(r.value, c);
    }
  }

  /** The three document categories and their values. */
  lemma DocumentCategoryValues()
    ensures Str(Posts) == "posts" && Str(Articles) == "articles" && Str(Repositories) == "repositories"
    ensures EqualsString(Prompt, "prompt")
  {
  }
}
