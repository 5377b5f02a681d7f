/**
 * The persisted result of a tech-stack analysis: a Cosmos document of type
 * "techStackProfile", one per user, whose id is derived from the user id and
 * whose partition key is the user id itself.
 */
module TechStackProfiles {
  import opened Categorized

  /** The type discriminator of the document. */
  const DocumentType := "techStackProfile"

  /** `TechStackProfile`. Times are instants on the caller's clock. */
  datatype TechStackProfile = TechStackProfile(
    id: string,
    userId: string,
    createdAt: int,
    updatedAt: int,
    categorized: CategorizedTechStack,
    analyzedAt: int,
    analyzedRepoCount: int,
    signalSummary: map<string, int>)
  {
    /** The overridden `Type` property. */
    function Type(): string {
      DocumentType
    }
  }

  /** The id of a user's profile document, `"{DocumentType}-{userId}"`. */
  function ProfileId(userId: string): (r: string)
    ensures |r| == |DocumentType| + 1 + |userId|
    ensures r[..|DocumentType|] == DocumentType && r[|DocumentType|] == '-'
    ensures r[|DocumentType| + 1..] == userId
  {
    DocumentType + "-" + userId
  }

  /** Different users get different profile documents. */
  lemma ProfileIdInjective(u: string, v: string)
    requires ProfileId(u) == ProfileId(v)
    ensures u == v
  {
    assert u == ProfileId(u)[|DocumentType| + 1..];
  }

  /** `CreateForUser`: the user's document with the property defaults, stamped
      with the current time `now`. */
  function CreateForUser(userId: string, now: int): (r: TechStackProfile)
    ensures r.id == ProfileId(userId) && r.userId == userId
    ensures r.analyzedAt == now && r.createdAt == now && r.updatedAt == now
    ensures r.categorized == Empty && r.categorized.Total() == 0
    ensures r.analyzedRepoCount == 0 && r.signalSummary == map[]
    ensures r.Type() == "techStackProfile"
  {
    TechStackProfile(ProfileId(userId), userId, now, now, Empty, now, 0, map[])
  }
}
