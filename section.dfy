/**
 * Sections: the kinds of block a profile README can contain (header, stats,
 * contact links, ...), each with its slug and its place in the catalogue.
 */
module Sections {
  import opened Wrappers
  import opened Validation
  import opened Documents

  /** The type discriminator of section documents. */
  const DocumentType := "section"

  /** `Section`. Times are instants on the caller's clock. */
  datatype Section = Section(
    id: string,
    userId: string,
    createdAt: int,
    updatedAt: int,
    slug: string,
    displayName: string,
    description: Option<string>,
    icon: Option<string>,
    sortOrder: int,
    requiredDataFields: seq<string>,
    isActive: bool)
  {
    function Type(): string {
      DocumentType
    }
  }

  /** Every declared constraint of a section holds. */
  predicate ValidSection(s: Section) {
    && Required(s.slug) && IsValidSlug(s.slug)
    && Required(s.displayName) && LengthBetween(s.displayName, 3, 100)
    && OptionalLengthAtMost(s.description, 500)
    && OptionalLengthAtMost(s.icon, 50)
    && InPercentRange(s.sortOrder)
  }

  /** `CreateSystemSection`: a system-owned section with the property defaults
      (sort order 0, no required data, active). */
  function CreateSystemSection(slug: string, displayName: string, now: int): (r: Section)
    ensures r.id == DocumentId(DocumentType, slug) && r.userId == SystemPartition
    ensures r.slug == slug && r.displayName == displayName
    ensures r.isActive && r.requiredDataFields == [] && r.sortOrder == 0
    ensures r.description == None && r.icon == None
    ensures r.Type() == "section"
  {
    Section(DocumentId(DocumentType, slug), SystemPartition, now, now, slug, displayName, None, None, 0, [], true)
  }

  /** A system section built from a valid slug and display name is valid. */
  lemma CreateSystemSectionValid(slug: string, displayName: string, now: int)
    requires IsValidSlug(slug) && Required(displayName) && LengthBetween(displayName, 3, 100)
    ensures ValidSection(CreateSystemSection(slug, displayName, now))
  {
    SlugRequired(slug);
  }
}
