/**
 * Profile templates: a named, themed, ordered list of (section, style) choices
 * that a user's profile configuration starts from.
 */
module ProfileTemplates {
  import opened Wrappers
  import opened Validation
  import opened Documents

  /** The type discriminator of template documents. */
  const DocumentType := "template"

  /** `ThemeConfig`: the colours a template renders with. */
  datatype ThemeConfig = ThemeConfig(
    id: string,
    name: string,
    primary: string,
    secondary: string,
    background: string,
    gradient: Option<string>,
    textColor: Option<string>)

  /** The declared constraints of a theme: a non-blank id, a non-blank name of
      at most 50 characters, three hex colours (which are never blank) and an
      optional hex text colour. */
  predicate ValidTheme(t: ThemeConfig) {
    && Required(t.id)
    && Required(t.name) && |t.name| <= 50
    && IsHexColor(t.primary) && IsHexColor(t.secondary) && IsHexColor(t.background)
    && IsOptionalHexColor(t.textColor)
  }

  /** `TemplateSectionConfig`: one section of a template, with the style it uses
      and its position. The free-form `Config` dictionary is not modelled. */
  datatype TemplateSectionConfig = TemplateSectionConfig(
    sectionId: string,
    styleId: string,
    order: int,
    enabled: bool)

  /** A section entry written without `Enabled`, which defaults to true. */
  function SectionEntry(sectionId: string, styleId: string, order: int): (r: TemplateSectionConfig)
    ensures r.enabled
    ensures r.sectionId == sectionId && r.styleId == styleId && r.order == order
  {
    TemplateSectionConfig(sectionId, styleId, order, true)
  }

  /** `[Required]` on both ids and `[Range(0, 100)]` on `Order`. */
  predicate ValidSectionEntry(s: TemplateSectionConfig) {
    Required(s.sectionId) && Required(s.styleId) && InPercentRange(s.order)
  }

  /** `ProfileTemplate`. Times are instants on the caller's clock. */
  datatype ProfileTemplate = ProfileTemplate(
    id: string,
    userId: string,
    createdAt: int,
    updatedAt: int,
    slug: string,
    displayName: string,
    description: Option<string>,
    icon: Option<string>,
    previewImageUrl: Option<string>,
    theme: ThemeConfig,
    sections: seq<TemplateSectionConfig>,
    isOfficial: bool,
    createdBy: string,
    isActive: bool,
    usageCount: int)
  {
    function Type(): string {
      DocumentType
    }
  }

  /** Every declared constraint of a template holds. */
  predicate ValidTemplate(t: ProfileTemplate) {
    && Required(t.slug) && IsValidSlug(t.slug)
    && Required(t.displayName) && LengthBetween(t.displayName, 3, 100)
    && OptionalLengthAtMost(t.description, 500)
    && OptionalLengthAtMost(t.icon, 10)
    && IsOptionalUrl(t.previewImageUrl)
    && ValidTheme(t.theme)
    && |t.sections| >= 1
    && (forall i :: 0 <= i < |t.sections| ==> ValidSectionEntry(t.sections[i]))
    && t.usageCount >= 0
  }

  /** `CreateOfficial`: an active official template owned by the system and
      created by "admin", unused so far. */
  function CreateOfficial(slug: string, displayName: string, theme: ThemeConfig,
                          sections: seq<TemplateSectionConfig>, now: int): (r: ProfileTemplate)
    ensures r.id == DocumentId(DocumentType, slug) && r.userId == SystemPartition
    ensures r.slug == slug && r.displayName == displayName && r.theme == theme && r.sections == sections
    ensures r.isOfficial && r.isActive && r.createdBy == "admin" && r.usageCount == 0
    ensures r.description == None && r.icon == None && r.previewImageUrl == None
    ensures r.createdAt == now && r.updatedAt == now
  {
    ProfileTemplate(DocumentId(DocumentType, slug), SystemPartition, now, now, slug, displayName,
                    None, None, None, theme, sections, true, "admin", true, 0)
  }

  /** An official template built from valid parts satisfies every declared
      constraint. */
  lemma CreateOfficialValid(slug: string, displayName: string, theme: ThemeConfig,
                            sections: seq<TemplateSectionConfig>, now: int)
    requires IsValidSlug(slug) && Required(displayName) && LengthBetween(displayName, 3, 100) && ValidTheme(theme)
    requires |sections| >= 1 && forall i :: 0 <= i < |sections| ==> ValidSectionEntry(sections[i])
    ensures ValidTemplate(CreateOfficial(slug, displayName, theme, sections, now))
  {
    SlugRequired(slug);
  }

  /** The id of an official template determines its slug. */
  lemma OfficialIdsDistinct(a: string, b: string, theme: ThemeConfig, sections: seq<TemplateSectionConfig>,
                            displayName: string, now: int)
    requires a != b
    ensures CreateOfficial(a, displayName, theme, sections, now).id != CreateOfficial(b, displayName, theme, sections, now).id
  {
    if DocumentId(DocumentType, a) == DocumentId(DocumentType, b) {
      DocumentIdInjective(DocumentType, a, b);
    }
  }
}
