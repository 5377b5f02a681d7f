/**
 * Section styles: one way of rendering a section, as a markdown template plus
 * the workflow and asset files it needs in the profile repository.
 */
module SectionStyles {
  import opened Wrappers
  import opened Validation
  import opened Documents
  import Sections

  /** The type discriminator of style documents. */
  const DocumentType := "sectionStyle"

  /** `WorkflowDefinition`: a GitHub Actions file the style needs. */
  datatype WorkflowDefinition = WorkflowDefinition(path: string, content: string)

  /** `AssetDefinition`: a static file the style needs. */
  datatype AssetDefinition = AssetDefinition(path: string, content: string, contentType: string)

  /** `SectionStyle`. Times are instants on the caller's clock; the JSON
      `ConfigSchema` is not modelled. */
  datatype SectionStyle = SectionStyle(
    id: string,
    userId: string,
    createdAt: int,
    updatedAt: int,
    sectionId: string,
    slug: string,
    displayName: string,
    description: Option<string>,
    previewImageUrl: Option<string>,
    markdownTemplate: string,
    workflows: seq<WorkflowDefinition>,
    assets: seq<AssetDefinition>,
    isActive: bool)
  {
    function Type(): string {
      DocumentType
    }
  }

  /** Every declared constraint of a style holds. */
  predicate ValidStyle(s: SectionStyle) {
    && Required(s.sectionId)
    && Required(s.slug) && IsValidSlug(s.slug)
    && Required(s.displayName) && LengthBetween(s.displayName, 3, 100)
    && OptionalLengthAtMost(s.description, 500)
    && IsOptionalUrl(s.previewImageUrl)
    && Required(s.markdownTemplate)
  }

  /** `"{sectionSlug}-{styleSlug}"`, the key of a system style's id. */
  function StyleKey(sectionSlug: string, styleSlug: string): string {
    sectionSlug + "-" + styleSlug
  }

  /** `CreateSystem`: a system-owned style of section `sectionSlug`, with no
      workflows or assets, active. */
  function CreateSystem(sectionSlug: string, styleSlug: string, displayName: string,
                        markdownTemplate: string, now: int): (r: SectionStyle)
    ensures r.id == DocumentId(DocumentType, StyleKey(sectionSlug, styleSlug))
    ensures r.sectionId == DocumentId(Sections.DocumentType, sectionSlug)
    ensures r.userId == SystemPartition && r.slug == styleSlug && r.displayName == displayName
    ensures r.markdownTemplate == markdownTemplate
    ensures r.workflows == [] && r.assets == [] && r.isActive
    ensures r.Type() == "sectionStyle"
  {
    SectionStyle(DocumentId(DocumentType, StyleKey(sectionSlug, styleSlug)), SystemPartition, now, now,
                 DocumentId(Sections.DocumentType, sectionSlug), styleSlug, displayName, None, None,
                 markdownTemplate, [], [], true)
  }

  /** A style made by `CreateSystem` points at the section that
      `CreateSystemSection` makes from the same slug. */
  lemma CreateSystemPointsAtSection(sectionSlug: string, styleSlug: string, displayName: string,
                                    markdownTemplate: string, sectionName: string, now: int)
    ensures CreateSystem(sectionSlug, styleSlug, displayName, markdownTemplate, now).sectionId
            == Sections.CreateSystemSection(sectionSlug, sectionName, now).id
  {
  }

  /** The style id starts with the owning section's slug: styles of different
      sections never share an id when the section slugs have no `-`. */
  lemma CreateSystemIdsOfSections(a: string, b: string, styleSlug: string, displayName: string,
                                  markdownTemplate: string, now: int)
    requires a != b && '-' !in a && '-' !in b
    ensures CreateSystem(a, styleSlug, displayName, markdownTemplate, now).id
            != CreateSystem(b, styleSlug, displayName, markdownTemplate, now).id
  {
    var ka, kb := StyleKey(a, styleSlug), StyleKey(b, styleSlug);
    if |a| < |b| {
      assert ka[|a|] != kb[|a|];
    } else if |b| < |a| {
      assert ka[|b|] != kb[|b|];
    } else {
      assert ka[..|a|] == a && kb[..|a|] == b;
    }
    assert DocumentId(DocumentType, ka)[|DocumentType| + 1..] != DocumentId(DocumentType, kb)[|DocumentType| + 1..];
  }
}
