/**
 * A user's profile configuration: the chosen template, theme and sections,
 * the user's own content and links, display preferences and deploy state.
 * One document per user, id `"profileConfig-{userId}"`, partitioned by user.
 */
module ProfileConfigs {
  import opened Wrappers
  import opened Validation
  import opened Documents
  import ProfileTemplates

  /** The type discriminator of configuration documents. */
  const DocumentType := "profileConfig"

  /** `ProfileContent`: the user's own text; every field is optional. */
  datatype ProfileContent = ProfileContent(
    displayName: Option<string>,
    tagline: Option<string>,
    aboutMe: Option<string>,
    customSkills: Option<seq<string>>,
    pinnedRepoNames: Option<seq<string>>)

  /** `new ProfileContent()`. */
  const EmptyContent := ProfileContent(None, None, None, None, None)

  /** The declared length limits of the content. */
  predicate ValidContent(c: ProfileContent) {
    && OptionalLengthAtMost(c.displayName, 100)
    && OptionalLengthAtMost(c.tagline, 200)
    && OptionalLengthAtMost(c.aboutMe, 2000)
  }

  /** `SocialLinks`: eight optional handles or URLs. */
  datatype SocialLinks = SocialLinks(
    linkedin: Option<string>,
    twitter: Option<string>,
    youtube: Option<string>,
    discord: Option<string>,
    email: Option<string>,
    website: Option<string>,
    leetcode: Option<string>,
    resume: Option<string>)

  /** `ProfilePreferences`. */
  datatype ProfilePreferences = ProfilePreferences(showOpenToWork: bool, showProfileViews: bool)

  /** `new ProfilePreferences()`: not open to work, profile views shown. */
  const DefaultPreferences := ProfilePreferences(false, true)

  /** `ProfileConfig`. Times are instants on the caller's clock; the JSON
      snapshot of the last deployed configuration is not modelled. */
  datatype ProfileConfig = ProfileConfig(
    id: string,
    userId: string,
    createdAt: int,
    updatedAt: int,
    templateId: Option<string>,
    theme: ProfileTemplates.ThemeConfig,
    sections: seq<ProfileTemplates.TemplateSectionConfig>,
    content: ProfileContent,
    socialLinks: Option<SocialLinks>,
    preferences: ProfilePreferences,
    isDraft: bool,
    lastDeployedAt: Option<int>)
  {
    function Type(): string {
      DocumentType
    }
  }

  /** The id of a user's configuration document. */
  function ConfigId(userId: string): (r: string)
    ensures r == DocumentId(DocumentType, userId)
    ensures r[..|DocumentType|] == "profileConfig" && r[|DocumentType| + 1..] == userId
  {
    DocumentId(DocumentType, userId)
  }

  /** Different users have different configuration documents. */
  lemma ConfigIdInjective(u: string, v: string)
    requires ConfigId(u) == ConfigId(v)
    ensures u == v
  {
    DocumentIdInjective(DocumentType, u, v);
  }

  /** `CreateForUser`: a draft configuration that starts from `template`, with
      empty content and default preferences. */
  function CreateForUser(userId: string, template: ProfileTemplates.ProfileTemplate, now: int): (r: ProfileConfig)
    ensures r.id == ConfigId(userId) && r.userId == userId
    ensures r.templateId == Some(template.id) && r.theme == template.theme
    ensures |r.sections| == |template.sections| && forall i :: 0 <= i < |r.sections| ==> r.sections[i] == template.sections[i]
    ensures r.content == EmptyContent && r.socialLinks == None && r.preferences == DefaultPreferences
    ensures r.isDraft && r.lastDeployedAt == None
  {
    ProfileConfig(ConfigId(userId), userId, now, now, Some(template.id), template.theme, template.sections,
                  EmptyContent, None, DefaultPreferences, true, None)
  }

  /** `CreateEmpty`: a draft configuration with no template and no sections. */
  function CreateEmpty(userId: string, defaultTheme: ProfileTemplates.ThemeConfig, now: int): (r: ProfileConfig)
    ensures r.id == ConfigId(userId) && r.userId == userId
    ensures r.templateId == None && r.sections == [] && r.theme == defaultTheme
    ensures r.content == EmptyContent && r.socialLinks == None && r.preferences == DefaultPreferences
    ensures r.isDraft && r.lastDeployedAt == None
  {
    ProfileConfig(ConfigId(userId), userId, now, now, None, defaultTheme, [], EmptyContent, None,
                  DefaultPreferences, true, None)
  }

  /** New configurations have content within every limit. */
  lemma NewContentValid()
    ensures ValidContent(EmptyContent)
  {
  }
}
