/**
 * README generation: the enabled sections of a profile configuration, in
 * order, each rendered through its style's markdown template, plus the
 * workflow and asset files the styles need. Template rendering (Scriban) is a
 * parameter of the model: it yields the rendered text, or nothing when the
 * template has parse errors or rendering throws.
 */
module ReadmeGenerator {
  import opened Wrappers
  import opened Sorting
  import opened Linq
  import opened GitHubModels
  import opened ProfileTemplates
  import opened SectionStyles
  import opened ProfileConfigs
  import opened GeneratedProfiles
  import TemplateService

  /**
   * The names a template reads from the context and its nested objects, one
   * constructor per name; `Name` gives the name templates write.
   */
  datatype Field =
    | Username | DisplayName | Tagline | AboutMe | Skills | Theme | StatsObject | Repositories | Social | Preferences
    | Primary | Secondary | Background | Gradient | TextColor
    | PublicReposCount | TotalRepos | TotalStars | TotalForks | TotalCommits | TotalFollowers | TotalFollowing
    | RepoName | RepoDescription | PrimaryLanguage | Stars | Forks | Languages | HtmlUrl
    | Linkedin | Twitter | Youtube | Discord | Email | Website | Leetcode | Resume
    | ShowOpenToWork | ShowProfileViews
  {
    function Name(): string {
      match this
      case Username => "username"
      case DisplayName => "display_name"
      case Tagline => "tagline"
      case AboutMe => "about_me"
      case Skills => "skills"
      case Theme => "theme"
      case StatsObject => "stats"
      case Repositories => "repositories"
      case Social => "social"
      case Preferences => "preferences"
      case Primary => "primary"
      case Secondary => "secondary"
      case Background => "background"
      case Gradient => "gradient"
      case TextColor => "text_color"
      case PublicReposCount => "public_repos_count"
      case TotalRepos => "total_repos"
      case TotalStars => "total_stars"
      case TotalForks => "total_forks"
      case TotalCommits => "total_commits"
      case TotalFollowers => "total_followers"
      case TotalFollowing => "total_following"
      case RepoName => "name"
      case RepoDescription => "description"
      case PrimaryLanguage => "primary_language"
      case Stars => "stars"
      case Forks => "forks"
      case Languages => "languages"
      case HtmlUrl => "html_url"
      case Linkedin => "linkedin"
      case Twitter => "twitter"
      case Youtube => "youtube"
      case Discord => "discord"
      case Email => "email"
      case Website => "website"
      case Leetcode => "leetcode"
      case Resume => "resume"
      case ShowOpenToWork => "show_open_to_work"
      case ShowProfileViews => "show_profile_views"
    }
  }

  /** A value a template can read: the contents of a Scriban `ScriptObject`. */
  datatype ScriptValue =
    | SStr(s: string)
    | SInt(i: int)
    | SBool(b: bool)
    | SList(items: seq<ScriptValue>)
    | SObject(fields: map<Field, ScriptValue>)

  /** The global object templates are rendered against. */
  type Context = map<Field, ScriptValue>

  /** Scriban's parse-and-render: `None` when parsing reports errors or
      rendering throws. */
  type Renderer = (string, Context) -> Option<string>

  /** `Environment.NewLine`, taken to be a line feed. */
  const NewLine := "\n"

  /** The gradient used when a theme has none. */
  const DefaultGradient := "0:EEFF00,100:a82da"

  /** The text colour used when a theme has none. */
  const DefaultTextColor := "#ffffff"

  /** The `theme` object shared by both contexts: the three colours, and the
      gradient and text colour with their defaults. */
  function ThemeObject(theme: ThemeConfig): (r: ScriptValue)
    ensures r.SObject? && r.fields.Keys == {Primary, Secondary, Background, Gradient, TextColor}
    ensures r.fields[Primary] == SStr(theme.primary) && r.fields[Secondary] == SStr(theme.secondary)
    ensures r.fields[Background] == SStr(theme.background)
    ensures r.fields[Gradient] == SStr(if theme.gradient.Some? then theme.gradient.value else DefaultGradient)
    ensures r.fields[TextColor] == SStr(if theme.textColor.Some? then theme.textColor.value else DefaultTextColor)
  {
    SObject(map[
      Primary := SStr(theme.primary),
      Secondary := SStr(theme.secondary),
      Background := SStr(theme.background),
      Gradient := SStr(theme.gradient.GetOr(DefaultGradient)),
      TextColor := SStr(theme.textColor.GetOr(DefaultTextColor))])
  }

  /** A list of strings as a template sees it. */
  function Strings(xs: seq<string>): (r: ScriptValue)
    ensures r.SList? && |r.items| == |xs|
    ensures forall i :: 0 <= i < |xs| ==> r.items[i] == SStr(xs[i])
  {
    SList(seq(|xs|, i requires 0 <= i < |xs| => SStr(xs[i])))
  }

  /** One entry of the `repositories` list: no description reads as empty, no
      language as "Unknown", no language list as an empty one. */
  function RepoObject(repo: Repository): (r: ScriptValue)
    ensures r.SObject? && r.fields.Keys == {RepoName, RepoDescription, PrimaryLanguage, Stars, Forks, Languages, HtmlUrl}
    ensures r.fields[RepoName] == SStr(repo.name) && r.fields[HtmlUrl] == SStr(repo.htmlUrl)
    ensures r.fields[RepoDescription] == SStr(if repo.description.Some? then repo.description.value else "")
    ensures r.fields[PrimaryLanguage] == SStr(if repo.language.Some? then repo.language.value else "Unknown")
    ensures r.fields[Stars] == SInt(repo.starsCount) && r.fields[Forks] == SInt(repo.forksCount)
    ensures r.fields[Languages] == Strings(if repo.languages.Some? then repo.languages.value else [])
  {
    SObject(map[
      RepoName := SStr(repo.name),
      RepoDescription := SStr(repo.description.GetOr("")),
      PrimaryLanguage := SStr(repo.language.GetOr("Unknown")),
      Stars := SInt(repo.starsCount),
      Forks := SInt(repo.forksCount),
      Languages := Strings(repo.languages.GetOr([])),
      HtmlUrl := SStr(repo.htmlUrl)])
  }

  /** The `social` object: every link, absent ones as empty strings. */
  function SocialObject(s: SocialLinks): (r: ScriptValue)
    ensures r.SObject? && r.fields.Keys == {Linkedin, Twitter, Youtube, Discord, Email, Website, Leetcode, Resume}
    ensures r.fields[Linkedin] == SStr(if s.linkedin.Some? then s.linkedin.value else "")
    ensures r.fields[Email] == SStr(if s.email.Some? then s.email.value else "")
    ensures r.fields[Twitter] == SStr(if s.twitter.Some? then s.twitter.value else "")
    ensures r.fields[Youtube] == SStr(if s.youtube.Some? then s.youtube.value else "")
    ensures r.fields[Discord] == SStr(if s.discord.Some? then s.discord.value else "")
    ensures r.fields[Website] == SStr(if s.website.Some? then s.website.value else "")
    ensures r.fields[Leetcode] == SStr(if s.leetcode.Some? then s.leetcode.value else "")
    ensures r.fields[Resume] == SStr(if s.resume.Some? then s.resume.value else "")
  {
    SObject(map[
      Linkedin := SStr(s.linkedin.GetOr("")),
      Twitter := SStr(s.twitter.GetOr("")),
      Youtube := SStr(s.youtube.GetOr("")),
      Discord := SStr(s.discord.GetOr("")),
      Email := SStr(s.email.GetOr("")),
      Website := SStr(s.website.GetOr("")),
      Leetcode := SStr(s.leetcode.GetOr("")),
      Resume := SStr(s.resume.GetOr(""))])
  }

  /** The placeholders shown for content the user has not written. */
  const PlaceholderUsername := "Github Username"
  const PlaceholderDisplayName := "GitHub display name"
  const PlaceholderTagline := "Your tagline goes here"
  const PlaceholderAboutMe := "A short bio about you."

  /** The `stats` object of a user's context. */
  function StatsObjectOf(stats: Stats): (r: ScriptValue)
    ensures r.SObject? && r.fields.Keys == {PublicReposCount, TotalStars, TotalForks, TotalCommits, TotalFollowers, TotalFollowing}
    ensures r.fields[PublicReposCount] == SInt(stats.publicReposCount) && r.fields[TotalStars] == SInt(stats.totalStars)
    ensures r.fields[TotalForks] == SInt(stats.totalForks) && r.fields[TotalCommits] == SInt(stats.totalCommits)
    ensures r.fields[TotalFollowers] == SInt(stats.followers) && r.fields[TotalFollowing] == SInt(stats.following)
  {
    SObject(map[
      PublicReposCount := SInt(stats.publicReposCount),
      TotalStars := SInt(stats.totalStars),
      TotalForks := SInt(stats.totalForks),
      TotalCommits := SInt(stats.totalCommits),
      TotalFollowers := SInt(stats.followers),
      TotalFollowing := SInt(stats.following)])
  }

  /** The `preferences` object. */
  function PreferencesObject(p: ProfilePreferences): (r: ScriptValue)
    ensures r.SObject? && r.fields.Keys == {ShowOpenToWork, ShowProfileViews}
    ensures r.fields[ShowOpenToWork] == SBool(p.showOpenToWork) && r.fields[ShowProfileViews] == SBool(p.showProfileViews)
  {
    SObject(map[ShowOpenToWork := SBool(p.showOpenToWork), ShowProfileViews := SBool(p.showProfileViews)])
  }

  /** The `repositories` list, one object per repository in order. */
  function RepositoryList(repos: seq<Repository>): (r: ScriptValue)
    ensures r.SList? && |r.items| == |repos|
    ensures forall i :: 0 <= i < |repos| ==> r.items[i] == RepoObject(repos[i])
  {
    SList(seq(|repos|, i requires 0 <= i < |repos| => RepoObject(repos[i])))
  }

  /** `BuildTemplateContext`: the user's content with placeholders for what is
      missing (the username falls back on the display name), the theme with its
      defaults, the GitHub figures and repositories, the links when there are
      any, and the preferences. */
  function BuildTemplateContext(config: ProfileConfig, stats: Stats, repos: seq<Repository>): (r: Context)
    ensures r.Keys == {Username, DisplayName, Tagline, AboutMe, Skills, Theme, StatsObject, Repositories, Preferences}
                      + (if config.socialLinks.Some? then {Social} else {})
    ensures r[Username] == SStr(if config.content.displayName.Some? then config.content.displayName.value else PlaceholderUsername)
    ensures r[DisplayName] == SStr(if config.content.displayName.Some? then config.content.displayName.value else PlaceholderDisplayName)
    ensures r[Tagline] == SStr(if config.content.tagline.Some? then config.content.tagline.value else PlaceholderTagline)
    ensures r[AboutMe] == SStr(if config.content.aboutMe.Some? then config.content.aboutMe.value else PlaceholderAboutMe)
    ensures r[Skills] == Strings(if config.content.customSkills.Some? then config.content.customSkills.value else [])
    ensures r[Theme] == ThemeObject(config.theme)
    ensures r[StatsObject] == StatsObjectOf(stats)
    ensures r[Repositories] == RepositoryList(repos)
    ensures config.socialLinks.Some? ==> Social in r && r[Social] == SocialObject(config.socialLinks.value)
    ensures config.socialLinks.None? ==> Social !in r
    ensures r[Preferences] == PreferencesObject(config.preferences)
  {
    var social := if config.socialLinks.Some? then Some(SocialObject(config.socialLinks.value)) else None;
    Assemble(ContentEntries(config.content), ThemeObject(config.theme), StatsObjectOf(stats),
             RepositoryList(repos), PreferencesObject(config.preferences), social)
  }

  /** The context from its parts: the content entries, the four objects, and the
      social object when there is one. */
  function Assemble(content: Context, theme: ScriptValue, stats: ScriptValue, repos: ScriptValue,
                    preferences: ScriptValue, social: Option<ScriptValue>): (r: Context)
    requires content.Keys == {Username, DisplayName, Tagline, AboutMe, Skills}
    ensures r.Keys == {Username, DisplayName, Tagline, AboutMe, Skills, Theme, StatsObject, Repositories, Preferences}
                      + (if social.Some? then {Social} else {})
    ensures forall f :: f in content ==> f in r && r[f] == content[f]
    ensures Theme in r && r[Theme] == theme
    ensures StatsObject in r && r[StatsObject] == stats
    ensures Repositories in r && r[Repositories] == repos
    ensures Preferences in r && r[Preferences] == preferences
    ensures social.Some? ==> Social in r && r[Social] == social.value
    ensures social.None? ==> Social !in r
  {
    var core := content[Theme := theme][StatsObject := stats][Repositories := repos][Preferences := preferences];
    if social.Some? then core[Social := social.value] else core
  }

  /** The user's own content, each field or its placeholder. */
  function ContentEntries(c: ProfileContent): (r: Context)
    ensures r.Keys == {Username, DisplayName, Tagline, AboutMe, Skills}
    ensures r[Username] == SStr(if c.displayName.Some? then c.displayName.value else PlaceholderUsername)
    ensures r[DisplayName] == SStr(if c.displayName.Some? then c.displayName.value else PlaceholderDisplayName)
    ensures r[Tagline] == SStr(if c.tagline.Some? then c.tagline.value else PlaceholderTagline)
    ensures r[AboutMe] == SStr(if c.aboutMe.Some? then c.aboutMe.value else PlaceholderAboutMe)
    ensures r[Skills] == Strings(if c.customSkills.Some? then c.customSkills.value else [])
  {
    map[
      Username := SStr(c.displayName.GetOr(PlaceholderUsername)),
      DisplayName := SStr(c.displayName.GetOr(PlaceholderDisplayName)),
      Tagline := SStr(c.tagline.GetOr(PlaceholderTagline)),
      AboutMe := SStr(c.aboutMe.GetOr(PlaceholderAboutMe)),
      Skills := Strings(c.customSkills.GetOr([]))]
  }

  /** The sample user of style previews. */
  const SampleUsername := "MohamedRaafat"
  const SampleDisplayName := "Mohamed Raafat"
  const SampleTagline := "Software Engineer Intern @ Microsoft | Full Stack Developer"
  const SampleAboutMe := "Passionate about building impactful software solutions. Experienced in C#, .NET, and cloud technologies."
  const SampleSkills: seq<string> := ["C#", ".NET", "Azure", "JavaScript", "React"]

  /** The sample figures: repositories are counted under `total_repos`, not
      `public_repos_count` as in a user's context. */
  function SampleStatsObject(): (r: ScriptValue)
    ensures r.SObject? && r.fields.Keys == {TotalRepos, TotalStars, TotalForks, TotalCommits, TotalFollowers, TotalFollowing}
    ensures r.fields[TotalRepos] == SInt(23) && r.fields[TotalStars] == SInt(17) && r.fields[TotalForks] == SInt(3)
    ensures r.fields[TotalCommits] == SInt(1000) && r.fields[TotalFollowers] == SInt(69) && r.fields[TotalFollowing] == SInt(13)
  {
    SObject(map[
      TotalRepos := SInt(23),
      TotalStars := SInt(17),
      TotalForks := SInt(3),
      TotalCommits := SInt(1000),
      TotalFollowers := SInt(69),
      TotalFollowing := SInt(13)])
  }

  /** `BuildPreviewContext`: the sample user and figures with the given theme;
      there are no repositories, links or preferences. */
  function BuildPreviewContext(theme: ThemeConfig): (r: Context)
    ensures r.Keys == {Username, DisplayName, Tagline, AboutMe, Skills, Theme, StatsObject}
    ensures r[Username] == SStr(SampleUsername) && r[AboutMe] == SStr(SampleAboutMe)
    ensures r[DisplayName] == SStr(SampleDisplayName) && r[Tagline] == SStr(SampleTagline)
    ensures r[Skills] == Strings(SampleSkills)
    ensures r[Theme] == ThemeObject(theme)
    ensures r[StatsObject] == SampleStatsObject()
  {
    map[
      Username := SStr(SampleUsername),
      DisplayName := SStr(SampleDisplayName),
      Tagline := SStr(SampleTagline),
      AboutMe := SStr(SampleAboutMe),
      Skills := Strings(SampleSkills),
      Theme := ThemeObject(theme),
      StatsObject := SampleStatsObject()]
  }

  /** `RenderTemplate`: the rendered text, or the template itself when parsing
      or rendering fails. */
  function RenderTemplate(render: Renderer, template: string, context: Context): (r: string)
    ensures render(template, context).None? ==> r == template
    ensures render(template, context).Some? ==> r == render(template, context).value
  {
    render(template, context).GetOr(template)
  }

  /** `GenerateSectionPreviewAsync`: one style rendered against the sample
      context. */
  function GenerateSectionPreview(render: Renderer, style: SectionStyle, theme: ThemeConfig): (r: string)
    ensures render(style.markdownTemplate, BuildPreviewContext(theme)).None? ==> r == style.markdownTemplate
    ensures render(style.markdownTemplate, BuildPreviewContext(theme)).Some? ==>
              r == render(style.markdownTemplate, BuildPreviewContext(theme)).value
  {
    RenderTemplate(render, style.markdownTemplate, BuildPreviewContext(theme))
  }

  /** `Where(s => s.Enabled).OrderBy(s => s.Order)`. */
  function EnabledSections(sections: seq<TemplateSectionConfig>): seq<TemplateSectionConfig> {
    SortBy(Where(sections, (s: TemplateSectionConfig) => s.enabled), OrderByOrder())
  }

  function OrderByOrder(): (TemplateSectionConfig, TemplateSectionConfig) -> bool {
    (a: TemplateSectionConfig, b: TemplateSectionConfig) => a.order < b.order
  }

  /** `Select(s => s.StyleId).Distinct()`. */
  function StyleIds(enabled: seq<TemplateSectionConfig>): (r: seq<string>)
    ensures forall i, j :: 0 <= i < j < |r| ==> r[i] != r[j]
    ensures forall id :: id in r <==> exists k :: 0 <= k < |enabled| && enabled[k].styleId == id
  {
    var ids := seq(|enabled|, k requires 0 <= k < |enabled| => enabled[k].styleId);
    forall k | 0 <= k < |enabled| ensures enabled[k].styleId in ids {
      assert ids[k] == enabled[k].styleId;
    }
    forall id | id in ids ensures exists k :: 0 <= k < |enabled| && enabled[k].styleId == id {
      var k :| 0 <= k < |ids| && ids[k] == id;
      assert enabled[k].styleId == id;
    }
    Distinct(ids)
  }

  /** The workflow files of one style, contents rendered, paths kept. */
  function RenderWorkflows(render: Renderer, defs: seq<WorkflowDefinition>, context: Context): (r: seq<GeneratedWorkflow>)
    ensures |r| == |defs|
    ensures forall i :: 0 <= i < |defs| ==> r[i].path == defs[i].path
    decreases |defs|
  {
    if |defs| == 0 then []
    else
      var d := defs[|defs| - 1];
      RenderWorkflows(render, defs[..|defs| - 1], context)
        + [GeneratedWorkflow(d.path, RenderTemplate(render, d.content, context))]
  }

  /** The asset files of one style, paths and contents rendered, content types
      kept. */
  function RenderAssets(render: Renderer, defs: seq<AssetDefinition>, context: Context): (r: seq<GeneratedAsset>)
    ensures |r| == |defs|
    ensures forall i :: 0 <= i < |defs| ==> r[i].contentType == defs[i].contentType
    decreases |defs|
  {
    if |defs| == 0 then []
    else
      var d := defs[|defs| - 1];
      RenderAssets(render, defs[..|defs| - 1], context)
        + [GeneratedAsset(RenderTemplate(render, d.path, context), RenderTemplate(render, d.content, context), d.contentType)]
  }

  /** The output for the given sections: a section whose style was not found is
      skipped; the others add their rendered markdown and a blank line, their
      workflows and their assets. */
  function Generated(render: Renderer, enabled: seq<TemplateSectionConfig>, styles: map<string, SectionStyle>,
                     context: Context): GeneratedProfile
    decreases |enabled|
  {
    if |enabled| == 0 then GeneratedProfile("", [], [])
    else
      var g := Generated(render, enabled[..|enabled| - 1], styles, context);
      var id := enabled[|enabled| - 1].styleId;
      if id !in styles then g
      else
        var style := styles[id];
        GeneratedProfile(
          g.readme + RenderTemplate(render, style.markdownTemplate, context) + NewLine + NewLine,
          g.workflows + RenderWorkflows(render, style.workflows, context),
          g.assets + RenderAssets(render, style.assets, context))
  }

  /** The number of workflow and asset files the found styles bring. */
  function StyleFileCount(enabled: seq<TemplateSectionConfig>, styles: map<string, SectionStyle>): nat
    decreases |enabled|
  {
    if |enabled| == 0 then 0
    else
      var id := enabled[|enabled| - 1].styleId;
      StyleFileCount(enabled[..|enabled| - 1], styles)
        + (if id in styles then |styles[id].workflows| + |styles[id].assets| else 0)
  }

  /** The README is deployed with one file per workflow and asset of every
      rendered style. */
  lemma {:induction false} GeneratedFileCount(render: Renderer, enabled: seq<TemplateSectionConfig>,
                                              styles: map<string, SectionStyle>, context: Context)
    ensures Generated(render, enabled, styles, context).TotalFileCount() == 1 + StyleFileCount(enabled, styles)
    decreases |enabled|
  {
    if |enabled| > 0 {
      GeneratedFileCount(render, enabled[..|enabled| - 1], styles, context);
    }
  }

  /** Every generated workflow sits at the path of a workflow definition of a
      rendered style. */
  lemma {:induction false} GeneratedWorkflowPaths(render: Renderer, enabled: seq<TemplateSectionConfig>,
                                                  styles: map<string, SectionStyle>, context: Context, w: int)
    requires 0 <= w < |Generated(render, enabled, styles, context).workflows|
    ensures exists k, d :: 0 <= k < |enabled| && enabled[k].styleId in styles
              && 0 <= d < |styles[enabled[k].styleId].workflows|
              && styles[enabled[k].styleId].workflows[d].path == Generated(render, enabled, styles, context).workflows[w].path
    decreases |enabled|
  {
    var init := enabled[..|enabled| - 1];
    var g := Generated(render, init, styles, context);
    var id := enabled[|enabled| - 1].styleId;
    var path := Generated(render, enabled, styles, context).workflows[w].path;
    if w < |g.workflows| {
      GeneratedWorkflowPaths(render, init, styles, context, w);
      var k, d :| 0 <= k < |init| && init[k].styleId in styles
                  && 0 <= d < |styles[init[k].styleId].workflows|
                  && styles[init[k].styleId].workflows[d].path == g.workflows[w].path;
      assert enabled[k] == init[k];
    } else {
      var d := w - |g.workflows|;
      assert id in styles;
      assert path == RenderWorkflows(render, styles[id].workflows, context)[d].path;
      assert styles[enabled[|enabled| - 1].styleId].workflows[d].path == path;
    }
  }

  /** Sections whose style is missing change nothing. */
  lemma {:induction false} MissingStylesSkipped(render: Renderer, enabled: seq<TemplateSectionConfig>,
                                                styles: map<string, SectionStyle>, context: Context)
    requires forall k :: 0 <= k < |enabled| ==> enabled[k].styleId !in styles
    ensures Generated(render, enabled, styles, context) == GeneratedProfile("", [], [])
    decreases |enabled|
  {
    if |enabled| > 0 {
      MissingStylesSkipped(render, enabled[..|enabled| - 1], styles, context);
    }
  }

  /** The sections rendered are the enabled ones, each as often as configured,
      in ascending `Order`. */
  lemma EnabledSectionsOrdered(sections: seq<TemplateSectionConfig>)
    ensures var r := EnabledSections(sections);
      && (forall i :: 0 <= i < |r| ==> r[i].enabled)
      && (forall s :: multiset(r)[s] == if s.enabled then multiset(sections)[s] else 0)
      && (forall i, j :: 0 <= i < j < |r| ==> r[i].order <= r[j].order)
  {
    var p := (s: TemplateSectionConfig) => s.enabled;
    assert StrictWeakOrder(OrderByOrder());
    SortByCorrect(Where(sections, p), OrderByOrder());
    var r := EnabledSections(sections);
    forall s: TemplateSectionConfig ensures multiset(r)[s] == if s.enabled then multiset(sections)[s] else 0 {
      WhereCounts(sections, p, s);
    }
    forall i | 0 <= i < |r| ensures r[i].enabled {
      assert r[i] in multiset(r);
      WhereCounts(sections, p, r[i]);
    }
    forall i, j | 0 <= i < j < |r| ensures r[i].order <= r[j].order {
      assert !OrderByOrder()(r[j], r[i]);
    }
  }

  /** The workflow loop of `GenerateAsync`: each definition's content rendered,
      appended in order. */
  method AppendWorkflows(render: Renderer, defs: seq<WorkflowDefinition>, context: Context,
                         workflows: seq<GeneratedWorkflow>)
    returns (r: seq<GeneratedWorkflow>)
    ensures r == workflows + RenderWorkflows(render, defs, context)
  {
    r := workflows;
    var j := 0;
    while j < |defs|
      invariant 0 <= j <= |defs|
      invariant r == workflows + RenderWorkflows(render, defs[..j], context)
    {
      PrefixStep(defs, j);
      var workflow := defs[j];
      r := r + [GeneratedWorkflow(workflow.path, RenderTemplate(render, workflow.content, context))];
      j := j + 1;
    }
    assert defs[..j] == defs;
  }

  /** The asset loop of `GenerateAsync`: each definition's path and content
      rendered, appended in order. */
  method AppendAssets(render: Renderer, defs: seq<AssetDefinition>, context: Context,
                      assets: seq<GeneratedAsset>)
    returns (r: seq<GeneratedAsset>)
    ensures r == assets + RenderAssets(render, defs, context)
  {
    r := assets;
    var j := 0;
    while j < |defs|
      invariant 0 <= j <= |defs|
      invariant r == assets + RenderAssets(render, defs[..j], context)
    {
      PrefixStep(defs, j);
      var asset := defs[j];
      r := r + [GeneratedAsset(RenderTemplate(render, asset.path, context),
                               RenderTemplate(render, asset.content, context), asset.contentType)];
      j := j + 1;
    }
    assert defs[..j] == defs;
  }

  /** The section loop of `GenerateAsync`: a section whose style was not found
      is skipped, the others are rendered in order. */
  method RenderSections(render: Renderer, enabled: seq<TemplateSectionConfig>, styles: map<string, SectionStyle>,
                        context: Context)
    returns (generated: GeneratedProfile)
    ensures generated == Generated(render, enabled, styles, context)
  {
    var readme := "";
    var workflows: seq<GeneratedWorkflow> := [];
    var assets: seq<GeneratedAsset> := [];
    var i := 0;
    while i < |enabled|
      invariant 0 <= i <= |enabled|
      invariant GeneratedProfile(readme, workflows, assets) == Generated(render, enabled[..i], styles, context)
    {
      PrefixStep(enabled, i);
      var sectionConfig := enabled[i];
      if sectionConfig.styleId in styles {
        var style := styles[sectionConfig.styleId];
        readme := readme + RenderTemplate(render, style.markdownTemplate, context) + NewLine;
        readme := readme + NewLine;
        workflows := AppendWorkflows(render, style.workflows, context, workflows);
        assets := AppendAssets(render, style.assets, context, assets);
      }
      i := i + 1;
    }
    assert enabled[..i] == enabled;
    generated := GeneratedProfile(readme, workflows, assets);
  }

  /**
   * `GenerateAsync`. `allStyles` is what the active-style query returns; the
   * style lookup fails, and so does generation, when it holds a wanted id twice.
   */
  method Generate(render: Renderer, config: ProfileConfig, stats: Stats, repos: seq<Repository>,
                  allStyles: seq<SectionStyle>)
    returns (r: Result<GeneratedProfile>)
    ensures var enabled := EnabledSections(config.sections);
            var found := TemplateService.GetStylesByIds(StyleIds(enabled), allStyles);
            && (r.Err? <==> found.Err?)
            && (r.Ok? ==> r.value == Generated(render, enabled, found.value, BuildTemplateContext(config, stats, repos)))
  {
    var enabled := EnabledSections(config.sections);
    var found := TemplateService.GetStylesByIds(StyleIds(enabled), allStyles);
    if found.Err? {
      return Err(found.error);
    }
    var styles := found.value;
    var context := BuildTemplateContext(config, stats, repos);
    var generated := RenderSections(render, enabled, styles, context);
    return Ok(generated);
  }
}
