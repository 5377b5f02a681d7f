/**
 * The style catalogue seeded at start-up: twenty-five system styles in twelve
 * groups, one group per seed section, concatenated in section order. Each
 * style is written only when no style with its id exists yet. Markdown
 * templates and workflow files are Scriban text; the model takes them as
 * parameters.
 */
module SectionStyleSeeding {
  import opened Wrappers
  import opened Text
  import opened Validation
  import opened Documents
  import opened SectionStyles
  import opened Seeding
  import SectionSeeding


  /** One style of a section's group: the last part of its id, its slug,
      display name and description, and the path of the workflow file it
      needs, if any. */
  datatype StyleRow = StyleRow(name: string, slug: string, displayName: string, description: string,
                               workflowPath: Option<string>)

  /** The styles of one section; `sectionKey` is the section id without its
      `section-` prefix. */
  datatype StyleGroup = StyleGroup(sectionKey: string, styles: seq<StyleRow>)

  /** The template texts of the seed styles, by style id. */
  datatype StyleTexts = StyleTexts(markdown: string -> string, workflow: string -> string)

  const SnakeWorkflowPath := ".github/workflows/snake.yml"
  const Profile3dWorkflowPath := ".github/workflows/profile-3d.yml"

  /** The ids of a section's styles all start `sectionStyle-{section}-`. */
  function IdPrefix(sectionKey: string): string {
    "sectionStyle-" + sectionKey + "-"
  }

  /** A section's id is `section-{section}`. */
  function SectionIdOf(sectionKey: string): string {
    "section-" + sectionKey
  }

  const HeaderTypingSvgRow := StyleRow("typing-svg", "typing-svg", "Typing SVG",
               "Animated typing effect with customizable text", None)

  const HeaderCapsuleRenderRow := StyleRow("capsule-render", "capsule-render", "3D Capsule Wave",
               "Animated 3D wave header using capsule-render", None)

  const HeaderSimpleRow := StyleRow("simple", "simple-text", "Simple Text",
               "Clean text-based header", None)

  const BadgeShieldsRow := StyleRow("shields", "shields-io", "Shields.io Badges",
               "Standard shields.io badge row", None)

  const BadgeSocialRow := StyleRow("social", "social-badges", "Social Badges",
               "Badges with social links", None)

  const AboutBulletsRow := StyleRow("bullets", "bullet-list", "Bullet List",
               "About me in bullet points", None)

  const AboutQuoteRow := StyleRow("quote", "quote-style", "Quote Style",
               "About me as a blockquote", None)

  const SkillsIconsRow := StyleRow("icons", "icons-grid", "Icons Grid",
               "Tech stack with icon badges", None)

  const SkillsShieldsRow := StyleRow("shields", "shields-badges", "Shield Badges",
               "Flat shield style badges", None)

  const SkillsSimpleRow := StyleRow("simple", "simple-list", "Simple List",
               "Plain text list of skills", None)

  const StatsCardRow := StyleRow("card", "stats-card", "Stats Card",
               "GitHub stats card", None)

  const StatsCombinedRow := StyleRow("combined", "combined", "Combined Stats",
               "Stats + Languages side by side", None)

  const StatsTrophyRow := StyleRow("trophy", "trophy", "Trophy Display",
               "GitHub profile trophy showcase", None)

  const StreakCardRow := StyleRow("card", "streak-card", "Streak Card",
               "GitHub contribution streak card", None)

  const LanguagesCompactRow := StyleRow("compact", "top-langs-compact", "Compact",
               "Compact language breakdown", None)

  const LanguagesDonutRow := StyleRow("donut", "top-langs-donut", "Donut Chart",
               "Donut chart language breakdown", None)

  const SnakeGreenRow := StyleRow("green", "green-snake", "Green Snake",
               "Classic green contribution snake", Some(SnakeWorkflowPath))

  const SnakeDarkRow := StyleRow("dark", "dark-snake", "Dark Snake",
               "Dark mode contribution snake", Some(SnakeWorkflowPath))

  const Contrib3dProfileRow := StyleRow("profile", "3d-profile", "3D Profile",
               "3D contribution calendar", Some(Profile3dWorkflowPath))

  const ReposCardsRow := StyleRow("cards", "repo-cards", "Repo Cards",
               "GitHub repo cards in a grid", None)

  const ReposTableRow := StyleRow("table", "table-format", "Table Format",
               "Repositories in a table", None)

  const ContactBadgesRow := StyleRow("badges", "badges-row", "Badge Row",
               "Contact links as badge row", None)

  const ContactIconsRow := StyleRow("icons", "icons-row", "Icons Row",
               "Simple icon links", None)

  const FooterWaveRow := StyleRow("wave", "wave-svg", "Wave Footer",
               "Animated wave footer", None)

  const FooterSimpleRow := StyleRow("simple", "simple-line", "Simple Line",
               "Simple horizontal rule footer", None)

  function HeaderStyles(): seq<StyleRow> {
    [HeaderTypingSvgRow, HeaderCapsuleRenderRow, HeaderSimpleRow]
  }

  function BadgeStyles(): seq<StyleRow> {
    [BadgeShieldsRow, BadgeSocialRow]
  }

  function AboutStyles(): seq<StyleRow> {
    [AboutBulletsRow, AboutQuoteRow]
  }

  function SkillsStyles(): seq<StyleRow> {
    [SkillsIconsRow, SkillsShieldsRow, SkillsSimpleRow]
  }

  function StatsStyles(): seq<StyleRow> {
    [StatsCardRow, StatsCombinedRow, StatsTrophyRow]
  }

  function StreakStyles(): seq<StyleRow> {
    [StreakCardRow]
  }

  function LanguagesStyles(): seq<StyleRow> {
    [LanguagesCompactRow, LanguagesDonutRow]
  }

  function SnakeStyles(): seq<StyleRow> {
    [SnakeGreenRow, SnakeDarkRow]
  }

  function Contrib3dStyles(): seq<StyleRow> {
    [Contrib3dProfileRow]
  }

  function ReposStyles(): seq<StyleRow> {
    [ReposCardsRow, ReposTableRow]
  }

  function ContactStyles(): seq<StyleRow> {
    [ContactBadgesRow, ContactIconsRow]
  }

  function FooterStyles(): seq<StyleRow> {
    [FooterWaveRow, FooterSimpleRow]
  }

  /** The groups in the order `GetAllStyles` adds them. */
  function Catalogue(): seq<StyleGroup> {
    [ StyleGroup("header", HeaderStyles()), StyleGroup("badges", BadgeStyles()),
      StyleGroup("about", AboutStyles()), StyleGroup("skills", SkillsStyles()),
      StyleGroup("stats", StatsStyles()), StyleGroup("streak", StreakStyles()),
      StyleGroup("languages", LanguagesStyles()), StyleGroup("snake", SnakeStyles()),
      StyleGroup("3d", Contrib3dStyles()), StyleGroup("repos", ReposStyles()),
      StyleGroup("contact", ContactStyles()), StyleGroup("footer", FooterStyles()) ]
  }

  /** The style a row of the group of `sectionKey` describes, created at `now`. */
  function SeedStyle(sectionKey: string, row: StyleRow, texts: StyleTexts, now: int): SectionStyle {
    var id := IdPrefix(sectionKey) + row.name;
    var workflows := if row.workflowPath.Some? then [WorkflowDefinition(row.workflowPath.value, texts.workflow(id))] else [];
    SectionStyle(id, SystemPartition, now, now, SectionIdOf(sectionKey), row.slug, row.displayName,
                 Some(row.description), None, texts.markdown(id), workflows, [], true)
  }

  /** The styles of one group, in order. */
  function GroupStyles(g: StyleGroup, texts: StyleTexts, now: int): (r: seq<SectionStyle>)
    ensures |r| == |g.styles|
    ensures forall j :: 0 <= j < |r| ==> r[j] == SeedStyle(g.sectionKey, g.styles[j], texts, now)
  {
    seq(|g.styles|, j requires 0 <= j < |g.styles| => SeedStyle(g.sectionKey, g.styles[j], texts, now))
  }

  /** Each style of a group is an active system style of the group's section,
      created at `now`, with its row's id suffix, slug, display name and
      description, no preview image and no assets, the markdown template of its
      id, and a workflow exactly when its row names one. */
  lemma GroupStylesShape(g: StyleGroup, texts: StyleTexts, now: int)
    ensures var r := GroupStyles(g, texts, now);
      forall j :: 0 <= j < |r| ==>
      && r[j].id == IdPrefix(g.sectionKey) + g.styles[j].name && r[j].userId == SystemPartition
      && r[j].sectionId == SectionIdOf(g.sectionKey)
      && r[j].slug == g.styles[j].slug && r[j].displayName == g.styles[j].displayName
      && r[j].description == Some(g.styles[j].description) && r[j].previewImageUrl == None
      && r[j].markdownTemplate == texts.markdown(r[j].id)
      && (g.styles[j].workflowPath.None? <==> r[j].workflows == [])
      && r[j].assets == [] && r[j].isActive && r[j].createdAt == now && r[j].updatedAt == now
  {
  }

  /** The styles of `groups`, one group after another. */
  function Concat(groups: seq<StyleGroup>, texts: StyleTexts, now: int): seq<SectionStyle>
    decreases |groups|
  {
    if |groups| == 0 then []
    else Concat(groups[..|groups| - 1], texts, now) + GroupStyles(groups[|groups| - 1], texts, now)
  }

  /** `GetAllStyles`: every group's styles, added in catalogue order. */
  function SeedStyles(texts: StyleTexts, now: int): seq<SectionStyle> {
    Concat(Catalogue(), texts, now)
  }

  /** Styles are addressed by id within their owner's partition. */
  function StyleAddress(s: SectionStyle): (string, string) {
    (s.id, s.userId)
  }

  /** The repository stamps the update time on every write. */
  function StampStyle(now: int): SectionStyle -> SectionStyle {
    (s: SectionStyle) => s.(updatedAt := now)
  }

  /** `id` is the id of a seed section. */
  predicate IsSeedSectionId(id: string) {
    exists j :: 0 <= j < |SectionSeeding.SectionRows()| && SectionSeeding.SectionRows()[j].id == id
  }

  /** A workflow file under `.github/workflows/` with a `.yml` extension. */
  predicate IsWorkflowPath(path: string) {
    StartsWith(path, ".github/workflows/") && EndsWith(path, ".yml")
  }

  /** The workflow file the styles of a section need: the snake animation and
      the 3D contribution graph are generated by scheduled workflows. */
  function WorkflowOf(sectionKey: string): Option<string> {
    if sectionKey == "snake" then Some(SnakeWorkflowPath)
    else if sectionKey == "3d" then Some(Profile3dWorkflowPath)
    else None
  }

  /** No character of `s` from position `i` on is a `-`. */
  predicate DashFreeFrom(s: string, i: nat)
    decreases |s| - i
  {
    i >= |s| || (s[i] != '-' && DashFreeFrom(s, i + 1))
  }

  lemma {:induction false} DashFreeAt(s: string, i: nat, j: int)
    requires DashFreeFrom(s, i) && i <= j < |s|
    ensures s[j] != '-'
    decreases |s| - i
  {
    if i < j {
      DashFreeAt(s, i + 1, j);
    }
  }

  /** A row of the group of `sectionKey`: its slug, name and description pass
      the style's rules (a name that starts with a visible character is not
      blank), and it needs the section's workflow. */
  predicate RowFits(sectionKey: string, row: StyleRow) {
    && 3 <= |row.slug| <= 50 && SlugCharsFrom(row.slug, 0)
    && LengthBetween(row.displayName, 3, 100) && !IsWhiteSpace(row.displayName[0])
    && |row.description| <= 500
    && row.workflowPath == WorkflowOf(sectionKey)
  }

  /** The rows from position `lo` on fit the group of `sectionKey`, checked
      one row at a time from the front. */
  predicate RowsFitFrom(sectionKey: string, rows: seq<StyleRow>, lo: nat)
    decreases |rows| - lo
  {
    lo >= |rows| || (RowFits(sectionKey, rows[lo]) && RowsFitFrom(sectionKey, rows, lo + 1))
  }

  lemma {:induction false} RowsFitAt(sectionKey: string, rows: seq<StyleRow>, lo: nat, j: int)
    requires RowsFitFrom(sectionKey, rows, lo) && lo <= j < |rows|
    ensures RowFits(sectionKey, rows[j])
    decreases |rows| - lo
  {
    if lo < j {
      RowsFitAt(sectionKey, rows, lo + 1, j);
    }
  }

  /** Every row of the group fits it, the rows' names differ, and the key is a
      non-empty word without `-`, so that an id's prefix names its section. */
  predicate GroupFits(g: StyleGroup) {
    && RowsFitFrom(g.sectionKey, g.styles, 0)
    && (forall i, j :: 0 <= i < j < |g.styles| ==> g.styles[i].name != g.styles[j].name)
    && |g.sectionKey| > 0 && DashFreeFrom(g.sectionKey, 0)
  }

  lemma HeaderFits()
    ensures GroupFits(StyleGroup("header", HeaderStyles()))
  {
    assert SlugCharsFrom("capsule-render", 8);
    assert RowsFitFrom("header", HeaderStyles(), 2);
  }

  lemma BadgesFit()
    ensures GroupFits(StyleGroup("badges", BadgeStyles()))
  {
    assert SlugCharsFrom("social-badges", 8);
  }

  lemma AboutFits()
    ensures GroupFits(StyleGroup("about", AboutStyles()))
  {
  }

  lemma SkillsFit()
    ensures GroupFits(StyleGroup("skills", SkillsStyles()))
  {
    assert SlugCharsFrom("shields-badges", 8);
    assert RowsFitFrom("skills", SkillsStyles(), 2);
  }

  lemma StatsFit()
    ensures GroupFits(StyleGroup("stats", StatsStyles()))
  {
    assert RowFits("stats", StatsCardRow);
    assert RowFits("stats", StatsCombinedRow);
    assert RowFits("stats", StatsTrophyRow);
    assert RowsFitFrom("stats", StatsStyles(), 2);
  }

  lemma StreakFits()
    ensures GroupFits(StyleGroup("streak", StreakStyles()))
  {
  }

  lemma LanguagesFit()
    ensures GroupFits(StyleGroup("languages", LanguagesStyles()))
  {
    assert SlugCharsFrom("top-langs-compact", 8);
    assert SlugCharsFrom("top-langs-donut", 8);
  }

  lemma SnakeFits()
    ensures GroupFits(StyleGroup("snake", SnakeStyles()))
  {
  }

  lemma Contrib3dFits()
    ensures GroupFits(StyleGroup("3d", Contrib3dStyles()))
  {
  }

  lemma ReposFit()
    ensures GroupFits(StyleGroup("repos", ReposStyles()))
  {
  }

  lemma ContactFits()
    ensures GroupFits(StyleGroup("contact", ContactStyles()))
  {
  }

  lemma FooterFits()
    ensures GroupFits(StyleGroup("footer", FooterStyles()))
  {
  }

  lemma Groups0To3Fit()
    ensures |Catalogue()| == 12
    ensures forall k :: 0 <= k < 3 ==> GroupFits(Catalogue()[k])
  {
    var c := Catalogue();
    forall k | 0 <= k < 3 ensures GroupFits(c[k]) {
      if k == 0 {
        HeaderFits();
        assert c[0] == StyleGroup("header", HeaderStyles());
      } else if k == 1 {
        BadgesFit();
        assert c[1] == StyleGroup("badges", BadgeStyles());
      } else {
        AboutFits();
        assert c[2] == StyleGroup("about", AboutStyles());
      }
    }
  }

  lemma Groups3To6Fit()
    ensures |Catalogue()| == 12
    ensures forall k :: 3 <= k < 6 ==> GroupFits(Catalogue()[k])
  {
    var c := Catalogue();
    forall k | 3 <= k < 6 ensures GroupFits(c[k]) {
      if k == 3 {
        SkillsFit();
      } else if k == 4 {
        StatsFit();
      } else {
        StreakFits();
      }
    }
  }

  lemma Groups6To9Fit()
    ensures |Catalogue()| == 12
    ensures forall k :: 6 <= k < 9 ==> GroupFits(Catalogue()[k])
  {
    var c := Catalogue();
    forall k | 6 <= k < 9 ensures GroupFits(c[k]) {
      if k == 6 {
        LanguagesFit();
      } else if k == 7 {
        SnakeFits();
      } else {
        Contrib3dFits();
      }
    }
  }

  lemma Groups9To12Fit()
    ensures |Catalogue()| == 12
    ensures forall k :: 9 <= k < 12 ==> GroupFits(Catalogue()[k])
  {
    var c := Catalogue();
    forall k | 9 <= k < 12 ensures GroupFits(c[k]) {
      if k == 9 {
        ReposFit();
      } else if k == 10 {
        ContactFits();
      } else {
        FooterFits();
      }
    }
  }

  /** The twelve groups fit. */
  lemma CatalogueFits()
    ensures |Catalogue()| == 12
    ensures forall k :: 0 <= k < |Catalogue()| ==> GroupFits(Catalogue()[k])
  {
    Groups0To3Fit();
    Groups3To6Fit();
    Groups6To9Fit();
    Groups9To12Fit();
  }

  /** No two groups share a section key. */
  lemma CatalogueKeysDistinct()
    ensures forall k, l :: 0 <= k < l < |Catalogue()| ==> Catalogue()[k].sectionKey != Catalogue()[l].sectionKey
  {
  }

  /** From position `k` on, the seed sections and the groups list the same
      sections in the same order. */
  predicate SectionsMatchFrom(sections: seq<SectionSeeding.SectionRow>, groups: seq<StyleGroup>, k: nat)
    decreases |groups| - k
  {
    k >= |groups| || (k < |sections| && sections[k].id == SectionIdOf(groups[k].sectionKey) && SectionsMatchFrom(sections, groups, k + 1))
  }

  lemma {:induction false} SectionsMatchAt(sections: seq<SectionSeeding.SectionRow>, groups: seq<StyleGroup>, k: nat, j: int)
    requires SectionsMatchFrom(sections, groups, k) && k <= j < |groups|
    ensures j < |sections| && sections[j].id == SectionIdOf(groups[j].sectionKey)
    decreases |groups| - k
  {
    if k < j {
      SectionsMatchAt(sections, groups, k + 1, j);
    }
  }

  /** The groups from `skills` on sit beside the seed sections of the same position. */
  lemma LaterSectionsMatch()
    ensures SectionsMatchFrom(SectionSeeding.SectionRows(), Catalogue(), 4)
  {
    assert SectionsMatchFrom(SectionSeeding.SectionRows(), Catalogue(), 8);
  }

  /** The section of every group is a seed section. */
  lemma CatalogueSectionsSeeded()
    ensures forall k :: 0 <= k < |Catalogue()| ==> IsSeedSectionId(SectionIdOf(Catalogue()[k].sectionKey))
  {
    var sections, c := SectionSeeding.SectionRows(), Catalogue();
    LaterSectionsMatch();
    assert SectionsMatchFrom(sections, c, 0);
    forall k | 0 <= k < |c| ensures IsSeedSectionId(SectionIdOf(c[k].sectionKey)) {
      SectionsMatchAt(sections, c, 0, k);
    }
  }

  /** An id carries the prefix of at most one section key. */
  lemma PrefixNamesSection(id: string, key1: string, key2: string)
    requires StartsWith(id, IdPrefix(key1)) && StartsWith(id, IdPrefix(key2))
    requires DashFreeFrom(key1, 0) && DashFreeFrom(key2, 0)
    ensures key1 == key2
  {
    var p1, p2 := IdPrefix(key1), IdPrefix(key2);
    assert forall j :: 0 <= j < |key1| ==> p1[13 + j] == key1[j];
    assert forall j :: 0 <= j < |key2| ==> p2[13 + j] == key2[j];
    assert p1[13 + |key1|] == '-' && p2[13 + |key2|] == '-';
    assert forall j :: 0 <= j < |p1| ==> id[j] == p1[j];
    assert forall j :: 0 <= j < |p2| ==> id[j] == p2[j];
    if |key1| < |key2| {
      DashFreeAt(key2, 0, |key1|);
    } else if |key2| < |key1| {
      DashFreeAt(key1, 0, |key2|);
    } else {
      assert forall j :: 0 <= j < |key1| ==> key1[j] == id[13 + j] == key2[j];
    }
  }

  /** `s` is the style of some row of some group. */
  predicate FromSomeRow(groups: seq<StyleGroup>, s: SectionStyle, texts: StyleTexts, now: int) {
    exists k, j :: 0 <= k < |groups| && 0 <= j < |groups[k].styles| &&
      s == SeedStyle(groups[k].sectionKey, groups[k].styles[j], texts, now)
  }

  /** Every style of a concatenation is the style of some row of some group. */
  lemma {:induction false} ConcatFromRows(groups: seq<StyleGroup>, texts: StyleTexts, now: int)
    ensures forall i :: 0 <= i < |Concat(groups, texts, now)| ==> FromSomeRow(groups, Concat(groups, texts, now)[i], texts, now)
    decreases |groups|
  {
    if |groups| == 0 {
      assert Concat(groups, texts, now) == [];
    } else {
      var init, last := groups[..|groups| - 1], groups[|groups| - 1];
      var a, b := Concat(init, texts, now), GroupStyles(last, texts, now);
      var r := Concat(groups, texts, now);
      assert r == a + b;
      ConcatFromRows(init, texts, now);
      forall i | 0 <= i < |r| ensures FromSomeRow(groups, r[i], texts, now) {
        if i < |a| {
          assert r[i] == a[i] && FromSomeRow(init, a[i], texts, now);
          var k, j :| 0 <= k < |init| && 0 <= j < |init[k].styles| &&
                      a[i] == SeedStyle(init[k].sectionKey, init[k].styles[j], texts, now);
          assert groups[k] == init[k];
        } else {
          var j := i - |a|;
          assert r[i] == b[j];
          assert r[i] == SeedStyle(groups[|groups| - 1].sectionKey, groups[|groups| - 1].styles[j], texts, now);
        }
      }
    }
  }

  /** Every style of a concatenation belongs to the system partition. */
  lemma ConcatSystemOwned(groups: seq<StyleGroup>, texts: StyleTexts, now: int)
    ensures forall i :: 0 <= i < |Concat(groups, texts, now)| ==> Concat(groups, texts, now)[i].userId == SystemPartition
  {
    var r := Concat(groups, texts, now);
    ConcatFromRows(groups, texts, now);
    forall i | 0 <= i < |r| ensures r[i].userId == SystemPartition {
      assert FromSomeRow(groups, r[i], texts, now);
    }
  }

  /** The id of a style starts with its section's prefix. */
  lemma SeedStyleId(sectionKey: string, row: StyleRow, texts: StyleTexts, now: int)
    ensures StartsWith(SeedStyle(sectionKey, row, texts, now).id, IdPrefix(sectionKey))
  {
    var p := IdPrefix(sectionKey);
    assert (p + row.name)[..|p|] == p;
  }

  /** Within one group, rows with distinct names give styles with distinct ids. */
  lemma GroupIdsDistinct(g: StyleGroup, texts: StyleTexts, now: int, x: int, y: int)
    requires 0 <= x < y < |g.styles|
    requires g.styles[x].name != g.styles[y].name
    ensures GroupStyles(g, texts, now)[x].id != GroupStyles(g, texts, now)[y].id
  {
    var p := IdPrefix(g.sectionKey);
    var nx, ny := g.styles[x].name, g.styles[y].name;
    assert nx == (p + nx)[|p|..] && ny == (p + ny)[|p|..];
  }

  /** A style of an earlier group and a style of the last group have distinct
      ids when the section keys differ and have no dash. */
  lemma EarlierIdDiffers(groups: seq<StyleGroup>, texts: StyleTexts, now: int, s: SectionStyle, m: int)
    requires |groups| > 0 && 0 <= m < |groups[|groups| - 1].styles|
    requires forall k :: 0 <= k < |groups| ==> GroupFits(groups[k])
    requires forall k, l :: 0 <= k < l < |groups| ==> groups[k].sectionKey != groups[l].sectionKey
    requires FromSomeRow(groups[..|groups| - 1], s, texts, now)
    ensures s.id != SeedStyle(groups[|groups| - 1].sectionKey, groups[|groups| - 1].styles[m], texts, now).id
  {
    var init, last := groups[..|groups| - 1], groups[|groups| - 1];
    var k, n :| 0 <= k < |init| && 0 <= n < |init[k].styles| &&
                s == SeedStyle(init[k].sectionKey, init[k].styles[n], texts, now);
    assert groups[k] == init[k];
    var t := SeedStyle(last.sectionKey, last.styles[m], texts, now);
    SeedStyleId(init[k].sectionKey, init[k].styles[n], texts, now);
    SeedStyleId(last.sectionKey, last.styles[m], texts, now);
    if s.id == t.id {
      PrefixNamesSection(s.id, init[k].sectionKey, last.sectionKey);
    }
  }

  /** Groups that fit, with distinct section keys, give styles with pairwise
      distinct ids. */
  lemma {:induction false} ConcatIdsDistinct(groups: seq<StyleGroup>, texts: StyleTexts, now: int)
    requires forall k :: 0 <= k < |groups| ==> GroupFits(groups[k])
    requires forall k, l :: 0 <= k < l < |groups| ==> groups[k].sectionKey != groups[l].sectionKey
    ensures forall i, j :: 0 <= i < j < |Concat(groups, texts, now)| ==>
              Concat(groups, texts, now)[i].id != Concat(groups, texts, now)[j].id
    decreases |groups|
  {
    if |groups| == 0 {
      assert Concat(groups, texts, now) == [];
    } else {
      var init, last := groups[..|groups| - 1], groups[|groups| - 1];
      var a, b := Concat(init, texts, now), GroupStyles(last, texts, now);
      var r := Concat(groups, texts, now);
      assert r == a + b;
      ConcatIdsDistinct(init, texts, now);
      ConcatFromRows(init, texts, now);
      forall i, j | 0 <= i < j < |r| ensures r[i].id != r[j].id {
        if j < |a| {
          assert r[i] == a[i] && r[j] == a[j];
        } else if |a| <= i {
          assert r[i] == b[i - |a|] && r[j] == b[j - |a|];
          GroupIdsDistinct(last, texts, now, i - |a|, j - |a|);
        } else {
          assert r[i] == a[i] && r[j] == b[j - |a|];
          EarlierIdDiffers(groups, texts, now, a[i], j - |a|);
        }
      }
    }
  }

  /** The number of styles in the groups from position `i` on. */
  function CountFrom(groups: seq<StyleGroup>, i: nat): nat
    decreases |groups| - i
  {
    if i >= |groups| then 0 else |groups[i].styles| + CountFrom(groups, i + 1)
  }

  lemma {:induction false} ConcatCount(groups: seq<StyleGroup>, texts: StyleTexts, now: int, n: nat)
    requires n <= |groups|
    ensures |Concat(groups[..n], texts, now)| + CountFrom(groups, n) == CountFrom(groups, 0)
    decreases n
  {
    if n > 0 {
      ConcatCount(groups, texts, now, n - 1);
      assert groups[..n][..n - 1] == groups[..n - 1];
    }
  }

  /** A concatenation holds as many styles as its groups have rows. */
  lemma ConcatLength(groups: seq<StyleGroup>, texts: StyleTexts, now: int)
    ensures |Concat(groups, texts, now)| == CountFrom(groups, 0)
  {
    ConcatCount(groups, texts, now, |groups|);
    assert groups[..|groups|] == groups;
  }

  lemma CatalogueCount()
    ensures CountFrom(Catalogue(), 0) == 25
  {
  }

  /** There are twenty-five seed styles. */
  lemma SeedStylesCount(texts: StyleTexts, now: int)
    ensures |SeedStyles(texts, now)| == 25
  {
    ConcatLength(Catalogue(), texts, now);
    CatalogueCount();
  }

  /** There are twenty-five seed styles, all system-owned, with pairwise
      distinct ids. */
  lemma SeedStyleIdsDistinct(texts: StyleTexts, now: int)
    ensures |SeedStyles(texts, now)| == 25
    ensures forall i, j :: 0 <= i < j < |SeedStyles(texts, now)| ==> SeedStyles(texts, now)[i].id != SeedStyles(texts, now)[j].id
    ensures forall i :: 0 <= i < |SeedStyles(texts, now)| ==> SeedStyles(texts, now)[i].userId == SystemPartition
  {
    var c := Catalogue();
    SeedStylesCount(texts, now);
    CatalogueFits();
    CatalogueKeysDistinct();
    ConcatIdsDistinct(c, texts, now);
    ConcatSystemOwned(c, texts, now);
  }

  /** `s` is the style of a row that fits the group of a seed section. */
  ghost predicate FromFittingRow(s: SectionStyle, texts: StyleTexts, now: int) {
    exists key, row :: RowFits(key, row) && IsSeedSectionId(SectionIdOf(key)) && s == SeedStyle(key, row, texts, now)
  }

  /** Every style of a concatenation of fitting groups of seed sections comes
      from a fitting row. */
  lemma ConcatFromFittingRows(groups: seq<StyleGroup>, texts: StyleTexts, now: int)
    requires forall k :: 0 <= k < |groups| ==> GroupFits(groups[k]) && IsSeedSectionId(SectionIdOf(groups[k].sectionKey))
    ensures forall i :: 0 <= i < |Concat(groups, texts, now)| ==> FromFittingRow(Concat(groups, texts, now)[i], texts, now)
  {
    var r := Concat(groups, texts, now);
    ConcatFromRows(groups, texts, now);
    forall i | 0 <= i < |r| ensures FromFittingRow(r[i], texts, now) {
      assert FromSomeRow(groups, r[i], texts, now);
      var k, j :| 0 <= k < |groups| && 0 <= j < |groups[k].styles| &&
                  r[i] == SeedStyle(groups[k].sectionKey, groups[k].styles[j], texts, now);
      RowsFitAt(groups[k].sectionKey, groups[k].styles, 0, j);
    }
  }

  /** Every seed style comes from a fitting row of a seed section. */
  lemma SeedStylesFromFittingRows(texts: StyleTexts, now: int)
    ensures forall i :: 0 <= i < |SeedStyles(texts, now)| ==> FromFittingRow(SeedStyles(texts, now)[i], texts, now)
  {
    CatalogueFits();
    CatalogueSectionsSeeded();
    ConcatFromFittingRows(Catalogue(), texts, now);
  }

  /** No markdown template is blank: every template the seeder writes is a
      non-empty block of markdown. */
  ghost predicate MarkdownPresent(texts: StyleTexts) {
    forall id :: Required(texts.markdown(id))
  }

  /** With non-blank markdown templates, every seed style satisfies every
      declared constraint of a style. */
  lemma SeedStylesValid(texts: StyleTexts, now: int)
    requires MarkdownPresent(texts)
    ensures forall i :: 0 <= i < |SeedStyles(texts, now)| ==> ValidStyle(SeedStyles(texts, now)[i])
  {
    var r := SeedStyles(texts, now);
    SeedStylesFromFittingRows(texts, now);
    forall i | 0 <= i < |r| ensures ValidStyle(r[i]) {
      assert FromFittingRow(r[i], texts, now);
      var key, row :| RowFits(key, row) && IsSeedSectionId(SectionIdOf(key)) && r[i] == SeedStyle(key, row, texts, now);
      SlugByChars(row.slug);
      SlugRequired(row.slug);
      VisibleFirst(row.displayName);
      VisibleFirst(SectionIdOf(key));
    }
  }

  /** Every seed style renders one of the seed sections, and its id is
      `sectionStyle-{section}-...` for the section `section-{section}`. */
  lemma SeedStylesPointAtSeedSections(texts: StyleTexts, now: int)
    ensures forall i :: 0 <= i < |SeedStyles(texts, now)| ==> IsSeedSectionId(SeedStyles(texts, now)[i].sectionId)
    ensures forall i :: 0 <= i < |SeedStyles(texts, now)| ==>
              StartsWith(SeedStyles(texts, now)[i].sectionId, "section-") &&
              StartsWith(SeedStyles(texts, now)[i].id, IdPrefix(SeedStyles(texts, now)[i].sectionId[8..]))
  {
    var r := SeedStyles(texts, now);
    SeedStylesFromFittingRows(texts, now);
    forall i | 0 <= i < |r|
      ensures IsSeedSectionId(r[i].sectionId)
      ensures StartsWith(r[i].sectionId, "section-") && StartsWith(r[i].id, IdPrefix(r[i].sectionId[8..]))
    {
      assert FromFittingRow(r[i], texts, now);
      var key, row :| RowFits(key, row) && IsSeedSectionId(SectionIdOf(key)) && r[i] == SeedStyle(key, row, texts, now);
      SeedStyleId(key, row, texts, now);
      assert r[i].sectionId[..8] == "section-" && r[i].sectionId[8..] == key;
    }
  }

  lemma WorkflowPathsWellFormed()
    ensures IsWorkflowPath(SnakeWorkflowPath) && IsWorkflowPath(Profile3dWorkflowPath)
  {
  }

  /** Only the styles of the snake and 3D sections carry a workflow: exactly
      one, under `.github/workflows/` with a `.yml` extension. */
  lemma SeedStyleWorkflows(texts: StyleTexts, now: int)
    ensures forall i :: 0 <= i < |SeedStyles(texts, now)| ==>
              SeedStyles(texts, now)[i].workflows ==
                (if SeedStyles(texts, now)[i].sectionId == "section-snake"
                 then [WorkflowDefinition(SnakeWorkflowPath, texts.workflow(SeedStyles(texts, now)[i].id))]
                 else if SeedStyles(texts, now)[i].sectionId == "section-3d"
                 then [WorkflowDefinition(Profile3dWorkflowPath, texts.workflow(SeedStyles(texts, now)[i].id))]
                 else [])
    ensures forall i, w :: 0 <= i < |SeedStyles(texts, now)| && 0 <= w < |SeedStyles(texts, now)[i].workflows| ==>
              IsWorkflowPath(SeedStyles(texts, now)[i].workflows[w].path)
  {
    var r := SeedStyles(texts, now);
    SeedStylesFromFittingRows(texts, now);
    WorkflowPathsWellFormed();
    assert "snake" == "section-snake"[8..] && "3d" == "section-3d"[8..];
    forall i | 0 <= i < |r|
      ensures r[i].workflows ==
                (if r[i].sectionId == "section-snake" then [WorkflowDefinition(SnakeWorkflowPath, texts.workflow(r[i].id))]
                 else if r[i].sectionId == "section-3d" then [WorkflowDefinition(Profile3dWorkflowPath, texts.workflow(r[i].id))]
                 else [])
    {
      assert FromFittingRow(r[i], texts, now);
      var key, row :| RowFits(key, row) && IsSeedSectionId(SectionIdOf(key)) && r[i] == SeedStyle(key, row, texts, now);
      assert key == r[i].sectionId[8..];
    }
  }

  /** Every row of every group has its style in the concatenation. */
  lemma {:induction false} ConcatHasRow(groups: seq<StyleGroup>, k: int, j: int, texts: StyleTexts, now: int)
    requires 0 <= k < |groups| && 0 <= j < |groups[k].styles|
    ensures SeedStyle(groups[k].sectionKey, groups[k].styles[j], texts, now) in Concat(groups, texts, now)
    decreases |groups|
  {
    var init, last := groups[..|groups| - 1], groups[|groups| - 1];
    var a, b := Concat(init, texts, now), GroupStyles(last, texts, now);
    assert Concat(groups, texts, now) == a + b;
    if k == |groups| - 1 {
      assert b[j] in b;
    } else {
      assert init[k] == groups[k];
      ConcatHasRow(init, k, j, texts, now);
    }
  }

  /** The group of `sectionKey` has a style row named `name`. */
  ghost predicate IsCatalogueRow(sectionKey: string, name: string) {
    exists k, j :: 0 <= k < |Catalogue()| && 0 <= j < |Catalogue()[k].styles|
      && Catalogue()[k].sectionKey == sectionKey && Catalogue()[k].styles[j].name == name
  }

  /** The style of a catalogue row is seeded, under the id
      `sectionStyle-{section}-{name}` and for the section `section-{section}`. */
  lemma CatalogueRowSeeded(sectionKey: string, name: string, texts: StyleTexts, now: int)
    requires IsCatalogueRow(sectionKey, name)
    ensures exists s :: s in SeedStyles(texts, now) && s.id == IdPrefix(sectionKey) + name && s.sectionId == SectionIdOf(sectionKey)
  {
    var c := Catalogue();
    var k, j :| 0 <= k < |c| && 0 <= j < |c[k].styles| && c[k].sectionKey == sectionKey && c[k].styles[j].name == name;
    ConcatHasRow(c, k, j, texts, now);
    var s := SeedStyle(sectionKey, c[k].styles[j], texts, now);
    assert s in SeedStyles(texts, now);
  }

  /** The style seeder; it runs after the section seeder, so every style's
      section is already stored. */
  class SectionStyleSeeder {
    static const Priority := 2
    const repository: Container<SectionStyle>

    constructor(repository: Container<SectionStyle>)
      ensures this.repository == repository
    {
      this.repository := repository;
    }

    /** `SeedAsync`: styles already present are left alone, missing ones are
        written. */
    method Seed(texts: StyleTexts, now: int) returns (created: nat, existing: nat)
      modifies repository
      ensures repository.docs == Seeded(old(repository.docs), SeedStyles(texts, now), StyleAddress, StampStyle(now))
      ensures created == CreatedCount(old(repository.docs), SeedStyles(texts, now), StyleAddress, StampStyle(now))
      ensures created + existing == 25
    {
      SeedStylesCount(texts, now);
      created, existing := SeedInto(repository, SeedStyles(texts, now), StyleAddress, StampStyle(now));
    }
  }

  /** Seeding an empty style store creates all twenty-five styles, and a
      second run creates none. */
  lemma StyleSeedingFromEmpty(texts: StyleTexts, now: int)
    ensures CreatedCount(map[], SeedStyles(texts, now), StyleAddress, StampStyle(now)) == 25
    ensures CreatedCount(Seeded(map[], SeedStyles(texts, now), StyleAddress, StampStyle(now)),
                         SeedStyles(texts, now), StyleAddress, StampStyle(now)) == 0
  {
    var seeds := SeedStyles(texts, now);
    SeedStyleIdsDistinct(texts, now);
    assert forall i, j :: 0 <= i < j < |seeds| ==> StyleAddress(seeds[i]) != StyleAddress(seeds[j]);
    SeedingAbsentCreatesAll(map[], seeds, StyleAddress, StampStyle(now));
    SeedingIdempotent(map[], seeds, StyleAddress, StampStyle(now));
  }
}
