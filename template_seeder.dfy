/**
 * The official templates seeded at start-up: three themed templates, each an
 * ordered list of (section, style) choices over the seeded catalogue. Each
 * template is written only when no template with its id exists yet.
 */
module TemplateSeeding {
  import opened Wrappers
  import opened Text
  import opened Validation
  import opened Documents
  import opened ProfileTemplates
  import opened Seeding
  import SectionSeeding
  import SectionStyleSeeding
  import Sections
  import SectionStyles

  /** One section of a seed template: the section key (the section id without
      its `section-` prefix) and the last part of the chosen style's id. */
  datatype EntryRow = EntryRow(sectionKey: string, styleName: string)

  /** One seed template before it is built; its description and icon come
      from the template texts, by position. */
  datatype TemplateRow = TemplateRow(
    slug: string,
    displayName: string,
    theme: ThemeConfig,
    entries: seq<EntryRow>)

  /** The display texts of the seed templates, by position in the list. */
  datatype TemplateTexts = TemplateTexts(description: int -> string, icon: int -> string)

  // ---------------------------------------------------------------- themes

  const DarkTheme := ThemeConfig("dark", "Dark", "#58a6ff", "#8b949e", "#0d1117",
                                 Some("0:0d1117,100:161b22"), Some("#ffffff"))

  const LightTheme := ThemeConfig("light", "Light", "#0969da", "#57606a", "#ffffff",
                                  Some("0:ffffff,100:f6f8fa"), Some("#24292f"))

  const ColorfulTheme := ThemeConfig("colorful", "Colorful", "#f97316", "#06b6d4", "#18181b",
                                     Some("0:f97316,50:ec4899,100:8b5cf6"), Some("#ffffff"))

  // ---------------------------------------------------------------- templates

  function DeveloperProEntries(): seq<EntryRow> {
    [ EntryRow("header", "capsule-render"), EntryRow("badges", "shields"),
      EntryRow("about", "bullets"), EntryRow("skills", "icons"),
      EntryRow("stats", "combined"), EntryRow("streak", "card"),
      EntryRow("snake", "dark"), EntryRow("repos", "cards"),
      EntryRow("contact", "badges"), EntryRow("footer", "wave") ]
  }

  function MinimalCleanEntries(): seq<EntryRow> {
    [ EntryRow("header", "simple"), EntryRow("about", "quote"),
      EntryRow("skills", "simple"), EntryRow("stats", "card"),
      EntryRow("contact", "icons") ]
  }

  function CreativeFunEntries(): seq<EntryRow> {
    [ EntryRow("header", "typing-svg"), EntryRow("badges", "social"),
      EntryRow("stats", "trophy"), EntryRow("snake", "green"),
      EntryRow("skills", "icons"), EntryRow("repos", "cards"),
      EntryRow("footer", "wave") ]
  }

  function DeveloperPro(): TemplateRow {
    TemplateRow("developer-pro", "Developer Pro", DarkTheme, DeveloperProEntries())
  }

  function MinimalClean(): TemplateRow {
    TemplateRow("minimal-clean", "Minimal Clean", LightTheme, MinimalCleanEntries())
  }

  function CreativeFun(): TemplateRow {
    TemplateRow("creative-fun", "Creative Fun", ColorfulTheme, CreativeFunEntries())
  }

  /** The templates in the order `GetTemplates` lists them. */
  function TemplateRows(): seq<TemplateRow> {
    [DeveloperPro(), MinimalClean(), CreativeFun()]
  }

  /** The description the seeder gives the template at position `i`. */
  function DescriptionAt(i: int): string {
    if i == 0 then "Full-featured profile with stats, 3D contributions, snake animation, and more"
    else if i == 1 then "Clean and simple profile with essential sections only"
    else if i == 2 then "Colorful profile with animations and visual flair"
    else ""
  }

  /** The icon the seeder gives the template at position `i`: a rocket,
      sparkles and an artist's palette. */
  function IconAt(i: int): string {
    if i == 0 then "\U{1F680}"
    else if i == 1 then "\U{2728}"
    else if i == 2 then "\U{1F3A8}"
    else ""
  }

  /** The texts `GetTemplates` writes. */
  function SourceTexts(): TemplateTexts {
    TemplateTexts(DescriptionAt, IconAt)
  }

  /** The section entries of a template: the section `section-{key}`, the style
      `sectionStyle-{key}-{name}`, and the position in the list as its order. */
  function Entries(rows: seq<EntryRow>): (r: seq<TemplateSectionConfig>)
    ensures |r| == |rows|
  {
    seq(|rows|, i requires 0 <= i < |rows| =>
      SectionEntry(SectionStyleSeeding.SectionIdOf(rows[i].sectionKey),
                   SectionStyleSeeding.IdPrefix(rows[i].sectionKey) + rows[i].styleName, i))
  }

  /** The template a row describes, created at `now`: an official template with
      the given description and icon. */
  function SeedTemplate(row: TemplateRow, description: string, icon: string, now: int): ProfileTemplate {
    CreateOfficial(row.slug, row.displayName, row.theme, Entries(row.entries), now).(
      description := Some(description), icon := Some(icon))
  }

  /** `GetTemplates`: the seed templates built at `now`. */
  function SeedTemplates(texts: TemplateTexts, now: int): (r: seq<ProfileTemplate>)
    ensures |r| == |TemplateRows()|
  {
    seq(|TemplateRows()|, i requires 0 <= i < |TemplateRows()| => SeedTemplate(TemplateRows()[i], texts.description(i), texts.icon(i), now))
  }

  /** Templates are addressed by id within their owner's partition. */
  function TemplateAddress(t: ProfileTemplate): (string, string) {
    (t.id, t.userId)
  }

  /** The repository stamps the update time on every write. */
  function StampTemplate(now: int): ProfileTemplate -> ProfileTemplate {
    (t: ProfileTemplate) => t.(updatedAt := now)
  }

  // ---------------------------------------------------------------- ids and orders

  /** A seed template is an active official template of the system partition,
      created by "admin" and unused, whose id is `template-{slug}`. */
  lemma SeedTemplateShape(row: TemplateRow, description: string, icon: string, now: int)
    ensures var t := SeedTemplate(row, description, icon, now);
      && t.id == "template-" + row.slug && t.slug == row.slug
      && t.userId == SystemPartition && t.isOfficial && t.isActive
      && t.createdBy == "admin" && t.usageCount == 0
      && t.sections == Entries(row.entries)
  {
    assert DocumentType + "-" + row.slug == "template-" + row.slug;
  }

  lemma TemplateSlugsDistinct()
    ensures |TemplateRows()| == 3
    ensures forall i, j :: 0 <= i < j < 3 ==> TemplateRows()[i].slug != TemplateRows()[j].slug
  {
  }

  /** There are three seed templates; each id is `template-{slug}`, each is an
      active official template of the system partition, created by "admin",
      and the ids are pairwise distinct. */
  lemma SeedTemplateIds(texts: TemplateTexts, now: int)
    ensures |SeedTemplates(texts, now)| == 3
    ensures forall i :: 0 <= i < 3 ==>
      && SeedTemplates(texts, now)[i].id == "template-" + SeedTemplates(texts, now)[i].slug
      && SeedTemplates(texts, now)[i].userId == SystemPartition
      && SeedTemplates(texts, now)[i].isOfficial && SeedTemplates(texts, now)[i].isActive
      && SeedTemplates(texts, now)[i].createdBy == "admin" && SeedTemplates(texts, now)[i].usageCount == 0
    ensures forall i, j :: 0 <= i < j < 3 ==> SeedTemplates(texts, now)[i].id != SeedTemplates(texts, now)[j].id
  {
    var rows, r := TemplateRows(), SeedTemplates(texts, now);
    TemplateSlugsDistinct();
    forall i | 0 <= i < 3
      ensures r[i].id == "template-" + r[i].slug && r[i].userId == SystemPartition
      ensures r[i].isOfficial && r[i].isActive && r[i].createdBy == "admin" && r[i].usageCount == 0
    {
      SeedTemplateShape(rows[i], texts.description(i), texts.icon(i), now);
    }
    forall i, j | 0 <= i < j < 3 ensures r[i].id != r[j].id {
      SeedTemplateShape(rows[i], texts.description(i), texts.icon(i), now);
      SeedTemplateShape(rows[j], texts.description(j), texts.icon(j), now);
    }
  }

  /** Within each template the entries are enabled and ordered 0, 1, 2, ... in
      list order, and each points at the section its style id names. */
  lemma SeedTemplateOrders(texts: TemplateTexts, now: int)
    ensures forall i :: 0 <= i < |SeedTemplates(texts, now)| ==>
      |SeedTemplates(texts, now)[i].sections| == |TemplateRows()[i].entries|
    ensures forall i, j :: 0 <= i < |SeedTemplates(texts, now)| && 0 <= j < |SeedTemplates(texts, now)[i].sections| ==>
      && SeedTemplates(texts, now)[i].sections[j].order == j
      && SeedTemplates(texts, now)[i].sections[j].enabled
      && SeedTemplates(texts, now)[i].sections[j].sectionId == SectionStyleSeeding.SectionIdOf(TemplateRows()[i].entries[j].sectionKey)
      && SeedTemplates(texts, now)[i].sections[j].styleId
         == SectionStyleSeeding.IdPrefix(TemplateRows()[i].entries[j].sectionKey) + TemplateRows()[i].entries[j].styleName
  {
    forall i | 0 <= i < |SeedTemplates(texts, now)|
      ensures SeedTemplates(texts, now)[i].sections == Entries(TemplateRows()[i].entries)
    {
      SeedTemplateShape(TemplateRows()[i], texts.description(i), texts.icon(i), now);
    }
  }

  // ---------------------------------------------------------------- validity

  /** The three theme presets satisfy the theme rules: ids and names are not
      blank, and every colour is `#` followed by six hex digits. */
  lemma ThemesValid()
    ensures ValidTheme(DarkTheme) && ValidTheme(LightTheme) && ValidTheme(ColorfulTheme)
  {
    VisibleFirst(DarkTheme.id);
    VisibleFirst(DarkTheme.name);
    VisibleFirst(LightTheme.id);
    VisibleFirst(LightTheme.name);
    VisibleFirst(ColorfulTheme.id);
    VisibleFirst(ColorfulTheme.name);
  }

  /** The parts of a template row that the template rules check (a name that
      starts with a visible character is not blank). */
  predicate RowFits(row: TemplateRow) {
    && 3 <= |row.slug| <= 50 && SlugCharsFrom(row.slug, 0)
    && LengthBetween(row.displayName, 3, 100) && !IsWhiteSpace(row.displayName[0])
    && ValidTheme(row.theme)
    && 1 <= |row.entries| <= 101
  }

  lemma DeveloperProFits()
    ensures RowFits(DeveloperPro())
  {
    ThemesValid();
    assert SlugCharsFrom("developer-pro", 10);
  }

  lemma MinimalCleanFits()
    ensures RowFits(MinimalClean())
  {
    ThemesValid();
    assert SlugCharsFrom("minimal-clean", 8);
  }

  lemma CreativeFunFits()
    ensures RowFits(CreativeFun())
  {
    ThemesValid();
    assert SlugCharsFrom("creative-fun", 9);
  }

  /** A template built from a fitting row satisfies every declared constraint
      of a template. */
  lemma SeedTemplateValid(row: TemplateRow, description: string, icon: string, now: int)
    requires RowFits(row) && |description| <= 500 && |icon| <= 10
    ensures ValidTemplate(SeedTemplate(row, description, icon, now))
  {
    SlugByChars(row.slug);
    SlugRequired(row.slug);
    VisibleFirst(row.displayName);
    var t := SeedTemplate(row, description, icon, now);
    forall j | 0 <= j < |t.sections| ensures ValidSectionEntry(t.sections[j]) {
      assert t.sections[j].order == j;
      VisibleFirst(t.sections[j].sectionId);
      VisibleFirst(t.sections[j].styleId);
    }
  }

  /** The description of each template has at most 500 characters and its
      icon at most 10. */
  predicate TextsFit(texts: TemplateTexts) {
    forall i :: 0 <= i < 3 ==> |texts.description(i)| <= 500 && |texts.icon(i)| <= 10
  }

  /** The seeder's own descriptions and icons are within bounds. */
  lemma SourceTextsFit()
    ensures TextsFit(SourceTexts())
  {
    forall i | 0 <= i < 3
      ensures |DescriptionAt(i)| <= 500 && |IconAt(i)| <= 10
    {
      if i == 0 {
        DeveloperProTextsFit();
      } else if i == 1 {
        MinimalCleanTextsFit();
      } else {
        CreativeFunTextsFit();
      }
    }
  }

  lemma DeveloperProTextsFit()
    ensures |DescriptionAt(0)| <= 500 && |IconAt(0)| <= 10
  {
  }

  lemma MinimalCleanTextsFit()
    ensures |DescriptionAt(1)| <= 500 && |IconAt(1)| <= 10
  {
  }

  lemma CreativeFunTextsFit()
    ensures |DescriptionAt(2)| <= 500 && |IconAt(2)| <= 10
  {
  }

  lemma TemplateRowsFit()
    ensures forall i :: 0 <= i < |TemplateRows()| ==> RowFits(TemplateRows()[i])
  {
    DeveloperProFits();
    MinimalCleanFits();
    CreativeFunFits();
  }

  /** Every seed template satisfies every declared constraint of a template. */
  lemma SeedTemplatesValid(texts: TemplateTexts, now: int)
    requires TextsFit(texts)
    ensures forall i :: 0 <= i < |SeedTemplates(texts, now)| ==> ValidTemplate(SeedTemplates(texts, now)[i])
  {
    var rows := TemplateRows();
    TemplateRowsFit();
    forall i | 0 <= i < |SeedTemplates(texts, now)| ensures ValidTemplate(SeedTemplates(texts, now)[i]) {
      SeedTemplateValid(rows[i], texts.description(i), texts.icon(i), now);
    }
  }

  // ---------------------------------------------------------------- references

  /** Every entry of the row names a style row of the catalogue. */
  ghost predicate EntriesInCatalogue(entries: seq<EntryRow>) {
    forall j :: 0 <= j < |entries| ==> SectionStyleSeeding.IsCatalogueRow(entries[j].sectionKey, entries[j].styleName)
  }

  /** A catalogue position names a catalogue row. */
  lemma RowAt(k: int, j: int)
    requires 0 <= k < |SectionStyleSeeding.Catalogue()| && 0 <= j < |SectionStyleSeeding.Catalogue()[k].styles|
    ensures SectionStyleSeeding.IsCatalogueRow(SectionStyleSeeding.Catalogue()[k].sectionKey,
                                               SectionStyleSeeding.Catalogue()[k].styles[j].name)
  {
  }

  lemma DeveloperProHead()
    ensures forall j :: 0 <= j < 5 ==>
      SectionStyleSeeding.IsCatalogueRow(DeveloperProEntries()[j].sectionKey, DeveloperProEntries()[j].styleName)
  {
    var c := SectionStyleSeeding.Catalogue();
    forall j | 0 <= j < 5
      ensures SectionStyleSeeding.IsCatalogueRow(DeveloperProEntries()[j].sectionKey, DeveloperProEntries()[j].styleName)
    {
      if j == 0 {
        RowAt(0, 1);
      } else if j == 1 {
        RowAt(1, 0);
      } else if j == 2 {
        RowAt(2, 0);
      } else if j == 3 {
        RowAt(3, 0);
      } else {
        RowAt(4, 1);
      }
    }
  }

  lemma DeveloperProTail()
    ensures forall j :: 5 <= j < 10 ==>
      SectionStyleSeeding.IsCatalogueRow(DeveloperProEntries()[j].sectionKey, DeveloperProEntries()[j].styleName)
  {
    var c := SectionStyleSeeding.Catalogue();
    forall j | 5 <= j < 10
      ensures SectionStyleSeeding.IsCatalogueRow(DeveloperProEntries()[j].sectionKey, DeveloperProEntries()[j].styleName)
    {
      if j == 5 {
        RowAt(5, 0);
      } else if j == 6 {
        RowAt(7, 1);
      } else if j == 7 {
        RowAt(9, 0);
      } else if j == 8 {
        RowAt(10, 0);
      } else {
        RowAt(11, 0);
      }
    }
  }

  lemma MinimalCleanInCatalogue()
    ensures EntriesInCatalogue(MinimalCleanEntries())
  {
    var e := MinimalCleanEntries();
    forall j | 0 <= j < |e| ensures SectionStyleSeeding.IsCatalogueRow(e[j].sectionKey, e[j].styleName) {
      if j == 0 {
        RowAt(0, 2);
      } else if j == 1 {
        RowAt(2, 1);
      } else if j == 2 {
        RowAt(3, 2);
      } else if j == 3 {
        RowAt(4, 0);
      } else {
        RowAt(10, 1);
      }
    }
  }

  lemma CreativeFunHead()
    ensures forall j :: 0 <= j < 4 ==>
      SectionStyleSeeding.IsCatalogueRow(CreativeFunEntries()[j].sectionKey, CreativeFunEntries()[j].styleName)
  {
    forall j | 0 <= j < 4
      ensures SectionStyleSeeding.IsCatalogueRow(CreativeFunEntries()[j].sectionKey, CreativeFunEntries()[j].styleName)
    {
      if j == 0 {
        RowAt(0, 0);
      } else if j == 1 {
        RowAt(1, 1);
      } else if j == 2 {
        RowAt(4, 2);
      } else {
        RowAt(7, 0);
      }
    }
  }

  lemma CreativeFunTail()
    ensures forall j :: 4 <= j < 7 ==>
      SectionStyleSeeding.IsCatalogueRow(CreativeFunEntries()[j].sectionKey, CreativeFunEntries()[j].styleName)
  {
    forall j | 4 <= j < 7
      ensures SectionStyleSeeding.IsCatalogueRow(CreativeFunEntries()[j].sectionKey, CreativeFunEntries()[j].styleName)
    {
      if j == 4 {
        RowAt(3, 0);
      } else if j == 5 {
        RowAt(9, 0);
      } else {
        RowAt(11, 0);
      }
    }
  }

  /** Every entry of every seed template names a style row of the catalogue. */
  lemma TemplateRowsInCatalogue()
    ensures forall i :: 0 <= i < |TemplateRows()| ==> EntriesInCatalogue(TemplateRows()[i].entries)
  {
    DeveloperProHead();
    DeveloperProTail();
    MinimalCleanInCatalogue();
    CreativeFunHead();
    CreativeFunTail();
    assert EntriesInCatalogue(DeveloperProEntries());
    assert EntriesInCatalogue(CreativeFunEntries());
  }

  /** The entry names a seeded style that renders the entry's own section. */
  ghost predicate NamesSeedStyle(e: TemplateSectionConfig, styleTexts: SectionStyleSeeding.StyleTexts, stylesNow: int) {
    exists s :: s in SectionStyleSeeding.SeedStyles(styleTexts, stylesNow) && s.id == e.styleId && s.sectionId == e.sectionId
  }

  /** The entry built from a catalogue row names a seeded style of the entry's
      own section, and that section is a seeded one. */
  lemma EntryNamesSeedStyle(e: EntryRow, order: int, styleTexts: SectionStyleSeeding.StyleTexts, stylesNow: int)
    requires SectionStyleSeeding.IsCatalogueRow(e.sectionKey, e.styleName)
    ensures var c := SectionEntry(SectionStyleSeeding.SectionIdOf(e.sectionKey),
                                  SectionStyleSeeding.IdPrefix(e.sectionKey) + e.styleName, order);
      NamesSeedStyle(c, styleTexts, stylesNow) && SectionStyleSeeding.IsSeedSectionId(c.sectionId)
  {
    var styles := SectionStyleSeeding.SeedStyles(styleTexts, stylesNow);
    SectionStyleSeeding.CatalogueRowSeeded(e.sectionKey, e.styleName, styleTexts, stylesNow);
    SectionStyleSeeding.SeedStylesPointAtSeedSections(styleTexts, stylesNow);
    var s :| s in styles && s.id == SectionStyleSeeding.IdPrefix(e.sectionKey) + e.styleName
             && s.sectionId == SectionStyleSeeding.SectionIdOf(e.sectionKey);
    var k :| 0 <= k < |styles| && styles[k] == s;
    assert SectionStyleSeeding.IsSeedSectionId(styles[k].sectionId);
  }

  /** Every style id in a seed template is the id of a seeded style whose
      section is the entry's section, and that section is a seeded one. Style
      ids do not depend on the style texts or the time the styles were seeded. */
  lemma SeedTemplatesReferToSeedStyles(texts: TemplateTexts, now: int, styleTexts: SectionStyleSeeding.StyleTexts, stylesNow: int)
    ensures forall i, j :: 0 <= i < |SeedTemplates(texts, now)| && 0 <= j < |SeedTemplates(texts, now)[i].sections| ==>
      NamesSeedStyle(SeedTemplates(texts, now)[i].sections[j], styleTexts, stylesNow)
    ensures forall i, j :: 0 <= i < |SeedTemplates(texts, now)| && 0 <= j < |SeedTemplates(texts, now)[i].sections| ==>
      SectionStyleSeeding.IsSeedSectionId(SeedTemplates(texts, now)[i].sections[j].sectionId)
  {
    var r := SeedTemplates(texts, now);
    TemplateRowsInCatalogue();
    forall i, j | 0 <= i < |r| && 0 <= j < |r[i].sections|
      ensures NamesSeedStyle(r[i].sections[j], styleTexts, stylesNow)
      ensures SectionStyleSeeding.IsSeedSectionId(r[i].sections[j].sectionId)
    {
      var entries := TemplateRows()[i].entries;
      SeedTemplateShape(TemplateRows()[i], texts.description(i), texts.icon(i), now);
      assert EntriesInCatalogue(entries);
      EntryNamesSeedStyle(entries[j], j, styleTexts, stylesNow);
    }
  }

  // ---------------------------------------------------------------- seeding

  /** The template seeder; it runs after the section and style seeders, so
      every section and style a template names is already stored. */
  class TemplateSeeder {
    static const Priority := 3
    const repository: Container<ProfileTemplate>

    constructor(repository: Container<ProfileTemplate>)
      ensures this.repository == repository
    {
      this.repository := repository;
    }

    /** `SeedAsync`: templates already present are left alone, missing ones are
        written. */
    method Seed(now: int) returns (created: nat, existing: nat)
      modifies repository
      ensures repository.docs == Seeded(old(repository.docs), SeedTemplates(SourceTexts(), now), TemplateAddress, StampTemplate(now))
      ensures created == CreatedCount(old(repository.docs), SeedTemplates(SourceTexts(), now), TemplateAddress, StampTemplate(now))
      ensures created + existing == 3
    {
      created, existing := SeedInto(repository, SeedTemplates(SourceTexts(), now), TemplateAddress, StampTemplate(now));
    }
  }

  /** Every section a seed template names is stored after the sections are
      seeded, whatever the store held before. */
  lemma TemplateSectionsStored(sections: map<(string, string), Sections.Section>, sectionsNow: int,
                               texts: TemplateTexts, now: int)
    ensures var sec := Seeded(sections, SectionSeeding.SeedSections(sectionsNow), SectionSeeding.SectionKey,
                              SectionSeeding.StampSection(sectionsNow));
            forall i, j :: 0 <= i < |SeedTemplates(texts, now)| && 0 <= j < |SeedTemplates(texts, now)[i].sections| ==>
              (SeedTemplates(texts, now)[i].sections[j].sectionId, SystemPartition) in sec
  {
    var r := SeedTemplates(texts, now);
    var sec := Seeded(sections, SectionSeeding.SeedSections(sectionsNow), SectionSeeding.SectionKey,
                      SectionSeeding.StampSection(sectionsNow));
    var anyTexts := SectionStyleSeeding.StyleTexts((id: string) => id, (id: string) => id);
    SeedTemplatesReferToSeedStyles(texts, now, anyTexts, 0);
    SectionSeeding.SectionsPresentAfterSeeding(sections, sectionsNow);
    forall i, j | 0 <= i < |r| && 0 <= j < |r[i].sections|
      ensures (r[i].sections[j].sectionId, SystemPartition) in sec
    {
      var id := r[i].sections[j].sectionId;
      assert SectionStyleSeeding.IsSeedSectionId(id);
      var k :| 0 <= k < |SectionSeeding.SectionRows()| && SectionSeeding.SectionRows()[k].id == id;
      assert SectionSeeding.SectionIds()[k] == id;
    }
  }

  /** An entry naming a seeded style finds that style stored after the styles
      are seeded, whatever the store held before. */
  lemma EntryStyleStored(e: TemplateSectionConfig, styles: map<(string, string), SectionStyles.SectionStyle>,
                         styleTexts: SectionStyleSeeding.StyleTexts, stylesNow: int)
    requires NamesSeedStyle(e, styleTexts, stylesNow)
    ensures (e.styleId, SystemPartition) in Seeded(styles, SectionStyleSeeding.SeedStyles(styleTexts, stylesNow),
                                                   SectionStyleSeeding.StyleAddress, SectionStyleSeeding.StampStyle(stylesNow))
  {
    var seedStyles := SectionStyleSeeding.SeedStyles(styleTexts, stylesNow);
    SectionStyleSeeding.SeedStyleIdsDistinct(styleTexts, stylesNow);
    SeededCoversSeeds(styles, seedStyles, SectionStyleSeeding.StyleAddress, SectionStyleSeeding.StampStyle(stylesNow));
    var st :| st in seedStyles && st.id == e.styleId && st.sectionId == e.sectionId;
    var m :| 0 <= m < |seedStyles| && seedStyles[m] == st;
    assert SectionStyleSeeding.StyleAddress(seedStyles[m]) == (e.styleId, SystemPartition);
  }

  /** Every style a seed template names is stored after the styles are
      seeded, whatever the store held before. */
  lemma TemplateStylesStored(styles: map<(string, string), SectionStyles.SectionStyle>,
                             styleTexts: SectionStyleSeeding.StyleTexts, stylesNow: int,
                             texts: TemplateTexts, now: int)
    ensures var sty := Seeded(styles, SectionStyleSeeding.SeedStyles(styleTexts, stylesNow), SectionStyleSeeding.StyleAddress,
                              SectionStyleSeeding.StampStyle(stylesNow));
            forall i, j :: 0 <= i < |SeedTemplates(texts, now)| && 0 <= j < |SeedTemplates(texts, now)[i].sections| ==>
              (SeedTemplates(texts, now)[i].sections[j].styleId, SystemPartition) in sty
  {
    var r := SeedTemplates(texts, now);
    SeedTemplatesReferToSeedStyles(texts, now, styleTexts, stylesNow);
    forall i, j | 0 <= i < |r| && 0 <= j < |r[i].sections|
      ensures (r[i].sections[j].styleId, SystemPartition) in
              Seeded(styles, SectionStyleSeeding.SeedStyles(styleTexts, stylesNow), SectionStyleSeeding.StyleAddress,
                     SectionStyleSeeding.StampStyle(stylesNow))
    {
      EntryStyleStored(r[i].sections[j], styles, styleTexts, stylesNow);
    }
  }

  /** Seeders run by ascending priority: sections (1), then styles (2), then
      templates (3). Run in that order over whatever the stores already hold,
      every section and every style a seed template names is stored in the
      system partition by the time the templates are written. */
  lemma SeedingOrderResolvesReferences(sections: map<(string, string), Sections.Section>, sectionsNow: int,
                                       styles: map<(string, string), SectionStyles.SectionStyle>,
                                       styleTexts: SectionStyleSeeding.StyleTexts, stylesNow: int,
                                       texts: TemplateTexts, now: int)
    ensures SectionSeeding.SectionSeeder.Priority < SectionStyleSeeding.SectionStyleSeeder.Priority < TemplateSeeder.Priority
    ensures var sec := Seeded(sections, SectionSeeding.SeedSections(sectionsNow), SectionSeeding.SectionKey,
                              SectionSeeding.StampSection(sectionsNow));
            var sty := Seeded(styles, SectionStyleSeeding.SeedStyles(styleTexts, stylesNow), SectionStyleSeeding.StyleAddress,
                              SectionStyleSeeding.StampStyle(stylesNow));
            forall i, j :: 0 <= i < |SeedTemplates(texts, now)| && 0 <= j < |SeedTemplates(texts, now)[i].sections| ==>
              && (SeedTemplates(texts, now)[i].sections[j].sectionId, SystemPartition) in sec
              && (SeedTemplates(texts, now)[i].sections[j].styleId, SystemPartition) in sty
  {
    TemplateSectionsStored(sections, sectionsNow, texts, now);
    TemplateStylesStored(styles, styleTexts, stylesNow, texts, now);
  }

  /** Seeding an empty template store creates all three templates, and a
      second run creates none. */
  lemma TemplateSeedingFromEmpty(texts: TemplateTexts, now: int)
    ensures CreatedCount(map[], SeedTemplates(texts, now), TemplateAddress, StampTemplate(now)) == 3
    ensures CreatedCount(Seeded(map[], SeedTemplates(texts, now), TemplateAddress, StampTemplate(now)),
                         SeedTemplates(texts, now), TemplateAddress, StampTemplate(now)) == 0
  {
    var seeds := SeedTemplates(texts, now);
    SeedTemplateIds(texts, now);
    assert forall i, j :: 0 <= i < j < |seeds| ==> TemplateAddress(seeds[i]) != TemplateAddress(seeds[j]);
    SeedingAbsentCreatesAll(map[], seeds, TemplateAddress, StampTemplate(now));
    SeedingIdempotent(map[], seeds, TemplateAddress, StampTemplate(now));
  }
}
