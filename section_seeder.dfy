/**
 * The section catalogue seeded at start-up: twelve system sections, each
 * written only when no section with its id exists yet.
 */
module SectionSeeding {
  import opened Wrappers
  import opened Validation
  import opened Documents
  import opened Sections
  import opened Seeding

  /** One seed section: its id, slug, display name, description and icon, and
      the context fields its styles read. Its sort order is its position in the
      table. */
  datatype SectionRow = SectionRow(id: string, slug: string, displayName: string, description: string,
                                   icon: string, requiredDataFields: seq<string>)

  /** The seed sections, in catalogue order. The icons are a waving hand, a
      trophy, a bust, a laptop, a bar chart, a fire, a memo, a snake, a game
      controller, a folder, a mailbox and the waving hand again. */
  function SectionRows(): seq<SectionRow> {
    [ HeaderRow, BadgesRow, AboutRow, SkillsRow, StatsRow, StreakRow,
      LanguagesRow, SnakeRow, Contrib3dRow, ReposRow, ContactRow, FooterRow ]
  }

  const HeaderRow := SectionRow("section-header", "header", "Header / Title",
    "Eye-catching header with your name and a wave animation", "\U{1F44B}", ["display_name"])
  const BadgesRow := SectionRow("section-badges", "badges", "Profile Badges",
    "Show profile views, followers, and social badges", "\U{1F3C6}", ["username"])
  const AboutRow := SectionRow("section-about", "about", "About Me",
    "Tell visitors about yourself", "\U{1F464}", ["about_me"])
  const SkillsRow := SectionRow("section-skills", "skills", "Tech Stack",
    "Showcase your programming languages and tools", "\U{1F4BB}", ["skills"])
  const StatsRow := SectionRow("section-stats", "stats", "GitHub Stats",
    "Display your GitHub statistics cards", "\U{1F4CA}", ["username"])
  const StreakRow := SectionRow("section-streak", "streak", "Contribution Streak",
    "Show your GitHub contribution streak", "\U{1F525}", ["username"])
  const LanguagesRow := SectionRow("section-languages", "languages", "Top Languages",
    "Display your most used programming languages", "\U{1F4DD}", ["username"])
  const SnakeRow := SectionRow("section-snake", "snake", "Contribution Snake",
    "Animated snake eating your contributions", "\U{1F40D}", ["username"])
  const Contrib3dRow := SectionRow("section-3d", "3d-contrib", "3D Contributions",
    "3D visualization of your contribution graph", "\U{1F3AE}", ["username"])
  const ReposRow := SectionRow("section-repos", "repos", "Top Repositories",
    "Showcase your pinned or top repositories", "\U{1F4C1}", ["repositories"])
  const ContactRow := SectionRow("section-contact", "contact", "Contact Links",
    "Social media and contact information", "\U{1F4EB}", ["social"])
  const FooterRow := SectionRow("section-footer", "footer", "Footer",
    "Profile footer with wave or simple line", "\U{1F44B}", [])

  /** The ids of the seed sections, in order. */
  function SectionIds(): seq<string> {
    seq(|SectionRows()|, i requires 0 <= i < |SectionRows()| => SectionRows()[i].id)
  }

  /** The section a row describes, created at `now`. */
  function SeedSection(row: SectionRow, sortOrder: int, now: int): Section {
    Section(row.id, SystemPartition, now, now, row.slug, row.displayName, Some(row.description), Some(row.icon),
            sortOrder, row.requiredDataFields, true)
  }

  /** `GetSections`: the seed sections built at `now`. */
  function SeedSections(now: int): (r: seq<Section>)
    ensures |r| == |SectionRows()|
    ensures forall i :: 0 <= i < |r| ==> r[i] == SeedSection(SectionRows()[i], i, now)
    ensures forall i :: 0 <= i < |r| ==>
      && r[i].id == SectionRows()[i].id && r[i].userId == SystemPartition
      && r[i].slug == SectionRows()[i].slug && r[i].displayName == SectionRows()[i].displayName
      && r[i].description == Some(SectionRows()[i].description) && r[i].icon == Some(SectionRows()[i].icon)
      && r[i].sortOrder == i && r[i].requiredDataFields == SectionRows()[i].requiredDataFields
      && r[i].isActive && r[i].createdAt == now && r[i].updatedAt == now
  {
    seq(|SectionRows()|, i requires 0 <= i < |SectionRows()| => SeedSection(SectionRows()[i], i, now))
  }

  /** Sections are addressed by id within their owner's partition. */
  function SectionKey(s: Section): (string, string) {
    (s.id, s.userId)
  }

  /** The repository stamps the update time on every write. */
  function StampSection(now: int): Section -> Section {
    (s: Section) => s.(updatedAt := now)
  }

  predicate RowValid(row: SectionRow) {
    && 3 <= |row.slug| <= 50 && SlugCharsFrom(row.slug, 0)
    && Required(row.displayName) && LengthBetween(row.displayName, 3, 100)
    && |row.description| <= 500 && |row.icon| <= 50
  }

  lemma SectionRowIdsDistinct()
    ensures forall i, j :: 0 <= i < j < |SectionRows()| ==> SectionRows()[i].id != SectionRows()[j].id
  {
  }

  lemma SectionRowsValid0To2()
    ensures AllIn(SectionRows(), RowValid, 0, 2)
  {
    var rows := SectionRows();
    VisibleFirst(rows[0].displayName);
    VisibleFirst(rows[1].displayName);
    assert RowValid(rows[0]) && RowValid(rows[1]);
  }

  lemma SectionRowsValid2To4()
    ensures AllIn(SectionRows(), RowValid, 2, 4)
  {
    var rows := SectionRows();
    VisibleFirst(rows[2].displayName);
    VisibleFirst(rows[3].displayName);
    assert RowValid(rows[2]) && RowValid(rows[3]);
  }

  lemma SectionRowsValid4To6()
    ensures AllIn(SectionRows(), RowValid, 4, 6)
  {
    var rows := SectionRows();
    VisibleFirst(rows[4].displayName);
    VisibleFirst(rows[5].displayName);
    assert RowValid(rows[4]) && RowValid(rows[5]);
  }

  lemma SectionRowsValid6To8()
    ensures AllIn(SectionRows(), RowValid, 6, 8)
  {
    var rows := SectionRows();
    VisibleFirst(rows[6].displayName);
    VisibleFirst(rows[7].displayName);
    assert RowValid(rows[6]) && RowValid(rows[7]);
  }

  lemma SectionRowsValid8To10()
    ensures AllIn(SectionRows(), RowValid, 8, 10)
  {
    var rows := SectionRows();
    VisibleFirst(rows[8].displayName);
    VisibleFirst(rows[9].displayName);
    assert RowValid(rows[8]) && RowValid(rows[9]);
  }

  lemma SectionRowsValid10To12()
    ensures AllIn(SectionRows(), RowValid, 10, 12)
  {
    var rows := SectionRows();
    VisibleFirst(rows[10].displayName);
    VisibleFirst(rows[11].displayName);
    assert RowValid(rows[10]) && RowValid(rows[11]);
  }

  /** There are twelve seed sections, all system-owned, with pairwise distinct
      ids and sort orders equal to their positions. */
  lemma SeedSectionIdsDistinct(now: int)
    ensures |SeedSections(now)| == 12
    ensures forall i, j :: 0 <= i < j < 12 ==> SeedSections(now)[i].id != SeedSections(now)[j].id
    ensures forall i :: 0 <= i < 12 ==> SeedSections(now)[i].sortOrder == i && SeedSections(now)[i].userId == SystemPartition
  {
    SectionRowIdsDistinct();
  }

  /** Every seed section satisfies every declared constraint of a section. */
  lemma SeedSectionsValid(now: int)
    ensures forall i :: 0 <= i < |SeedSections(now)| ==> ValidSection(SeedSections(now)[i])
  {
    var rows := SectionRows();
    SectionRowsValid0To2();
    SectionRowsValid2To4();
    SectionRowsValid4To6();
    SectionRowsValid6To8();
    SectionRowsValid8To10();
    SectionRowsValid10To12();
    AllInJoin(rows, RowValid, 0, 2, 4);
    AllInJoin(rows, RowValid, 0, 4, 6);
    AllInJoin(rows, RowValid, 0, 6, 8);
    AllInJoin(rows, RowValid, 0, 8, 10);
    AllInJoin(rows, RowValid, 0, 10, 12);
    forall i | 0 <= i < |SeedSections(now)| ensures ValidSection(SeedSections(now)[i]) {
      AllInAt(rows, RowValid, 0, 12, i);
      SlugByChars(rows[i].slug);
      SlugRequired(rows[i].slug);
    }
  }

  /** The section seeder; it runs first. */
  class SectionSeeder {
    static const Priority := 1
    const repository: Container<Section>

    constructor(repository: Container<Section>)
      ensures this.repository == repository
    {
      this.repository := repository;
    }

    /** `SeedAsync`: sections already present are left alone, missing ones are
        written. */
    method Seed(now: int) returns (created: nat, existing: nat)
      modifies repository
      ensures repository.docs == Seeded(old(repository.docs), SeedSections(now), SectionKey, StampSection(now))
      ensures created == CreatedCount(old(repository.docs), SeedSections(now), SectionKey, StampSection(now))
      ensures created + existing == 12
    {
      created, existing := SeedInto(repository, SeedSections(now), SectionKey, StampSection(now));
    }
  }

  /** After seeding, every seed section is stored under its id in the system
      partition, and documents that were there before are unchanged. */
  lemma SectionsPresentAfterSeeding(docs: map<(string, string), Section>, now: int)
    ensures forall i :: 0 <= i < 12 ==> (SectionIds()[i], SystemPartition) in Seeded(docs, SeedSections(now), SectionKey, StampSection(now))
    ensures forall k :: k in docs ==> k in Seeded(docs, SeedSections(now), SectionKey, StampSection(now))
                                      && Seeded(docs, SeedSections(now), SectionKey, StampSection(now))[k] == docs[k]
  {
    SeededCoversSeeds(docs, SeedSections(now), SectionKey, StampSection(now));
    SeededKeepsExisting(docs, SeedSections(now), SectionKey, StampSection(now));
    forall i | 0 <= i < 12
      ensures (SectionIds()[i], SystemPartition) in Seeded(docs, SeedSections(now), SectionKey, StampSection(now))
    {
      assert SectionKey(SeedSections(now)[i]) == (SectionIds()[i], SystemPartition);
    }
  }
}
