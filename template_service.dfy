/**
 * The read side of the catalogue: active templates, sections and styles, all
 * stored under the system partition. Each operation receives the documents its
 * query returns (those of one type in the system partition, in query order) and
 * performs the filtering and ordering the service does on them.
 */
module TemplateService {
  import opened Wrappers
  import opened Text
  import opened Sorting
  import opened Linq
  import opened ProfileTemplates
  import opened Sections
  import opened SectionStyles

  /** `OrderByDescending(t => t.IsOfficial).ThenByDescending(t => t.UsageCount)`. */
  predicate TemplateBefore(a: ProfileTemplate, b: ProfileTemplate) {
    (a.isOfficial && !b.isOfficial) || (a.isOfficial == b.isOfficial && a.usageCount > b.usageCount)
  }

  function TemplateOrder(): (ProfileTemplate, ProfileTemplate) -> bool {
    (a: ProfileTemplate, b: ProfileTemplate) => TemplateBefore(a, b)
  }

  lemma TemplateOrderIsStrictWeakOrder()
    ensures StrictWeakOrder(TemplateOrder())
  {
  }

  function IsActiveTemplate(): ProfileTemplate -> bool {
    (t: ProfileTemplate) => t.isActive
  }

  /** `GetActiveTemplatesAsync`. */
  function GetActiveTemplates(templates: seq<ProfileTemplate>): seq<ProfileTemplate> {
    SortBy(Where(templates, IsActiveTemplate()), TemplateOrder())
  }

  /** The active templates are exactly the stored active ones, official ones
      first and, among equally official ones, the most used first. */
  lemma ActiveTemplatesOrdered(templates: seq<ProfileTemplate>)
    ensures var r := GetActiveTemplates(templates);
      && (forall i :: 0 <= i < |r| ==> r[i].isActive)
      && (forall t :: multiset(r)[t] == if t.isActive then multiset(templates)[t] else 0)
      && (forall i, j :: 0 <= i < j < |r| ==> r[i].isOfficial || !r[j].isOfficial)
      && (forall i, j :: 0 <= i < j < |r| && r[i].isOfficial == r[j].isOfficial ==> r[i].usageCount >= r[j].usageCount)
  {
    var active := Where(templates, IsActiveTemplate());
    TemplateOrderIsStrictWeakOrder();
    SortByCorrect(active, TemplateOrder());
    var r := GetActiveTemplates(templates);
    forall t: ProfileTemplate ensures multiset(r)[t] == if t.isActive then multiset(templates)[t] else 0 {
      WhereCounts(templates, IsActiveTemplate(), t);
    }
    forall i | 0 <= i < |r| ensures r[i].isActive {
      assert r[i] in multiset(r);
      WhereCounts(templates, IsActiveTemplate(), r[i]);
    }
    forall i, j | 0 <= i < j < |r| ensures !TemplateBefore(r[j], r[i]) {
      assert !TemplateOrder()(r[j], r[i]);
    }
  }

  /** `GetTemplateBySlugAsync`: a blank slug is rejected; otherwise the first
      stored template with that slug that is active, or null. */
  function GetTemplateBySlug(slug: string, templates: seq<ProfileTemplate>): (r: Result<Option<ProfileTemplate>>)
    ensures r.Err? <==> IsBlank(slug)
    ensures r.Ok? && r.value.Some? ==> r.value.value.slug == slug && r.value.value.isActive && r.value.value in templates
    ensures r.Ok? && r.value.None? ==> forall t :: t in templates ==> !(t.slug == slug && t.isActive)
    ensures r.Ok? && r.value.Some? ==>
              exists k :: 0 <= k < |templates| && templates[k] == r.value.value &&
                forall j :: 0 <= j < k ==> !(templates[j].slug == slug && templates[j].isActive)
  {
    if IsBlank(slug) then Err("slug")
    else Ok(FirstWhere(templates, (t: ProfileTemplate) => t.slug == slug && t.isActive))
  }

  /** `OrderBy(s => s.SortOrder)`. */
  function SectionOrder(): (Section, Section) -> bool {
    (a: Section, b: Section) => a.sortOrder < b.sortOrder
  }

  function IsActiveSection(): Section -> bool {
    (s: Section) => s.isActive
  }

  /** `GetAllSectionsAsync`. */
  function GetAllSections(sections: seq<Section>): seq<Section> {
    SortBy(Where(sections, IsActiveSection()), SectionOrder())
  }

  /** The sections listed are exactly the active stored ones, in ascending sort
      order. */
  lemma AllSectionsOrdered(sections: seq<Section>)
    ensures var r := GetAllSections(sections);
      && (forall i :: 0 <= i < |r| ==> r[i].isActive)
      && (forall s :: multiset(r)[s] == if s.isActive then multiset(sections)[s] else 0)
      && (forall i, j :: 0 <= i < j < |r| ==> r[i].sortOrder <= r[j].sortOrder)
  {
    var active := Where(sections, IsActiveSection());
    assert StrictWeakOrder(SectionOrder());
    SortByCorrect(active, SectionOrder());
    var r := GetAllSections(sections);
    forall s: Section ensures multiset(r)[s] == if s.isActive then multiset(sections)[s] else 0 {
      WhereCounts(sections, IsActiveSection(), s);
    }
    forall i | 0 <= i < |r| ensures r[i].isActive {
      assert r[i] in multiset(r);
      WhereCounts(sections, IsActiveSection(), r[i]);
    }
    forall i, j | 0 <= i < j < |r| ensures r[i].sortOrder <= r[j].sortOrder {
      assert !SectionOrder()(r[j], r[i]);
    }
  }

  /** `GetSectionBySlugAsync`. */
  function GetSectionBySlug(slug: string, sections: seq<Section>): (r: Result<Option<Section>>)
    ensures r.Err? <==> IsBlank(slug)
    ensures r.Ok? && r.value.Some? ==> r.value.value.slug == slug && r.value.value.isActive && r.value.value in sections
    ensures r.Ok? && r.value.None? ==> forall s :: s in sections ==> !(s.slug == slug && s.isActive)
    ensures r.Ok? && r.value.Some? ==>
              exists k :: 0 <= k < |sections| && sections[k] == r.value.value &&
                forall j :: 0 <= j < k ==> !(sections[j].slug == slug && sections[j].isActive)
  {
    if IsBlank(slug) then Err("slug")
    else Ok(FirstWhere(sections, (s: Section) => s.slug == slug && s.isActive))
  }

  /** `GetStyleByIdAsync`. */
  function GetStyleById(styleId: string, styles: seq<SectionStyle>): (r: Result<Option<SectionStyle>>)
    ensures r.Err? <==> IsBlank(styleId)
    ensures r.Ok? && r.value.Some? ==> r.value.value.id == styleId && r.value.value.isActive && r.value.value in styles
    ensures r.Ok? && r.value.None? ==> forall s :: s in styles ==> !(s.id == styleId && s.isActive)
  {
    if IsBlank(styleId) then Err("styleId")
    else Ok(FirstWhere(styles, (s: SectionStyle) => s.id == styleId && s.isActive))
  }

  /** `GetStylesForSectionAsync`: the active styles of one section, in query
      order. */
  function GetStylesForSection(sectionId: string, styles: seq<SectionStyle>): (r: Result<seq<SectionStyle>>)
    ensures r.Err? <==> IsBlank(sectionId)
    ensures r.Ok? ==> forall s :: s in r.value <==> s in styles && s.sectionId == sectionId && s.isActive
  {
    if IsBlank(sectionId) then Err("sectionId")
    else
      var p := (s: SectionStyle) => s.sectionId == sectionId && s.isActive;
      forall s: SectionStyle ensures s in Where(styles, p) <==> s in styles && p(s) {
        WhereMembers(styles, p, s);
      }
      Ok(Where(styles, p))
  }

  /** No two styles share an id. */
  predicate DistinctIds(styles: seq<SectionStyle>) {
    forall i, j :: 0 <= i < j < |styles| ==> styles[i].id != styles[j].id
  }

  /** `ToDictionary(s => s.Id)`: fails on a repeated id. */
  function ToDictionary(styles: seq<SectionStyle>): (r: Option<map<string, SectionStyle>>)
    ensures r.Some? <==> DistinctIds(styles)
    ensures r.Some? ==> forall k :: k in r.value <==> exists i :: 0 <= i < |styles| && styles[i].id == k
    ensures r.Some? ==> forall k :: k in r.value ==> r.value[k].id == k && r.value[k] in styles
    decreases |styles|
  {
    if |styles| == 0 then Some(map[])
    else
      var init := styles[..|styles| - 1];
      var last := styles[|styles| - 1];
      match ToDictionary(init)
      case None => None
      case Some(m) =>
        if last.id in m then
          var i :| 0 <= i < |init| && init[i].id == last.id;
          assert styles[i].id == styles[|styles| - 1].id;
          None
        else
          assert forall i :: 0 <= i < |init| ==> styles[i] == init[i];
          Some(m[last.id := last])
  }

  /** `GetStylesByIdsAsync`: no ids gives an empty map without a query;
      otherwise the active stored styles whose id was asked for, by id. */
  function GetStylesByIds(styleIds: seq<string>, styles: seq<SectionStyle>): (r: Result<map<string, SectionStyle>>)
    ensures |styleIds| == 0 ==> r == Ok(map[])
    ensures r.Ok? ==> forall k :: k in r.value ==> k in styleIds && r.value[k].id == k && r.value[k].isActive && r.value[k] in styles
    ensures r.Ok? && |styleIds| > 0 ==> forall s :: s in styles && s.isActive && s.id in styleIds ==> s.id in r.value
  {
    if |styleIds| == 0 then Ok(map[])
    else
      var p := (s: SectionStyle) => s.isActive && s.id in styleIds;
      var wanted := Where(styles, p);
      forall s: SectionStyle ensures s in wanted <==> s in styles && p(s) {
        WhereMembers(styles, p, s);
      }
      match ToDictionary(wanted)
      case None => Err("duplicate style id")
      case Some(m) =>
        assert forall s :: s in wanted ==> s.id in m;
        Ok(m)
  }

  /** Styles stored under distinct ids are always returned, so the lookup only
      fails when the store holds one id twice among the wanted styles. */
  lemma StylesByIdsSucceed(styleIds: seq<string>, styles: seq<SectionStyle>)
    requires DistinctIds(styles)
    ensures GetStylesByIds(styleIds, styles).Ok?
  {
    if |styleIds| > 0 {
      var p := (s: SectionStyle) => s.isActive && s.id in styleIds;
      WhereKeepsDistinctIds(styles, p);
    }
  }

  /** Filtering keeps ids distinct. */
  lemma {:induction false} WhereKeepsDistinctIds(styles: seq<SectionStyle>, p: SectionStyle -> bool)
    requires DistinctIds(styles)
    ensures DistinctIds(Where(styles, p))
    decreases |styles|
  {
    if |styles| > 0 {
      var init := styles[..|styles| - 1];
      var last := styles[|styles| - 1];
      assert DistinctIds(init) by {
        forall i, j | 0 <= i < j < |init| ensures init[i].id != init[j].id {
          assert init[i] == styles[i] && init[j] == styles[j];
        }
      }
      WhereKeepsDistinctIds(init, p);
      if p(last) {
        var w := Where(init, p);
        forall k | 0 <= k < |w| ensures w[k].id != last.id {
          WhereMembers(init, p, w[k]);
          var i :| 0 <= i < |init| && init[i] == w[k];
          assert styles[i] == w[k];
        }
        var r := w + [last];
        forall i, j | 0 <= i < j < |r| ensures r[i].id != r[j].id {
          if j < |w| {
            assert r[i] == w[i] && r[j] == w[j];
          } else {
            assert r[i] == w[i];
          }
        }
      }
    }
  }
}
