/**
 * The aggregation of every detection of every analysed repository into the
 * technology list of a profile: one entry per name (ignoring case), the most
 * specific category, the first icon, ordered by how often the name was
 * detected and then by name, at most `MaxTechnologies` entries.
 */
module Aggregation {
  import opened Wrappers
  import opened Text
  import opened TechModel
  import opened Emitting
  import opened Sorting

  /** The cap on the technologies of a profile. */
  const MaxTechnologies: nat := 200

  // ---------------------------------------------------------------- groups

  /** The detections whose name equals `name`, ignoring case, in detection order. */
  function Members(ds: seq<Tech>, name: string): (r: seq<Tech>)
    ensures forall t :: t in r ==> t in ds && Lower(t.name) == Lower(name)
    ensures |r| <= |ds|
    decreases |ds|
  {
    if |ds| == 0 then []
    else
      var last := ds[|ds| - 1];
      Members(ds[..|ds| - 1], name) + (if Lower(last.name) == Lower(name) then [last] else [])
  }

  /** A detection belongs to the group of its own name. */
  lemma {:induction false} MemberOfOwnGroup(ds: seq<Tech>, t: Tech)
    requires t in ds
    ensures t in Members(ds, t.name)
    decreases |ds|
  {
    if t != ds[|ds| - 1] {
      var k :| 0 <= k < |ds| && ds[k] == t;
      assert ds[..|ds| - 1][k] == t;
      MemberOfOwnGroup(ds[..|ds| - 1], t);
    }
  }

  /** How many detections carry the name, ignoring case. */
  function Count(ds: seq<Tech>, name: string): nat {
    |Members(ds, name)|
  }

  // ---------------------------------------------------------------- category

  /** How many of the items have category `c`. */
  function CategoryCount(items: seq<Tech>, c: TechCategory): nat
    decreases |items|
  {
    if |items| == 0 then 0
    else CategoryCount(items[..|items| - 1], c) + (if items[|items| - 1].category == c then 1 else 0)
  }

  /** A count never exceeds the number of items, and a category that occurs is counted. */
  lemma {:induction false} CategoryCountBounds(items: seq<Tech>, c: TechCategory)
    ensures CategoryCount(items, c) <= |items|
    ensures (exists i :: 0 <= i < |items| && items[i].category == c) ==> CategoryCount(items, c) > 0
    decreases |items|
  {
    if |items| > 0 {
      var init := items[..|items| - 1];
      CategoryCountBounds(init, c);
      if exists i :: 0 <= i < |items| && items[i].category == c {
        var i :| 0 <= i < |items| && items[i].category == c;
        if i < |init| {
          assert init[i] == items[i];
        }
      }
    }
  }

  /** The preference of a category: any category other than `Other` beats `Other`,
      and within each side the more frequent category wins. */
  function Rank(items: seq<Tech>, c: TechCategory): int {
    (if c != Other then |items| + 1 else 0) + CategoryCount(items, c)
  }

  /** The first category of `cs` that no other category of `cs` outranks. */
  function PickCategory(items: seq<Tech>, cs: seq<TechCategory>): TechCategory
    requires |cs| > 0
  {
    if |cs| == 1 then
      cs[0]
    else
      var b := PickCategory(items, cs[1..]);
      if Rank(items, b) > Rank(items, cs[0]) then b else cs[0]
  }

  /** The pick is one of the categories, none outranks it, and every category before
      its first occurrence ranks strictly lower. */
  lemma {:induction false} PickCategorySpec(items: seq<Tech>, cs: seq<TechCategory>)
    requires |cs| > 0
    ensures PickCategory(items, cs) in cs
    ensures forall c :: c in cs ==> Rank(items, c) <= Rank(items, PickCategory(items, cs))
    ensures exists i :: (0 <= i < |cs| && cs[i] == PickCategory(items, cs)
      && forall j :: 0 <= j < i ==> Rank(items, cs[j]) < Rank(items, PickCategory(items, cs)))
    decreases |cs|
  {
    var r := PickCategory(items, cs);
    if |cs| == 1 {
      assert cs[0] == r;
    } else {
      var tail := cs[1..];
      var b := PickCategory(items, tail);
      PickCategorySpec(items, tail);
      assert forall c :: c in cs ==> c == cs[0] || c in tail;
      if Rank(items, b) > Rank(items, cs[0]) {
        var i :| 0 <= i < |tail| && tail[i] == b && forall j :: 0 <= j < i ==> Rank(items, tail[j]) < Rank(items, b);
        assert cs[i + 1] == b;
        forall j | 0 <= j < i + 1 ensures Rank(items, cs[j]) < Rank(items, r) {
          if j > 0 {
            assert cs[j] == tail[j - 1];
          }
        }
      } else {
        assert cs[0] == r;
      }
    }
  }

  /** The categories of the items, in detection order. */
  function Categories(items: seq<Tech>): (r: seq<TechCategory>)
    ensures |r| == |items| && forall i :: 0 <= i < |items| ==> r[i] == items[i].category
  {
    seq(|items|, i requires 0 <= i < |items| => items[i].category)
  }

  /** The category of a group: non-`Other` first, then the most frequent, ties going to
      the category seen first (LINQ's ordering is stable). */
  function ResolveCategory(items: seq<Tech>): TechCategory
    requires |items| > 0
  {
    PickCategory(items, Categories(items))
  }

  /** The resolved category is one of the group's; it is `Other` only when every item is;
      otherwise no other category is more frequent, and every category seen before its
      first occurrence is `Other` or strictly less frequent. */
  lemma ResolveCategorySpec(items: seq<Tech>)
    requires |items| > 0
    ensures var r := ResolveCategory(items);
      && (exists i :: 0 <= i < |items| && items[i].category == r)
      && (r == Other <==> forall i :: 0 <= i < |items| ==> items[i].category == Other)
      && (r != Other ==> forall i :: 0 <= i < |items| && items[i].category != Other ==>
            CategoryCount(items, items[i].category) <= CategoryCount(items, r))
      && (exists i :: (0 <= i < |items| && items[i].category == r
            && forall j :: 0 <= j < i ==>
                 ((items[j].category == Other && r != Other)
                  || (items[j].category != Other && CategoryCount(items, items[j].category) < CategoryCount(items, r)))))
  {
    var r := ResolveCategory(items);
    var cs := Categories(items);
    PickCategorySpec(items, cs);
    CategoryCountBounds(items, Other);
    if exists i :: 0 <= i < |items| && items[i].category != Other {
      var i :| 0 <= i < |items| && items[i].category != Other;
      assert cs[i] in cs;
      assert Rank(items, cs[i]) > |items| >= CategoryCount(items, Other);
    }
    var i :| 0 <= i < |cs| && cs[i] == r && forall j :: 0 <= j < i ==> Rank(items, cs[j]) < Rank(items, r);
    forall j | 0 <= j < i
      ensures (items[j].category == Other && r != Other)
        || (items[j].category != Other && CategoryCount(items, items[j].category) < CategoryCount(items, r))
    {
      assert Rank(items, cs[j]) < Rank(items, r);
    }
    forall k | 0 <= k < |items| && items[k].category != Other && r != Other
      ensures CategoryCount(items, items[k].category) <= CategoryCount(items, r)
    {
      assert cs[k] in cs;
    }
  }

  // ---------------------------------------------------------------- icon

  /** The first icon of the group, if any item has one. */
  function FirstIcon(items: seq<Tech>): (r: Option<string>)
    ensures r.None? <==> forall i :: 0 <= i < |items| ==> items[i].icon.None?
    ensures r.Some? ==> exists i :: (0 <= i < |items| && items[i].icon == r
      && forall j :: 0 <= j < i ==> items[j].icon.None?)
  {
    if |items| == 0 then None
    else if items[0].icon.Some? then items[0].icon
    else
      var r := FirstIcon(items[1..]);
      assert forall i :: 1 <= i < |items| ==> items[i] == items[1..][i - 1];
      if r.Some? then
        ghost var i :| 0 <= i < |items[1..]| && items[1..][i].icon == r && forall j :: 0 <= j < i ==> items[1..][j].icon.None?;
        assert items[i + 1].icon == r;
        r
      else r
  }

  // ---------------------------------------------------------------- aggregate

  /** The entry of the group whose first detection is `first`. */
  function Summarize(ds: seq<Tech>, first: Tech): Tech
    requires first in ds
  {
    MemberOfOwnGroup(ds, first);
    var items := Members(ds, first.name);
    Tech(first.name, ResolveCategory(items), FirstIcon(items))
  }

  /** The entries of the groups whose first detections are `firsts`, in that order. */
  function Summaries(ds: seq<Tech>, firsts: seq<Tech>): (r: seq<Tech>)
    requires forall t :: t in firsts ==> t in ds
    ensures |r| == |firsts|
    decreases |firsts|
  {
    if |firsts| == 0 then []
    else Summaries(ds, firsts[..|firsts| - 1]) + [Summarize(ds, firsts[|firsts| - 1])]
  }

  lemma {:induction false} SummariesEntry(ds: seq<Tech>, firsts: seq<Tech>, i: int)
    requires forall t :: t in firsts ==> t in ds
    requires 0 <= i < |firsts|
    ensures Summaries(ds, firsts)[i] == Summarize(ds, firsts[i])
    ensures Summaries(ds, firsts)[i].name == firsts[i].name
    decreases |firsts|
  {
    if i < |firsts| - 1 {
      SummariesEntry(ds, firsts[..|firsts| - 1], i);
    }
  }

  /** One entry per group, in order of each group's first detection. */
  function Grouped(ds: seq<Tech>): (r: seq<Tech>)
    ensures |r| == |Distinct(ds, true)|
  {
    DistinctFromInput(ds, true);
    Summaries(ds, Distinct(ds, true))
  }

  /** Each group entry summarizes the group of a first detection. */
  lemma GroupedEntry(ds: seq<Tech>, i: int)
    requires 0 <= i < |Grouped(ds)|
    ensures Distinct(ds, true)[i] in ds
    ensures Grouped(ds)[i] == Summarize(ds, Distinct(ds, true)[i])
    ensures Grouped(ds)[i].name == Distinct(ds, true)[i].name
  {
    DistinctFromInput(ds, true);
    assert Distinct(ds, true)[i] in Distinct(ds, true);
    SummariesEntry(ds, Distinct(ds, true), i);
  }

  /** Comes strictly before in the final list: more detections, then name order. */
  predicate ComesBefore(ds: seq<Tech>, a: Tech, b: Tech) {
    Count(ds, a.name) > Count(ds, b.name)
    || (Count(ds, a.name) == Count(ds, b.name) && NameLess(a.name, b.name))
  }

  function ByFrequency(ds: seq<Tech>): (Tech, Tech) -> bool {
    (a, b) => ComesBefore(ds, a, b)
  }

  function NameKey(t: Tech): string {
    Lower(t.name)
  }

  /** `AggregateDetections`. */
  function Aggregate(ds: seq<Tech>): seq<Tech> {
    Take(SortBy(Grouped(ds), ByFrequency(ds)), MaxTechnologies)
  }

  lemma ByFrequencyIsStrictWeakOrder(ds: seq<Tech>)
    ensures StrictWeakOrder(ByFrequency(ds))
  {
    var before := ByFrequency(ds);
    forall a ensures !before(a, a) {
      NameLessIrreflexive(a.name);
    }
    forall a, b, c | before(a, b) && before(b, c) ensures before(a, c) {
      if Count(ds, a.name) == Count(ds, b.name) == Count(ds, c.name) {
        NameLessTransitive(a.name, b.name, c.name);
      }
    }
    forall a, b, c | before(a, c) ensures before(a, b) || before(b, c) {
      if Count(ds, a.name) == Count(ds, b.name) == Count(ds, c.name) && a.name != b.name {
        NameLessTotal(a.name, b.name);
        if NameLess(b.name, a.name) {
          NameLessTransitive(b.name, a.name, c.name);
        }
      }
    }
  }

  /** The group entries have pairwise different names, ignoring case. */
  lemma GroupedKeysUnique(ds: seq<Tech>)
    ensures var g := Grouped(ds); forall i, j :: 0 <= i < j < |g| ==> NameKey(g[i]) != NameKey(g[j])
  {
    DistinctSpec(ds, true);
    var g := Grouped(ds);
    forall i, j | 0 <= i < j < |g| ensures NameKey(g[i]) != NameKey(g[j]) {
      GroupedEntry(ds, i);
      GroupedEntry(ds, j);
    }
  }

  /** The sorted groups: a permutation of the groups, ordered, with unique names. */
  lemma SortedGroups(ds: seq<Tech>)
    ensures var s := SortBy(Grouped(ds), ByFrequency(ds));
      && multiset(s) == multiset(Grouped(ds))
      && SortedBy(s, ByFrequency(ds))
      && forall i, j :: 0 <= i < j < |s| ==> NameKey(s[i]) != NameKey(s[j])
  {
    ByFrequencyIsStrictWeakOrder(ds);
    SortByCorrect(Grouped(ds), ByFrequency(ds));
    GroupedKeysUnique(ds);
    SortByKeepsKeysUnique(Grouped(ds), ByFrequency(ds), NameKey);
  }

  /** A sequence sorted by frequency with unique names is strictly ordered. */
  lemma StrictlyOrdered(ds: seq<Tech>, s: seq<Tech>)
    requires SortedBy(s, ByFrequency(ds))
    requires forall i, j :: 0 <= i < j < |s| ==> NameKey(s[i]) != NameKey(s[j])
    ensures forall i, j :: 0 <= i < j < |s| ==> ComesBefore(ds, s[i], s[j])
  {
    forall i, j | 0 <= i < j < |s| ensures ComesBefore(ds, s[i], s[j]) {
      assert !ByFrequency(ds)(s[j], s[i]);
      assert NameKey(s[i]) != NameKey(s[j]);
      NameLessTotal(s[i].name, s[j].name);
    }
  }

  /** The aggregate has one entry per name ignoring case, strictly ordered by detection
      count and then by name, and as many entries as there are names, up to the cap. */
  lemma AggregateShape(ds: seq<Tech>)
    ensures var r := Aggregate(ds);
      && |r| == (if |Distinct(ds, true)| < MaxTechnologies then |Distinct(ds, true)| else MaxTechnologies)
      && (forall i, j :: 0 <= i < j < |r| ==> Lower(r[i].name) != Lower(r[j].name))
      && (forall i, j :: 0 <= i < j < |r| ==> ComesBefore(ds, r[i], r[j]))
  {
    var s := SortBy(Grouped(ds), ByFrequency(ds));
    SortedGroups(ds);
    StrictlyOrdered(ds, s);
    var r := Aggregate(ds);
    assert r == s[..|r|];
    assert |s| == |Grouped(ds)| by {
      assert |multiset(s)| == |multiset(Grouped(ds))|;
    }
    forall i, j | 0 <= i < j < |r| ensures Lower(r[i].name) != Lower(r[j].name) && ComesBefore(ds, r[i], r[j]) {
      assert r[i] == s[i] && r[j] == s[j];
      assert NameKey(s[i]) != NameKey(s[j]);
    }
  }

  /** Each entry carries the first spelling of its name among the detections, the
      resolved category of its group, and the group's first icon. */
  lemma AggregateEntries(ds: seq<Tech>, u: Tech)
    requires u in Aggregate(ds)
    ensures exists i :: (0 <= i < |ds| && ds[i].name == u.name
      && forall j :: 0 <= j < i ==> Lower(ds[j].name) != Lower(u.name))
    ensures Members(ds, u.name) != []
    ensures u.category == ResolveCategory(Members(ds, u.name))
    ensures u.icon == FirstIcon(Members(ds, u.name))
  {
    AggregateFromGroups(ds, u);
    var k :| 0 <= k < |Grouped(ds)| && Grouped(ds)[k] == u;
    GroupEntryFacts(ds, k);
  }

  /** Every entry of the aggregate is a group entry. */
  lemma AggregateFromGroups(ds: seq<Tech>, u: Tech)
    requires u in Aggregate(ds)
    ensures u in Grouped(ds)
  {
    var s := SortBy(Grouped(ds), ByFrequency(ds));
    SortByPermutes(Grouped(ds), ByFrequency(ds));
    assert u in s;
    assert u in multiset(s);
  }

  lemma GroupEntryFacts(ds: seq<Tech>, k: int)
    requires 0 <= k < |Grouped(ds)|
    ensures var u := Grouped(ds)[k];
      && (exists i :: (0 <= i < |ds| && ds[i].name == u.name
        && forall j :: 0 <= j < i ==> Lower(ds[j].name) != Lower(u.name)))
      && Members(ds, u.name) != []
      && u.category == ResolveCategory(Members(ds, u.name))
      && u.icon == FirstIcon(Members(ds, u.name))
  {
    var first := Distinct(ds, true)[k];
    GroupedEntry(ds, k);
    assert first in Distinct(ds, true);
    DistinctKeepsFirst(ds, true, first);
    MemberOfOwnGroup(ds, first);
  }

  /** Every detected name has a group entry. */
  lemma GroupedCovers(ds: seq<Tech>, d: Tech)
    requires d in ds
    ensures exists e :: e in Grouped(ds) && Lower(e.name) == Lower(d.name)
  {
    DistinctCovers(ds, true);
    var f :| f in Distinct(ds, true) && SeenKey(f.name, true) == SeenKey(d.name, true);
    var k :| 0 <= k < |Distinct(ds, true)| && Distinct(ds, true)[k] == f;
    GroupedEntry(ds, k);
    assert Grouped(ds)[k] in Grouped(ds);
  }

  /** Every detected name has its group's entry somewhere in the sorted groups. */
  lemma SortedGroupsCover(ds: seq<Tech>, d: Tech)
    requires d in ds
    ensures var s := SortBy(Grouped(ds), ByFrequency(ds));
      exists p :: 0 <= p < |s| && Lower(s[p].name) == Lower(d.name) && Count(ds, s[p].name) == Count(ds, d.name)
  {
    var g := Grouped(ds);
    var s := SortBy(g, ByFrequency(ds));
    SortByPermutes(g, ByFrequency(ds));
    GroupedCovers(ds, d);
    var e :| e in g && Lower(e.name) == Lower(d.name);
    assert e in multiset(g);
    assert e in s;
    var p :| 0 <= p < |s| && s[p] == e;
    MembersSameKey(ds, e.name, d.name);
  }

  /** Every detected name is in the aggregate unless the cap was reached, and then every
      entry was detected at least as often as the name left out. */
  lemma AggregateKeepsMostFrequent(ds: seq<Tech>, d: Tech)
    requires d in ds
    ensures (exists u :: u in Aggregate(ds) && Lower(u.name) == Lower(d.name))
      || (|Aggregate(ds)| == MaxTechnologies && forall u :: u in Aggregate(ds) ==> Count(ds, u.name) >= Count(ds, d.name))
  {
    var s := SortBy(Grouped(ds), ByFrequency(ds));
    SortedGroupsOrdered(ds);
    SortedGroupsCover(ds, d);
    var p :| 0 <= p < |s| && Lower(s[p].name) == Lower(d.name) && Count(ds, s[p].name) == Count(ds, d.name);
    KeptOrOutranked(ds, s, d, p);
  }

  lemma SortedGroupsOrdered(ds: seq<Tech>)
    ensures SortedBy(SortBy(Grouped(ds), ByFrequency(ds)), ByFrequency(ds))
  {
    ByFrequencyIsStrictWeakOrder(ds);
    SortByCorrect(Grouped(ds), ByFrequency(ds));
  }

  /** The cut of a frequency-sorted sequence keeps an entry with the name of `d`, or is
      full of entries detected at least as often. */
  lemma KeptOrOutranked(ds: seq<Tech>, s: seq<Tech>, d: Tech, p: int)
    requires SortedBy(s, ByFrequency(ds)) && 0 <= p < |s|
    requires Lower(s[p].name) == Lower(d.name) && Count(ds, s[p].name) == Count(ds, d.name)
    ensures (exists u :: u in Take(s, MaxTechnologies) && Lower(u.name) == Lower(d.name))
      || (|Take(s, MaxTechnologies)| == MaxTechnologies
          && forall u :: u in Take(s, MaxTechnologies) ==> Count(ds, u.name) >= Count(ds, d.name))
  {
    var r := Take(s, MaxTechnologies);
    TakeOrOutranked(s, MaxTechnologies, ByFrequency(ds), p);
    if p < |r| {
      assert r[p] == s[p];
      assert r[p] in r;
    } else {
      forall u | u in r ensures Count(ds, u.name) >= Count(ds, d.name) {
        assert !ByFrequency(ds)(s[p], u);
      }
    }
  }

  /** Names equal ignoring case have the same group. */
  lemma {:induction false} MembersSameKey(ds: seq<Tech>, a: string, b: string)
    requires Lower(a) == Lower(b)
    ensures Members(ds, a) == Members(ds, b)
    decreases |ds|
  {
    if |ds| > 0 {
      MembersSameKey(ds[..|ds| - 1], a, b);
    }
  }
}
