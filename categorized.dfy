/**
 * The category-bucketed view of an aggregated tech stack: six ordered lists,
 * one per `TechCategory`, built from the flat list by grouping on the
 * category and keeping the input order inside each group.
 */
module Categorized {
  import opened TechModel

  /** `CategorizedTechStack`: one list per category. */
  datatype CategorizedTechStack = CategorizedTechStack(
    languages: seq<Tech>,
    frameworks: seq<Tech>,
    libraries: seq<Tech>,
    tools: seq<Tech>,
    databases: seq<Tech>,
    others: seq<Tech>)
  {
    /** The list that holds category `c`. */
    function Bucket(c: TechCategory): seq<Tech> {
      match c
      case Language => languages
      case Framework => frameworks
      case Library => libraries
      case Tool => tools
      case Database => databases
      case Other => others
    }

    /** The number of technologies over all six lists. */
    function Total(): nat {
      |languages| + |frameworks| + |libraries| + |tools| + |databases| + |others|
    }
  }

  /** The property initialisers: six empty lists. */
  const Empty := CategorizedTechStack([], [], [], [], [], [])

  /** The technologies of category `c`, in input order (one lookup group). */
  function OfCategory(ts: seq<Tech>, c: TechCategory): (r: seq<Tech>)
    ensures |r| <= |ts|
    ensures forall k :: 0 <= k < |r| ==> r[k].category == c
    decreases |ts|
  {
    if |ts| == 0 then []
    else if ts[|ts| - 1].category == c then OfCategory(ts[..|ts| - 1], c) + [ts[|ts| - 1]]
    else OfCategory(ts[..|ts| - 1], c)
  }

  /** The input positions holding category `c`, in increasing order. */
  function Positions(ts: seq<Tech>, c: TechCategory): (r: seq<nat>)
    ensures forall k :: 0 <= k < |r| ==> r[k] < |ts| && ts[r[k]].category == c
    ensures forall k, l :: 0 <= k < l < |r| ==> r[k] < r[l]
    ensures forall i :: 0 <= i < |ts| && ts[i].category == c ==> i in r
    decreases |ts|
  {
    if |ts| == 0 then []
    else
      var init := Positions(ts[..|ts| - 1], c);
      if ts[|ts| - 1].category == c then init + [|ts| - 1] else init
  }

  /** `FromFlat`: group a flat list by category. */
  function FromFlat(technologies: seq<Tech>): (r: CategorizedTechStack)
    ensures forall c: TechCategory :: r.Bucket(c) == OfCategory(technologies, c)
    ensures r.Total() == |technologies|
  {
    BucketSizesSum(technologies);
    CategorizedTechStack(
      OfCategory(technologies, Language),
      OfCategory(technologies, Framework),
      OfCategory(technologies, Library),
      OfCategory(technologies, Tool),
      OfCategory(technologies, Database),
      OfCategory(technologies, Other))
  }

  /** The six groups partition the input: their sizes add up to its length. */
  lemma {:induction false} BucketSizesSum(ts: seq<Tech>)
    ensures |OfCategory(ts, Language)| + |OfCategory(ts, Framework)| + |OfCategory(ts, Library)|
            + |OfCategory(ts, Tool)| + |OfCategory(ts, Database)| + |OfCategory(ts, Other)| == |ts|
    decreases |ts|
  {
    if |ts| > 0 {
      BucketSizesSum(ts[..|ts| - 1]);
    }
  }

  /** A group holds each technology of its category exactly as often as the
      input does, and nothing of another category. */
  lemma {:induction false} OfCategoryCounts(ts: seq<Tech>, c: TechCategory, t: Tech)
    ensures multiset(OfCategory(ts, c))[t] == if t.category == c then multiset(ts)[t] else 0
    decreases |ts|
  {
    if |ts| > 0 {
      var init := ts[..|ts| - 1];
      OfCategoryCounts(init, c, t);
      assert ts == init + [ts[|ts| - 1]];
    }
  }

  /** Order is kept: the `k`-th element of a group is the input element at the
      `k`-th position of that category. */
  lemma {:induction false} OfCategoryInOrder(ts: seq<Tech>, c: TechCategory)
    ensures |OfCategory(ts, c)| == |Positions(ts, c)|
    ensures forall k :: 0 <= k < |Positions(ts, c)| ==> OfCategory(ts, c)[k] == ts[Positions(ts, c)[k]]
    decreases |ts|
  {
    if |ts| > 0 {
      var init := ts[..|ts| - 1];
      OfCategoryInOrder(init, c);
      forall k | 0 <= k < |Positions(init, c)|
        ensures ts[Positions(init, c)[k]] == init[Positions(init, c)[k]]
      {
      }
    }
  }

  /** Each list of `FromFlat` holds exactly the input technologies of its
      category, with their multiplicities. */
  lemma FromFlatBuckets(technologies: seq<Tech>, c: TechCategory, t: Tech)
    ensures t in FromFlat(technologies).Bucket(c) <==> t in technologies && t.category == c
    ensures multiset(FromFlat(technologies).Bucket(c))[t] == if t.category == c then multiset(technologies)[t] else 0
  {
    OfCategoryCounts(technologies, c, t);
  }

  /** Grouping an empty list gives six empty lists. */
  lemma FromFlatEmpty(technologies: seq<Tech>)
    requires |technologies| == 0
    ensures FromFlat(technologies) == Empty
  {
    var r := FromFlat(technologies);
    assert r.Total() == 0;
  }
}
