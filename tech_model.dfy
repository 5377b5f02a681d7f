/**
 * The values the tech-stack detector passes around: a technology (name,
 * category, optional icon slug), the five signals that can report one, and
 * the key-to-technology tables loaded from the mapping file.
 */
module TechModel {
  import opened Wrappers

  /** The fixed set of technology categories. */
  datatype TechCategory = Language | Framework | Library | Tool | Database | Other

  /** A technology with its category and icon slug. This one shape serves as the
      mapping-table entry, the detector's `(Name, Category, Icon)` tuple and the
      final `DetectedTechnology`. */
  datatype Tech = Tech(name: string, category: TechCategory, icon: Option<string>)

  /** The detector that produced a detection. */
  datatype Signal = Languages | Dependencies | FilePresence | Readme | Topics {
    /** The tag written into the signal summary. */
    function Key(): string {
      match this
      case Languages => "languages"
      case Dependencies => "dependencies"
      case FilePresence => "file_presence"
      case Readme => "readme"
      case Topics => "topics"
    }
  }

  /** A technology reported by one signal while analysing one repository. */
  datatype Detection = Detection(tech: Tech, signal: Signal)

  /** A mapping table in enumeration order: the key a parser looks for and the
      technology it stands for. Keys are compared ordinally. */
  type Table = seq<(string, Tech)>

  /** `Dictionary.TryGetValue` with the ordinal comparer. */
  function Lookup(table: Table, key: string): (r: Option<Tech>)
    ensures r.Some? <==> exists i :: 0 <= i < |table| && table[i].0 == key
    ensures r.Some? ==> exists i :: 0 <= i < |table| && table[i] == (key, r.value)
  {
    if |table| == 0 then None
    else if table[0].0 == key then Some(table[0].1)
    else
      var r := Lookup(table[1..], key);
      if r.Some? then
        ghost var i :| 0 <= i < |table[1..]| && table[1..][i] == (key, r.value);
        assert table[i + 1] == (key, r.value);
        r
      else r
  }

  /** The technologies of a table in enumeration order (`Dictionary.Values`). */
  function Values(table: Table): (r: seq<Tech>)
    ensures |r| == |table|
    ensures forall i :: 0 <= i < |table| ==> r[i] == table[i].1
  {
    seq(|table|, i requires 0 <= i < |table| => table[i].1)
  }

  /** The technology found for each key that is in the table, in key order. */
  function LookedUp(table: Table, keys: seq<string>): seq<Tech>
    decreases |keys|
  {
    if |keys| == 0 then [] else LookedUp(table, keys[..|keys| - 1]) + LookupHit(table, keys[|keys| - 1])
  }

  /** The technology one key maps to, if any, as a sequence of at most one. */
  function LookupHit(table: Table, key: string): seq<Tech> {
    match Lookup(table, key) case None => [] case Some(t) => [t]
  }

  lemma LookedUpStep(table: Table, keys: seq<string>, i: int)
    requires 0 <= i < |keys|
    ensures LookedUp(table, keys[..i + 1]) == LookedUp(table, keys[..i]) + LookupHit(table, keys[i])
  {
    var p := keys[..i + 1];
    assert p[..|p| - 1] == keys[..i] && p[|p| - 1] == keys[i];
  }

  /** A key the table maps contributes its technology. */
  lemma {:induction false} LookedUpCovers(table: Table, keys: seq<string>, k: int)
    requires 0 <= k < |keys| && Lookup(table, keys[k]).Some?
    ensures Lookup(table, keys[k]).value in LookedUp(table, keys)
    decreases |keys|
  {
    var init := keys[..|keys| - 1];
    assert LookedUp(table, keys) == LookedUp(table, init) + LookupHit(table, keys[|keys| - 1]);
    if k < |init| {
      assert init[k] == keys[k];
      LookedUpCovers(table, init, k);
    }
  }

  lemma LookupHitSpec(table: Table, key: string, t: Tech)
    ensures t in LookupHit(table, key) <==> MapsTo(table, key, t)
  {
  }

  /** The table maps `key` to `t`. */
  predicate MapsTo(table: Table, key: string, t: Tech) {
    Lookup(table, key) == Some(t)
  }

  /** A technology is looked up exactly when some key maps to it. */
  lemma {:induction false} LookedUpSpec(table: Table, keys: seq<string>, t: Tech)
    ensures t in LookedUp(table, keys) <==> exists k :: 0 <= k < |keys| && MapsTo(table, keys[k], t)
    decreases |keys|
  {
    if |keys| > 0 {
      var init := keys[..|keys| - 1];
      var last := keys[|keys| - 1];
      LookedUpSpec(table, init, t);
      assert LookedUp(table, keys) == LookedUp(table, init) + LookupHit(table, last);
      LookupHitSpec(table, last, t);
      if t in LookedUp(table, keys) {
        if t in LookedUp(table, init) {
          var k :| 0 <= k < |init| && MapsTo(table, init[k], t);
          assert keys[k] == init[k];
        } else {
          assert MapsTo(table, keys[|keys| - 1], t);
        }
      }
      if exists k :: 0 <= k < |keys| && MapsTo(table, keys[k], t) {
        var k :| 0 <= k < |keys| && MapsTo(table, keys[k], t);
        if k < |init| {
          assert init[k] == keys[k];
        }
      }
    }
  }


  /** The technologies `f` gives each element of `xs`, concatenated in order. */
  function Gather<X>(xs: seq<X>, f: X -> seq<Tech>): seq<Tech>
    decreases |xs|
  {
    if |xs| == 0 then [] else Gather(xs[..|xs| - 1], f) + f(xs[|xs| - 1])
  }

  /** A technology is gathered exactly when `f` gives it for some element. */
  lemma {:induction false} GatherSpec<X>(xs: seq<X>, f: X -> seq<Tech>, t: Tech)
    ensures t in Gather(xs, f) <==> exists k :: 0 <= k < |xs| && t in f(xs[k])
    decreases |xs|
  {
    if |xs| > 0 {
      var init := xs[..|xs| - 1];
      GatherSpec(init, f, t);
      if exists k :: 0 <= k < |init| && t in f(init[k]) {
        var k :| 0 <= k < |init| && t in f(init[k]);
        assert xs[k] == init[k];
      }
      if exists k :: 0 <= k < |xs| && t in f(xs[k]) {
        var k :| 0 <= k < |xs| && t in f(xs[k]);
        if k < |init| {
          assert init[k] == xs[k];
        }
      }
    }
  }

  lemma GatherStep<X>(xs: seq<X>, i: int, f: X -> seq<Tech>)
    requires 0 <= i < |xs|
    ensures Gather(xs[..i + 1], f) == Gather(xs[..i], f) + f(xs[i])
  {
    var p := xs[..i + 1];
    assert p[..|p| - 1] == xs[..i] && p[|p| - 1] == xs[i];
  }
}
