/**
 * The mapping tables loaded once at start-up, and the three indexes derived
 * from them for README matching: every known name in lower case, the
 * canonical spelling of each lower-cased name, and the technology behind
 * each canonical name.
 */
module Mappings {
  import opened Wrappers
  import opened Text
  import opened TechModel

  /** The eight tables, in the order the indexes are built from them. */
  datatype Tables = Tables(
    packageJson: Table,
    csproj: Table,
    requirements: Table,
    goMod: Table,
    cargoToml: Table,
    pomXml: Table,
    filePresence: Table,
    topicMappings: Table)

  /** The deserialized mapping file: a table the file leaves out is null. */
  datatype RawTables = RawTables(
    packageJson: Option<Table>,
    csproj: Option<Table>,
    requirements: Option<Table>,
    goMod: Option<Table>,
    cargoToml: Option<Table>,
    pomXml: Option<Table>,
    filePresence: Option<Table>,
    topicMappings: Option<Table>)

  const NoTables := Tables([], [], [], [], [], [], [], [])

  /** The tables of a loaded mapping file, an absent one replaced by an empty one. */
  function FromRaw(raw: RawTables): (t: Tables)
    ensures raw.packageJson.Some? ==> t.packageJson == raw.packageJson.value
    ensures raw.csproj.Some? ==> t.csproj == raw.csproj.value
    ensures raw.requirements.Some? ==> t.requirements == raw.requirements.value
    ensures raw.goMod.Some? ==> t.goMod == raw.goMod.value
    ensures raw.cargoToml.Some? ==> t.cargoToml == raw.cargoToml.value
    ensures raw.pomXml.Some? ==> t.pomXml == raw.pomXml.value
    ensures raw.filePresence.Some? ==> t.filePresence == raw.filePresence.value
    ensures raw.topicMappings.Some? ==> t.topicMappings == raw.topicMappings.value
  {
    Tables(
      raw.packageJson.GetOr([]),
      raw.csproj.GetOr([]),
      raw.requirements.GetOr([]),
      raw.goMod.GetOr([]),
      raw.cargoToml.GetOr([]),
      raw.pomXml.GetOr([]),
      raw.filePresence.GetOr([]),
      raw.topicMappings.GetOr([]))
  }

  /** A file that leaves a table out yields an empty table for it, never a missing one. */
  lemma AbsentTablesAreEmpty(raw: RawTables)
    ensures raw == RawTables(None, None, None, None, None, None, None, None) ==> FromRaw(raw) == NoTables
    ensures raw.packageJson.None? ==> FromRaw(raw).packageJson == []
    ensures raw.csproj.None? ==> FromRaw(raw).csproj == []
    ensures raw.requirements.None? ==> FromRaw(raw).requirements == []
    ensures raw.goMod.None? ==> FromRaw(raw).goMod == []
    ensures raw.cargoToml.None? ==> FromRaw(raw).cargoToml == []
    ensures raw.pomXml.None? ==> FromRaw(raw).pomXml == []
    ensures raw.filePresence.None? ==> FromRaw(raw).filePresence == []
    ensures raw.topicMappings.None? ==> FromRaw(raw).topicMappings == []
  {
  }

  /** Every mapping of the eight tables, table after table. */
  function AllMappings(t: Tables): seq<Tech> {
    Values(t.packageJson) + Values(t.csproj) + Values(t.requirements) + Values(t.goMod)
    + Values(t.cargoToml) + Values(t.pomXml) + Values(t.filePresence) + Values(t.topicMappings)
  }

  /** The derived indexes. `allKnownNames` is kept in insertion order (the order
      the README section scan visits it); both maps are keyed by the lower-cased
      name, which is how their case-insensitive comparers look keys up. */
  datatype Lookups = Lookups(
    allKnownNames: seq<string>,
    nameNormalization: map<string, string>,
    techInfoByName: map<string, Tech>)

  const EmptyLookups := Lookups([], map[], map[])

  /** One step of the index build: add the lower-cased name, and add the
      normalization and the technology unless the name is already present. */
  function AddMapping(l: Lookups, m: Tech): Lookups {
    var lower := Lower(m.name);
    Lookups(
      if lower in l.allKnownNames then l.allKnownNames else l.allKnownNames + [lower],
      if lower in l.nameNormalization then l.nameNormalization else l.nameNormalization[lower := m.name],
      if lower in l.techInfoByName then l.techInfoByName else l.techInfoByName[lower := m])
  }

  /** The indexes after visiting `ms` in order. */
  function AddAll(l: Lookups, ms: seq<Tech>): Lookups
    decreases |ms|
  {
    if |ms| == 0 then l else AddMapping(AddAll(l, ms[..|ms| - 1]), ms[|ms| - 1])
  }

  /** The indexes built from a set of tables, starting empty. */
  function Build(t: Tables): Lookups {
    AddAll(EmptyLookups, AllMappings(t))
  }

  /** The three indexes agree: the same names, each canonical spelling lower-cases to
      its key, and the technology of a key carries the canonical spelling. */
  ghost predicate Consistent(l: Lookups) {
    && (forall i, j :: 0 <= i < j < |l.allKnownNames| ==> l.allKnownNames[i] != l.allKnownNames[j])
    && (forall k :: k in l.allKnownNames <==> k in l.nameNormalization)
    && (forall k :: k in l.nameNormalization <==> k in l.techInfoByName)
    && (forall k :: k in l.nameNormalization ==> Lower(l.nameNormalization[k]) == k)
    && (forall k :: k in l.techInfoByName ==> l.techInfoByName[k].name == l.nameNormalization[k])
  }

  /** `l2` holds everything `l1` holds, unchanged. */
  ghost predicate Extends(l2: Lookups, l1: Lookups) {
    && l1.allKnownNames <= l2.allKnownNames
    && (forall k :: k in l1.nameNormalization ==> k in l2.nameNormalization && l2.nameNormalization[k] == l1.nameNormalization[k])
    && (forall k :: k in l1.techInfoByName ==> k in l2.techInfoByName && l2.techInfoByName[k] == l1.techInfoByName[k])
  }

  /** Building only adds to the indexes: nothing already present is removed or replaced. */
  lemma {:induction false} AddAllOnlyAdds(l: Lookups, ms: seq<Tech>)
    ensures Extends(AddAll(l, ms), l)
    decreases |ms|
  {
    if |ms| > 0 {
      AddAllOnlyAdds(l, ms[..|ms| - 1]);
    }
  }

  /** After building, the lower-cased name of every visited mapping is known, normalized and resolvable. */
  lemma {:induction false} AddAllKnowsAll(l: Lookups, ms: seq<Tech>)
    ensures forall i :: 0 <= i < |ms| ==> Lower(ms[i].name) in AddAll(l, ms).allKnownNames
    ensures forall i :: 0 <= i < |ms| ==> Lower(ms[i].name) in AddAll(l, ms).nameNormalization
    ensures forall i :: 0 <= i < |ms| ==> Lower(ms[i].name) in AddAll(l, ms).techInfoByName
    decreases |ms|
  {
    if |ms| > 0 {
      var init := ms[..|ms| - 1];
      AddAllKnowsAll(l, init);
      AddAllOnlyAdds(AddAll(l, init), [ms[|ms| - 1]]);
      assert AddAll(AddAll(l, init), [ms[|ms| - 1]]) == AddAll(l, ms) by {
        assert [ms[|ms| - 1]][..0] == [];
      }
      forall i | 0 <= i < |init| ensures init[i] == ms[i] {
      }
    }
  }

  /** A known name is either one known before or the lower-cased name of a visited mapping. */
  lemma {:induction false} AddAllKnowsOnly(l: Lookups, ms: seq<Tech>, k: string)
    requires k in AddAll(l, ms).allKnownNames
    ensures k in l.allKnownNames || exists i :: 0 <= i < |ms| && Lower(ms[i].name) == k
    decreases |ms|
  {
    if |ms| > 0 {
      var init := ms[..|ms| - 1];
      if k in AddAll(l, init).allKnownNames {
        AddAllKnowsOnly(l, init, k);
        if k !in l.allKnownNames {
          var i :| 0 <= i < |init| && Lower(init[i].name) == k;
          assert ms[i] == init[i];
        }
      } else {
        assert Lower(ms[|ms| - 1].name) == k;
      }
    }
  }

  lemma AddMappingConsistent(l: Lookups, m: Tech)
    requires Consistent(l)
    ensures Consistent(AddMapping(l, m))
  {
    var lower := Lower(m.name);
    LowerIdempotent(m.name);
    var r := AddMapping(l, m);
    if lower !in l.allKnownNames {
      forall i, j | 0 <= i < j < |r.allKnownNames| ensures r.allKnownNames[i] != r.allKnownNames[j] {
        if j == |l.allKnownNames| {
          assert r.allKnownNames[i] in l.allKnownNames;
        }
      }
    }
  }

  /** Starting from consistent indexes, building keeps them consistent. */
  lemma {:induction false} AddAllConsistent(l: Lookups, ms: seq<Tech>)
    requires Consistent(l)
    ensures Consistent(AddAll(l, ms))
    decreases |ms|
  {
    if |ms| > 0 {
      AddAllConsistent(l, ms[..|ms| - 1]);
      AddMappingConsistent(AddAll(l, ms[..|ms| - 1]), ms[|ms| - 1]);
    }
  }

  /** Built indexes are consistent: every known name has a canonical spelling, and that
      spelling has a technology whose name is that spelling. */
  lemma BuildConsistent(t: Tables)
    ensures Consistent(Build(t))
    ensures forall k :: k in Build(t).allKnownNames ==>
      k in Build(t).nameNormalization && Lower(Build(t).nameNormalization[k]) in Build(t).techInfoByName
  {
    AddAllConsistent(EmptyLookups, AllMappings(t));
  }

  /** The first mapping with a given lower-cased name decides its canonical spelling and
      its technology; later mappings with the same lower-cased name never overwrite it. */
  lemma {:induction false} AddAllFirstWins(l: Lookups, ms: seq<Tech>, i: nat)
    requires i < |ms|
    requires Lower(ms[i].name) !in l.nameNormalization && Lower(ms[i].name) !in l.techInfoByName
    requires forall j :: 0 <= j < i ==> Lower(ms[j].name) != Lower(ms[i].name)
    ensures Lower(ms[i].name) in AddAll(l, ms).nameNormalization
    ensures Lower(ms[i].name) in AddAll(l, ms).techInfoByName
    ensures AddAll(l, ms).nameNormalization[Lower(ms[i].name)] == ms[i].name
    ensures AddAll(l, ms).techInfoByName[Lower(ms[i].name)] == ms[i]
    decreases |ms|
  {
    var init := ms[..|ms| - 1];
    if i < |ms| - 1 {
      assert init[i] == ms[i];
      AddAllFirstWins(l, init, i);
      var before := AddAll(l, init);
      assert Lower(ms[i].name) in before.nameNormalization && Lower(ms[i].name) in before.techInfoByName;
      assert AddAll(l, ms) == AddMapping(before, ms[|ms| - 1]);
    } else {
      AbsentUntilVisited(l, init, Lower(ms[i].name));
    }
  }

  lemma {:induction false} AbsentUntilVisited(l: Lookups, ms: seq<Tech>, k: string)
    requires k !in l.nameNormalization && k !in l.techInfoByName
    requires forall j :: 0 <= j < |ms| ==> Lower(ms[j].name) != k
    ensures k !in AddAll(l, ms).nameNormalization && k !in AddAll(l, ms).techInfoByName
    decreases |ms|
  {
    if |ms| > 0 {
      AbsentUntilVisited(l, ms[..|ms| - 1], k);
    }
  }

  /** Visiting mappings whose names are all present already changes nothing. */
  lemma {:induction false} AddAllPresent(l: Lookups, ms: seq<Tech>)
    requires forall i :: 0 <= i < |ms| ==> Lower(ms[i].name) in l.allKnownNames
    requires forall i :: 0 <= i < |ms| ==> Lower(ms[i].name) in l.nameNormalization
    requires forall i :: 0 <= i < |ms| ==> Lower(ms[i].name) in l.techInfoByName
    ensures AddAll(l, ms) == l
    decreases |ms|
  {
    if |ms| > 0 {
      AddAllPresent(l, ms[..|ms| - 1]);
    }
  }

  /** Building the indexes a second time from the same tables changes nothing. */
  lemma AddAllIdempotent(l: Lookups, ms: seq<Tech>)
    ensures AddAll(AddAll(l, ms), ms) == AddAll(l, ms)
  {
    AddAllKnowsAll(l, ms);
    AddAllPresent(AddAll(l, ms), ms);
  }

  /** `IsKnownTechnology`: the lower-cased name is a known name. */
  predicate IsKnown(l: Lookups, name: string) {
    Lower(name) in l.allKnownNames
  }

  /** `NormalizeTechName`: the canonical spelling, or the name itself when there is none. */
  function Normalize(l: Lookups, name: string): (r: string)
    ensures Lower(name) in l.nameNormalization ==> r == l.nameNormalization[Lower(name)]
    ensures Lower(name) !in l.nameNormalization ==> r == name
  {
    if Lower(name) in l.nameNormalization then l.nameNormalization[Lower(name)] else name
  }

  /** `TechInfoByName.TryGetValue` with its case-insensitive comparer. */
  function TechInfo(l: Lookups, name: string): (r: Option<Tech>)
    ensures r.Some? <==> Lower(name) in l.techInfoByName
    ensures r.Some? ==> r.value == l.techInfoByName[Lower(name)]
  {
    if Lower(name) in l.techInfoByName then Some(l.techInfoByName[Lower(name)]) else None
  }

  /** In consistent indexes a known name always resolves: its canonical spelling has a
      technology, which carries that spelling, so a known badge never falls back to `Other`. */
  lemma KnownNameResolves(l: Lookups, name: string)
    requires Consistent(l)
    requires IsKnown(l, name)
    ensures TechInfo(l, Normalize(l, name)).Some?
    ensures TechInfo(l, Normalize(l, name)).value.name == Normalize(l, name)
    ensures EqualsIgnoreCase(Normalize(l, name), name)
  {
    LowerIdempotent(name);
  }

  /** The loaded tables and their indexes. The tables are fixed once constructed;
      `BuildLookups` fills the indexes in place. */
  class FrameworkMappings {
    const tables: Tables
    var allKnownNames: seq<string>
    var nameNormalization: map<string, string>
    var techInfoByName: map<string, Tech>

    function Indexes(): Lookups
      reads this
    {
      Lookups(allKnownNames, nameNormalization, techInfoByName)
    }

    /** The object initializer: the given tables and empty indexes. */
    constructor (tables: Tables)
      ensures this.tables == tables
      ensures Indexes() == EmptyLookups
    {
      this.tables := tables;
      allKnownNames := [];
      nameNormalization := map[];
      techInfoByName := map[];
    }

    /** Visits every mapping of the eight tables in order and adds it to the indexes. */
    method BuildLookups()
      modifies this
      ensures Indexes() == AddAll(old(Indexes()), AllMappings(tables))
    {
      var all := AllMappings(tables);
      var i := 0;
      while i < |all|
        invariant 0 <= i <= |all|
        invariant Indexes() == AddAll(old(Indexes()), all[..i])
      {
        AddToIndexes(all[i]);
        PrefixStep(all, i);
        i := i + 1;
      }
      assert all[..i] == all;
    }

    /** One step of the scan: a lower-cased name not seen before is appended to the
        known names and becomes the key of this mapping's spelling and technology. */
    method AddToIndexes(mapping: Tech)
      modifies this
      ensures Indexes() == AddMapping(old(Indexes()), mapping)
    {
      var lower := Lower(mapping.name);
      if lower !in allKnownNames {
        allKnownNames := allKnownNames + [lower];
      }
      if lower !in nameNormalization {
        nameNormalization := nameNormalization[lower := mapping.name];
      }
      if lower !in techInfoByName {
        techInfoByName := techInfoByName[lower := mapping];
      }
    }

    /** Builds the mappings from the deserialized file; a file that does not
        deserialize is an error. */
    static method LoadFromEmbeddedResource(raw: Option<RawTables>) returns (r: Result<FrameworkMappings>)
      ensures raw.None? <==> r.Err?
      ensures r.Ok? ==> fresh(r.value)
      ensures r.Ok? ==> r.value.tables == FromRaw(raw.value)
      ensures r.Ok? ==> r.value.Indexes() == Build(FromRaw(raw.value))
    {
      if raw.None? {
        return Err("Failed to deserialize framework-mappings.json");
      }
      var m := new FrameworkMappings(FromRaw(raw.value));
      m.BuildLookups();
      return Ok(m);
    }
  }
}
