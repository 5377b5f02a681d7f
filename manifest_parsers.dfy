/**
 * The dependency-manifest parsers of the tech-stack detector: each turns the
 * text of one manifest file into the technologies its mapping table names.
 * Every parser is a method with the source's loops, proved equal to a
 * specification function about which the parser's promises are proved.
 */
module ManifestParsers {
  import opened Wrappers
  import opened Text
  import opened TechModel
  import opened Emitting
  import opened Extraction

  // ---------------------------------------------------------------- requirements.txt

  /** The characters that end a package name: `= > < ! ; space [`. */
  const NameEnd: set<char> := {'=', '>', '<', '!', ';', ' ', '['}

  /** A comment, an include directive or an option line. */
  predicate IsDirective(trimmed: string) {
    StartsWith(trimmed, "#") || StartsWith(trimmed, "-r") || StartsWith(trimmed, "--")
  }

  /** The lower-cased package name a line names, or `None` for a skipped line. */
  function RequirementName(line: string): Option<string> {
    var trimmed := Trim(line);
    if IsBlank(trimmed) || IsDirective(trimmed) then None
    else
      var name := Lower(Trim(NamePart(trimmed)));
      if IsBlank(name) || StartsWith(name, "-") then None else Some(name)
  }

  /** The characters that end a package name, as the leading part of a line. */
  function NamePart(trimmed: string): (r: string)
    ensures StartsWith(trimmed, r)
    ensures forall i :: 0 <= i < |r| ==> r[i] !in NameEnd
  {
    match IndexOfAny(trimmed, NameEnd)
    case Some(k) => trimmed[..k]
    case None => trimmed
  }

  lemma LowerKeepsNameEnd(s: string)
    requires forall i :: 0 <= i < |s| ==> s[i] !in NameEnd
    ensures forall i :: 0 <= i < |Lower(s)| ==> Lower(s)[i] !in NameEnd
  {
    forall i | 0 <= i < |s| ensures Lower(s)[i] !in NameEnd {
      if 'A' <= s[i] <= 'Z' {
        assert 'a' <= Lower(s)[i] <= 'z';
      }
    }
  }

  /** Blank lines, comments and directives never name a package; a named package is
      the lower-cased leading part of the trimmed line, non-empty, not an option, and
      free of the characters that end a name. */
  lemma RequirementNameSpec(line: string)
    ensures var t := Trim(line); IsBlank(t) || IsDirective(t) ==> RequirementName(line).None?
    ensures RequirementName(line).Some? ==>
      var n := RequirementName(line).value;
      && n != [] && n[0] != '-'
      && Lower(n) == n
      && (forall i :: 0 <= i < |n| ==> n[i] !in NameEnd)
      && n == Lower(Trim(NamePart(Trim(line))))
      && StartsWith(Trim(line), NamePart(Trim(line)))
  {
    var t := Trim(line);
    if RequirementName(line).Some? {
      var cut := NamePart(t);
      var tc := Trim(cut);
      TrimWithin(cut);
      LowerKeepsNameEnd(tc);
      LowerIdempotent(tc);
      var n := RequirementName(line).value;
      assert n == Lower(tc);
      assert n[0] != '-' by {
        assert !StartsWith(n, "-");
        assert n[..1] == [n[0]];
      }
    }
  }

  /** Every character of a slice is a character of the whole. */
  lemma SliceWithin(s: string, lo: nat, hi: nat)
    requires lo <= hi <= |s|
    ensures forall i :: 0 <= i < hi - lo ==> s[lo..hi][i] in s
  {
    forall i | 0 <= i < hi - lo ensures s[lo..hi][i] in s {
      assert s[lo..hi][i] == s[lo + i];
    }
  }

  lemma TrimWithin(s: string)
    ensures forall i :: 0 <= i < |Trim(s)| ==> Trim(s)[i] in s
  {
    var e := TrimEnd(s);
    var t := TrimStart(e);
    assert t == s[|e| - |t|..|e|];
    SliceWithin(s, |e| - |t|, |e|);
  }

  /** `Split('\n', RemoveEmptyEntries)`. */
  function NonEmptyLines(content: string): seq<string> {
    NonEmpty(Split(content, '\n'))
  }

  function NonEmpty(parts: seq<string>): (r: seq<string>)
    ensures forall i :: 0 <= i < |r| ==> r[i] != []
    decreases |parts|
  {
    if |parts| == 0 then []
    else NonEmpty(parts[..|parts| - 1]) + (if parts[|parts| - 1] == [] then [] else [parts[|parts| - 1]])
  }

  /** The technology a single line detects. */
  function RequirementLine(requirements: Table, line: string): seq<Tech> {
    match RequirementName(line)
    case None => []
    case Some(name) =>
      match Lookup(requirements, name)
      case None => []
      case Some(t) => [t]
  }

  function RequirementsDetections(requirements: Table, lines: seq<string>): seq<Tech>
    decreases |lines|
  {
    if |lines| == 0 then []
    else RequirementsDetections(requirements, lines[..|lines| - 1]) + RequirementLine(requirements, lines[|lines| - 1])
  }

  /** Every detection comes from a line naming a package that is a key of the table. */
  lemma {:induction false} RequirementsDetectionsFromLines(requirements: Table, lines: seq<string>, t: Tech)
    requires t in RequirementsDetections(requirements, lines)
    ensures exists i :: (0 <= i < |lines| && RequirementName(lines[i]).Some?
      && Lookup(requirements, RequirementName(lines[i]).value) == Some(t))
    decreases |lines|
  {
    var init := lines[..|lines| - 1];
    if t in RequirementsDetections(requirements, init) {
      RequirementsDetectionsFromLines(requirements, init, t);
      var i :| 0 <= i < |init| && RequirementName(init[i]).Some?
        && Lookup(requirements, RequirementName(init[i]).value) == Some(t);
      assert lines[i] == init[i];
    } else {
      assert Lookup(requirements, RequirementName(lines[|lines| - 1]).value) == Some(t);
    }
  }

  lemma RequirementsStep(requirements: Table, lines: seq<string>, i: int)
    requires 0 <= i < |lines|
    ensures RequirementsDetections(requirements, lines[..i + 1])
         == RequirementsDetections(requirements, lines[..i]) + RequirementLine(requirements, lines[i])
  {
    assert lines[..i + 1][..i] == lines[..i];
  }

  method ParseRequirementsTxt(requirements: Table, content: string) returns (results: seq<Tech>)
    ensures results == RequirementsDetections(requirements, NonEmptyLines(content))
  {
    var lines := NonEmptyLines(content);
    results := [];
    var i := 0;
    while i < |lines|
      invariant 0 <= i <= |lines|
      invariant results == RequirementsDetections(requirements, lines[..i])
    {
      RequirementsStep(requirements, lines, i);
      var packageName := RequirementName(lines[i]);
      if packageName.Some? {
        var mapping := Lookup(requirements, packageName.value);
        if mapping.Some? {
          results := results + [mapping.value];
        }
      }
      i := i + 1;
    }
    assert lines[..i] == lines;
  }

  // ---------------------------------------------------------------- package.json

  /** Substrings of the joined script commands that reveal a tool. */
  const ScriptToolHints: Table := [
    ("tsc", Tech("TypeScript", Language, Some("typescript"))),
    ("nodemon", Tech("Nodemon", Tool, Some("nodemon"))),
    ("ts-node", Tech("TypeScript", Language, Some("typescript"))),
    ("next ", Tech("Next.js", Framework, Some("nextjs"))),
    ("nuxt", Tech("Nuxt.js", Framework, Some("nuxtjs"))),
    ("tailwind", Tech("Tailwind CSS", Framework, Some("tailwindcss"))),
    ("prisma ", Tech("Prisma", Library, Some("prisma")))
  ]

  /** The technologies of the listed package names, each lower-cased and looked up. */
  function PackageDetections(packageJson: Table, names: seq<string>): seq<Tech>
    decreases |names|
  {
    if |names| == 0 then []
    else
      PackageDetections(packageJson, names[..|names| - 1]) + PackageHit(packageJson, names[|names| - 1])
  }

  /** The `package.json` entry of one package name, lower-cased, if any. */
  function PackageHit(packageJson: Table, name: string): seq<Tech> {
    match Lookup(packageJson, Lower(name)) case None => [] case Some(t) => [t]
  }

  lemma PackageStep(packageJson: Table, names: seq<string>, i: int)
    requires 0 <= i < |names|
    ensures PackageDetections(packageJson, names[..i + 1])
         == PackageDetections(packageJson, names[..i]) + PackageHit(packageJson, names[i])
  {
    assert names[..i + 1][..i] == names[..i];
  }

  /** The script values joined with spaces, a null value read as the empty string. */
  function ScriptText(values: seq<Option<string>>): string {
    Join(" ", seq(|values|, i requires 0 <= i < |values| => values[i].GetOr("")))
  }

  function PackageJsonDetections(packageJson: Table, doc: PackageJsonDoc): seq<Tech> {
    PackageDetections(packageJson, doc.dependencies.GetOr([]))
    + PackageDetections(packageJson, doc.devDependencies.GetOr([]))
    + match doc.scripts
      case None => []
      case Some(values) => Matching(ScriptToolHints, ContainedIn(ScriptText(values)))
  }

  /** A script hint is reported exactly when its pattern occurs in the joined scripts,
      ignoring case, and a file that does not parse reports nothing. */
  lemma ScriptHintsSpec(values: seq<Option<string>>, t: Tech)
    ensures t in Matching(ScriptToolHints, ContainedIn(ScriptText(values))) <==>
      exists i :: 0 <= i < |ScriptToolHints| && ScriptToolHints[i].1 == t
        && ContainsIgnoreCase(ScriptText(values), ScriptToolHints[i].0)
  {
    MatchingSelects(ScriptToolHints, ContainedIn(ScriptText(values)), t);
  }

  method PackageNames(packageJson: Table, names: seq<string>) returns (results: seq<Tech>)
    ensures results == PackageDetections(packageJson, names)
  {
    results := [];
    var i := 0;
    while i < |names|
      invariant 0 <= i <= |names|
      invariant results == PackageDetections(packageJson, names[..i])
    {
      PackageStep(packageJson, names, i);
      var mapping := Lookup(packageJson, Lower(names[i]));
      if mapping.Some? {
        results := results + [mapping.value];
      }
      i := i + 1;
    }
    assert names[..i] == names;
  }

  lemma MatchingStep(table: Table, rule: KeyRule, i: int)
    requires 0 <= i < |table|
    ensures Matching(table[..i + 1], rule)
         == Matching(table[..i], rule) + (if KeyMatches(rule, table[i].0) then [table[i].1] else [])
  {
    assert table[..i + 1][..i] == table[..i];
  }

  /** The entries of `table` whose key `rule` accepts, visited in table order. */
  method SelectMatching(table: Table, rule: KeyRule) returns (results: seq<Tech>)
    ensures results == Matching(table, rule)
  {
    results := [];
    var i := 0;
    while i < |table|
      invariant 0 <= i <= |table|
      invariant results == Matching(table[..i], rule)
    {
      MatchingStep(table, rule, i);
      var (key, mapping) := table[i];
      if KeyMatches(rule, key) {
        results := results + [mapping];
      }
      i := i + 1;
    }
    assert table[..i] == table;
  }

  method ParsePackageJson(packageJson: Table, ex: Extractors, content: string) returns (results: seq<Tech>)
    ensures ex.parsePackageJson(content).None? ==> results == []
    ensures ex.parsePackageJson(content).Some? ==> results == PackageJsonDetections(packageJson, ex.parsePackageJson(content).value)
  {
    var parsed := ex.parsePackageJson(content);
    if parsed.None? {
      return [];
    }
    var doc := parsed.value;
    results := [];
    if doc.dependencies.Some? {
      results := PackageNames(packageJson, doc.dependencies.value);
    }
    if doc.devDependencies.Some? {
      var dev := PackageNames(packageJson, doc.devDependencies.value);
      results := results + dev;
    }
    if doc.scripts.Some? {
      var hints := SelectMatching(ScriptToolHints, ContainedIn(ScriptText(doc.scripts.value)));
      results := results + hints;
    }
  }

  // ---------------------------------------------------------------- *.csproj

  const DotNet := Tech(".NET", Framework, Some("dotnet"))

  /** A target framework moniker of modern .NET (`net8.0`, not `netstandard2.0` or `netcoreapp3.1`). */
  predicate IsModernNet(tfm: string) {
    StartsWith(tfm, "net") && !StartsWith(tfm, "netstandard") && !StartsWith(tfm, "netcoreapp")
  }

  /** For each package id in turn, the entries whose key prefixes it. */
  function CsprojCandidates(csproj: Table, ids: seq<string>): seq<Tech>
    decreases |ids|
  {
    if |ids| == 0 then []
    else CsprojCandidates(csproj, ids[..|ids| - 1]) + Matching(csproj, PrefixOf(ids[|ids| - 1]))
  }

  function CsprojDetections(csproj: Table, ids: seq<string>, tfm: Option<string>): seq<Tech> {
    Distinct(CsprojOffers(csproj, ids, tfm), true)
  }

  lemma CandidatesStep(csproj: Table, ids: seq<string>, k: int)
    requires 0 <= k < |ids|
    ensures CsprojCandidates(csproj, ids[..k + 1])
         == CsprojCandidates(csproj, ids[..k]) + Matching(csproj, PrefixOf(ids[k]))
  {
    assert ids[..k + 1][..k] == ids[..k];
  }

  /** The package id `id` selects the technology `t`. */
  predicate IdSelects(csproj: Table, id: string, t: Tech) {
    t in Matching(csproj, PrefixOf(id))
  }

  /** A candidate is a technology some package id selects. */
  lemma {:induction false} CandidatesFromIds(csproj: Table, ids: seq<string>, t: Tech)
    ensures t in CsprojCandidates(csproj, ids) <==> exists k :: 0 <= k < |ids| && IdSelects(csproj, ids[k], t)
    decreases |ids|
  {
    if |ids| > 0 {
      var init := ids[..|ids| - 1];
      var last := ids[|ids| - 1];
      CandidatesFromIds(csproj, init, t);
      assert CsprojCandidates(csproj, ids) == CsprojCandidates(csproj, init) + Matching(csproj, PrefixOf(last));
      if t in CsprojCandidates(csproj, ids) {
        if t in CsprojCandidates(csproj, init) {
          var k :| 0 <= k < |init| && IdSelects(csproj, init[k], t);
          assert ids[k] == init[k];
        } else {
          assert IdSelects(csproj, ids[|ids| - 1], t);
        }
      }
      if exists k :: 0 <= k < |ids| && IdSelects(csproj, ids[k], t) {
        var k :| 0 <= k < |ids| && IdSelects(csproj, ids[k], t);
        if k < |init| {
          assert init[k] == ids[k];
        }
      }
    }
  }

  lemma CsprojCandidatesSpec(csproj: Table, ids: seq<string>, t: Tech)
    ensures t in CsprojCandidates(csproj, ids) <==>
      exists k, i :: 0 <= k < |ids| && 0 <= i < |csproj| && csproj[i].1 == t && StartsWithIgnoreCase(ids[k], csproj[i].0)
  {
    CandidatesFromIds(csproj, ids, t);
    if t in CsprojCandidates(csproj, ids) {
      var k :| 0 <= k < |ids| && IdSelects(csproj, ids[k], t);
      MatchingSelects(csproj, PrefixOf(ids[k]), t);
      var i :| 0 <= i < |csproj| && csproj[i].1 == t && KeyMatches(PrefixOf(ids[k]), csproj[i].0);
      assert StartsWithIgnoreCase(ids[k], csproj[i].0);
    }
    if exists k, i :: 0 <= k < |ids| && 0 <= i < |csproj| && csproj[i].1 == t && StartsWithIgnoreCase(ids[k], csproj[i].0) {
      var k, i :| 0 <= k < |ids| && 0 <= i < |csproj| && csproj[i].1 == t && StartsWithIgnoreCase(ids[k], csproj[i].0);
      MatchingSelects(csproj, PrefixOf(ids[k]), t);
    }
  }

  /** The candidates of a .csproj, with `.NET` last for a modern target framework. */
  function CsprojOffers(csproj: Table, ids: seq<string>, tfm: Option<string>): seq<Tech> {
    CsprojCandidates(csproj, ids) + (if tfm.Some? && IsModernNet(tfm.value) then [DotNet] else [])
  }

  /** A .csproj reports each name once (ignoring case); every report comes from an entry
      whose key prefixes a package id (ignoring case) or is `.NET` for a modern target
      framework; and every such entry's name and, for a modern target, `.NET` is reported. */
  lemma CsprojSpec(csproj: Table, ids: seq<string>, tfm: Option<string>)
    ensures var r := CsprojDetections(csproj, ids, tfm);
      forall i, j :: 0 <= i < j < |r| ==> Lower(r[i].name) != Lower(r[j].name)
    ensures forall t :: t in CsprojDetections(csproj, ids, tfm) ==>
      (exists k, i :: 0 <= k < |ids| && 0 <= i < |csproj| && csproj[i].1 == t && StartsWithIgnoreCase(ids[k], csproj[i].0))
      || (t == DotNet && tfm.Some? && IsModernNet(tfm.value))
    ensures forall k, i :: 0 <= k < |ids| && 0 <= i < |csproj| && StartsWithIgnoreCase(ids[k], csproj[i].0) ==>
      exists u :: u in CsprojDetections(csproj, ids, tfm) && Lower(u.name) == Lower(csproj[i].1.name)
    ensures tfm.Some? && IsModernNet(tfm.value) ==>
      exists u :: u in CsprojDetections(csproj, ids, tfm) && Lower(u.name) == Lower(".NET")
  {
    EmitAllTracks(NothingEmitted, CsprojOffers(csproj, ids, tfm), true);
    CsprojReportsEntries(csproj, ids, tfm);
    CsprojReportsAll(csproj, ids, tfm);
  }

  lemma CsprojReportsEntries(csproj: Table, ids: seq<string>, tfm: Option<string>)
    ensures forall t :: t in CsprojDetections(csproj, ids, tfm) ==>
      (exists k, i :: 0 <= k < |ids| && 0 <= i < |csproj| && csproj[i].1 == t && StartsWithIgnoreCase(ids[k], csproj[i].0))
      || (t == DotNet && tfm.Some? && IsModernNet(tfm.value))
  {
    var offers := CsprojOffers(csproj, ids, tfm);
    DistinctFromInput(offers, true);
    forall t | t in CsprojDetections(csproj, ids, tfm)
      ensures (exists k, i :: 0 <= k < |ids| && 0 <= i < |csproj| && csproj[i].1 == t && StartsWithIgnoreCase(ids[k], csproj[i].0))
        || (t == DotNet && tfm.Some? && IsModernNet(tfm.value))
    {
      assert t in offers;
      CsprojCandidatesSpec(csproj, ids, t);
    }
  }

  lemma CsprojReportsAll(csproj: Table, ids: seq<string>, tfm: Option<string>)
    ensures forall k, i :: 0 <= k < |ids| && 0 <= i < |csproj| && StartsWithIgnoreCase(ids[k], csproj[i].0) ==>
      exists u :: u in CsprojDetections(csproj, ids, tfm) && Lower(u.name) == Lower(csproj[i].1.name)
    ensures tfm.Some? && IsModernNet(tfm.value) ==>
      exists u :: u in CsprojDetections(csproj, ids, tfm) && Lower(u.name) == Lower(".NET")
  {
    var offers := CsprojOffers(csproj, ids, tfm);
    DistinctCovers(offers, true);
    forall k, i | 0 <= k < |ids| && 0 <= i < |csproj| && StartsWithIgnoreCase(ids[k], csproj[i].0)
      ensures exists u :: u in CsprojDetections(csproj, ids, tfm) && Lower(u.name) == Lower(csproj[i].1.name)
    {
      CsprojCandidatesSpec(csproj, ids, csproj[i].1);
      assert csproj[i].1 in offers;
    }
    if tfm.Some? && IsModernNet(tfm.value) {
      assert DotNet in offers;
    }
  }

  /** Offers the entries of `table` whose key `rule` accepts, in table order, to a seen-set. */
  method EmitMatching(table: Table, rule: KeyRule, ignoreCase: bool, results0: seq<Tech>, seen0: set<string>)
    returns (results: seq<Tech>, seen: set<string>)
    ensures Emitted(results, seen) == EmitAll(Emitted(results0, seen0), Matching(table, rule), ignoreCase)
  {
    results, seen := results0, seen0;
    var i := 0;
    while i < |table|
      invariant 0 <= i <= |table|
      invariant Emitted(results, seen) == EmitAll(Emitted(results0, seen0), Matching(table[..i], rule), ignoreCase)
    {
      MatchingStep(table, rule, i);
      var (key, mapping) := table[i];
      if KeyMatches(rule, key) {
        EmitAllSnoc(Emitted(results0, seen0), Matching(table[..i], rule), mapping, ignoreCase);
        if SeenKey(mapping.name, ignoreCase) !in seen {
          seen := seen + {SeenKey(mapping.name, ignoreCase)};
          results := results + [mapping];
        }
      } else {
        assert Matching(table[..i], rule) + [] == Matching(table[..i], rule);
      }
      i := i + 1;
    }
    assert table[..i] == table;
  }

  method ParseCsProj(csproj: Table, ex: Extractors, content: string) returns (results: seq<Tech>)
    ensures results == CsprojDetections(csproj, ex.packageReferences(content), ex.targetFramework(content))
  {
    var ids := ex.packageReferences(content);
    results := [];
    var seen: set<string> := {};
    var k := 0;
    while k < |ids|
      invariant 0 <= k <= |ids|
      invariant Emitted(results, seen) == EmitAll(NothingEmitted, CsprojCandidates(csproj, ids[..k]), true)
    {
      CandidatesStep(csproj, ids, k);
      EmitAllAppend(NothingEmitted, CsprojCandidates(csproj, ids[..k]), Matching(csproj, PrefixOf(ids[k])), true);
      results, seen := EmitMatching(csproj, PrefixOf(ids[k]), true, results, seen);
      k := k + 1;
    }
    assert ids[..k] == ids;
    var tfm := ex.targetFramework(content);
    if tfm.Some? && IsModernNet(tfm.value) {
      EmitAllSnoc(NothingEmitted, CsprojCandidates(csproj, ids), DotNet, true);
      if Lower(".NET") !in seen {
        seen := seen + {Lower(".NET")};
        results := results + [DotNet];
      }
    } else {
      assert CsprojCandidates(csproj, ids) + [] == CsprojCandidates(csproj, ids);
    }
  }

  // ---------------------------------------------------------------- go.mod

  /** A single-line `require` directive: starts with `require ` once indented, holds no `(`. */
  predicate IsSingleRequire(line: string) {
    StartsWith(TrimStart(line), "require ") && '(' !in line
  }

  function SingleRequires(lines: seq<string>): (r: seq<string>)
    ensures forall i :: 0 <= i < |r| ==> IsSingleRequire(r[i]) && r[i] in lines
    decreases |lines|
  {
    if |lines| == 0 then []
    else
      var last := lines[|lines| - 1];
      SingleRequires(lines[..|lines| - 1]) + (if IsSingleRequire(last) then [last] else [])
  }

  lemma SingleRequiresStep(lines: seq<string>, i: int)
    requires 0 <= i < |lines|
    ensures SingleRequires(lines[..i + 1])
         == SingleRequires(lines[..i]) + (if IsSingleRequire(lines[i]) then [lines[i]] else [])
  {
    var p := lines[..i + 1];
    assert p[..|p| - 1] == lines[..i] && p[|p| - 1] == lines[i];
  }

  /** The text searched for module keys: the bodies of the `require ( ... )` blocks,
      then a line break, then the single-line `require` directives. */
  function RequireContent(blocks: seq<string>, content: string): string {
    Join("\n", blocks) + "\n" + Join("\n", SingleRequires(Split(content, '\n')))
  }

  function GoModDetections(goMod: Table, blocks: seq<string>, content: string): seq<Tech> {
    Matching(goMod, ContainedIn(RequireContent(blocks, content)))
  }

  /** A go.mod entry is reported exactly when its key occurs, ignoring case, in the
      require blocks or single-line requires; nothing is deduplicated. */
  lemma GoModSpec(goMod: Table, blocks: seq<string>, content: string, t: Tech)
    ensures t in GoModDetections(goMod, blocks, content) <==>
      exists i :: 0 <= i < |goMod| && goMod[i].1 == t && ContainsIgnoreCase(RequireContent(blocks, content), goMod[i].0)
    ensures |GoModDetections(goMod, blocks, content)| <= |goMod|
  {
    MatchingSelects(goMod, ContainedIn(RequireContent(blocks, content)), t);
  }

  method ParseGoMod(goMod: Table, ex: Extractors, content: string) returns (results: seq<Tech>)
    ensures results == GoModDetections(goMod, ex.goRequireBlocks(content), content)
  {
    var lines := Split(content, '\n');
    var singleLines: seq<string> := [];
    var i := 0;
    while i < |lines|
      invariant 0 <= i <= |lines|
      invariant singleLines == SingleRequires(lines[..i])
    {
      SingleRequiresStep(lines, i);
      if StartsWith(TrimStart(lines[i]), "require ") && '(' !in lines[i] {
        singleLines := singleLines + [lines[i]];
      }
      i := i + 1;
    }
    assert lines[..i] == lines;
    var requireContent := Join("\n", ex.goRequireBlocks(content)) + "\n" + Join("\n", singleLines);
    results := SelectMatching(goMod, ContainedIn(requireContent));
  }

  // ---------------------------------------------------------------- pyproject.toml

  function PyProjectDetections(requirements: Table, names: seq<string>): seq<Tech>
    decreases |names|
  {
    if |names| == 0 then []
    else
      PyProjectDetections(requirements, names[..|names| - 1]) + PyProjectHit(requirements, names[|names| - 1])
  }

  /** The requirements entry of one captured name, trimmed and lower-cased, if any. */
  function PyProjectHit(requirements: Table, name: string): seq<Tech> {
    match Lookup(requirements, Lower(Trim(name))) case None => [] case Some(t) => [t]
  }

  lemma PyProjectStep(requirements: Table, names: seq<string>, i: int)
    requires 0 <= i < |names|
    ensures PyProjectDetections(requirements, names[..i + 1])
         == PyProjectDetections(requirements, names[..i]) + PyProjectHit(requirements, names[i])
  {
    assert names[..i + 1][..i] == names[..i];
  }

  /** Every pyproject detection is the requirements entry of a trimmed, lower-cased captured name. */
  lemma {:induction false} PyProjectSpec(requirements: Table, names: seq<string>, t: Tech)
    requires t in PyProjectDetections(requirements, names)
    ensures exists k :: 0 <= k < |names| && Lookup(requirements, Lower(Trim(names[k]))) == Some(t)
    decreases |names|
  {
    var init := names[..|names| - 1];
    if t in PyProjectDetections(requirements, init) {
      PyProjectSpec(requirements, init, t);
      var k :| 0 <= k < |init| && Lookup(requirements, Lower(Trim(init[k]))) == Some(t);
      assert names[k] == init[k];
    } else {
      assert t in PyProjectHit(requirements, names[|names| - 1]);
    }
  }

  /** Every captured name whose trimmed, lower-cased form has a requirements
      entry is detected, as that entry. */
  lemma {:induction false} PyProjectReportsAll(requirements: Table, names: seq<string>, k: int)
    requires 0 <= k < |names| && Lookup(requirements, Lower(Trim(names[k]))).Some?
    ensures Lookup(requirements, Lower(Trim(names[k]))).value in PyProjectDetections(requirements, names)
    decreases |names|
  {
    var init := names[..|names| - 1];
    if k < |names| - 1 {
      assert init[k] == names[k];
      PyProjectReportsAll(requirements, init, k);
    } else {
      assert PyProjectHit(requirements, names[k]) == [Lookup(requirements, Lower(Trim(names[k]))).value];
    }
  }

  method ParsePyProjectToml(requirements: Table, ex: Extractors, content: string) returns (results: seq<Tech>)
    ensures results == PyProjectDetections(requirements, ex.pyProjectNames(content))
  {
    var names := ex.pyProjectNames(content);
    results := [];
    var i := 0;
    while i < |names|
      invariant 0 <= i <= |names|
      invariant results == PyProjectDetections(requirements, names[..i])
    {
      PyProjectStep(requirements, names, i);
      var mapping := Lookup(requirements, Lower(Trim(names[i])));
      if mapping.Some? {
        results := results + [mapping.value];
      }
      i := i + 1;
    }
    assert names[..i] == names;
  }

  // ---------------------------------------------------------------- Cargo.toml

  /** A crate is reported exactly when some line assigns its key; nothing is deduplicated. */
  lemma CargoSpec(cargoToml: Table, content: string, t: Tech)
    ensures t in Matching(cargoToml, AssignedIn(content)) <==>
      exists i :: 0 <= i < |cargoToml| && cargoToml[i].1 == t && AssignsKey(content, cargoToml[i].0)
  {
    MatchingSelects(cargoToml, AssignedIn(content), t);
  }

  method ParseCargoToml(cargoToml: Table, content: string) returns (results: seq<Tech>)
    ensures results == Matching(cargoToml, AssignedIn(content))
  {
    results := SelectMatching(cargoToml, AssignedIn(content));
  }

  // ---------------------------------------------------------------- pom.xml

  function PomDetections(pomXml: Table, content: string): seq<Tech> {
    Distinct(Matching(pomXml, ContainedIn(content)), true)
  }

  /** A pom.xml reports each name once (ignoring case), only names of entries whose key
      occurs in the file (ignoring case), and the name of every such entry. */
  lemma PomSpec(pomXml: Table, content: string)
    ensures var r := PomDetections(pomXml, content);
      forall i, j :: 0 <= i < j < |r| ==> Lower(r[i].name) != Lower(r[j].name)
    ensures forall t :: t in PomDetections(pomXml, content) ==>
      exists i :: 0 <= i < |pomXml| && pomXml[i].1 == t && ContainsIgnoreCase(content, pomXml[i].0)
    ensures forall i :: 0 <= i < |pomXml| && ContainsIgnoreCase(content, pomXml[i].0) ==>
      exists u :: u in PomDetections(pomXml, content) && Lower(u.name) == Lower(pomXml[i].1.name)
  {
    var cands := Matching(pomXml, ContainedIn(content));
    DistinctSpec(cands, true);
    forall t | t in PomDetections(pomXml, content)
      ensures exists i :: 0 <= i < |pomXml| && pomXml[i].1 == t && ContainsIgnoreCase(content, pomXml[i].0)
    {
      MatchingSelects(pomXml, ContainedIn(content), t);
    }
    forall i | 0 <= i < |pomXml| && ContainsIgnoreCase(content, pomXml[i].0)
      ensures exists u :: u in PomDetections(pomXml, content) && Lower(u.name) == Lower(pomXml[i].1.name)
    {
      MatchingSelects(pomXml, ContainedIn(content), pomXml[i].1);
      assert pomXml[i].1 in cands;
    }
  }

  method ParsePomXml(pomXml: Table, content: string) returns (results: seq<Tech>)
    ensures results == PomDetections(pomXml, content)
  {
    var seen;
    results, seen := EmitMatching(pomXml, ContainedIn(content), true, [], {});
  }
}
