/**
 * The README signal: shields.io badge names and, inside the README's
 * tech-stack sections, whole-word mentions of known technology names. Both
 * resolve a name through the mapping indexes to its canonical spelling and,
 * when the indexes have one, its technology.
 */
module ReadmeDetector {
  import opened Wrappers
  import opened Text
  import opened TechModel
  import opened Emitting
  import opened Extraction
  import opened Mappings
  import opened ManifestParsers

  /** READMEs longer than this many UTF-16 code units are not analysed. */
  const MaxReadmeLength := 50000

  /** The first path of the tree that is `README.md`, ignoring case. */
  function FindReadme(tree: seq<string>): (r: Option<string>)
    ensures r.None? ==> forall i :: 0 <= i < |tree| ==> !EqualsIgnoreCase(tree[i], "README.md")
    ensures r.Some? ==> exists i :: (0 <= i < |tree| && tree[i] == r.value && EqualsIgnoreCase(r.value, "README.md")
      && forall j :: 0 <= j < i ==> !EqualsIgnoreCase(tree[j], "README.md"))
  {
    if |tree| == 0 then None
    else if EqualsIgnoreCase(tree[0], "README.md") then Some(tree[0])
    else
      var r := FindReadme(tree[1..]);
      assert forall i :: 1 <= i < |tree| ==> tree[i] == tree[1..][i - 1];
      if r.Some? then
        ghost var i :| 0 <= i < |tree[1..]| && tree[1..][i] == r.value && EqualsIgnoreCase(r.value, "README.md")
          && forall j :: 0 <= j < i ==> !EqualsIgnoreCase(tree[1..][j], "README.md");
        assert tree[i + 1] == r.value;
        r
      else r
  }

  /** The technology a name resolves to: its canonical spelling with the indexed
      category and icon, or `Other` without an icon when the indexes have none. */
  function Resolved(l: Lookups, name: string): (r: Tech)
    ensures r.name == Normalize(l, name)
    ensures TechInfo(l, r.name).None? ==> r.category == Other && r.icon == None
  {
    var canonical := Normalize(l, name);
    match TechInfo(l, canonical)
    case Some(info) => Tech(canonical, info.category, info.icon)
    case None => Tech(canonical, Other, None)
  }

  lemma KnownNamesAreLower(l: Lookups, k: string)
    requires Consistent(l) && k in l.allKnownNames
    ensures Lower(k) == k && IsKnown(l, k)
  {
    LowerIdempotent(l.nameNormalization[k]);
  }

  /** In consistent indexes a known name resolves to exactly the technology indexed
      under it, so the `Other` fallback is never taken for a known name. */
  lemma ResolvedKnown(l: Lookups, name: string)
    requires Consistent(l) && IsKnown(l, name)
    ensures Lower(name) in l.techInfoByName
    ensures Resolved(l, name) == l.techInfoByName[Lower(name)]
  {
    KnownNameResolves(l, name);
  }

  // ---------------------------------------------------------------- badges

  /** A badge's captured name with `%20` and `_` read as spaces, trimmed. */
  function BadgeName(raw: string): string {
    Trim(Replace(Replace(raw, "%20", " "), "_", " "))
  }

  /** Every underscore of a badge name has been read as a space. */
  lemma BadgeNameHasNoUnderscore(raw: string)
    ensures '_' !in BadgeName(raw)
  {
    TrimWithin(Replace(Replace(raw, "%20", " "), "_", " "));
  }

  /** What one captured badge contributes: its resolved technology when its name is known. */
  function BadgeOf(l: Lookups, raw: string): seq<Tech> {
    var name := BadgeName(raw);
    if IsKnown(l, name) then [Resolved(l, name)] else []
  }

  function BadgeFn(l: Lookups): string -> seq<Tech> {
    raw => BadgeOf(l, raw)
  }

  /** The known badge names, resolved, in badge order; repeats are kept. */
  function BadgeDetections(l: Lookups, raws: seq<string>): seq<Tech> {
    Gather(raws, BadgeFn(l))
  }

  /** Each badge detection is the indexed technology of a known badge name, and every
      known badge name is detected. */
  lemma BadgeDetectionsSpec(l: Lookups, raws: seq<string>, t: Tech)
    requires Consistent(l)
    ensures t in BadgeDetections(l, raws) <==>
      exists k :: 0 <= k < |raws| && IsKnown(l, BadgeName(raws[k])) && t == l.techInfoByName[Lower(BadgeName(raws[k]))]
  {
    if t in BadgeDetections(l, raws) {
      BadgeDetectionFromName(l, raws, t);
      var k :| 0 <= k < |raws| && IsKnown(l, BadgeName(raws[k])) && t == Resolved(l, BadgeName(raws[k]));
      ResolvedKnown(l, BadgeName(raws[k]));
    }
    if exists k :: 0 <= k < |raws| && IsKnown(l, BadgeName(raws[k])) && t == l.techInfoByName[Lower(BadgeName(raws[k]))] {
      var k :| 0 <= k < |raws| && IsKnown(l, BadgeName(raws[k])) && t == l.techInfoByName[Lower(BadgeName(raws[k]))];
      KnownBadgeDetected(l, raws, k);
      ResolvedKnown(l, BadgeName(raws[k]));
    }
  }

  lemma BadgeDetectionFromName(l: Lookups, raws: seq<string>, t: Tech)
    requires t in BadgeDetections(l, raws)
    ensures exists k :: 0 <= k < |raws| && IsKnown(l, BadgeName(raws[k])) && t == Resolved(l, BadgeName(raws[k]))
  {
    GatherSpec(raws, BadgeFn(l), t);
    var k :| 0 <= k < |raws| && t in BadgeFn(l)(raws[k]);
    BadgeOfMember(l, raws[k], t);
  }

  lemma BadgeOfMember(l: Lookups, raw: string, t: Tech)
    requires t in BadgeOf(l, raw)
    ensures IsKnown(l, BadgeName(raw)) && t == Resolved(l, BadgeName(raw))
  {
  }

  lemma KnownBadgeDetected(l: Lookups, raws: seq<string>, k: int)
    requires 0 <= k < |raws| && IsKnown(l, BadgeName(raws[k]))
    ensures Resolved(l, BadgeName(raws[k])) in BadgeDetections(l, raws)
  {
    var t := Resolved(l, BadgeName(raws[k]));
    assert t in BadgeOf(l, raws[k]);
    assert t in BadgeFn(l)(raws[k]);
    GatherSpec(raws, BadgeFn(l), t);
  }

  // ---------------------------------------------------------------- tech-stack sections

  predicate IsAsciiAlphanumeric(c: char) {
    ('a' <= c <= 'z') || ('A' <= c <= 'Z') || ('0' <= c <= '9')
  }

  /** `name` occurs at `i`, ignoring case, neither preceded nor followed by an ASCII
      letter or digit. */
  predicate MentionAt(text: string, name: string, i: int) {
    && 0 <= i && i + |name| <= |text|
    && Lower(text[i..i + |name|]) == Lower(name)
    && (i == 0 || !IsAsciiAlphanumeric(text[i - 1]))
    && (i + |name| == |text| || !IsAsciiAlphanumeric(text[i + |name|]))
  }

  /** The whole-word, case-insensitive regex match of `name` in `text`. */
  predicate Mentions(text: string, name: string) {
    exists i :: 0 <= i <= |text| - |name| && MentionAt(text, name, i)
  }

  /** What one known name contributes to the scan: its resolved technology when it has
      at least two UTF-16 code units and the text mentions it. */
  function MentionOf(l: Lookups, text: string, name: string): seq<Tech> {
    if Utf16Length(name) >= 2 && Mentions(text, name) then [Resolved(l, name)] else []
  }

  function MentionFn(l: Lookups, text: string): string -> seq<Tech> {
    name => MentionOf(l, text, name)
  }

  /** The contributions of the known names, in the order of the known names. */
  function MentionedTechs(l: Lookups, text: string, names: seq<string>): seq<Tech> {
    Gather(names, MentionFn(l, text))
  }

  /** The section scan: it appends to the badge detections each mentioned technology
      whose canonical name, ignoring case, is not yet among the results. */
  function ScanTechSections(l: Lookups, sections: seq<string>, badges: seq<Tech>): seq<Tech> {
    if |sections| == 0 then badges
    else EmitAll(Emitted(badges, SeenKeys(badges, true)), MentionedTechs(l, Join("\n", sections), l.allKnownNames), true).results
  }

  /** The README signal for a README's content. */
  function ReadmeContentDetections(l: Lookups, ex: Extractors, content: string): seq<Tech> {
    ScanTechSections(l, ex.techSections(content), BadgeDetections(l, ex.badgeNames(content)))
  }

  /** The README signal for a repository: nothing without a README, when it cannot be
      read, or when it is longer than `MaxReadmeLength`. */
  function ReadmeDetections(l: Lookups, ex: Extractors, tree: seq<string>, fetch: string -> Option<string>): seq<Tech> {
    match FindReadme(tree)
    case None => []
    case Some(path) =>
      match fetch(path)
      case None => []
      case Some(content) => if Utf16Length(content) > MaxReadmeLength then [] else ReadmeContentDetections(l, ex, content)
  }

  /** The section scan keeps the badge detections first; after them each entry's name,
      ignoring case, differs from every earlier one; each is the resolution of a known
      name the sections mention; and every known name of two or more UTF-16 code units that the
      sections mention has its canonical name among the results. */
  lemma ScanTechSectionsSpec(l: Lookups, sections: seq<string>, badges: seq<Tech>)
    requires |sections| > 0
    ensures var r := ScanTechSections(l, sections, badges);
      badges <= r
      && (forall i, j :: 0 <= j < i < |r| && |badges| <= i ==> Lower(r[j].name) != Lower(r[i].name))
      && (forall i :: |badges| <= i < |r| ==> MentionedResolution(l, Join("\n", sections), r[i]))
      && (forall k :: (0 <= k < |l.allKnownNames| && Utf16Length(l.allKnownNames[k]) >= 2
            && Mentions(Join("\n", sections), l.allKnownNames[k])) ==>
            exists u :: u in r && Lower(u.name) == Lower(Normalize(l, l.allKnownNames[k])))
  {
    var text := Join("\n", sections);
    var offered := MentionedTechs(l, text, l.allKnownNames);
    EmitAllFresh(Emitted(badges, SeenKeys(badges, true)), offered, true);
    ScanFromMentions(l, sections, badges);
    ScanCoversMentions(l, sections, badges);
  }

  /** `t` is the resolution of a known name of two or more UTF-16 code units that `text` mentions. */
  ghost predicate MentionedResolution(l: Lookups, text: string, t: Tech) {
    exists k :: 0 <= k < |l.allKnownNames| && Utf16Length(l.allKnownNames[k]) >= 2 && Mentions(text, l.allKnownNames[k])
      && t == Resolved(l, l.allKnownNames[k])
  }

  lemma ScanFromMentions(l: Lookups, sections: seq<string>, badges: seq<Tech>)
    requires |sections| > 0
    ensures var r := ScanTechSections(l, sections, badges);
      forall i :: |badges| <= i < |r| ==> MentionedResolution(l, Join("\n", sections), r[i])
  {
    var text := Join("\n", sections);
    var offered := MentionedTechs(l, text, l.allKnownNames);
    var acc := Emitted(badges, SeenKeys(badges, true));
    EmitAllExtends(acc, offered, true);
    var r := EmitAll(acc, offered, true);
    assert ScanTechSections(l, sections, badges) == r.results;
    forall i | |badges| <= i < |r.results| ensures MentionedResolution(l, text, r.results[i]) {
      assert r.results[i] in offered;
      GatherSpec(l.allKnownNames, MentionFn(l, text), r.results[i]);
      var k :| 0 <= k < |l.allKnownNames| && r.results[i] in MentionFn(l, text)(l.allKnownNames[k]);
      assert r.results[i] in MentionOf(l, text, l.allKnownNames[k]);
    }
  }

  lemma ScanCoversMentions(l: Lookups, sections: seq<string>, badges: seq<Tech>)
    requires |sections| > 0
    ensures var r := ScanTechSections(l, sections, badges);
      forall k :: (0 <= k < |l.allKnownNames| && Utf16Length(l.allKnownNames[k]) >= 2
        && Mentions(Join("\n", sections), l.allKnownNames[k])) ==>
        exists u :: u in r && Lower(u.name) == Lower(Normalize(l, l.allKnownNames[k]))
  {
    var text := Join("\n", sections);
    var offered := MentionedTechs(l, text, l.allKnownNames);
    var acc := Emitted(badges, SeenKeys(badges, true));
    EmitAllFresh(acc, offered, true);
    EmitAllExtends(acc, offered, true);
    var r := EmitAll(acc, offered, true);
    forall k | 0 <= k < |l.allKnownNames| && Utf16Length(l.allKnownNames[k]) >= 2 && Mentions(text, l.allKnownNames[k])
      ensures exists u :: u in r.results && Lower(u.name) == Lower(Normalize(l, l.allKnownNames[k]))
    {
      var t := Resolved(l, l.allKnownNames[k]);
      assert t in MentionOf(l, text, l.allKnownNames[k]);
      assert t in MentionFn(l, text)(l.allKnownNames[k]);
      GatherSpec(l.allKnownNames, MentionFn(l, text), t);
      assert SeenKey(t.name, true) in r.seen;
      var i :| 0 <= i < |r.results| && SeenKey(r.results[i].name, true) == SeenKey(t.name, true);
      assert r.results[i] in r.results;
    }
  }

  /** A README that is absent, unreadable or too long contributes nothing; its
      length is counted in UTF-16 code units. */
  lemma LongReadmeIgnored(l: Lookups, ex: Extractors, tree: seq<string>, fetch: string -> Option<string>)
    requires FindReadme(tree).Some? ==> fetch(FindReadme(tree).value).None? || Utf16Length(fetch(FindReadme(tree).value).value) > MaxReadmeLength
    ensures ReadmeDetections(l, ex, tree, fetch) == []
  {
  }

  method DetectBadges(l: Lookups, raws: seq<string>) returns (results: seq<Tech>)
    ensures results == BadgeDetections(l, raws)
  {
    results := [];
    var i := 0;
    while i < |raws|
      invariant 0 <= i <= |raws|
      invariant results == BadgeDetections(l, raws[..i])
    {
      GatherStep(raws, i, BadgeFn(l));
      assert BadgeFn(l)(raws[i]) == BadgeOf(l, raws[i]);
      var found := BadgeOf(l, raws[i]);
      results := results + found;
      i := i + 1;
    }
    assert raws[..i] == raws;
  }

  method ScanReadmeTechSections(l: Lookups, sections: seq<string>, results0: seq<Tech>) returns (results: seq<Tech>)
    ensures results == ScanTechSections(l, sections, results0)
  {
    results := results0;
    if |sections| == 0 {
      return;
    }
    var text := Join("\n", sections);
    var alreadySeen := SeenKeys(results0, true);
    var names := l.allKnownNames;
    ghost var acc := Emitted(results0, alreadySeen);
    var i := 0;
    while i < |names|
      invariant 0 <= i <= |names|
      invariant Emitted(results, alreadySeen) == EmitAll(acc, MentionedTechs(l, text, names[..i]), true)
    {
      GatherStep(names, i, MentionFn(l, text));
      var knownName := names[i];
      assert MentionFn(l, text)(knownName) == MentionOf(l, text, knownName);
      if Utf16Length(knownName) >= 2 && Mentions(text, knownName) {
        var t := Resolved(l, knownName);
        assert MentionOf(l, text, knownName) == [t];
        EmitAllSnoc(acc, MentionedTechs(l, text, names[..i]), t, true);
        if Lower(t.name) !in alreadySeen {
          results := results + [t];
          alreadySeen := alreadySeen + {Lower(t.name)};
        }
      } else {
        assert MentionOf(l, text, knownName) == [];
        assert MentionedTechs(l, text, names[..i]) + [] == MentionedTechs(l, text, names[..i]);
      }
      i := i + 1;
    }
    assert names[..i] == names;
  }

  method DetectFromReadme(l: Lookups, ex: Extractors, tree: seq<string>, fetch: string -> Option<string>)
    returns (results: seq<Tech>)
    ensures results == ReadmeDetections(l, ex, tree, fetch)
  {
    results := [];
    var readmePath := FindReadme(tree);
    if readmePath.None? {
      return;
    }
    var content := fetch(readmePath.value);
    if content.None? || Utf16Length(content.value) > MaxReadmeLength {
      return;
    }
    results := DetectBadges(l, ex.badgeNames(content.value));
    results := ScanReadmeTechSections(l, ex.techSections(content.value), results);
  }
}
