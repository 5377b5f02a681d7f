/**
 * The signals of the tech-stack detector other than the README: repository
 * languages, dependency manifests found in the file tree, file presence, and
 * repository topics. GitHub reads are parameters: a language list (`None`
 * when the call fails) and a content-by-path function (`None` for a file
 * that cannot be read).
 */
module Detectors {
  import opened Wrappers
  import opened Text
  import opened TechModel
  import opened Emitting
  import opened Extraction
  import opened Mappings
  import opened ManifestParsers

  // ---------------------------------------------------------------- languages

  /** Icon slugs of the languages GitHub reports, looked up ignoring case. */
  const LanguageIcons: seq<(string, string)> := [
    ("C#", "csharp"), ("JavaScript", "javascript"), ("TypeScript", "typescript"),
    ("Python", "python"), ("Java", "java"), ("Go", "go"), ("Rust", "rust"), ("C", "c"),
    ("C++", "cplusplus"), ("Ruby", "ruby"), ("PHP", "php"), ("Swift", "swift"),
    ("Kotlin", "kotlin"), ("Dart", "dart"), ("HTML", "html5"), ("CSS", "css3"),
    ("Shell", "bash"), ("PowerShell", "powershell"), ("Lua", "lua"), ("R", "r"),
    ("Scala", "scala"), ("Objective-C", "objectivec"), ("MATLAB", "matlab"), ("Perl", "perl")
  ]

  /** `LanguageIcons.TryGetValue` with its case-insensitive comparer. */
  function IconOf(icons: seq<(string, string)>, language: string): (r: Option<string>)
    ensures r.None? ==> forall i :: 0 <= i < |icons| ==> !EqualsIgnoreCase(icons[i].0, language)
    ensures r.Some? ==> exists i :: 0 <= i < |icons| && EqualsIgnoreCase(icons[i].0, language) && icons[i].1 == r.value
  {
    if |icons| == 0 then None
    else if EqualsIgnoreCase(icons[0].0, language) then Some(icons[0].1)
    else
      var r := IconOf(icons[1..], language);
      assert forall i :: 1 <= i < |icons| ==> icons[i] == icons[1..][i - 1];
      r
  }

  function LanguageDetections(languages: Option<seq<string>>): seq<Tech> {
    match languages
    case None => []
    case Some(names) => seq(|names|, i requires 0 <= i < |names| => Tech(names[i], Language, IconOf(LanguageIcons, names[i])))
  }

  /** The `foreach` over the reported languages, with the icon table as given. */
  method LanguagesWith(icons: seq<(string, string)>, names: seq<string>) returns (results: seq<Tech>)
    ensures |results| == |names|
    ensures forall i :: 0 <= i < |names| ==> results[i] == Tech(names[i], Language, IconOf(icons, names[i]))
  {
    results := [];
    var i := 0;
    while i < |names|
      invariant 0 <= i <= |names|
      invariant |results| == i
      invariant forall j :: 0 <= j < i ==> results[j] == Tech(names[j], Language, IconOf(icons, names[j]))
    {
      var icon := IconOf(icons, names[i]);
      results := results + [Tech(names[i], Language, icon)];
      i := i + 1;
    }
  }

  /** One `Language` detection per reported language, in the reported order and under
      the reported spelling; none when the languages cannot be read. */
  method DetectFromLanguages(languages: Option<seq<string>>) returns (results: seq<Tech>)
    ensures languages.None? ==> results == []
    ensures languages.Some? ==> |results| == |languages.value|
    ensures languages.Some? ==> forall i :: 0 <= i < |results| ==>
      results[i].name == languages.value[i] && results[i].category == Language
    ensures results == LanguageDetections(languages)
  {
    results := [];
    if languages.None? {
      return;
    }
    results := LanguagesWith(LanguageIcons, languages.value);
  }

  /** The icon table is looked up ignoring case: two spellings of a language
      that differ only in letter case get the same icon, and in particular a
      language gets the icon of its lower-case spelling. */
  lemma {:induction false} LanguageIconsIgnoreCase(icons: seq<(string, string)>, a: string, b: string)
    requires EqualsIgnoreCase(a, b)
    ensures IconOf(icons, a) == IconOf(icons, b)
    ensures IconOf(icons, a) == IconOf(icons, Lower(a))
  {
    LowerIdempotent(a);
    if |icons| > 0 {
      LanguageIconsIgnoreCase(icons[1..], a, b);
    }
  }

  // ---------------------------------------------------------------- dependencies

  /** `f == name || f.EndsWith("/" + name)`. */
  predicate IsManifest(path: string, name: string) {
    path == name || EndsWith(path, "/" + name)
  }

  /** The first path of the tree that is the named manifest. */
  function FirstManifest(tree: seq<string>, name: string): (r: Option<string>)
    ensures r.None? ==> forall i :: 0 <= i < |tree| ==> !IsManifest(tree[i], name)
    ensures r.Some? ==> exists i :: (0 <= i < |tree| && tree[i] == r.value && IsManifest(r.value, name)
      && forall j :: 0 <= j < i ==> !IsManifest(tree[j], name))
  {
    if |tree| == 0 then None
    else if IsManifest(tree[0], name) then Some(tree[0])
    else
      var r := FirstManifest(tree[1..], name);
      assert forall i :: 1 <= i < |tree| ==> tree[i] == tree[1..][i - 1];
      if r.Some? then
        ghost var i :| 0 <= i < |tree[1..]| && tree[1..][i] == r.value && IsManifest(r.value, name)
          && forall j :: 0 <= j < i ==> !IsManifest(tree[1..][j], name);
        assert tree[i + 1] == r.value;
        r
      else r
  }

  /** The content of the named manifest, when the tree has one and it can be read. */
  function ManifestContent(tree: seq<string>, name: string, fetch: string -> Option<string>): Option<string> {
    match FirstManifest(tree, name)
    case None => None
    case Some(path) => fetch(path)
  }

  /** The `.csproj` files of the tree, in tree order (suffix compared ordinally). */
  function CsprojFiles(tree: seq<string>): (r: seq<string>)
    ensures forall i :: 0 <= i < |r| ==> EndsWith(r[i], ".csproj") && r[i] in tree
    decreases |tree|
  {
    if |tree| == 0 then []
    else CsprojFiles(tree[..|tree| - 1]) + (if EndsWith(tree[|tree| - 1], ".csproj") then [tree[|tree| - 1]] else [])
  }

  /** The manifests read once per repository (every `.csproj` is read separately). */
  datatype Manifest = PackageJson | RequirementsTxt | GoMod | PyProjectToml | CargoToml | PomXml {
    function FileName(): string {
      match this
      case PackageJson => "package.json"
      case RequirementsTxt => "requirements.txt"
      case GoMod => "go.mod"
      case PyProjectToml => "pyproject.toml"
      case CargoToml => "Cargo.toml"
      case PomXml => "pom.xml"
    }
  }

  /** What the parser of a manifest detects in its content. */
  function Parsed(t: Tables, ex: Extractors, m: Manifest, content: string): seq<Tech> {
    match m
    case PackageJson =>
      (match ex.parsePackageJson(content) case None => [] case Some(doc) => PackageJsonDetections(t.packageJson, doc))
    case RequirementsTxt => RequirementsDetections(t.requirements, NonEmptyLines(content))
    case GoMod => GoModDetections(t.goMod, ex.goRequireBlocks(content), content)
    case PyProjectToml => PyProjectDetections(t.requirements, ex.pyProjectNames(content))
    case CargoToml => Matching(t.cargoToml, AssignedIn(content))
    case PomXml => PomDetections(t.pomXml, content)
  }

  /** The detections of one manifest: nothing when the tree lacks it or it cannot be read. */
  function ManifestDetections(t: Tables, ex: Extractors, m: Manifest, tree: seq<string>, fetch: string -> Option<string>): seq<Tech> {
    match ManifestContent(tree, m.FileName(), fetch)
    case None => []
    case Some(c) => Parsed(t, ex, m, c)
  }

  /** The detections of the readable `.csproj` files, file after file. */
  function CsprojFilesDetections(csproj: Table, ex: Extractors, files: seq<string>, fetch: string -> Option<string>): seq<Tech>
    decreases |files|
  {
    if |files| == 0 then []
    else
      CsprojFilesDetections(csproj, ex, files[..|files| - 1], fetch)
      + match fetch(files[|files| - 1])
        case None => []
        case Some(c) => CsprojDetections(csproj, ex.packageReferences(c), ex.targetFramework(c))
  }

  /** All dependency detections of one repository, in the order the manifests are read:
      package.json, every .csproj, requirements.txt, go.mod, pyproject.toml, Cargo.toml, pom.xml. */
  function DependencyDetections(t: Tables, ex: Extractors, tree: seq<string>, fetch: string -> Option<string>): seq<Tech> {
    ManifestDetections(t, ex, PackageJson, tree, fetch)
    + CsprojFilesDetections(t.csproj, ex, CsprojFiles(tree), fetch)
    + ManifestDetections(t, ex, RequirementsTxt, tree, fetch)
    + ManifestDetections(t, ex, GoMod, tree, fetch)
    + ManifestDetections(t, ex, PyProjectToml, tree, fetch)
    + ManifestDetections(t, ex, CargoToml, tree, fetch)
    + ManifestDetections(t, ex, PomXml, tree, fetch)
  }

  lemma {:induction false} NoCsprojFiles(csproj: Table, ex: Extractors, files: seq<string>, fetch: string -> Option<string>)
    requires files == []
    ensures CsprojFilesDetections(csproj, ex, files, fetch) == []
  {
  }

  /** A tree without any manifest has no dependency detections, whatever the file contents. */
  lemma NoManifestNoDependencies(t: Tables, ex: Extractors, tree: seq<string>, fetch: string -> Option<string>)
    requires forall f :: f in tree ==> !EndsWith(f, ".csproj")
    requires forall i, m: Manifest :: 0 <= i < |tree| ==> !IsManifest(tree[i], m.FileName())
    ensures DependencyDetections(t, ex, tree, fetch) == []
  {
    NoCsprojFilesIn(tree);
  }

  lemma {:induction false} NoCsprojFilesIn(tree: seq<string>)
    requires forall f :: f in tree ==> !EndsWith(f, ".csproj")
    ensures CsprojFiles(tree) == []
    decreases |tree|
  {
    if |tree| > 0 {
      NoCsprojFilesIn(tree[..|tree| - 1]);
      assert tree[|tree| - 1] in tree;
    }
  }

  method DetectFromCsprojFiles(csproj: Table, ex: Extractors, files: seq<string>, fetch: string -> Option<string>)
    returns (results: seq<Tech>)
    ensures results == CsprojFilesDetections(csproj, ex, files, fetch)
  {
    results := [];
    var i := 0;
    while i < |files|
      invariant 0 <= i <= |files|
      invariant results == CsprojFilesDetections(csproj, ex, files[..i], fetch)
    {
      PrefixStep(files, i);
      var content := fetch(files[i]);
      if content.Some? {
        var found := ParseCsProj(csproj, ex, content.value);
        results := results + found;
      }
      i := i + 1;
    }
    assert files[..i] == files;
  }

  /** Runs the parser of a manifest on its content. */
  method ParseManifest(t: Tables, ex: Extractors, m: Manifest, content: string) returns (results: seq<Tech>)
    ensures results == Parsed(t, ex, m, content)
  {
    match m
    case PackageJson => results := ParsePackageJson(t.packageJson, ex, content);
    case RequirementsTxt => results := ParseRequirementsTxt(t.requirements, content);
    case GoMod => results := ParseGoMod(t.goMod, ex, content);
    case PyProjectToml => results := ParsePyProjectToml(t.requirements, ex, content);
    case CargoToml => results := ParseCargoToml(t.cargoToml, content);
    case PomXml => results := ParsePomXml(t.pomXml, content);
  }

  /** Finds, reads and parses one manifest. */
  method DetectFromManifest(t: Tables, ex: Extractors, m: Manifest, tree: seq<string>, fetch: string -> Option<string>)
    returns (results: seq<Tech>)
    ensures results == ManifestDetections(t, ex, m, tree, fetch)
  {
    results := [];
    var path := FirstManifest(tree, m.FileName());
    if path.Some? {
      var content := fetch(path.value);
      if content.Some? {
        results := ParseManifest(t, ex, m, content.value);
      }
    }
  }

  method DetectFromDependencies(t: Tables, ex: Extractors, tree: seq<string>, fetch: string -> Option<string>)
    returns (results: seq<Tech>)
    ensures results == DependencyDetections(t, ex, tree, fetch)
  {
    results := DetectFromManifest(t, ex, PackageJson, tree, fetch);
    var found := DetectFromCsprojFiles(t.csproj, ex, CsprojFiles(tree), fetch);
    results := results + found;
    found := DetectFromManifest(t, ex, RequirementsTxt, tree, fetch);
    results := results + found;
    found := DetectFromManifest(t, ex, GoMod, tree, fetch);
    results := results + found;
    found := DetectFromManifest(t, ex, PyProjectToml, tree, fetch);
    results := results + found;
    found := DetectFromManifest(t, ex, CargoToml, tree, fetch);
    results := results + found;
    found := DetectFromManifest(t, ex, PomXml, tree, fetch);
    results := results + found;
  }

  // ---------------------------------------------------------------- file presence

  /** File extensions that reveal a technology, checked once per repository. */
  const ExtensionDetections: Table := [
    (".proto", Tech("Protobuf", Tool, Some("protobuf"))),
    (".graphql", Tech("GraphQL", Library, Some("graphql"))),
    (".gql", Tech("GraphQL", Library, Some("graphql"))),
    (".prisma", Tech("Prisma", Library, Some("prisma"))),
    (".ipynb", Tech("Jupyter", Tool, Some("jupyter"))),
    (".bicep", Tech("Bicep", Tool, Some("azure"))),
    (".razor", Tech("Blazor", Framework, Some("blazor"))),
    (".vue", Tech("Vue.js", Framework, Some("vuejs"))),
    (".svelte", Tech("Svelte", Framework, Some("svelte"))),
    (".tsx", Tech("React", Framework, Some("react"))),
    (".jsx", Tech("React", Framework, Some("react")))
  ]

  const GitHubActions := Tech("GitHub Actions", Tool, Some("githubactions"))
  const Kubernetes := Tech("Kubernetes", Tool, Some("kubernetes"))

  predicate IsWorkflowFile(path: string) {
    StartsWithIgnoreCase(path, ".github/workflows/") && EndsWithIgnoreCase(path, ".yml")
  }

  predicate IsKubernetesPath(path: string) {
    StartsWithIgnoreCase(path, "k8s/") || StartsWithIgnoreCase(path, "kubernetes/")
  }

  /** The file name of each path of the tree. */
  function FileNames(files: seq<string>): (r: seq<string>)
    ensures |r| == |files| && forall i :: 0 <= i < |files| ==> r[i] == FileName(files[i])
  {
    seq(|files|, i requires 0 <= i < |files| => FileName(files[i]))
  }

  /** Everything file presence offers, in the order it is offered: the file-name table's
      technology for each path, then the two directory conventions, then the extensions. */
  function FilePresenceCandidates(filePresence: Table, files: seq<string>): seq<Tech> {
    LookedUp(filePresence, FileNames(files)) + DirectoryCandidates(files) + Matching(ExtensionDetections, SuffixOfSome(files))
  }

  /** The two directory conventions: any workflow file, then any Kubernetes path. */
  function DirectoryCandidates(files: seq<string>): seq<Tech> {
    (if exists f :: f in files && IsWorkflowFile(f) then [GitHubActions] else [])
    + (if exists f :: f in files && IsKubernetesPath(f) then [Kubernetes] else [])
  }

  /** The file-presence seen-set compares names ordinally (case-sensitively). */
  function FilePresenceDetections(filePresence: Table, files: seq<string>): seq<Tech> {
    Distinct(FilePresenceCandidates(filePresence, files), false)
  }

  /** No extension stands for GitHub Actions or Kubernetes. */
  lemma ExtensionsNeitherActionsNorKubernetes(files: seq<string>)
    ensures GitHubActions !in Matching(ExtensionDetections, SuffixOfSome(files))
    ensures Kubernetes !in Matching(ExtensionDetections, SuffixOfSome(files))
  {
    MatchingSelects(ExtensionDetections, SuffixOfSome(files), GitHubActions);
    MatchingSelects(ExtensionDetections, SuffixOfSome(files), Kubernetes);
  }

  /** File presence reports each name once. */
  lemma FilePresenceDistinct(filePresence: Table, files: seq<string>)
    ensures var r := FilePresenceDetections(filePresence, files);
      forall i, j :: 0 <= i < j < |r| ==> r[i].name != r[j].name
  {
    DistinctSpec(FilePresenceCandidates(filePresence, files), false);
  }

  /** "GitHub Actions" is reported whenever a workflow file exists, and otherwise only
      when some file name maps to it. */
  lemma GitHubActionsSpec(filePresence: Table, files: seq<string>)
    ensures (exists f :: f in files && IsWorkflowFile(f)) ==>
      exists u :: u in FilePresenceDetections(filePresence, files) && u.name == "GitHub Actions"
    ensures GitHubActions in FilePresenceDetections(filePresence, files) ==>
      (exists f :: f in files && IsWorkflowFile(f))
      || (exists k :: 0 <= k < |files| && Lookup(filePresence, FileName(files[k])) == Some(GitHubActions))
  {
    GitHubActionsReported(filePresence, files);
    GitHubActionsOrigin(filePresence, files);
  }

  lemma GitHubActionsReported(filePresence: Table, files: seq<string>)
    ensures (exists f :: f in files && IsWorkflowFile(f)) ==>
      exists u :: u in FilePresenceDetections(filePresence, files) && u.name == "GitHub Actions"
  {
    if exists f :: f in files && IsWorkflowFile(f) {
      var cands := FilePresenceCandidates(filePresence, files);
      assert GitHubActions in DirectoryCandidates(files);
      assert GitHubActions in cands;
      DistinctCovers(cands, false);
    }
  }

  lemma GitHubActionsOrigin(filePresence: Table, files: seq<string>)
    ensures GitHubActions in FilePresenceDetections(filePresence, files) ==>
      (exists f :: f in files && IsWorkflowFile(f))
      || (exists k :: 0 <= k < |files| && Lookup(filePresence, FileName(files[k])) == Some(GitHubActions))
  {
    if GitHubActions in FilePresenceDetections(filePresence, files) && !exists f :: f in files && IsWorkflowFile(f) {
      DistinctFromInput(FilePresenceCandidates(filePresence, files), false);
      ExtensionsNeitherActionsNorKubernetes(files);
      assert GitHubActions !in DirectoryCandidates(files);
      assert GitHubActions in LookedUp(filePresence, FileNames(files));
      LookedUpSpec(filePresence, FileNames(files), GitHubActions);
      var names := FileNames(files);
      var k :| 0 <= k < |names| && MapsTo(filePresence, names[k], GitHubActions);
      assert names[k] == FileName(files[k]);
    }
  }

  /** "Kubernetes" is reported whenever a path lies under `k8s/` or `kubernetes/`, and
      otherwise only when some file name maps to it. */
  lemma KubernetesSpec(filePresence: Table, files: seq<string>)
    ensures (exists f :: f in files && IsKubernetesPath(f)) ==>
      exists u :: u in FilePresenceDetections(filePresence, files) && u.name == "Kubernetes"
    ensures Kubernetes in FilePresenceDetections(filePresence, files) ==>
      (exists f :: f in files && IsKubernetesPath(f))
      || (exists k :: 0 <= k < |files| && Lookup(filePresence, FileName(files[k])) == Some(Kubernetes))
  {
    KubernetesReported(filePresence, files);
    KubernetesOrigin(filePresence, files);
  }

  lemma KubernetesReported(filePresence: Table, files: seq<string>)
    ensures (exists f :: f in files && IsKubernetesPath(f)) ==>
      exists u :: u in FilePresenceDetections(filePresence, files) && u.name == "Kubernetes"
  {
    if exists f :: f in files && IsKubernetesPath(f) {
      var cands := FilePresenceCandidates(filePresence, files);
      assert Kubernetes in DirectoryCandidates(files);
      assert Kubernetes in cands;
      DistinctCovers(cands, false);
    }
  }

  lemma KubernetesOrigin(filePresence: Table, files: seq<string>)
    ensures Kubernetes in FilePresenceDetections(filePresence, files) ==>
      (exists f :: f in files && IsKubernetesPath(f))
      || (exists k :: 0 <= k < |files| && Lookup(filePresence, FileName(files[k])) == Some(Kubernetes))
  {
    if Kubernetes in FilePresenceDetections(filePresence, files) && !exists f :: f in files && IsKubernetesPath(f) {
      DistinctFromInput(FilePresenceCandidates(filePresence, files), false);
      ExtensionsNeitherActionsNorKubernetes(files);
      assert Kubernetes !in DirectoryCandidates(files);
      assert Kubernetes in LookedUp(filePresence, FileNames(files));
      LookedUpSpec(filePresence, FileNames(files), Kubernetes);
      var names := FileNames(files);
      var k :| 0 <= k < |names| && MapsTo(filePresence, names[k], Kubernetes);
      assert names[k] == FileName(files[k]);
    }
  }

  /** Offers the technology a table gives each key in turn, as `EmitAll` does. */
  method EmitLookedUp(table: Table, keys: seq<string>, ignoreCase: bool, results0: seq<Tech>, seen0: set<string>)
    returns (results: seq<Tech>, seen: set<string>)
    ensures Emitted(results, seen) == EmitAll(Emitted(results0, seen0), LookedUp(table, keys), ignoreCase)
  {
    results, seen := results0, seen0;
    var i := 0;
    while i < |keys|
      invariant 0 <= i <= |keys|
      invariant Emitted(results, seen) == EmitAll(Emitted(results0, seen0), LookedUp(table, keys[..i]), ignoreCase)
    {
      LookedUpStep(table, keys, i);
      var mapping := Lookup(table, keys[i]);
      if mapping.Some? {
        EmitAllSnoc(Emitted(results0, seen0), LookedUp(table, keys[..i]), mapping.value, ignoreCase);
        var key := SeenKey(mapping.value.name, ignoreCase);
        if key !in seen {
          seen := seen + {key};
          results := results + [mapping.value];
        }
      } else {
        assert LookedUp(table, keys[..i]) + [] == LookedUp(table, keys[..i]);
      }
      i := i + 1;
    }
    assert keys[..i] == keys;
  }

  /** `if (cond && seen.Add(t.Name)) results.Add(t)`. */
  method OfferIf(cond: bool, t: Tech, results0: seq<Tech>, seen0: set<string>)
    returns (results: seq<Tech>, seen: set<string>)
    ensures Emitted(results, seen) == EmitAll(Emitted(results0, seen0), if cond then [t] else [], false)
  {
    results, seen := results0, seen0;
    if cond {
      EmitAllSnoc(Emitted(results0, seen0), [], t, false);
      assert [] + [t] == [t];
      if t.name !in seen {
        seen := seen + {t.name};
        results := results + [t];
      }
    }
  }

  /** Offers "GitHub Actions" when a workflow file exists, then "Kubernetes" when a
      path lies under a Kubernetes directory. */
  method EmitDirectoryConventions(files: seq<string>, results0: seq<Tech>, seen0: set<string>)
    returns (results: seq<Tech>, seen: set<string>)
    ensures Emitted(results, seen) == EmitAll(Emitted(results0, seen0), DirectoryCandidates(files), false)
  {
    var hasWorkflow := exists f :: f in files && IsWorkflowFile(f);
    var hasKubernetes := exists f :: f in files && IsKubernetesPath(f);
    EmitAllAppend(Emitted(results0, seen0), if hasWorkflow then [GitHubActions] else [],
                  if hasKubernetes then [Kubernetes] else [], false);
    results, seen := OfferIf(hasWorkflow, GitHubActions, results0, seen0);
    results, seen := OfferIf(hasKubernetes, Kubernetes, results, seen);
  }

  method DetectFromFilePresence(filePresence: Table, files: seq<string>) returns (results: seq<Tech>)
    ensures results == FilePresenceDetections(filePresence, files)
  {
    var seen: set<string>;
    var names := LookedUp(filePresence, FileNames(files));
    var dirs := DirectoryCandidates(files);
    var exts := Matching(ExtensionDetections, SuffixOfSome(files));
    results, seen := EmitLookedUp(filePresence, FileNames(files), false, [], {});
    results, seen := EmitDirectoryConventions(files, results, seen);
    EmitAllAppend(NothingEmitted, names, dirs, false);
    results, seen := EmitMatching(ExtensionDetections, SuffixOfSome(files), false, results, seen);
    EmitAllAppend(NothingEmitted, names + dirs, exts, false);
  }

  // ---------------------------------------------------------------- topics

  /** Each topic as it is looked up: trimmed and lower-cased. */
  function TopicKeys(topics: seq<string>): (r: seq<string>)
    ensures |r| == |topics| && forall i :: 0 <= i < |topics| ==> r[i] == Lower(Trim(topics[i]))
  {
    seq(|topics|, i requires 0 <= i < |topics| => Lower(Trim(topics[i])))
  }

  /** Topic detection; a missing or empty topic list detects nothing, and the seen-set ignores case. */
  function TopicDetections(topicMappings: Table, topics: Option<seq<string>>): seq<Tech> {
    match topics
    case None => []
    case Some(ts) => if |ts| == 0 then [] else Distinct(LookedUp(topicMappings, TopicKeys(ts)), true)
  }

  /** Topics report each name once, ignoring case. */
  lemma TopicsDistinct(topicMappings: Table, topics: seq<string>)
    ensures var r := TopicDetections(topicMappings, Some(topics));
      forall i, j :: 0 <= i < j < |r| ==> Lower(r[i].name) != Lower(r[j].name)
  {
    DistinctSpec(LookedUp(topicMappings, TopicKeys(topics)), true);
  }

  /** Every topic report is the table entry of a trimmed, lower-cased topic. */
  lemma TopicsFromTable(topicMappings: Table, topics: seq<string>, t: Tech)
    requires t in TopicDetections(topicMappings, Some(topics))
    ensures exists k :: 0 <= k < |topics| && Lookup(topicMappings, Lower(Trim(topics[k]))) == Some(t)
  {
    var keys := TopicKeys(topics);
    DistinctSpec(LookedUp(topicMappings, keys), true);
    LookedUpSpec(topicMappings, keys, t);
    var k :| 0 <= k < |keys| && MapsTo(topicMappings, keys[k], t);
    assert keys[k] == Lower(Trim(topics[k]));
  }

  /** Every topic that is a key of the table has its technology's name reported. */
  lemma TopicsCovered(topicMappings: Table, topics: seq<string>, k: int)
    requires 0 <= k < |topics| && Lookup(topicMappings, Lower(Trim(topics[k]))).Some?
    ensures exists u :: (u in TopicDetections(topicMappings, Some(topics))
      && Lower(u.name) == Lower(Lookup(topicMappings, Lower(Trim(topics[k]))).value.name))
  {
    var keys := TopicKeys(topics);
    var cands := LookedUp(topicMappings, keys);
    LookedUpCovers(topicMappings, keys, k);
    DistinctCovers(cands, true);
    assert TopicDetections(topicMappings, Some(topics)) == Distinct(cands, true);
  }

  method DetectFromTopics(topicMappings: Table, topics: Option<seq<string>>) returns (results: seq<Tech>)
    ensures results == TopicDetections(topicMappings, topics)
  {
    results := [];
    if topics.None? || |topics.value| == 0 {
      return;
    }
    var seen: set<string>;
    results, seen := EmitLookedUp(topicMappings, TopicKeys(topics.value), true, [], {});
  }
}
