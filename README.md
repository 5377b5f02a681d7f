# Profily core, modelled in Dafny

Profily builds GitHub profile READMEs. This project models and proves properties of its core.

- **Tech-stack detector.** It picks a user's repositories and runs five detectors over each one:
  - languages;
  - dependency manifests (`package.json`, `.csproj`, `requirements.txt`, `go.mod`, `Cargo.toml`, `pom.xml`, `pyproject.toml`);
  - file presence (file names, workflow and Kubernetes directories, extensions);
  - the README (badges and tech-stack sections);
  - repository topics.

  It then groups the detections case-insensitively, resolves each group's category, ranks the groups and caps them at 200. The profile it builds is served through a three-tier read path: a memory cache for 6 hours, a stored profile for 24 hours, otherwise a fresh analysis. A forced refresh evicts the cache first.
- **Mapping tables.** Eight lookup tables are loaded once. From them the model derives three indexes used for README matching: the known names, the canonical spellings, and the technology behind each canonical name.
- **Document models.** Templates, sections, section styles, profile configurations, deploy records, tech-stack profiles and the categorized tech stack. Each has its factories, defaults and declared validation constraints.
- **Seeders.** Sections, section styles and templates are seeded by an insert-if-absent loop. The seed data's referential integrity is proved: template → style → section.
- **Services.** The template service and profile service list, filter, order and store documents. The README generator assembles the profile from the enabled sections.
- **Smaller pieces.** The open-redirect guard of the login endpoint, and the per-request wide-event log record.

The model takes the form of the source:
- Pure LINQ pipelines and factories become functions with lemmas.
- Loops that fill lists and seen-sets become methods with loop invariants, each proved equal to a specification function.
- Objects that change state become classes:
  - the analyzer with its cache and store;
  - the mapping tables with their derived indexes;
  - the document container;
  - the seeders;
  - the profile service;
  - the wide event.

Outside services enter as parameters:
- GitHub is a value of functions. For the repository list, the language lists and the file trees, `None` stands for a call that throws. For a file's content, `None` is the service's documented null: the file is missing or larger than 1 MB.
- The document store is a map from (id, partition key) to document.
- The clock is an integer number of seconds.
- Identifiers, time stamps and template rendering are passed in.
- The regular expressions and the JSON parser whose matching is not re-implemented are an `Extractors` value of functions.

## Model

| member | source | states |
|---|---|---|
| Documents.DocumentId | src/Profily.Core/Models/CosmosDocument.cs:13-19 | an id is the document type, a `-`, then the key, and both parts can be read back from it |
| Documents.DocumentIdInjective | src/Profily.Core/Models/CosmosDocument.cs:13-19 | for one document type, equal ids mean equal keys |
| Documents.Container.Get | src/Profily.Infrastructure/Data/CosmosDocumentRepository.cs:41-58 | a read returns the stored document, and null exactly when none is stored under that id and partition |
| Documents.Container.Upsert | src/Profily.Infrastructure/Data/CosmosDocumentRepository.cs:99-115 | an upsert inserts or replaces that one document; a read of it then returns it |
| Documents.Container.Delete | src/Profily.Infrastructure/Data/CosmosDocumentRepository.cs:117-135 | a delete removes that one document; deleting a missing one is not an error |
| Validation.SlugRunMeaning | src/Profily.Core/Models/Profile/ProfileTemplate.cs:18-19 | each state of the slug matcher means: nothing read, a run of lowercase letters and digits ends the text, or a `-` ends it |
| Validation.SlugPatternIff | src/Profily.Core/Models/Profile/ProfileTemplate.cs:18-19 | the matcher accepts exactly the strings of lowercase letters and digits joined by single hyphens |
| Validation.SlugHasNoStrayDash | src/Profily.Core/Models/Profile/ProfileTemplate.cs:18-19 | a matching slug never starts or ends with `-` and never holds two in a row |
| Validation.SlugByChars | src/Profily.Core/Models/Profile/ProfileTemplate.cs:16-19 | a string of 3 to 50 characters that passes the front-to-back character check is a valid slug |
| ProfileTemplates.SectionEntry | src/Profily.Core/Models/Profile/ProfileTemplate.cs:152-174 | a section entry written without `Enabled` is enabled and keeps its section id, style id and order |
| ProfileTemplates.CreateOfficial | src/Profily.Core/Models/Profile/ProfileTemplate.cs:69-90 | an official template has id `template-{slug}`, partition `system`, is official, active, created by `admin`, unused, without description, icon or preview |
| ProfileTemplates.CreateOfficialValid | src/Profily.Core/Models/Profile/ProfileTemplate.cs:14-56 | an official template built from a valid slug, a non-blank display name of 3 to 100 characters, a valid theme and a non-empty list of valid entries meets every declared constraint, `[Required]` (not blank) and `[Url]` included |
| ProfileTemplates.OfficialIdsDistinct | src/Profily.Core/Models/Profile/ProfileTemplate.cs:81 | official templates with different slugs have different ids |
| Sections.CreateSystemSection | src/Profily.Core/Models/Profile/Section.cs:59-87 | a system section has id `section-{slug}`, partition `system`, sort order 0, no required data fields and is active |
| Sections.CreateSystemSectionValid | src/Profily.Core/Models/Profile/Section.cs:22-62 | a system section built from a valid slug and a non-blank display name of 3 to 100 characters meets every declared constraint, `[Required]` (not blank) included |
| SectionStyles.CreateSystem | src/Profily.Core/Models/Profile/SectionStyle.cs:65-94 | a system style has id `sectionStyle-{section}-{style}`, section id `section-{section}`, partition `system`, no workflows or assets, and is active |
| SectionStyles.CreateSystemPointsAtSection | src/Profily.Core/Models/Profile/SectionStyle.cs:88-90 | the section id of a system style is the id of the system section made from the same slug |
| SectionStyles.CreateSystemIdsOfSections | src/Profily.Core/Models/Profile/SectionStyle.cs:88 | styles of two different sections whose slugs have no `-` never share an id |
| DeployHistories.Successful | src/Profily.Core/Models/Profile/DeployHistory.cs:90-96 | a successful result carries the commit, repository URL and deployed files, and no error |
| DeployHistories.Failed | src/Profily.Core/Models/Profile/DeployHistory.cs:98-102 | a failed result carries the error message and no commit, URL or file list |
| DeployHistories.DeployId | src/Profily.Core/Models/Profile/DeployHistory.cs:47 | a deploy id is `deployHistory-{userId}-` followed by the time stamp, a `-` and the guid digits, which end it |
| DeployHistories.Create | src/Profily.Core/Models/Profile/DeployHistory.cs:45-52 | a deploy record lives in the user's partition, snapshots the configuration, copies its template id and keeps the result |
| DeployHistories.DeployIdsDistinct | src/Profily.Core/Models/Profile/DeployHistory.cs:47 | two records of one user made in the same second have different ids when their guids differ |
| ProfileConfigs.ConfigId | src/Profily.Core/Models/Profile/ProfileConfig.cs:90-100 | a configuration id is `profileConfig-` followed by the user id |
| ProfileConfigs.ConfigIdInjective | src/Profily.Core/Models/Profile/ProfileConfig.cs:90-100 | different users have different configuration ids |
| ProfileConfigs.CreateForUser | src/Profily.Core/Models/Profile/ProfileConfig.cs:65-96 | a new configuration points at the template, copies its theme and its sections one by one, is a draft, never deployed, with empty content and default preferences |
| ProfileConfigs.CreateEmpty | src/Profily.Core/Models/Profile/ProfileConfig.cs:98-105 | an empty configuration has no template id, no sections, the given theme, and is a draft never deployed |
| ProfileConfigs.NewContentValid | src/Profily.Core/Models/Profile/ProfileConfig.cs:112-124 | the empty content of a new configuration is within every length limit |
| GeneratedProfiles.TotalFileCount | src/Profily.Core/Models/Profile/DTOs/GeneratedProfile.cs:29 | the file count is the README plus every workflow and asset, so at least 1 |
| GeneratedProfiles.ReadmeOnly | src/Profily.Core/Models/Profile/DTOs/GeneratedProfile.cs:12-29 | a profile with the default empty lists counts exactly one file |
| TechStackProfiles.ProfileId | src/Profily.Core/Models/TechStack/TechStackProfile.cs:38 | a profile id is `techStackProfile-` followed by the user id |
| TechStackProfiles.ProfileIdInjective | src/Profily.Core/Models/TechStack/TechStackProfile.cs:38 | different users have different profile documents |
| TechStackProfiles.CreateForUser | src/Profily.Core/Models/TechStack/TechStackProfile.cs:11-41 | a new profile is the user's document, in the user's partition, stamped now, with empty categories, empty signal summary, no analysed repositories and type `techStackProfile` |
| Categorized.OfCategory | src/Profily.Core/Models/TechStack/CategorizedTechStack.cs:34 | a lookup group is no longer than the input and holds only technologies of its category |
| Categorized.Positions | src/Profily.Core/Models/TechStack/CategorizedTechStack.cs:34 | the positions of one category are increasing and are exactly the input positions of that category |
| Categorized.FromFlat | src/Profily.Core/Models/TechStack/CategorizedTechStack.cs:32-45 | each of the six lists is the lookup group of its category, and the list sizes add up to the input length |
| Categorized.BucketSizesSum | src/Profily.Core/Models/TechStack/CategorizedTechStack.cs:38-43 | the six categories are exhaustive: the group sizes add up to the input length |
| Categorized.OfCategoryCounts | src/Profily.Core/Models/TechStack/CategorizedTechStack.cs:34-43 | a group holds each technology of its category as often as the input does, and nothing else |
| Categorized.OfCategoryInOrder | src/Profily.Core/Models/TechStack/CategorizedTechStack.cs:34-43 | a group keeps input order: its k-th element is the input element at the k-th position of that category |
| Categorized.FromFlatBuckets | src/Profily.Core/Models/TechStack/CategorizedTechStack.cs:32-45 | a technology is in a list exactly when it is in the input with that category, and as often |
| Categorized.FromFlatEmpty | src/Profily.Core/Models/TechStack/CategorizedTechStack.cs:11-45 | an empty input gives six empty lists |
| Mappings.FromRaw | src/Profily.Infrastructure/Services/FrameworkMappings.cs:72-82 | every table present in the loaded file is taken over as it is |
| Mappings.AbsentTablesAreEmpty | src/Profily.Infrastructure/Services/FrameworkMappings.cs:74-81 | a table the file leaves out becomes an empty table, never a missing one |
| Mappings.AddAllOnlyAdds | src/Profily.Infrastructure/Services/FrameworkMappings.cs:51-57 | building the indexes only adds: every name and entry present before stays, with its value |
| Mappings.AddAllKnowsAll | src/Profily.Infrastructure/Services/FrameworkMappings.cs:51-57 | after building, the lower-cased name of every visited mapping is known, has a canonical spelling and a technology |
| Mappings.AddAllKnowsOnly | src/Profily.Infrastructure/Services/FrameworkMappings.cs:51-54 | a known name was known before or is the lower-cased name of a visited mapping |
| Mappings.AddMappingConsistent | src/Profily.Infrastructure/Services/FrameworkMappings.cs:53-56 | adding one mapping keeps the indexes consistent |
| Mappings.AddAllConsistent | src/Profily.Infrastructure/Services/FrameworkMappings.cs:51-57 | adding all mappings to consistent indexes keeps them consistent |
| Mappings.BuildConsistent | src/Profily.Infrastructure/Services/FrameworkMappings.cs:40-58 | every known name has a canonical spelling, and that spelling has a technology carrying it |
| Mappings.AddAllFirstWins | src/Profily.Infrastructure/Services/FrameworkMappings.cs:42-56 | the first mapping with a lower-cased name decides its canonical spelling and technology; later ones never overwrite them |
| Mappings.AbsentUntilVisited | src/Profily.Infrastructure/Services/FrameworkMappings.cs:55-56 | a name no visited mapping has gets no canonical spelling and no technology |
| Mappings.AddAllPresent | src/Profily.Infrastructure/Services/FrameworkMappings.cs:54-56 | visiting mappings whose names are all present already changes nothing |
| Mappings.AddAllIdempotent | src/Profily.Infrastructure/Services/FrameworkMappings.cs:40-58 | building the indexes a second time from the same tables changes nothing |
| Mappings.Normalize | src/Profily.Infrastructure/Services/TechStackAnalyzer.cs:774-775 | a name with a canonical spelling normalizes to it; any other name stays as it is |
| Mappings.TechInfo | src/Profily.Infrastructure/Services/FrameworkMappings.cs:38 | a technology is found exactly when the case-insensitive name has an entry, and it is that entry |
| Mappings.KnownNameResolves | src/Profily.Infrastructure/Services/FrameworkMappings.cs:51-57 | a known name's canonical spelling has a technology with that spelling, equal to the name ignoring case |
| Mappings.FrameworkMappings.constructor | src/Profily.Infrastructure/Services/FrameworkMappings.cs:15-38 | a new object holds the given tables and empty indexes |
| Mappings.FrameworkMappings.BuildLookups | src/Profily.Infrastructure/Services/FrameworkMappings.cs:40-58 | the loop leaves the eight tables alone and ends with the indexes of visiting every mapping in table order |
| Mappings.FrameworkMappings.AddToIndexes | src/Profily.Infrastructure/Services/FrameworkMappings.cs:51-57 | one visited mapping adds its lower-cased name to the known names, and its spelling and technology under that key, only where the key is still absent; nothing else changes |
| Mappings.FrameworkMappings.LoadFromEmbeddedResource | src/Profily.Infrastructure/Services/FrameworkMappings.cs:60-86 | a file that does not deserialize is an error; otherwise the new object holds the defaulted tables and their built indexes |
| ManifestParsers.NamePart | src/Profily.Infrastructure/Services/TechStackAnalyzer.cs:411-412 | the name part is a prefix of the trimmed line holding none of `= > < ! ; space [` |
| ManifestParsers.RequirementNameSpec | src/Profily.Infrastructure/Services/TechStackAnalyzer.cs:399-417 | blank, `#`, `-r` and `--` lines name no package; a named package is the lower-cased, trimmed part before the first name-ending character, non-empty and not starting with `-` |
| ManifestParsers.RequirementsDetectionsFromLines | src/Profily.Infrastructure/Services/TechStackAnalyzer.cs:396-422 | every requirements.txt detection is the table entry of the package some line names |
| ManifestParsers.ParseRequirementsTxt | src/Profily.Infrastructure/Services/TechStackAnalyzer.cs:390-431 | the loop over the non-empty lines yields, in line order, the table entry of each named package found in the table |
| ManifestParsers.ScriptHintsSpec | src/Profily.Infrastructure/Services/TechStackAnalyzer.cs:461-492 | a script hint is reported exactly when its pattern occurs in the space-joined script values, ignoring case |
| ManifestParsers.PackageNames | src/Profily.Infrastructure/Services/TechStackAnalyzer.cs:450-457 | the loop over one dependency section yields the table entry of each lower-cased package name, in order |
| ManifestParsers.SelectMatching | src/Profily.Infrastructure/Services/TechStackAnalyzer.cs:464-470 | the loop over a table yields, in table order, the technology of every key the rule accepts |
| ManifestParsers.ParsePackageJson | src/Profily.Infrastructure/Services/TechStackAnalyzer.cs:433-478 | an unparsable file yields nothing; otherwise the dependencies, then the dev dependencies, then the script hints |
| ManifestParsers.CsprojCandidatesSpec | src/Profily.Infrastructure/Services/TechStackAnalyzer.cs:503-513 | a technology is a candidate exactly when its key prefixes some package id, ignoring case |
| ManifestParsers.CsprojSpec | src/Profily.Infrastructure/Services/TechStackAnalyzer.cs:494-536 | a .csproj reports each name once ignoring case; each report comes from a key prefixing a package id, or is `.NET` for a `net*` target that is neither `netstandard*` nor `netcoreapp*`; every such name is reported |
| ManifestParsers.CsprojReportsEntries | src/Profily.Infrastructure/Services/TechStackAnalyzer.cs:506-526 | every .csproj report is an entry whose key prefixes a package id, or `.NET` for a modern target framework |
| ManifestParsers.CsprojReportsAll | src/Profily.Infrastructure/Services/TechStackAnalyzer.cs:506-526 | every entry whose key prefixes a package id, and `.NET` for a modern target framework, is reported under its name |
| ManifestParsers.EmitMatching | src/Profily.Infrastructure/Services/TechStackAnalyzer.cs:506-512 | the loop offers the accepted entries of a table in order to the seen-set, adding each name not yet seen |
| ManifestParsers.ParseCsProj | src/Profily.Infrastructure/Services/TechStackAnalyzer.cs:494-536 | the nested loops and the target-framework check yield the deduplicated candidates, with `.NET` last |
| ManifestParsers.SingleRequires | src/Profily.Infrastructure/Services/TechStackAnalyzer.cs:366-368 | the single-line requires are lines that start with `require ` after indentation and hold no `(` |
| ManifestParsers.GoModSpec | src/Profily.Infrastructure/Services/TechStackAnalyzer.cs:362-377 | a go.mod entry is reported exactly when its key occurs, ignoring case, in the require blocks or single-line requires; at most one report per entry |
| ManifestParsers.ParseGoMod | src/Profily.Infrastructure/Services/TechStackAnalyzer.cs:355-385 | the line loop and the table loop yield the go.mod detections of the require text |
| ManifestParsers.PyProjectSpec | src/Profily.Infrastructure/Services/TechStackAnalyzer.cs:557-565 | every pyproject detection is the requirements entry of a trimmed, lower-cased captured name |
| ManifestParsers.PyProjectReportsAll | src/Profily.Infrastructure/Services/TechStackAnalyzer.cs:557-565 | every captured name whose trimmed, lower-cased form has a requirements entry is detected as that entry |
| ManifestParsers.ParsePyProjectToml | src/Profily.Infrastructure/Services/TechStackAnalyzer.cs:550-573 | the loop over the captured names yields the requirements entry of each one found, in order |
| ManifestParsers.CargoSpec | src/Profily.Infrastructure/Services/TechStackAnalyzer.cs:587-594 | a crate is reported exactly when some line assigns its key, ignoring case; nothing is deduplicated |
| ManifestParsers.ParseCargoToml | src/Profily.Infrastructure/Services/TechStackAnalyzer.cs:581-602 | the loop over the table yields the crates some line assigns, in table order |
| ManifestParsers.PomSpec | src/Profily.Infrastructure/Services/TechStackAnalyzer.cs:607-629 | a pom.xml reports each name once ignoring case, only entries whose key occurs in the file ignoring case, and the name of every such entry |
| ManifestParsers.ParsePomXml | src/Profily.Infrastructure/Services/TechStackAnalyzer.cs:607-629 | the loop yields the deduplicated entries whose key occurs in the file |
| Emitting.MatchingSelects | src/Profily.Infrastructure/Services/TechStackAnalyzer.cs:587-594 | a technology is selected from a table exactly when some entry with an accepted key stands for it |
| Emitting.EmitAllTracks | src/Profily.Infrastructure/Services/TechStackAnalyzer.cs:509 | the `seen.Add` guard keeps the emitted names unique and the seen-set equal to their keys |
| Emitting.EmitAllExtends | src/Profily.Infrastructure/Services/TechStackAnalyzer.cs:509 | the guard only appends offered technologies, keeps what was emitted, and marks every offered name as seen |
| Emitting.DistinctSpec | src/Profily.Infrastructure/Services/TechStackAnalyzer.cs:509 | guarded emission lets every offered name through exactly once, and only offered technologies |
| Emitting.DistinctKeepsFirst | src/Profily.Infrastructure/Services/TechStackAnalyzer.cs:509 | each technology let through is the first one offered under its name |
| Detectors.IconOf | src/Profily.Infrastructure/Services/TechStackAnalyzer.cs:27-53 | a language has an icon exactly when the icon table names it ignoring case, and the icon is that entry's |
| Detectors.DetectFromLanguages | src/Profily.Infrastructure/Services/TechStackAnalyzer.cs:233-256 | one `Language` detection per reported language, in order and under the reported name; none when the languages cannot be read |
| Detectors.LanguageIconsIgnoreCase | src/Profily.Infrastructure/Services/TechStackAnalyzer.cs:27-30 | the icon table is looked up ignoring case: for any table, spellings that differ only in letter case get the same icon, which is the icon of the lower-case spelling |
| Detectors.FirstManifest | src/Profily.Infrastructure/Services/TechStackAnalyzer.cs:268-270 | the manifest read is the first path that is the file itself or ends with `/` and its name; none when no path is |
| Detectors.CsprojFiles | src/Profily.Infrastructure/Services/TechStackAnalyzer.cs:280 | the project files read are paths of the tree ending with `.csproj` |
| Detectors.NoManifestNoDependencies | src/Profily.Infrastructure/Services/TechStackAnalyzer.cs:258-353 | a tree without any manifest has no dependency detections, whatever the file contents |
| Detectors.DetectFromCsprojFiles | src/Profily.Infrastructure/Services/TechStackAnalyzer.cs:280-288 | the loop parses every readable project file, in tree order |
| Detectors.ParseManifest | src/Profily.Infrastructure/Services/TechStackAnalyzer.cs:275-348 | each manifest's content goes to its own parser |
| Detectors.DetectFromManifest | src/Profily.Infrastructure/Services/TechStackAnalyzer.cs:268-277 | a manifest that is absent or unreadable adds nothing; otherwise its parse is added |
| Detectors.DetectFromDependencies | src/Profily.Infrastructure/Services/TechStackAnalyzer.cs:258-353 | the dependency detections of package.json, every .csproj, requirements.txt, go.mod, pyproject.toml, Cargo.toml and pom.xml, in that order |
| Detectors.ExtensionsNeitherActionsNorKubernetes | src/Profily.Infrastructure/Services/TechStackAnalyzer.cs:703-716 | no file extension stands for GitHub Actions or Kubernetes |
| Detectors.FilePresenceDistinct | src/Profily.Infrastructure/Services/TechStackAnalyzer.cs:635-673 | file presence reports each name at most once |
| Detectors.GitHubActionsSpec | src/Profily.Infrastructure/Services/TechStackAnalyzer.cs:646-653 | "GitHub Actions" is reported whenever some path starts with `.github/workflows/` and ends with `.yml`, and otherwise only when a file name maps to it |
| Detectors.KubernetesSpec | src/Profily.Infrastructure/Services/TechStackAnalyzer.cs:655-662 | "Kubernetes" is reported whenever some path starts with `k8s/` or `kubernetes/`, and otherwise only when a file name maps to it |
| Detectors.EmitLookedUp | src/Profily.Infrastructure/Services/TechStackAnalyzer.cs:637-644 | the loop offers the table's technology for each key to the seen-set, in key order |
| Detectors.EmitDirectoryConventions | src/Profily.Infrastructure/Services/TechStackAnalyzer.cs:646-662 | "GitHub Actions" is offered when a workflow file exists, then "Kubernetes" when a Kubernetes path exists |
| Detectors.DetectFromFilePresence | src/Profily.Infrastructure/Services/TechStackAnalyzer.cs:632-674 | the loops yield, without repeated names, the file-name matches, the two directory conventions, then the extension matches |
| Detectors.TopicKeys | src/Profily.Infrastructure/Services/TechStackAnalyzer.cs:689 | each topic is looked up trimmed and lower-cased |
| Detectors.TopicsDistinct | src/Profily.Infrastructure/Services/TechStackAnalyzer.cs:686-694 | topics report each name once, ignoring case |
| Detectors.TopicsFromTable | src/Profily.Infrastructure/Services/TechStackAnalyzer.cs:687-694 | every topic report is the table entry of a trimmed, lower-cased topic |
| Detectors.TopicsCovered | src/Profily.Infrastructure/Services/TechStackAnalyzer.cs:687-694 | every topic that is a key of the table has its technology's name reported |
| Detectors.DetectFromTopics | src/Profily.Infrastructure/Services/TechStackAnalyzer.cs:681-697 | a missing or empty topic list detects nothing; otherwise the deduplicated table entries of the topics, in order |
| ReadmeDetector.FindReadme | src/Profily.Infrastructure/Services/TechStackAnalyzer.cs:728 | the README read is the first path equal to `README.md` ignoring case; none when no path is |
| ReadmeDetector.Resolved | src/Profily.Infrastructure/Services/TechStackAnalyzer.cs:749-759 | a name resolves to its canonical spelling, with category `Other` and no icon when the indexes have no technology for it |
| ReadmeDetector.KnownNamesAreLower | src/Profily.Infrastructure/Services/FrameworkMappings.cs:53-54 | every known name is lower case and known |
| ReadmeDetector.ResolvedKnown | src/Profily.Infrastructure/Services/TechStackAnalyzer.cs:747-755 | a known name resolves to exactly the technology indexed under it, so the `Other` fallback is never taken for it |
| ReadmeDetector.BadgeNameHasNoUnderscore | src/Profily.Infrastructure/Services/TechStackAnalyzer.cs:745 | a badge name holds no `_` once `%20` and `_` are read as spaces |
| ReadmeDetector.BadgeDetectionsSpec | src/Profily.Infrastructure/Services/TechStackAnalyzer.cs:742-761 | a badge detection is the indexed technology of a known badge name, and every known badge name is detected |
| ReadmeDetector.BadgeDetectionFromName | src/Profily.Infrastructure/Services/TechStackAnalyzer.cs:743-760 | every badge detection is the resolution of a known badge name |
| ReadmeDetector.KnownBadgeDetected | src/Profily.Infrastructure/Services/TechStackAnalyzer.cs:743-760 | every known badge name is detected under its resolution |
| ReadmeDetector.ScanTechSectionsSpec | src/Profily.Infrastructure/Services/TechStackAnalyzer.cs:793-822 | the section scan keeps the badge detections first; each later entry's name differs ignoring case from every earlier one, is the resolution of a known name of two or more UTF-16 code units the sections mention as a whole word, and every such name is among the results |
| ReadmeDetector.ScanFromMentions | src/Profily.Infrastructure/Services/TechStackAnalyzer.cs:801-820 | every technology the scan adds resolves a known name of two or more UTF-16 code units the sections mention |
| ReadmeDetector.ScanCoversMentions | src/Profily.Infrastructure/Services/TechStackAnalyzer.cs:799-820 | every known name of two or more UTF-16 code units the sections mention has its canonical name among the results |
| Text.Utf16Length | src/Profily.Infrastructure/Services/TechStackAnalyzer.cs:736 | `string.Length` counts UTF-16 code units: at least one and at most two per character, exactly one per character for text inside the basic multilingual plane |
| Text.Utf16LengthAstral | src/Profily.Infrastructure/Services/TechStackAnalyzer.cs:736 | text made only of characters beyond the basic multilingual plane is twice as long in code units as in characters |
| ReadmeDetector.LongReadmeIgnored | src/Profily.Infrastructure/Services/TechStackAnalyzer.cs:728-739 | a README that is absent, unreadable or longer than 50000 UTF-16 code units contributes nothing |
| ReadmeDetector.DetectBadges | src/Profily.Infrastructure/Services/TechStackAnalyzer.cs:742-761 | the badge loop yields the badge detections, in badge order, repeats kept |
| ReadmeDetector.ScanReadmeTechSections | src/Profily.Infrastructure/Services/TechStackAnalyzer.cs:793-822 | the loop over the known names appends the section-scan results to the list it is given |
| ReadmeDetector.DetectFromReadme | src/Profily.Infrastructure/Services/TechStackAnalyzer.cs:719-767 | the README signal: badges, then the section scan, for a readable README of at most 50000 UTF-16 code units |
| Aggregation.Members | src/Profily.Infrastructure/Services/TechStackAnalyzer.cs:828-835 | a group holds only detections whose name equals the key ignoring case |
| Aggregation.MemberOfOwnGroup | src/Profily.Infrastructure/Services/TechStackAnalyzer.cs:828-829 | a detection belongs to the group of its own name |
| Aggregation.CategoryCountBounds | src/Profily.Infrastructure/Services/TechStackAnalyzer.cs:839-841 | a category count never exceeds the group size, and a category that occurs is counted |
| Aggregation.PickCategorySpec | src/Profily.Infrastructure/Services/TechStackAnalyzer.cs:838-842 | the pick is one of the categories, none outranks it, and every category seen before it ranks strictly lower (stable ordering) |
| Aggregation.Categories | src/Profily.Infrastructure/Services/TechStackAnalyzer.cs:839 | the categories of a group, in detection order |
| Aggregation.ResolveCategorySpec | src/Profily.Infrastructure/Services/TechStackAnalyzer.cs:837-842 | the resolved category occurs in the group; it is `Other` only when every detection is; otherwise no non-`Other` category is more frequent, and each category seen before it is `Other` or strictly less frequent |
| Aggregation.FirstIcon | src/Profily.Infrastructure/Services/TechStackAnalyzer.cs:844 | the icon is that of the first detection with one, and none only when no detection has one |
| Aggregation.Summaries | src/Profily.Infrastructure/Services/TechStackAnalyzer.cs:833-852 | one entry per first detection, in that order |
| Aggregation.SummariesEntry | src/Profily.Infrastructure/Services/TechStackAnalyzer.cs:846-851 | each entry summarizes the group of its first detection and carries that detection's spelling |
| Aggregation.Grouped | src/Profily.Infrastructure/Services/TechStackAnalyzer.cs:828-852 | one entry per case-insensitive name, in order of first detection |
| Aggregation.GroupedEntry | src/Profily.Infrastructure/Services/TechStackAnalyzer.cs:833-851 | each group entry summarizes the group of a first detection and carries its spelling |
| Aggregation.ByFrequencyIsStrictWeakOrder | src/Profily.Infrastructure/Services/TechStackAnalyzer.cs:854-856 | ordering by detection count descending, then by name, is a strict weak order |
| Aggregation.GroupedKeysUnique | src/Profily.Infrastructure/Services/TechStackAnalyzer.cs:828-829 | the group entries have pairwise different names ignoring case |
| Aggregation.SortedGroups | src/Profily.Infrastructure/Services/TechStackAnalyzer.cs:854-856 | the sorted groups are a permutation of the groups, ordered, with unique names |
| Aggregation.StrictlyOrdered | src/Profily.Infrastructure/Services/TechStackAnalyzer.cs:854-856 | a frequency-sorted sequence with unique names is strictly ordered by count and then name |
| Aggregation.AggregateShape | src/Profily.Infrastructure/Services/TechStackAnalyzer.cs:825-859 | one entry per name ignoring case, strictly ordered by detection count descending and then name, and as many entries as names up to 200 |
| Aggregation.AggregateEntries | src/Profily.Infrastructure/Services/TechStackAnalyzer.cs:833-851 | each entry carries the first-seen spelling of its name, its group's resolved category and its group's first icon |
| Aggregation.AggregateFromGroups | src/Profily.Infrastructure/Services/TechStackAnalyzer.cs:854-858 | every entry of the aggregate is a group entry |
| Aggregation.GroupedCovers | src/Profily.Infrastructure/Services/TechStackAnalyzer.cs:828-852 | every detected name has a group entry |
| Aggregation.SortedGroupsCover | src/Profily.Infrastructure/Services/TechStackAnalyzer.cs:854-856 | every detected name has its group entry in the sorted groups |
| Aggregation.AggregateKeepsMostFrequent | src/Profily.Infrastructure/Services/TechStackAnalyzer.cs:854-858 | every detected name is kept unless 200 entries are kept, each detected at least as often as the name left out |
| Aggregation.KeptOrOutranked | src/Profily.Infrastructure/Services/TechStackAnalyzer.cs:857 | cutting a frequency-sorted list keeps an entry of the name, or is full of entries detected at least as often |
| Aggregation.MembersSameKey | src/Profily.Infrastructure/Services/TechStackAnalyzer.cs:829 | names equal ignoring case have the same group |
| TechStackAnalysis.NonForks | src/Profily.Infrastructure/Services/TechStackAnalyzer.cs:116 | the non-forks are no more than the repositories |
| TechStackAnalysis.NonForksCount | src/Profily.Infrastructure/Services/TechStackAnalyzer.cs:116 | a fork is dropped; any other repository is kept as often as it occurs |
| TechStackAnalysis.RepoOrderIsStrictWeakOrder | src/Profily.Infrastructure/Services/TechStackAnalyzer.cs:117-118 | size descending, then push time descending with a missing time last, is a strict weak order |
| TechStackAnalysis.SelectReposShape | src/Profily.Infrastructure/Services/TechStackAnalyzer.cs:115-120 | the analysis set holds only non-fork repositories of the input, ordered by size and then push time, as many as there are non-forks up to 100 |
| TechStackAnalysis.SelectReposKeepsLargest | src/Profily.Infrastructure/Services/TechStackAnalyzer.cs:115-120 | a non-fork left out was crowded out by 100 repositories none of which it comes before |
| TechStackAnalysis.Owner | src/Profily.Infrastructure/Services/TechStackAnalyzer.cs:137 | the owner is the text of the full name before its first `/` |
| TechStackAnalysis.Tag | src/Profily.Infrastructure/Services/TechStackAnalyzer.cs:161-183 | each detector result is kept, tagged with its signal |
| TechStackAnalysis.CountSignal | src/Profily.Infrastructure/Services/TechStackAnalyzer.cs:191-195 | a signal count is at most the number of detections |
| TechStackAnalysis.CountSignalTag | src/Profily.Infrastructure/Services/TechStackAnalyzer.cs:161-195 | tagged results count for their own signal and no other |
| TechStackAnalysis.SignalCountsPartition | src/Profily.Infrastructure/Services/TechStackAnalyzer.cs:190-195 | every detection carries exactly one of the five signals, so their counts add up to the total |
| TechStackAnalysis.SignalSummaryTotal | src/Profily.Infrastructure/Services/TechStackAnalyzer.cs:188-196 | in the summary, `total_detections` equals the sum of the five per-signal counts |
| TechStackAnalysis.RepoSignalCount | src/Profily.Infrastructure/Services/TechStackAnalyzer.cs:135-184 | in one repository, a signal's count is the size of what its detector reported |
| TechStackAnalysis.NoTreeOnlyLanguages | src/Profily.Infrastructure/Services/TechStackAnalyzer.cs:143-158 | a repository whose file tree cannot be fetched contributes only its languages |
| TechStackAnalysis.SummaryCountsDetectorOutput | src/Profily.Infrastructure/Services/TechStackAnalyzer.cs:135-196 | each summary count is the number of technologies its detector reported, summed over the analysed repositories |
| TechStackAnalysis.Flat | src/Profily.Infrastructure/Services/TechStackAnalyzer.cs:209 | the aggregation input is each detection without its signal, in order |
| TechStackAnalysis.BuildProfileShape | src/Profily.Infrastructure/Services/TechStackAnalyzer.cs:222-225 | the built profile is the user's document, stamped now, with the given repository count, at most 200 technologies, and a summary whose total is the sum of its signal counts |
| TechStackAnalysis.AnalysisProfile | src/Profily.Infrastructure/Services/TechStackAnalyzer.cs:108-231 | an analysed profile is the user's document over at most 100 repositories, with at most 200 technologies and a consistent summary |
| TechStackAnalysis.CacheKey | src/Profily.Infrastructure/Services/TechStackAnalyzer.cs:73 | the cache key is `techStack_` followed by the user id |
| TechStackAnalysis.CacheKeyInjective | src/Profily.Infrastructure/Services/TechStackAnalyzer.cs:73 | different users have different cache keys |
| TechStackAnalysis.TechStackAnalyzer.constructor | src/Profily.Infrastructure/Services/TechStackAnalyzer.cs:55-69 | a new analyzer holds the mappings, an empty cache and an empty store |
| TechStackAnalysis.TechStackAnalyzer.CollectDetections | src/Profily.Infrastructure/Services/TechStackAnalyzer.cs:135-184 | the per-repository loop yields the detections of every selected repository, one after another |
| TechStackAnalysis.TechStackAnalyzer.AnalyzeRepo | src/Profily.Infrastructure/Services/TechStackAnalyzer.cs:137-183 | one repository yields its languages and, when its file tree is available, its dependency, file-presence, README and topic detections |
| TechStackAnalysis.TechStackAnalyzer.AnalyzeAndPersist | src/Profily.Infrastructure/Services/TechStackAnalyzer.cs:108-231 | the analysed profile is upserted under the user's id and cached for 6 hours; nothing changes when the repositories cannot be listed |
| TechStackAnalysis.TechStackAnalyzer.GetTechStack | src/Profily.Infrastructure/Services/TechStackAnalyzer.cs:71-96 | a live cached profile is returned unchanged; else a stored profile younger than 24 hours is returned and cached; else a fresh profile is stored and cached for 6 hours; each path reports its source |
| TechStackAnalysis.TechStackAnalyzer.StoreProfile | src/Profily.Infrastructure/Services/TechStackAnalyzer.cs:227 | the profile replaces the document under the user's id and partition key; the cache is unchanged and every document stays under its own key |
| TechStackAnalysis.TechStackAnalyzer.CacheProfile | src/Profily.Infrastructure/Services/TechStackAnalyzer.cs:229 | the profile is cached under the user's key until `now` plus 6 hours, so a lookup at `now` finds it; the store is unchanged |
| TechStackAnalysis.TechStackAnalyzer.RefreshTechStack | src/Profily.Infrastructure/Services/TechStackAnalyzer.cs:98-106 | a refresh always evicts the cached profile first, then analyses, stores and caches anew |
| AuthEndpoints.ValidateReturnUrl | src/Profily.Api/Endpoints/AuthEndpoints.cs:210-241 | a kept URL is always the input itself; a missing or empty URL is rejected; a local path (`/` but not `//`) is kept; any other URL is kept exactly when it parses as absolute and its scheme and authority are a safe origin |
| AuthEndpoints.LoginReturnUrl | src/Profily.Api/Endpoints/AuthEndpoints.cs:52 | the return URL handed on to the callback is the validated URL when validation accepts the input, and `/` when it rejects it |
| AuthEndpoints.ChallengeRedirectUri | src/Profily.Api/Endpoints/AuthEndpoints.cs:52-61 | the challenge redirects to the GitHub callback with `returnUrl` set to the escaped validated URL when validation accepts the input, and to the escaped `/` when it rejects it |
| AuthEndpoints.SafeOriginIff | src/Profily.Api/Endpoints/AuthEndpoints.cs:224-234 | an origin is safe exactly when, ignoring letter case, it is `http://localhost:5183` or `https://localhost:5183` |
| AuthEndpoints.AbsoluteAcceptedIff | src/Profily.Api/Endpoints/AuthEndpoints.cs:212-240 | a URL that is not a local path is accepted exactly when it is non-empty, parses as absolute and its origin is one of the two localhost origins in any letter case |
| AuthEndpoints.ProtocolRelativeNotLocal | src/Profily.Api/Endpoints/AuthEndpoints.cs:218 | a `//host` URL that does not parse is rejected, and login then falls back to `/` |
| WideEvents.WriteIfPresent | src/Profily.Core/Models/Logging/WideEvent.cs:38-41 | a present value is written under its key; an absent one leaves the dictionary as it was |
| WideEvents.WithRequest | src/Profily.Core/Models/Logging/WideEvent.cs:28-42 | method, path and id are always written; user agent and client IP only when present; no other key changes |
| WideEvents.WithUser | src/Profily.Core/Models/Logging/WideEvent.cs:45-53 | only the user fields given are written; no other key changes |
| WideEvents.WithError | src/Profily.Core/Models/Logging/WideEvent.cs:70-76 | the exception's type name and message are written, and its inner exception as `type: message` when there is one; no other key changes |
| WideEvents.WithEnvironment | src/Profily.Core/Models/Logging/WideEvent.cs:85-92 | the service name is always written; version and environment only when present; no other key changes |
| WideEvents.Outcome | src/Profily.Core/Models/Logging/WideEvent.cs:100 | the outcome is `success` exactly when 200 <= status < 400, and `failure` otherwise |
| WideEvents.WithCompletion | src/Profily.Core/Models/Logging/WideEvent.cs:95-102 | completion writes the status code, duration, outcome and timestamp; no other key changes |
| WideEvents.AssignedLookup | src/Profily.Core/Models/Logging/WideEvent.cs:61-67 | after writing distinct keys in turn, each written key holds its value and every other key is as before |
| WideEvents.WideEvent.constructor | src/Profily.Core/Models/Logging/WideEvent.cs:11 | a new event holds no data |
| WideEvents.WideEvent.Get | src/Profily.Core/Models/Logging/WideEvent.cs:22 | an absent key reads as null; a present one reads as its value |
| WideEvents.WideEvent.Set | src/Profily.Core/Models/Logging/WideEvent.cs:56-59 | `Set` changes only its key, which then reads as the value written |
| WideEvents.WideEvent.SetRequestContext | src/Profily.Core/Models/Logging/WideEvent.cs:28-42 | the new data is the old data with the request context written |
| WideEvents.WideEvent.SetUserContext | src/Profily.Core/Models/Logging/WideEvent.cs:45-53 | the new data is the old data with the given user fields written |
| WideEvents.WideEvent.SetBusinessContext | src/Profily.Core/Models/Logging/WideEvent.cs:61-67 | the new data is the old data with each context entry written in turn, as by `Set` |
| WideEvents.WideEvent.SetErrorContext | src/Profily.Core/Models/Logging/WideEvent.cs:70-76 | the new data is the old data with the exception's context written |
| WideEvents.WideEvent.SetErrorContextOf | src/Profily.Core/Models/Logging/WideEvent.cs:78-82 | only the error type and message change, to the given texts |
| WideEvents.WideEvent.SetEnvironmentContext | src/Profily.Core/Models/Logging/WideEvent.cs:85-92 | the new data is the old data with the environment context written |
| WideEvents.WideEvent.Complete | src/Profily.Core/Models/Logging/WideEvent.cs:95-102 | the completion fields are written, and the outcome reads `success` exactly when 200 <= status < 400 |
| WideEvents.BusinessContextWrites | src/Profily.Core/Models/Logging/WideEvent.cs:61-67 | every key the business context names ends up holding its value |
| WideEvents.BusinessContextKeeps | src/Profily.Core/Models/Logging/WideEvent.cs:61-67 | keys the business context does not name keep their values |
| Seeding.SeedInto | src/Profily.Infrastructure/Data/Seeding/SectionSeeder.cs:22-46 | the insert-if-absent loop leaves the store as seeding each seed in turn would, and its created and existing counts add up to the number of seeds |
| Seeding.SeededKeepsExisting | src/Profily.Infrastructure/Data/Seeding/SectionSeeder.cs:32-37 | seeding never overwrites or removes a stored document |
| Seeding.SeededCoversSeeds | src/Profily.Infrastructure/Data/Seeding/SectionSeeder.cs:30-41 | afterwards every seed's key is present |
| Seeding.SeededOnlyAddsSeeds | src/Profily.Infrastructure/Data/Seeding/SectionSeeder.cs:30-41 | every document present afterwards was there before or is a stamped seed stored under its own key |
| Seeding.CreatedCountIsGrowth | src/Profily.Infrastructure/Data/Seeding/SectionSeeder.cs:39-40 | the created count is exactly the number of documents the store gained, and at most the number of seeds |
| Seeding.SeedingPresentIsNoOp | src/Profily.Infrastructure/Data/Seeding/SectionSeeder.cs:33-37 | a store that already holds every seed's key is left unchanged and nothing is created |
| Seeding.SeedingIdempotent | src/Profily.Infrastructure/Data/Seeding/SectionSeeder.cs:22-46 | a second run over the same seeds changes nothing and creates nothing |
| Seeding.SeedingAbsentCreatesAll | src/Profily.Infrastructure/Data/Seeding/SectionSeeder.cs:30-41 | seeds with distinct keys, none stored yet, are all created |
| SectionSeeding.SeedSections | src/Profily.Infrastructure/Data/Seeding/SectionSeeder.cs:48-182 | the seed sections are the twelve catalogue rows, in order: each an active system section at its position with its row's id, slug, display name, description, icon and required data fields |
| SectionSeeding.SectionRowIdsDistinct | src/Profily.Infrastructure/Data/Seeding/SectionSeeder.cs:48-182 | the twelve section ids are pairwise distinct |
| SectionSeeding.SeedSectionIdsDistinct | src/Profily.Infrastructure/Data/Seeding/SectionSeeder.cs:48-182 | there are twelve system-owned seed sections with distinct ids and sort orders 0 to 11 in list order |
| SectionSeeding.SeedSectionsValid | src/Profily.Infrastructure/Data/Seeding/SectionSeeder.cs:48-182 | every seed section satisfies every declared constraint of a section: non-blank slug and name, description of at most 500 and icon of at most 50 characters |
| SectionSeeding.SectionSeeder.constructor | src/Profily.Infrastructure/Data/Seeding/SectionSeeder.cs:16-20 | the seeder writes to the repository it is given |
| SectionSeeding.SectionSeeder.Seed | src/Profily.Infrastructure/Data/Seeding/SectionSeeder.cs:22-46 | missing sections are written and present ones left alone; created plus existing is 12 |
| SectionSeeding.SectionsPresentAfterSeeding | src/Profily.Infrastructure/Data/Seeding/SectionSeeder.cs:22-46 | afterwards every seed section is stored under its id in the system partition, and earlier documents stay |
| SectionStyleSeeding.GroupStyles | src/Profily.Infrastructure/Data/Seeding/SectionStyleSeeder.cs:70-121 | a group yields one style per row, in order, each for the group's section |
| SectionStyleSeeding.GroupStylesShape | src/Profily.Infrastructure/Data/Seeding/SectionStyleSeeder.cs:70-121 | each style of a group is an active system style of the group's section with its row's id suffix, slug, display name and description, the markdown of its id, no preview image or assets, and a workflow exactly when its row names one |
| SectionStyleSeeding.HeaderFits | src/Profily.Infrastructure/Data/Seeding/SectionStyleSeeder.cs:68-122 | the header styles fit the style constraints |
| SectionStyleSeeding.BadgesFit | src/Profily.Infrastructure/Data/Seeding/SectionStyleSeeder.cs:124-161 | the badge styles fit the style constraints |
| SectionStyleSeeding.AboutFits | src/Profily.Infrastructure/Data/Seeding/SectionStyleSeeder.cs:163-202 | the about styles fit the style constraints |
| SectionStyleSeeding.SkillsFit | src/Profily.Infrastructure/Data/Seeding/SectionStyleSeeder.cs:204-257 | the skills styles fit the style constraints |
| SectionStyleSeeding.StatsFit | src/Profily.Infrastructure/Data/Seeding/SectionStyleSeeder.cs:259-314 | the stats styles fit the style constraints |
| SectionStyleSeeding.StreakFits | src/Profily.Infrastructure/Data/Seeding/SectionStyleSeeder.cs:316-338 | the streak styles fit the style constraints |
| SectionStyleSeeding.LanguagesFit | src/Profily.Infrastructure/Data/Seeding/SectionStyleSeeder.cs:340-378 | the languages styles fit the style constraints |
| SectionStyleSeeding.SnakeFits | src/Profily.Infrastructure/Data/Seeding/SectionStyleSeeder.cs:380-486 | the snake styles fit the style constraints |
| SectionStyleSeeding.Contrib3dFits | src/Profily.Infrastructure/Data/Seeding/SectionStyleSeeder.cs:488-543 | the 3D contribution styles fit the style constraints |
| SectionStyleSeeding.ReposFit | src/Profily.Infrastructure/Data/Seeding/SectionStyleSeeder.cs:545-588 | the repository styles fit the style constraints |
| SectionStyleSeeding.ContactFits | src/Profily.Infrastructure/Data/Seeding/SectionStyleSeeder.cs:590-631 | the contact styles fit the style constraints |
| SectionStyleSeeding.FooterFits | src/Profily.Infrastructure/Data/Seeding/SectionStyleSeeder.cs:633-669 | the footer styles fit the style constraints |
| SectionStyleSeeding.CatalogueFits | src/Profily.Infrastructure/Data/Seeding/SectionStyleSeeder.cs:48-66 | all twelve groups fit |
| SectionStyleSeeding.CatalogueKeysDistinct | src/Profily.Infrastructure/Data/Seeding/SectionStyleSeeder.cs:48-66 | no two groups share a section |
| SectionStyleSeeding.CatalogueSectionsSeeded | src/Profily.Infrastructure/Data/Seeding/SectionStyleSeeder.cs:48-66 | every group's section is a seed section |
| SectionStyleSeeding.PrefixNamesSection | src/Profily.Infrastructure/Data/Seeding/SectionStyleSeeder.cs:74 | a style id carries the `sectionStyle-{section}-` prefix of at most one dash-free section key |
| SectionStyleSeeding.SeedStyleId | src/Profily.Infrastructure/Data/Seeding/SectionStyleSeeder.cs:74-76 | a style's id starts with its section's prefix |
| SectionStyleSeeding.ConcatFromRows | src/Profily.Infrastructure/Data/Seeding/SectionStyleSeeder.cs:48-66 | every style of the concatenation comes from some row of some group |
| SectionStyleSeeding.ConcatIdsDistinct | src/Profily.Infrastructure/Data/Seeding/SectionStyleSeeder.cs:48-66 | fitting groups with distinct sections give styles with pairwise distinct ids |
| SectionStyleSeeding.ConcatLength | src/Profily.Infrastructure/Data/Seeding/SectionStyleSeeder.cs:48-66 | the concatenation holds as many styles as the groups have rows |
| SectionStyleSeeding.SeedStylesCount | src/Profily.Infrastructure/Data/Seeding/SectionStyleSeeder.cs:48-669 | there are twenty-five seed styles |
| SectionStyleSeeding.SeedStyleIdsDistinct | src/Profily.Infrastructure/Data/Seeding/SectionStyleSeeder.cs:48-669 | the twenty-five seed styles are system-owned with pairwise distinct ids |
| SectionStyleSeeding.ConcatFromFittingRows | src/Profily.Infrastructure/Data/Seeding/SectionStyleSeeder.cs:48-66 | every style of fitting groups of seed sections comes from a fitting row |
| SectionStyleSeeding.SeedStylesFromFittingRows | src/Profily.Infrastructure/Data/Seeding/SectionStyleSeeder.cs:48-669 | every seed style comes from a fitting row of a seed section |
| SectionStyleSeeding.SeedStylesValid | src/Profily.Infrastructure/Data/Seeding/SectionStyleSeeder.cs:48-669 | when no markdown template is blank (the seeder's never are), every seed style satisfies every declared constraint of a style: non-blank section id, slug, name and markdown, description of at most 500 characters |
| SectionStyleSeeding.SeedStylesPointAtSeedSections | src/Profily.Infrastructure/Data/Seeding/SectionStyleSeeder.cs:48-669 | every seed style renders a seed section, and its id is `sectionStyle-{section}-...` for the section `section-{section}` |
| SectionStyleSeeding.SeedStyleWorkflows | src/Profily.Infrastructure/Data/Seeding/SectionStyleSeeder.cs:399-403 | only the snake and 3D styles carry a workflow, exactly one, under `.github/workflows/` with a `.yml` extension |
| SectionStyleSeeding.ConcatHasRow | src/Profily.Infrastructure/Data/Seeding/SectionStyleSeeder.cs:48-66 | every row of every group has its style in the concatenation |
| SectionStyleSeeding.CatalogueRowSeeded | src/Profily.Infrastructure/Data/Seeding/SectionStyleSeeder.cs:48-669 | the style of each catalogue row is seeded, under `sectionStyle-{section}-{name}` for `section-{section}` |
| SectionStyleSeeding.SectionStyleSeeder.constructor | src/Profily.Infrastructure/Data/Seeding/SectionStyleSeeder.cs:16-20 | the seeder writes to the repository it is given |
| SectionStyleSeeding.SectionStyleSeeder.Seed | src/Profily.Infrastructure/Data/Seeding/SectionStyleSeeder.cs:22-46 | missing styles are written and present ones left alone; created plus existing is 25 |
| SectionStyleSeeding.StyleSeedingFromEmpty | src/Profily.Infrastructure/Data/Seeding/SectionStyleSeeder.cs:22-46 | seeding an empty store creates all twenty-five styles, and a second run creates none |
| TemplateSeeding.Entries | src/Profily.Infrastructure/Data/Seeding/TemplateSeeder.cs:65-74 | a template has one section entry per row |
| TemplateSeeding.SeedTemplates | src/Profily.Infrastructure/Data/Seeding/TemplateSeeder.cs:48-125 | the seed templates are the three rows, in order, each built with its own description and icon |
| TemplateSeeding.SeedTemplateShape | src/Profily.Infrastructure/Data/Seeding/TemplateSeeder.cs:51-77 | a seed template is an active, official, unused template of the system partition, created by `admin`, with id `template-{slug}` and the row's sections |
| TemplateSeeding.TemplateSlugsDistinct | src/Profily.Infrastructure/Data/Seeding/TemplateSeeder.cs:53-104 | the three template slugs are distinct |
| TemplateSeeding.SeedTemplateIds | src/Profily.Infrastructure/Data/Seeding/TemplateSeeder.cs:53-104 | the three seed templates have ids `template-developer-pro`, `template-minimal-clean`, `template-creative-fun`, pairwise distinct |
| TemplateSeeding.SeedTemplateOrders | src/Profily.Infrastructure/Data/Seeding/TemplateSeeder.cs:65-122 | within each template the entries are enabled, ordered 0, 1, 2, ... in list order, and each style belongs to its entry's section |
| TemplateSeeding.ThemesValid | src/Profily.Infrastructure/Data/Seeding/TemplateSeeder.cs:127-160 | the three theme presets have non-blank ids and names and use `#` plus six hex digits for every colour |
| TemplateSeeding.SeedTemplateValid | src/Profily.Infrastructure/Data/Seeding/TemplateSeeder.cs:51-77 | a template built from a fitting row and bounded texts satisfies every declared constraint of a template, non-blank section and style ids of every entry included |
| TemplateSeeding.SourceTextsFit | src/Profily.Infrastructure/Data/Seeding/TemplateSeeder.cs:57-109 | the seeder's own descriptions and icons are within the length bounds |
| TemplateSeeding.TemplateRowsFit | src/Profily.Infrastructure/Data/Seeding/TemplateSeeder.cs:48-125 | every template row fits the template constraints |
| TemplateSeeding.SeedTemplatesValid | src/Profily.Infrastructure/Data/Seeding/TemplateSeeder.cs:48-125 | with bounded texts, every seed template satisfies every declared constraint of a template |
| TemplateSeeding.TemplateRowsInCatalogue | src/Profily.Infrastructure/Data/Seeding/TemplateSeeder.cs:65-122 | every entry of every template names a style row of the style catalogue |
| TemplateSeeding.EntryNamesSeedStyle | src/Profily.Infrastructure/Data/Seeding/TemplateSeeder.cs:65-122 | an entry built from a catalogue row names a seeded style of its own section, and that section is seeded |
| TemplateSeeding.SeedTemplatesReferToSeedStyles | src/Profily.Infrastructure/Data/Seeding/TemplateSeeder.cs:65-122 | every section and style a seed template names is seeded, whatever the style texts and seeding time |
| TemplateSeeding.TemplateSeeder.constructor | src/Profily.Infrastructure/Data/Seeding/TemplateSeeder.cs:16-20 | the seeder writes to the repository it is given |
| TemplateSeeding.TemplateSeeder.Seed | src/Profily.Infrastructure/Data/Seeding/TemplateSeeder.cs:22-46 | missing templates are written and present ones left alone; created plus existing is 3 |
| TemplateSeeding.TemplateSectionsStored | src/Profily.Infrastructure/Data/Seeding/TemplateSeeder.cs:65-122 | once the section seeder has run over any section store, every section a seed template names is stored in the system partition |
| TemplateSeeding.TemplateStylesStored | src/Profily.Infrastructure/Data/Seeding/TemplateSeeder.cs:65-122 | once the style seeder has run over any style store, every style a seed template names is stored in the system partition |
| TemplateSeeding.SeedingOrderResolvesReferences | src/Profily.Infrastructure/Data/Seeding/DataSeederExtensions.cs:36 | seeders run by ascending priority (sections 1, styles 2, templates 3), so by the time the templates are written every section and style they name is already stored |
| TemplateSeeding.TemplateSeedingFromEmpty | src/Profily.Infrastructure/Data/Seeding/TemplateSeeder.cs:22-46 | seeding an empty store creates all three templates, and a second run creates none |
| TemplateService.TemplateOrderIsStrictWeakOrder | src/Profily.Infrastructure/Services/TemplateService.cs:36-37 | official first, then higher usage count first, is a strict weak order |
| TemplateService.ActiveTemplatesOrdered | src/Profily.Infrastructure/Services/TemplateService.cs:24-39 | the active templates are exactly the stored active ones, as often as stored, official ones first and then by usage count descending |
| TemplateService.GetTemplateBySlug | src/Profily.Infrastructure/Services/TemplateService.cs:41-53 | a blank slug is rejected; otherwise the result is the first stored active template with that slug, or none when there is no such template |
| TemplateService.AllSectionsOrdered | src/Profily.Infrastructure/Services/TemplateService.cs:55-66 | the sections listed are exactly the stored active ones, in ascending sort order |
| TemplateService.GetSectionBySlug | src/Profily.Infrastructure/Services/TemplateService.cs:68-80 | a blank slug is rejected; otherwise the first active stored section with that slug, or none when there is no such section |
| TemplateService.GetStyleById | src/Profily.Infrastructure/Services/TemplateService.cs:82-94 | a blank id is rejected; otherwise an active stored style with that id, or none when there is no such style |
| TemplateService.GetStylesForSection | src/Profily.Infrastructure/Services/TemplateService.cs:119-132 | a blank section id is rejected; otherwise exactly the active stored styles of that section |
| TemplateService.ToDictionary | src/Profily.Infrastructure/Services/TemplateService.cs:116 | building the dictionary succeeds exactly when the ids are distinct, and then maps each id to the style that has it |
| TemplateService.GetStylesByIds | src/Profily.Infrastructure/Services/TemplateService.cs:96-117 | no ids give an empty map; otherwise every active stored style asked for is in the map under its id, and nothing else is |
| TemplateService.StylesByIdsSucceed | src/Profily.Infrastructure/Services/TemplateService.cs:114-116 | the lookup cannot fail when the stored styles have distinct ids |
| TemplateService.WhereKeepsDistinctIds | src/Profily.Infrastructure/Services/TemplateService.cs:115 | filtering keeps ids distinct |
| ProfileService.ClampLimit | src/Profily.Infrastructure/Services/ProfileService.cs:85 | the limit is clamped into 1 to 50: kept inside the range, raised to 1 below it, lowered to 50 above it |
| ProfileService.GetDeployHistory | src/Profily.Infrastructure/Services/ProfileService.cs:80-97 | a blank user id is rejected |
| ProfileService.DeployHistoryShape | src/Profily.Infrastructure/Services/ProfileService.cs:80-97 | the listing holds only stored records of the user (a sub-multiset of the store), newest first, as many as the clamped limit and the store allow |
| ProfileService.DeployHistoryKeepsLatest | src/Profily.Infrastructure/Services/ProfileService.cs:93-96 | a stored record left out is no newer than any listed one, and then the listing is full |
| ProfileService.ProfileService.constructor | src/Profily.Infrastructure/Services/ProfileService.cs:19-27 | the service works on the stores it is given |
| ProfileService.ProfileService.GetUserConfig | src/Profily.Infrastructure/Services/ProfileService.cs:30-39 | a blank user id is rejected; otherwise the result is the document `profileConfig-{user}` in the user's partition, if any |
| ProfileService.ProfileService.SaveUserConfig | src/Profily.Infrastructure/Services/ProfileService.cs:42-49 | a blank user id is rejected and nothing changes; otherwise the configuration is upserted under its own id and partition, stamped with the update time |
| ProfileService.ProfileService.CreateFromTemplate | src/Profily.Infrastructure/Services/ProfileService.cs:51-64 | a blank user id or slug, or no active template with the slug, is rejected and nothing changes; otherwise the stored and returned configuration is exactly the draft `CreateForUser` builds from the first active template with that slug, stamped with the current time, under `profileConfig-{user}` |
| ProfileService.ProfileService.DeleteUserConfig | src/Profily.Infrastructure/Services/ProfileService.cs:66-78 | a blank user id is rejected; otherwise the user's configuration is removed, and reading it afterwards finds nothing |
| ProfileService.ProfileService.GetDeployById | src/Profily.Infrastructure/Services/ProfileService.cs:99-108 | a blank deploy id or user id is rejected; otherwise the result is the stored deploy record, if any |
| ProfileService.ProfileService.RecordDeploy | src/Profily.Infrastructure/Services/ProfileService.cs:110-142 | a blank user id is rejected and nothing changes; otherwise a deploy record with a snapshot of the configuration is always stored, and only on success does the configuration leave draft state, take the deploy time and get saved |
| ProfileService.ConfigAddressing | src/Profily.Infrastructure/Services/ProfileService.cs:34 | reading and deleting address the same document, the one created for the user |
| ReadmeGenerator.ThemeObject | src/Profily.Infrastructure/Services/ReadmeGeneratorService.cs:125-132 | the theme object holds the three colours, and the gradient and text colour or their defaults |
| ReadmeGenerator.Strings | src/Profily.Infrastructure/Services/ReadmeGeneratorService.cs:122 | a list of strings is seen item by item |
| ReadmeGenerator.RepoObject | src/Profily.Infrastructure/Services/ReadmeGeneratorService.cs:146-155 | a repository entry holds exactly the name, URL, description, primary language, stars, forks and language list, showing a missing description as empty, a missing language as `Unknown` and a missing language list as empty |
| ReadmeGenerator.SocialObject | src/Profily.Infrastructure/Services/ReadmeGeneratorService.cs:161-171 | the social object holds each of the eight links under its own key (LinkedIn, Twitter, YouTube, Discord, email, website, LeetCode, resume), a missing one as the empty string |
| ReadmeGenerator.StatsObjectOf | src/Profily.Infrastructure/Services/ReadmeGeneratorService.cs:135-143 | the stats object holds the user's six figures under their names |
| ReadmeGenerator.PreferencesObject | src/Profily.Infrastructure/Services/ReadmeGeneratorService.cs:175-179 | the preferences object holds both flags |
| ReadmeGenerator.RepositoryList | src/Profily.Infrastructure/Services/ReadmeGeneratorService.cs:146-156 | the repositories list has one object per repository, in order |
| ReadmeGenerator.BuildTemplateContext | src/Profily.Infrastructure/Services/ReadmeGeneratorService.cs:110-182 | the user context holds exactly the content fields or their placeholders, the skills, theme, stats, repositories and preferences, plus the social links exactly when configured, and no other key |
| ReadmeGenerator.Assemble | src/Profily.Infrastructure/Services/ReadmeGeneratorService.cs:115-180 | the context keeps every content entry, holds the theme, stats, repositories and preferences objects under their keys, and holds a social object exactly when one is given; it has no other key |
| ReadmeGenerator.SampleStatsObject | src/Profily.Infrastructure/Services/ReadmeGeneratorService.cs:205-213 | the sample figures are fixed, and count repositories under `total_repos` |
| ReadmeGenerator.BuildPreviewContext | src/Profily.Infrastructure/Services/ReadmeGeneratorService.cs:184-216 | the preview context is the sample user (display name, tagline, skills) and figures with the given theme, and nothing more |
| ReadmeGenerator.RenderTemplate | src/Profily.Infrastructure/Services/ReadmeGeneratorService.cs:218-243 | the rendered text, or the template itself when parsing or rendering fails |
| ReadmeGenerator.GenerateSectionPreview | src/Profily.Infrastructure/Services/ReadmeGeneratorService.cs:94-108 | a preview is what rendering the style's markdown against the sample context yields when it succeeds, and the markdown itself when rendering fails |
| ReadmeGenerator.StyleIds | src/Profily.Infrastructure/Services/ReadmeGeneratorService.cs:43 | the style ids asked for are those of the enabled sections, each once |
| ReadmeGenerator.RenderWorkflows | src/Profily.Infrastructure/Services/ReadmeGeneratorService.cs:68-72 | one workflow file per definition, path kept |
| ReadmeGenerator.RenderAssets | src/Profily.Infrastructure/Services/ReadmeGeneratorService.cs:74-79 | one asset file per definition, content type kept |
| ReadmeGenerator.GeneratedFileCount | src/Profily.Infrastructure/Services/ReadmeGeneratorService.cs:54-80 | the output holds the README plus one file per workflow and asset of every rendered style |
| ReadmeGenerator.GeneratedWorkflowPaths | src/Profily.Infrastructure/Services/ReadmeGeneratorService.cs:54-80 | every generated workflow sits at the path of a workflow definition of a rendered style |
| ReadmeGenerator.MissingStylesSkipped | src/Profily.Infrastructure/Services/ReadmeGeneratorService.cs:56-60 | sections whose style is missing produce nothing |
| ReadmeGenerator.EnabledSectionsOrdered | src/Profily.Infrastructure/Services/ReadmeGeneratorService.cs:38-41 | the sections rendered are exactly the enabled ones, each as often as configured, in ascending order |
| ReadmeGenerator.AppendWorkflows | src/Profily.Infrastructure/Services/ReadmeGeneratorService.cs:68-72 | the workflow loop appends each definition with its content rendered, in order |
| ReadmeGenerator.AppendAssets | src/Profily.Infrastructure/Services/ReadmeGeneratorService.cs:74-79 | the asset loop appends each definition with path and content rendered, in order |
| Sorting.SortByStable | src/Profily.Infrastructure/Services/ReadmeGeneratorService.cs:40 | the sort behind every `OrderBy` chain is stable: the elements that tie with any given element come out in their input order, as LINQ guarantees |
| Sorting.InsertKeepsTies | src/Profily.Infrastructure/Services/ReadmeGeneratorService.cs:40 | inserting an element puts it ahead of the elements it ties with and leaves their order as it was |
| ReadmeGenerator.RenderSections | src/Profily.Infrastructure/Services/ReadmeGeneratorService.cs:54-80 | the section loop skips sections whose style is missing and renders the others in order |
| ReadmeGenerator.Generate | src/Profily.Infrastructure/Services/ReadmeGeneratorService.cs:29-92 | generation fails exactly when the style lookup fails; otherwise it renders the enabled sections against the user's context |

## Left out

- **GitHub and database access.** Network calls, the Cosmos SDK and the `CancellationToken` plumbing are left out. Their results are parameters: a repository list, language lists, file trees and file contents, or the store as a map.
- **Concurrency.** `Parallel.ForEachAsync`, `ConcurrentBag` and `Task.WhenAll` in the analyzer are modelled as a sequential loop over the selected repositories, appending one detector's results after another. The order of the detections inside the bag is therefore fixed, not arbitrary. In the source that order decides three things: which spelling and icon a group keeps; which category wins when two categories other than `Other` occur equally often in a group (`First()` after a stable sort); and, through the kept spelling, the `ThenBy(t => t.Name)` tie-break and so which technologies survive the `Take(MaxTechnologies)` cut.
- **Per-signal failures.** A languages fetch that throws counts as "no languages". A repository whose file tree cannot be fetched contributes only its languages. A file-content fetch that throws is not caught in the source: it aborts the whole analysis. That failure is not modelled, so every content fetch answers a file or the documented null.
- **Regular expressions and JSON.** The hard patterns and `JsonDocument.Parse` are parameters: the PackageReference and TargetFramework captures, go `require` blocks, pyproject dependency lines, shields.io badges and tech-stack section bodies. The simple matchers are written out: prefix and suffix checks, the line-start `key =` test of `Cargo.toml`, and word-boundary containment.
- ManifestParsers.ParsePackageJson: does not model the parsable documents that make the source throw. These are a root, `dependencies`, `devDependencies` or `scripts` that is not an object (`[]`, or `{"dependencies": null}`), and a non-string value under `scripts`. `TryGetProperty`, `EnumerateObject` and `GetString` then throw `InvalidOperationException` (TechStackAnalyzer.cs:445, 450, 461-463). Only `JsonException` is caught (line 473), so in the source the exception leaves `DetectFromDependenciesAsync` and the repository loop and aborts the whole analysis. The model's `PackageJsonDoc` is always an object with object-valued sections: it yields that document's detections, and reads a non-string script value as null.
- AuthEndpoints.ValidateReturnUrl: the `//` test is an ordinal prefix test. The source calls the string overload `StartsWith("//")` (AuthEndpoints.cs:218), which compares under the current culture and so ignores default-ignorable characters such as the soft hyphen U+00AD. For `"/\u00AD/evil.com"`, the source sees a leading `//`, finds no safe origin and rejects the URL, while the model keeps it as a local path. Only the `'/'` test, a char overload, is ordinal in the source. The same culture-for-ordinal swap holds for the other string-overload tests: `EndsWith("/package.json")` and the other manifest path tests and `EndsWith(".csproj")` (TechStackAnalyzer.cs:268-343), and `StartsWith("require ")`, `"-r"`, `"--"` and `"net"` (lines 367, 404-405, 521). The tests that pass `StringComparison.OrdinalIgnoreCase` are modelled exactly.
- **Letter case.** Case-insensitive comparison is ASCII lower-casing. There is no culture-specific case mapping.
- **Name tie-break.** The culture-sensitive `ThenBy(t => t.Name)` is modelled as the ordinal order `Text.NameLess`, which is proved to be a strict total order.
- **Mapping file.** Reading the embedded resource is left out. The deserialized file is a parameter, and `None` stands for both a missing resource and a failed deserialization. Both throw in the source, and both give an error result in the model.
- LengthBetween: counts characters (Unicode scalar values), while `[StringLength]` counts UTF-16 code units, so a text with characters beyond the basic multilingual plane (emoji, say) can pass in the model and fail in the source. `ValidSection`, `ValidStyle`, `ValidTheme` and `ValidTemplate`, and every lemma that concludes one of them, inherit this. The README size gate does count code units (`Text.Utf16Length`).
- OptionalLengthAtMost: counts characters in the same way as `LengthBetween`, for the same reason. The seeded descriptions and icons are short enough to pass under either count.
- RenderSections: `Environment.NewLine` is taken to be a line feed, as on Linux and macOS; on Windows `AppendLine` writes a carriage return and a line feed. `Generated` and `Generate` share this.
- **Shared script globals.** The source pushes one writable `ScriptObject` as the global of every render (ReadmeGeneratorService.cs:47, 230-236), so a template that assigns a variable changes what later sections, workflows and assets see. The model renders every template against the same unchanged `Context`. No seeded template assigns, so the two agree on seeded data.
- **Unused constants.** `MaxSourcesPerTech` and `MaxConcurrentRepos` affect no modelled behaviour.
- **Floating point.** The wide event's `duration_ms` is a parameter, and so is the round-trip formatted `timestamp`.
- **Time, identifiers and snapshots.** `DateTime.UtcNow`, `Guid.NewGuid` and the configuration snapshot are passed in as values. The deploy record holds the configuration value itself, not a serialized document.
- **Value semantics.** Documents are values, so the fresh copy `CreateForUser` makes of the template's section list holds trivially, and no aliasing is modelled.
- **Free-form dictionaries.** The template's `Config` dictionary and the style's `ConfigSchema` are not modelled. Neither is read by the modelled code.
- **Template texts.** The template descriptions and icons are a `TemplateTexts` parameter keyed by template position. The same holds for the style texts. Their lengths are counted in code points, not in UTF-16 units.
- **Login callback.** The OAuth challenge, the callback and sign-in are left out. The callback's redirect has an unresolved merge conflict in the source (AuthEndpoints.cs lines 128-151), so only `ValidateReturnUrl` and its use in `InitialGitHubLogin` are modelled.
- **URI parsing.** `Uri.TryCreate` is a parameter that gives the scheme and authority of an absolute URI.
- **Plumbing.** Logging, the HTTP middleware, dependency-injection wiring, the interfaces and options classes, and the front end are left out.
- Documents.Container.Upsert: does not stamp `UpdatedAt` with the current time. Callers that need the stamp (the seeders, `SaveUserConfig`, `RecordDeploy`) apply it themselves, with the time passed in.
