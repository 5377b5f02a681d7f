/**
 * Stand-ins for the regular expressions and the JSON parser whose matching
 * the model does not re-implement. Each is a function of the text it is
 * applied to and returns what the source reads out of its match groups.
 */
module Extraction {
  import opened Wrappers

  /** What the parser reads from a `package.json` document: the property names of
      `dependencies` and `devDependencies` and the values of `scripts` (a
      non-string value reads as null), each section null when absent. */
  datatype PackageJsonDoc = PackageJsonDoc(
    dependencies: Option<seq<string>>,
    devDependencies: Option<seq<string>>,
    scripts: Option<seq<Option<string>>>)

  datatype Extractors = Extractors(
    /** `JsonDocument.Parse`; `None` when it throws `JsonException`. */
    parsePackageJson: string -> Option<PackageJsonDoc>,
    /** Group 1 of every `<PackageReference Include="..."` match. */
    packageReferences: string -> seq<string>,
    /** Group 1 of the first `<TargetFramework>...</TargetFramework>` match. */
    targetFramework: string -> Option<string>,
    /** Group 1 of every `require ( ... )` block. */
    goRequireBlocks: string -> seq<string>,
    /** Group 1 of every pyproject dependency-line match. */
    pyProjectNames: string -> seq<string>,
    /** Group 1 of every `img.shields.io/badge/NAME-` match. */
    badgeNames: string -> seq<string>,
    /** Group 1 (the body) of every tech-stack section heading match. */
    techSections: string -> seq<string>)
}
