/**
 * The output of README generation: the README text and the workflow and
 * asset files the profile repository needs.
 */
module GeneratedProfiles {

  /** `GeneratedWorkflow`. */
  datatype GeneratedWorkflow = GeneratedWorkflow(path: string, content: string)

  /** `GeneratedAsset`. */
  datatype GeneratedAsset = GeneratedAsset(path: string, content: string, contentType: string)

  /** `GeneratedProfile`. */
  datatype GeneratedProfile = GeneratedProfile(readme: string, workflows: seq<GeneratedWorkflow>, assets: seq<GeneratedAsset>)
  {
    /** `TotalFileCount`: the README plus every workflow and asset. */
    function TotalFileCount(): (r: int)
      ensures r >= 1
      ensures r == |workflows| + |assets| + 1
    {
      1 + |workflows| + |assets|
    }
  }

  /** A profile with the default empty file lists. */
  function ReadmeOnly(readme: string): (r: GeneratedProfile)
    ensures r.readme == readme && r.TotalFileCount() == 1
  {
    GeneratedProfile(readme, [], [])
  }
}
