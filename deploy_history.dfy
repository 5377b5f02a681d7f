/**
 * Deploy history: one immutable record per deploy attempt, holding a snapshot
 * of the configuration that was deployed and the outcome.
 */
module DeployHistories {
  import opened Wrappers
  import opened Documents
  import ProfileConfigs

  /** The type discriminator of deploy records. */
  const DocumentType := "deployHistory"

  /** `DeployResult`. */
  datatype DeployResult = DeployResult(
    success: bool,
    errorMessage: Option<string>,
    commitSha: Option<string>,
    repoUrl: Option<string>,
    filesDeployed: Option<seq<string>>)

  /** `DeployResult.Successful`. */
  function Successful(commitSha: string, repoUrl: string, filesDeployed: seq<string>): (r: DeployResult)
    ensures r.success && r.errorMessage == None
    ensures r.commitSha == Some(commitSha) && r.repoUrl == Some(repoUrl) && r.filesDeployed == Some(filesDeployed)
  {
    DeployResult(true, None, Some(commitSha), Some(repoUrl), Some(filesDeployed))
  }

  /** `DeployResult.Failed`. */
  function Failed(errorMessage: string): (r: DeployResult)
    ensures !r.success && r.errorMessage == Some(errorMessage)
    ensures r.commitSha == None && r.repoUrl == None && r.filesDeployed == None
  {
    DeployResult(false, Some(errorMessage), None, None, None)
  }

  /** `DeployHistory`. The configuration snapshot is the configuration value
      itself rather than its JSON serialisation. */
  datatype DeployHistory = DeployHistory(
    id: string,
    userId: string,
    createdAt: int,
    updatedAt: int,
    configSnapshot: ProfileConfigs.ProfileConfig,
    templateId: Option<string>,
    result: DeployResult)
  {
    function Type(): string {
      DocumentType
    }
  }

  /** `"deployHistory-{userId}-{stamp}-{guid}"`. */
  function DeployId(userId: string, stamp: string, guid: string): (r: string)
    ensures |r| == |DocumentType| + |userId| + |stamp| + |guid| + 3
    ensures r[..|DocumentType| + 1 + |userId| + 1] == DocumentType + "-" + userId + "-"
    ensures r[|r| - |guid|..] == guid
  {
    DocumentType + "-" + userId + "-" + stamp + "-" + guid
  }

  /** `Create`. `stamp` is the clock formatted as `yyyyMMddHHmmss` (always 14
      digits) and `guid` the 32 hex digits of a fresh Guid. */
  function Create(userId: string, config: ProfileConfigs.ProfileConfig, result: DeployResult,
                  now: int, stamp: string, guid: string): (r: DeployHistory)
    ensures r.id == DeployId(userId, stamp, guid) && r.userId == userId
    ensures r.configSnapshot == config && r.templateId == config.templateId && r.result == result
    ensures r.createdAt == now
  {
    DeployHistory(DeployId(userId, stamp, guid), userId, now, now, config, config.templateId, result)
  }

  /** Two records of one user made in the same second differ in id when their
      guids differ. */
  lemma DeployIdsDistinct(userId: string, stamp: string, g1: string, g2: string)
    requires |g1| == |g2| && g1 != g2
    ensures DeployId(userId, stamp, g1) != DeployId(userId, stamp, g2)
  {
    var a, b := DeployId(userId, stamp, g1), DeployId(userId, stamp, g2);
    assert a[|a| - |g1|..] == g1 && b[|b| - |g2|..] == g2;
  }
}
