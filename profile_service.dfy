/**
 * User profile configurations and deploy history: reading, saving, creating
 * from a template and deleting a user's configuration, listing and recording
 * deploys. Configurations and deploy records live in the user's partition.
 */
module ProfileService {
  import opened Wrappers
  import opened Text
  import opened Sorting
  import opened Documents
  import opened ProfileTemplates
  import opened ProfileConfigs
  import opened DeployHistories
  import TemplateService

  /** The most deploy records one listing returns. */
  const MaxDeployHistoryLimit := 50

  /** `Math.Clamp(limit, 1, MaxDeployHistoryLimit)`. */
  function ClampLimit(limit: int): (r: nat)
    ensures 1 <= r <= MaxDeployHistoryLimit
    ensures 1 <= limit <= MaxDeployHistoryLimit ==> r == limit
    ensures limit < 1 ==> r == 1
    ensures limit > MaxDeployHistoryLimit ==> r == MaxDeployHistoryLimit
  {
    if limit < 1 then 1 else if limit > MaxDeployHistoryLimit then MaxDeployHistoryLimit else limit
  }

  /** `OrderByDescending(d => d.CreatedAt)`. */
  function DeployOrder(): (DeployHistory, DeployHistory) -> bool {
    (a: DeployHistory, b: DeployHistory) => a.createdAt > b.createdAt
  }

  /** `GetDeployHistoryAsync`: `history` is what the query returns for the
      user's partition. */
  function GetDeployHistory(userId: string, limit: int, history: seq<DeployHistory>): (r: Result<seq<DeployHistory>>)
    ensures r.Err? <==> IsBlank(userId)
  {
    if IsBlank(userId) then Err("userId")
    else Ok(Take(SortBy(history, DeployOrder()), ClampLimit(limit)))
  }

  /** The listing holds the latest records first, as many as the clamped limit
      allows, all taken from the stored ones. */
  lemma DeployHistoryShape(userId: string, limit: int, history: seq<DeployHistory>)
    requires !IsBlank(userId)
    ensures var r := GetDeployHistory(userId, limit, history).value;
      && |r| == (if |history| < ClampLimit(limit) then |history| else ClampLimit(limit))
      && (forall i :: 0 <= i < |r| ==> r[i] in history)
      && multiset(r) <= multiset(history)
      && (forall i, j :: 0 <= i < j < |r| ==> r[i].createdAt >= r[j].createdAt)
  {
    var s := SortBy(history, DeployOrder());
    SortByCorrect(history, DeployOrder());
    var r := GetDeployHistory(userId, limit, history).value;
    assert r == s[..|r|];
    TakeSubMultiset(s, ClampLimit(limit));
    forall i | 0 <= i < |r| ensures r[i] in history {
      assert r[i] == s[i] && s[i] in multiset(s);
    }
    forall i, j | 0 <= i < j < |r| ensures r[i].createdAt >= r[j].createdAt {
      assert r[i] == s[i] && r[j] == s[j];
      assert !DeployOrder()(s[j], s[i]);
    }
  }

  /** A stored record left out of the listing is no newer than any listed one,
      and the listing is full. */
  lemma DeployHistoryKeepsLatest(userId: string, limit: int, history: seq<DeployHistory>, d: DeployHistory)
    requires !IsBlank(userId) && d in history
    ensures var r := GetDeployHistory(userId, limit, history).value;
      d in r || (|r| == ClampLimit(limit) && forall x :: x in r ==> d.createdAt <= x.createdAt)
  {
    var s := SortBy(history, DeployOrder());
    SortByCorrect(history, DeployOrder());
    assert d in multiset(s);
    var p :| 0 <= p < |s| && s[p] == d;
    TakeOrOutranked(s, ClampLimit(limit), DeployOrder(), p);
    var r := GetDeployHistory(userId, limit, history).value;
    if p < |r| {
      assert r[p] == d;
    }
  }

  /** The profile service over the configuration and deploy containers. */
  class ProfileService {
    const configs: Container<ProfileConfig>
    const deploys: Container<DeployHistory>

    constructor(configs: Container<ProfileConfig>, deploys: Container<DeployHistory>)
      ensures this.configs == configs && this.deploys == deploys
    {
      this.configs := configs;
      this.deploys := deploys;
    }

    /** `GetUserConfigAsync`. */
    function GetUserConfig(userId: string): (r: Result<Option<ProfileConfig>>)
      reads configs
      ensures r.Err? <==> IsBlank(userId)
      ensures r.Ok? ==> r.value == configs.Get(ConfigId(userId), userId)
    {
      if IsBlank(userId) then Err("userId") else Ok(configs.Get(ConfigId(userId), userId))
    }

    /** `SaveUserConfigAsync`: upsert under the configuration's own id and
        partition, stamping the update time. */
    method SaveUserConfig(config: ProfileConfig, now: int) returns (r: Result<ProfileConfig>)
      modifies configs
      ensures r.Err? <==> IsBlank(config.userId)
      ensures r.Err? ==> configs.docs == old(configs.docs)
      ensures r.Ok? ==> r.value == config.(updatedAt := now)
      ensures r.Ok? ==> configs.docs == old(configs.docs)[(config.id, config.userId) := r.value]
    {
      if IsBlank(config.userId) {
        return Err("userId");
      }
      var saved := config.(updatedAt := now);
      configs.Upsert(saved.id, saved.userId, saved);
      return Ok(saved);
    }

    /** `CreateFromTemplateAsync`: `templates` is what the template query
        returns. A blank argument or an unknown or inactive slug writes
        nothing. */
    method CreateFromTemplate(userId: string, templateSlug: string, templates: seq<ProfileTemplate>, now: int)
      returns (r: Result<ProfileConfig>)
      modifies configs
      ensures r.Err? <==> IsBlank(userId) || IsBlank(templateSlug)
                          || TemplateService.GetTemplateBySlug(templateSlug, templates) == Ok(None)
      ensures r.Err? ==> configs.docs == old(configs.docs)
      ensures r.Ok? ==> exists t :: t in templates && t.slug == templateSlug && t.isActive &&
                          r.value == CreateForUser(userId, t, now).(updatedAt := now)
      ensures r.Ok? ==> r.value == CreateForUser(userId, TemplateService.GetTemplateBySlug(templateSlug, templates).value.value, now).(updatedAt := now)
      ensures r.Ok? ==> r.value.id == ConfigId(userId) && r.value.userId == userId && r.value.isDraft
      ensures r.Ok? ==> configs.docs == old(configs.docs)[(ConfigId(userId), userId) := r.value]
    {
      if IsBlank(userId) || IsBlank(templateSlug) {
        return Err("argument");
      }
      var found := TemplateService.GetTemplateBySlug(templateSlug, templates);
      if found.value.None? {
        return Err("template not found or inactive");
      }
      var config := CreateForUser(userId, found.value.value, now).(updatedAt := now);
      configs.Upsert(config.id, config.userId, config);
      return Ok(config);
    }

    /** `DeleteUserConfigAsync`: afterwards the configuration reads as absent. */
    method DeleteUserConfig(userId: string) returns (r: Result<()>)
      modifies configs
      ensures r.Err? <==> IsBlank(userId)
      ensures r.Err? ==> configs.docs == old(configs.docs)
      ensures r.Ok? ==> configs.docs == old(configs.docs) - {(ConfigId(userId), userId)}
      ensures r.Ok? ==> GetUserConfig(userId) == Ok(None)
    {
      if IsBlank(userId) {
        return Err("userId");
      }
      configs.Delete(ConfigId(userId), userId);
      return Ok(());
    }

    /** `GetDeployByIdAsync`. */
    function GetDeployById(deployId: string, userId: string): (r: Result<Option<DeployHistory>>)
      reads deploys
      ensures r.Err? <==> IsBlank(deployId) || IsBlank(userId)
      ensures r.Ok? ==> r.value == deploys.Get(deployId, userId)
    {
      if IsBlank(deployId) || IsBlank(userId) then Err("argument") else Ok(deploys.Get(deployId, userId))
    }

    /**
     * `RecordDeployAsync`: the deploy record is always written, with a snapshot
     * of the configuration as it was; after a successful deploy the caller's
     * configuration leaves draft state, is stamped with the deploy time and is
     * saved. `updated` is the caller's configuration object afterwards;
     * `stamp` and `guid` are the formatted clock and a fresh Guid.
     */
    method RecordDeploy(userId: string, config: ProfileConfig, result: DeployResult,
                        now: int, stamp: string, guid: string)
      returns (r: Result<DeployHistory>, updated: ProfileConfig)
      modifies configs, deploys
      ensures r.Err? <==> IsBlank(userId)
      ensures r.Err? ==> configs.docs == old(configs.docs) && deploys.docs == old(deploys.docs) && updated == config
      ensures r.Ok? ==> r.value == Create(userId, config, result, now, stamp, guid).(updatedAt := now)
      ensures r.Ok? ==> r.value.configSnapshot == config && r.value.result == result
      ensures r.Ok? ==> deploys.docs == old(deploys.docs)[(r.value.id, userId) := r.value]
      ensures r.Ok? && result.success ==>
                updated == config.(isDraft := false, lastDeployedAt := Some(now), updatedAt := now)
                && configs.docs == old(configs.docs)[(config.id, config.userId) := updated]
      ensures r.Ok? && !result.success ==> updated == config && configs.docs == old(configs.docs)
    {
      updated := config;
      if IsBlank(userId) {
        return Err("userId"), updated;
      }
      var deploy := Create(userId, config, result, now, stamp, guid).(updatedAt := now);
      deploys.Upsert(deploy.id, deploy.userId, deploy);
      if result.success {
        updated := config.(isDraft := false, lastDeployedAt := Some(now));
        updated := updated.(updatedAt := now);
        configs.Upsert(updated.id, updated.userId, updated);
      }
      return Ok(deploy), updated;
    }
  }

  /** Reading and deleting address the same document: the one `CreateForUser`
      and `CreateEmpty` give the user. */
  lemma ConfigAddressing(userId: string, template: ProfileTemplate, theme: ThemeConfig, now: int)
    ensures CreateForUser(userId, template, now).id == ConfigId(userId)
    ensures CreateEmpty(userId, theme, now).id == ConfigId(userId)
    ensures ConfigId(userId) == "profileConfig-" + userId
  {
  }
}
