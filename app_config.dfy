/**
 * `getAppConfig`: from the `BRANCH` environment variable (or, when it is undefined,
 * the current git branch) to the stage-table row, the stage name, the credential
 * profile and the staging flag. The environment variables and the git branch are
 * inputs; `None` stands for `undefined`.
 */
module AppConfig {
  import opened Wrappers
  import opened Strings
  import opened Config

  datatype ConfigError =
    | NoBranch            // neither BRANCH nor git gave a non-empty branch
    | NoStageDefinitions  // the table is empty, so `stages[0]` is undefined
    | NoAccount           // the chosen row has an empty account

  /** The resolved configuration: the chosen row's fields, with the branch, stage and flags derived. */
  datatype ApplicationConfig = ApplicationConfig(
    project: string,
    branch: string,
    stage: string,
    alias: string,
    env: Env,
    deployMfa: bool,
    profile: string,
    isStagingEnv: bool,
    fullDeploy: bool)

  /** `process.env.BRANCH ?? gitBranch`: the git branch only counts when BRANCH is undefined. */
  function ResolveBranch(branchEnv: Option<string>, gitBranch: Option<string>): (r: Option<string>)
    ensures branchEnv.Some? ==> r == branchEnv
    ensures branchEnv.None? ==> r == gitBranch
  {
    if branchEnv.Some? then branchEnv else gitBranch
  }

  /** Index of the first row whose branch is `branch`, or -1. */
  function FindIndex(table: seq<StageDefinition>, branch: string): (i: int)
    ensures -1 <= i < |table|
    ensures 0 <= i ==> table[i].branch == branch && forall j :: 0 <= j < i ==> table[j].branch != branch
    ensures i == -1 ==> forall j :: 0 <= j < |table| ==> table[j].branch != branch
  {
    if table == [] then -1
    else if table[0].branch == branch then 0
    else
      var i := FindIndex(table[1..], branch);
      if i == -1 then -1 else i + 1
  }

  /** `stages.find(s => s.branch === branch) ?? stages[0]`; `None` only for an empty table. */
  function FindStage(table: seq<StageDefinition>, branch: string): (r: Option<StageDefinition>)
    ensures r.None? <==> table == []
    ensures r.Some? ==> r.value in table
  {
    if table == [] then None
    else
      var i := FindIndex(table, branch);
      Some(if i == -1 then table[0] else table[i])
  }

  /** The stage name a branch deploys to. */
  function DeriveStage(branch: string): (stage: string)
    ensures '/' !in stage
  {
    if branch == "master" then "prod"
    else if branch == "qa" then "qa"
    else if branch == "develop" then "dev"
    else if '/' in branch then LastSegment(branch, '/')
    else branch
  }

  predicate IsStagingStage(stage: string) {
    stage == "prod" || stage == "qa" || stage == "dev"
  }

  function Profile(alias: string, deployMfa: bool): string {
    if deployMfa then alias + "-token" else alias
  }

  /**
   * `getAppConfig`: the branch from `BRANCH` or git selects the first table
   * row with that branch (else the first row); the stage is derived from the
   * branch. It throws for a missing branch, an empty table or a row without
   * an account.
   */
  function GetAppConfig(
    branchEnv: Option<string>, gitBranch: Option<string>, fullDeployEnv: Option<string>,
    table: seq<StageDefinition>): (r: Result<ApplicationConfig, ConfigError>)
    ensures r.Ok? ==> r.value.branch != "" && r.value.env.account != "" && r.value.project == Project
    ensures r.Ok? ==> '/' !in r.value.stage && r.value.stage == DeriveStage(r.value.branch)
    ensures r.Ok? ==> Some(r.value.branch) == ResolveBranch(branchEnv, gitBranch)
  {
    var resolved := ResolveBranch(branchEnv, gitBranch);
    if resolved.None? || resolved.value == "" then Err(NoBranch)
    else
      var branch := resolved.value;
      match FindStage(table, branch)
      case None => Err(NoStageDefinitions)
      case Some(row) =>
        if row.env.account == "" then Err(NoAccount)
        else
          var stage := DeriveStage(branch);
          Ok(ApplicationConfig(
            project := Project,
            branch := branch,
            stage := stage,
            alias := row.alias,
            env := row.env,
            deployMfa := row.deployMfa,
            profile := Profile(row.alias, row.deployMfa),
            isStagingEnv := IsStagingStage(stage),
            fullDeploy := fullDeployEnv == Some("true")))
  }

  /** A defined BRANCH, even an empty one, decides the branch: the git branch is never looked at. */
  lemma BranchOverridesGit(branch: string, git1: Option<string>, git2: Option<string>,
                           fullDeployEnv: Option<string>, table: seq<StageDefinition>)
    ensures GetAppConfig(Some(branch), git1, fullDeployEnv, table)
         == GetAppConfig(Some(branch), git2, fullDeployEnv, table)
    ensures branch == "" ==> GetAppConfig(Some(branch), git1, fullDeployEnv, table) == Err(NoBranch)
  {
  }

  /** Exactly when resolution fails, and with which error. */
  lemma ResolutionFailures(branchEnv: Option<string>, gitBranch: Option<string>,
                           fullDeployEnv: Option<string>, table: seq<StageDefinition>)
    ensures var b := ResolveBranch(branchEnv, gitBranch);
            var r := GetAppConfig(branchEnv, gitBranch, fullDeployEnv, table);
            && (r == Err(NoBranch) <==> b.None? || b.value == "")
            && (r == Err(NoStageDefinitions) <==> b.Some? && b.value != "" && table == [])
            && (r == Err(NoAccount) <==> b.Some? && b.value != "" && table != []
                                         && FindStage(table, b.value).value.env.account == "")
  {
  }

  /**
   * On success the configuration is the first row for the branch (or the head row when
   * no row has it), with the resolved branch, the derived stage, the project constant
   * and the flags computed as the source computes them.
   */
  lemma {:induction false} ResolvedConfig(branchEnv: Option<string>, gitBranch: Option<string>,
                                          fullDeployEnv: Option<string>, table: seq<StageDefinition>)
    requires GetAppConfig(branchEnv, gitBranch, fullDeployEnv, table).Ok?
    ensures var c := GetAppConfig(branchEnv, gitBranch, fullDeployEnv, table).value;
            var i := FindIndex(table, c.branch);
            var row := if i == -1 then table[0] else table[i];
            && ResolveBranch(branchEnv, gitBranch) == Some(c.branch) && c.branch != ""
            && (i == -1 <==> forall j :: 0 <= j < |table| ==> table[j].branch != c.branch)
            && c.alias == row.alias && c.env == row.env && c.deployMfa == row.deployMfa
            && c.env.account != ""
            && c.project == "mvp"
            && c.stage == DeriveStage(c.branch)
            && (c.profile == if row.deployMfa then row.alias + "-token" else row.alias)
            && (c.isStagingEnv <==> c.stage in {"prod", "qa", "dev"})
            && (c.fullDeploy <==> fullDeployEnv == Some("true"))
  {
  }

  /** A branch listed in a table without duplicates resolves to its own row. */
  lemma ListedBranchResolves(branch: string, gitBranch: Option<string>, fullDeployEnv: Option<string>,
                             table: seq<StageDefinition>, i: int)
    requires branch != ""
    requires 0 <= i < |table| && table[i].branch == branch && table[i].env.account != ""
    requires forall j, k :: 0 <= j < k < |table| ==> table[j].branch != table[k].branch
    ensures var r := GetAppConfig(Some(branch), gitBranch, fullDeployEnv, table);
            r.Ok? && r.value.alias == table[i].alias && r.value.env == table[i].env
  {
    var k := FindIndex(table, branch);
    assert k == i;
  }

  /** The stage derivation rules, including the path-segment case. */
  lemma StageRules(branch: string)
    ensures branch == "master" ==> DeriveStage(branch) == "prod"
    ensures branch == "qa" ==> DeriveStage(branch) == "qa"
    ensures branch == "develop" ==> DeriveStage(branch) == "dev"
    ensures branch !in {"master", "qa", "develop"} && '/' in branch ==>
              exists prefix :: branch == prefix + "/" + DeriveStage(branch)
    ensures branch !in {"master", "qa", "develop"} && '/' !in branch ==> DeriveStage(branch) == branch
  {
    if branch !in {"master", "qa", "develop"} && '/' in branch {
      LastSegmentSuffix(branch, '/');
    }
  }

  /** A branch `prefix/seg` other than the three fixed names deploys to `seg`. */
  lemma StageOfPath(prefix: string, seg: string)
    requires '/' !in seg
    requires prefix + "/" + seg !in {"master", "qa", "develop"}
    ensures DeriveStage(prefix + "/" + seg) == seg
  {
    var b := prefix + "/" + seg;
    assert b[|prefix|] == '/';
    LastSegmentOf(prefix, seg, '/');
  }

  /** `feature/qa` deploys to the staging stage `qa`. */
  lemma FeatureQaIsStaging()
    ensures DeriveStage("feature/qa") == "qa" && IsStagingStage(DeriveStage("feature/qa"))
  {
    assert "feature/qa" == "feature" + "/" + "qa";
    StageOfPath("feature", "qa");
  }

  /** `release/develop` deploys to a stage named `develop`, which is not a staging stage. */
  lemma ReleaseDevelopIsNotStaging()
    ensures DeriveStage("release/develop") == "develop" && !IsStagingStage(DeriveStage("release/develop"))
  {
    assert "release/develop" == "release" + "/" + "develop";
    StageOfPath("release", "develop");
  }

  /** A branch ending in `/` deploys to the empty stage. */
  lemma TrailingSlashGivesEmptyStage()
    ensures DeriveStage("foo/") == ""
  {
    assert "foo/" == "foo" + "/" + "";
    StageOfPath("foo", "");
  }

  /** With the shipped table every resolution fails, at the branch check or the account check. */
  lemma ShippedTableAlwaysFails(branchEnv: Option<string>, gitBranch: Option<string>, fullDeployEnv: Option<string>)
    ensures var r := GetAppConfig(branchEnv, gitBranch, fullDeployEnv, Stages);
            r == Err(NoBranch) || r == Err(NoAccount)
  {
    StagesUnconfigured();
    var b := ResolveBranch(branchEnv, gitBranch);
    if b.Some? && b.value != "" {
      assert FindStage(Stages, b.value).value in Stages;
    }
  }

  /** With the shipped table an unknown branch falls back to `individual`, and every profile is the alias. */
  lemma ShippedTableLookup(branch: string)
    ensures FindStage(Stages, branch).Some?
    ensures branch !in {"individual", "develop", "qa", "master"} ==> FindStage(Stages, branch).value.branch == "individual"
    ensures var row := FindStage(Stages, branch).value; Profile(row.alias, row.deployMfa) == row.alias
  {
    StagesUnconfigured();
    assert FindStage(Stages, branch).value in Stages;
  }
}
