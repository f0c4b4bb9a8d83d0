/** The static stage table and project constant of `config.ts`. */
module Config {

  datatype Env = Env(account: string, region: string)

  /** One row of the stage table: the branch it is chosen for and where that branch deploys. */
  datatype StageDefinition = StageDefinition(branch: string, alias: string, env: Env, deployMfa: bool)

  const Project: string := "mvp"

  /** The table as shipped: every row still has its account, region and alias left blank. */
  const Stages: seq<StageDefinition> := [
    StageDefinition("individual", "", Env("", ""), false),
    StageDefinition("develop", "", Env("", ""), false),
    StageDefinition("qa", "", Env("", ""), false),
    StageDefinition("master", "", Env("", ""), false)
  ]

  /** Four rows, in the order individual, develop, qa, master; the head is the fallback row. */
  lemma StagesOrder()
    ensures |Stages| == 4
    ensures Stages[0].branch == "individual" && Stages[1].branch == "develop"
    ensures Stages[2].branch == "qa" && Stages[3].branch == "master"
  {
  }

  /** No branch name appears in two rows, so looking a branch up is unambiguous. */
  lemma StagesDistinctBranches()
    ensures forall i, j :: 0 <= i < j < |Stages| ==> Stages[i].branch != Stages[j].branch
  {
  }

  /** Every shipped row has an empty account and no MFA-gated deploy. */
  lemma StagesUnconfigured()
    ensures forall i :: 0 <= i < |Stages| ==> Stages[i].env.account == "" && !Stages[i].deployMfa
  {
  }
}
