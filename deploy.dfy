/**
 * `bin/deploy.ts`: resolve the configuration, make sure `./dist` and the
 * cleanup-queue file exist, and deploy the synthesised app.
 */
module Deploy {
  import opened Wrappers
  import opened Host
  import Config

  /** `STACK`, every stack when undefined. */
  function DeployStack(env: map<string, string>): string {
    Lookup(env, "STACK").GetOr("--all")
  }

  /** `IS_CODEBUILD ? '' : --profile …`: only CodeBuild drops the flag. */
  function DeployProfileFlag(env: map<string, string>, profile: string): string {
    if EnvSet(env, "IS_CODEBUILD") then "" else "--profile " + profile
  }

  function DeployCommand(stack: string, includeProfile: string, stage: string): string {
    "npm run cdk -- deploy " + stack + " --app cdk.out --concurrency 10 --require-approval never "
    + includeProfile + " --outputs-file ./dist/" + stage + "-outputs.json"
  }

  function DeploySpec(w: World, o: Outside, table: seq<Config.StageDefinition>): World {
    match ScriptConfig(w, o, table)
    case Err(_) => Fail(w)
    case Ok(cfg) =>
      InitThenSpawn(w, o.spawnSucceeds, DeployCommand(DeployStack(w.env), DeployProfileFlag(w.env, cfg.profile), cfg.stage))
  }

  method Deploy(h: Machine, o: Outside, table: seq<Config.StageDefinition>)
    modifies h
    ensures h.State() == DeploySpec(old(h.State()), o, table)
  {
    var stack := DeployStack(h.env);
    var resolved := ScriptConfig(h.State(), o, table);
    if resolved.Err? {
      h.Exit();
      return;
    }
    var cfg := resolved.value;
    var includeProfile := DeployProfileFlag(h.env, cfg.profile);
    RunInitThenSpawn(h, o.spawnSucceeds, DeployCommand(stack, includeProfile, cfg.stage));
  }

  /**
   * The profile flag is dropped exactly when `IS_CODEBUILD` is non-empty;
   * `IS_GITHUB` plays no part.
   */
  lemma DeployProfileFlagRule(env: map<string, string>, profile: string, github: string)
    ensures DeployProfileFlag(env, profile) == "" <==> EnvSet(env, "IS_CODEBUILD")
    ensures DeployProfileFlag(env, profile) != "" ==> DeployProfileFlag(env, profile) == "--profile " + profile
    ensures DeployProfileFlag(env["IS_GITHUB" := github], profile) == DeployProfileFlag(env, profile)
  {
    assert |"--profile " + profile| > 0;
    assert EnvSet(env["IS_GITHUB" := github], "IS_CODEBUILD") == EnvSet(env, "IS_CODEBUILD");
  }

  /** A configuration that does not resolve ends the script with code 1 before any write or command. */
  lemma DeployConfigFailure(w: World, o: Outside, table: seq<Config.StageDefinition>)
    requires ScriptConfig(w, o, table).Err?
    ensures DeploySpec(w, o, table) == w.(exitCode := Some(1))
  {
  }

  /**
   * Once the configuration resolves and the queue file is in place, the one
   * command run deploys `STACK` (every stack by default) from `cdk.out` and
   * writes the outputs to `./dist/<stage>-outputs.json`; the process fails
   * exactly when that command does.
   */
  lemma DeployRun(w: World, o: Outside, table: seq<Config.StageDefinition>)
    requires ScriptConfig(w, o, table).Ok? && InitQueueFile(w).ok
    ensures var cfg := ScriptConfig(w, o, table).value;
            var command := "npm run cdk -- deploy " + Lookup(w.env, "STACK").GetOr("--all")
                           + " --app cdk.out --concurrency 10 --require-approval never "
                           + DeployProfileFlag(w.env, cfg.profile) + " --outputs-file ./dist/" + cfg.stage + "-outputs.json";
            var r := DeploySpec(w, o, table);
            r.events == w.events + [Spawn(command)]
            && r.files == InitQueueFile(w).world.files
            && (r.exitCode == Some(1) <==> !o.spawnSucceeds(command) || w.exitCode == Some(1))
  {
    InitQueueFileEffect(w);
  }

  /** Deploying twice leaves the same files and directories as deploying once. */
  lemma DeployTwice(w: World, o: Outside, table: seq<Config.StageDefinition>)
    ensures var once := DeploySpec(w, o, table);
            DeploySpec(once, o, table).files == once.files && DeploySpec(once, o, table).dirs == once.dirs
  {
    match ScriptConfig(w, o, table)
    case Err(_) =>
    case Ok(cfg) =>
      var command := DeployCommand(DeployStack(w.env), DeployProfileFlag(w.env, cfg.profile), cfg.stage);
      var once := DeploySpec(w, o, table);
      InitThenSpawnTwice(w, o.spawnSucceeds, command, command);
      assert once.env == w.env;
      assert ScriptConfig(once, o, table) == ScriptConfig(w, o, table);
  }
}
