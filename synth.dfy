/**
 * `bin/synth.ts`: resolve the configuration, make sure `./dist` and the
 * cleanup-queue file exist, and synthesise the CDK app.
 */
module Synth {
  import opened Wrappers
  import opened Host
  import Config

  /** `STACK`, empty when undefined. */
  function SynthStack(env: map<string, string>): string {
    Lookup(env, "STACK").GetOr("")
  }

  /** `IS_GITHUB || IS_CODEBUILD ? '' : --profile …`: either variable set to any non-empty text drops the flag. */
  function SynthProfileFlag(env: map<string, string>, profile: string): string {
    if EnvSet(env, "IS_GITHUB") || EnvSet(env, "IS_CODEBUILD") then "" else "--profile " + profile
  }

  function SynthCommand(stack: string, includeProfile: string): string {
    "npm run cdk -- synth " + stack + " " + includeProfile + " --quiet"
  }

  function SynthSpec(w: World, o: Outside, table: seq<Config.StageDefinition>): World {
    match ScriptConfig(w, o, table)
    case Err(_) => Fail(w)
    case Ok(cfg) => InitThenSpawn(w, o.spawnSucceeds, SynthCommand(SynthStack(w.env), SynthProfileFlag(w.env, cfg.profile)))
  }

  method Synth(h: Machine, o: Outside, table: seq<Config.StageDefinition>)
    modifies h
    ensures h.State() == SynthSpec(old(h.State()), o, table)
  {
    var stack := SynthStack(h.env);
    var resolved := ScriptConfig(h.State(), o, table);
    if resolved.Err? {
      h.Exit();
      return;
    }
    var includeProfile := SynthProfileFlag(h.env, resolved.value.profile);
    RunInitThenSpawn(h, o.spawnSucceeds, SynthCommand(stack, includeProfile));
  }

  /**
   * The profile flag is dropped exactly when `IS_GITHUB` or `IS_CODEBUILD`
   * is non-empty, whatever its text, `'false'` included; otherwise it names
   * the resolved profile.
   */
  lemma SynthProfileFlagRule(env: map<string, string>, profile: string)
    ensures SynthProfileFlag(env, profile) == "" <==> EnvSet(env, "IS_GITHUB") || EnvSet(env, "IS_CODEBUILD")
    ensures SynthProfileFlag(env, profile) != "" ==> SynthProfileFlag(env, profile) == "--profile " + profile
    ensures SynthProfileFlag(env["IS_GITHUB" := "false"], profile) == ""
  {
    assert |"--profile " + profile| > 0;
  }

  /** A configuration that does not resolve ends the script with code 1 before any write or command. */
  lemma SynthConfigFailure(w: World, o: Outside, table: seq<Config.StageDefinition>)
    requires ScriptConfig(w, o, table).Err?
    ensures SynthSpec(w, o, table) == w.(exitCode := Some(1))
  {
  }

  /**
   * Once the configuration resolves and the queue file is in place, the one
   * command run is `npm run cdk -- synth STACK FLAG --quiet`, with `STACK`
   * empty by default; the process fails exactly when that command does.
   */
  lemma SynthRun(w: World, o: Outside, table: seq<Config.StageDefinition>)
    requires ScriptConfig(w, o, table).Ok? && InitQueueFile(w).ok
    ensures var cfg := ScriptConfig(w, o, table).value;
            var command := "npm run cdk -- synth " + Lookup(w.env, "STACK").GetOr("") + " "
                           + SynthProfileFlag(w.env, cfg.profile) + " --quiet";
            var r := SynthSpec(w, o, table);
            r.events == w.events + [Spawn(command)]
            && r.files == InitQueueFile(w).world.files
            && (r.exitCode == Some(1) <==> !o.spawnSucceeds(command) || w.exitCode == Some(1))
  {
    InitQueueFileEffect(w);
  }

  /** Synthesising twice leaves the same files and directories as synthesising once. */
  lemma SynthTwice(w: World, o: Outside, table: seq<Config.StageDefinition>)
    ensures var once := SynthSpec(w, o, table);
            SynthSpec(once, o, table).files == once.files && SynthSpec(once, o, table).dirs == once.dirs
  {
    match ScriptConfig(w, o, table)
    case Err(_) =>
    case Ok(cfg) =>
      var command := SynthCommand(SynthStack(w.env), SynthProfileFlag(w.env, cfg.profile));
      var once := SynthSpec(w, o, table);
      InitThenSpawnTwice(w, o.spawnSucceeds, command, command);
      assert once.env == w.env;
      assert ScriptConfig(once, o, table) == ScriptConfig(w, o, table);
  }
}
