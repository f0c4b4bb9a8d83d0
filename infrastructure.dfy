/**
 * `infrastructure.ts`: the CDK app entry point. It resolves the
 * configuration, checks the AWS profile unless it runs in CodeBuild or
 * GitHub, and adds the stateful stack and then the foo stack.
 */
module Infrastructure {
  import opened Wrappers
  import opened Strings
  import opened AppConfig
  import opened Host
  import Config

  const StatefulStackName := "stateful"
  const FooStackName := "foo"

  function GetStackName(project: string, stack: string, stage: string): string {
    project + "-" + stack + "-stack-" + stage
  }

  /** `!IS_CODEBUILD && IS_GITHUB.toLowerCase() !== 'true'`, with `IS_GITHUB` defaulting to `'false'`. */
  predicate ValidatesProfile(env: map<string, string>) {
    !EnvSet(env, "IS_CODEBUILD") && ToLower(Lookup(env, "IS_GITHUB").GetOr("false")) != "true"
  }

  /** The props of one stack: `terminationProtection` first, the configuration spread over it, then name and stack. */
  function PropsFor(cfg: ApplicationConfig, stack: string): StackProps {
    var name := GetStackName(cfg.project, stack, cfg.stage);
    StackProps(cfg.stage == "prod", cfg, name, stack)
  }

  function StackCreation(cfg: ApplicationConfig, stack: string): Event {
    CreateStack(GetStackName(cfg.project, stack, cfg.stage), PropsFor(cfg, stack))
  }

  function BuildInfrastructureSpec(w: World, o: Outside, table: seq<Config.StageDefinition>): World {
    match ScriptConfig(w, o, table)
    case Err(_) => Fail(w)
    case Ok(cfg) =>
      var w1 := if ValidatesProfile(w.env) then Recorded(w, [ValidateProfile(cfg.profile)]) else w;
      if ValidatesProfile(w.env) && !o.profileAccepted(cfg.profile) then Fail(w1)
      else Recorded(w1, [StackCreation(cfg, StatefulStackName), StackCreation(cfg, FooStackName)])
  }

  method BuildInfrastructure(h: Machine, o: Outside, table: seq<Config.StageDefinition>)
    modifies h
    ensures h.State() == BuildInfrastructureSpec(old(h.State()), o, table)
  {
    var resolved := ScriptConfig(h.State(), o, table);
    if resolved.Err? {
      h.Exit();
      return;
    }
    var cfg := resolved.value;
    if ValidatesProfile(h.env) {
      h.Record(ValidateProfile(cfg.profile));
      if !o.profileAccepted(cfg.profile) {
        h.Exit();
        return;
      }
    }
    var statefulName := GetStackName(cfg.project, StatefulStackName, cfg.stage);
    h.Record(CreateStack(statefulName, PropsFor(cfg, StatefulStackName)));
    var fooName := GetStackName(cfg.project, FooStackName, cfg.stage);
    h.Record(CreateStack(fooName, PropsFor(cfg, FooStackName)));
  }

  /**
   * Stack names are `<project>-<stack>-stack-<stage>`: for one project and
   * stage, different stacks get different names.
   */
  lemma {:induction false} StackNameInjective(project: string, stack1: string, stack2: string, stage: string)
    ensures GetStackName(project, stack1, stage) == GetStackName(project, stack2, stage) <==> stack1 == stack2
  {
    var n1 := GetStackName(project, stack1, stage);
    var n2 := GetStackName(project, stack2, stage);
    if n1 == n2 {
      var lead := |project| + 1;
      assert |stack1| == |stack2|;
      assert n1[lead..lead + |stack1|] == stack1;
      assert n2[lead..lead + |stack2|] == stack2;
    }
  }

  /** The two stacks never share a name. */
  lemma StackNamesDistinct(project: string, stage: string)
    ensures GetStackName(project, StatefulStackName, stage) != GetStackName(project, FooStackName, stage)
  {
    StackNameInjective(project, StatefulStackName, FooStackName, stage);
  }

  /**
   * The profile is checked unless `IS_CODEBUILD` is non-empty or `IS_GITHUB`
   * reads `true` in any letter case; an unset `IS_GITHUB` counts as `false`.
   */
  lemma ProfileGate(env: map<string, string>)
    ensures ValidatesProfile(env) <==> !EnvSet(env, "IS_CODEBUILD") && ("IS_GITHUB" !in env || ToLower(env["IS_GITHUB"]) != "true")
    ensures !EnvSet(env, "IS_CODEBUILD") ==> !ValidatesProfile(env["IS_GITHUB" := "TRUE"]) && !ValidatesProfile(env["IS_GITHUB" := "True"])
    ensures !EnvSet(env, "IS_CODEBUILD") && "IS_GITHUB" !in env ==> ValidatesProfile(env)
  {
    assert ToLower("false") == "false";
    assert ToLower("TRUE") == "true";
    assert ToLower("True") == "true";
    assert EnvSet(env["IS_GITHUB" := "TRUE"], "IS_CODEBUILD") == EnvSet(env, "IS_CODEBUILD");
    assert EnvSet(env["IS_GITHUB" := "True"], "IS_CODEBUILD") == EnvSet(env, "IS_CODEBUILD");
  }

  /**
   * When the configuration resolves and the profile check, if made, passes:
   * exactly two stacks are added, stateful first and foo second, each with
   * its own name and stack field, and each protected against termination
   * exactly when the stage is `prod`.
   */
  lemma TwoStacks(w: World, o: Outside, table: seq<Config.StageDefinition>)
    requires ScriptConfig(w, o, table).Ok?
    requires ValidatesProfile(w.env) ==> o.profileAccepted(ScriptConfig(w, o, table).value.profile)
    ensures var cfg := ScriptConfig(w, o, table).value;
            var r := BuildInfrastructureSpec(w, o, table);
            var checked := if ValidatesProfile(w.env) then [ValidateProfile(cfg.profile)] else [];
            |r.events| == |w.events| + |checked| + 2
            && r.events[..|w.events| + |checked|] == w.events + checked
            && var stateful := r.events[|w.events| + |checked|];
               var foo := r.events[|w.events| + |checked| + 1];
               stateful.CreateStack? && foo.CreateStack?
               && stateful.props.stack == "stateful" && foo.props.stack == "foo"
               && stateful.id == stateful.props.stackName == cfg.project + "-stateful-stack-" + cfg.stage
               && foo.id == foo.props.stackName == cfg.project + "-foo-stack-" + cfg.stage
               && (stateful.props.terminationProtection <==> cfg.stage == "prod")
               && (foo.props.terminationProtection <==> cfg.stage == "prod")
               && stateful.props.config == cfg && foo.props.config == cfg
               && r.exitCode == w.exitCode
  {
    var cfg := ScriptConfig(w, o, table).value;
    var checked := if ValidatesProfile(w.env) then [ValidateProfile(cfg.profile)] else [];
    var w1 := if ValidatesProfile(w.env) then Recorded(w, [ValidateProfile(cfg.profile)]) else w;
    assert w1.events == w.events + checked;
    assert BuildInfrastructureSpec(w, o, table) == Recorded(w1, [StackCreation(cfg, StatefulStackName), StackCreation(cfg, FooStackName)]);
    StacksAfter(w1, cfg);
  }

  /** The two stack creations appended to any record, for any configuration. */
  lemma StacksAfter(w1: World, cfg: ApplicationConfig)
    ensures var r := Recorded(w1, [StackCreation(cfg, StatefulStackName), StackCreation(cfg, FooStackName)]);
            |r.events| == |w1.events| + 2
            && r.events[..|w1.events|] == w1.events
            && var stateful := r.events[|w1.events|];
               var foo := r.events[|w1.events| + 1];
               stateful.CreateStack? && foo.CreateStack?
               && stateful.props.stack == "stateful" && foo.props.stack == "foo"
               && stateful.id == stateful.props.stackName == cfg.project + "-stateful-stack-" + cfg.stage
               && foo.id == foo.props.stackName == cfg.project + "-foo-stack-" + cfg.stage
               && (stateful.props.terminationProtection <==> cfg.stage == "prod")
               && (foo.props.terminationProtection <==> cfg.stage == "prod")
               && stateful.props.config == cfg && foo.props.config == cfg
               && r.exitCode == w1.exitCode
  {
    var created := [StackCreation(cfg, StatefulStackName), StackCreation(cfg, FooStackName)];
    assert (w1.events + created)[..|w1.events|] == w1.events;
  }

  /** A configuration that does not resolve, or a rejected profile, ends the app with code 1 and no stack. */
  lemma NoStackOnFailure(w: World, o: Outside, table: seq<Config.StageDefinition>)
    requires ScriptConfig(w, o, table).Err?
             || (ValidatesProfile(w.env) && !o.profileAccepted(ScriptConfig(w, o, table).value.profile))
    ensures var r := BuildInfrastructureSpec(w, o, table);
            r.exitCode == Some(1) && forall i :: 0 <= i < |r.events| ==> !r.events[i].CreateStack? || i < |w.events|
  {
  }
}
