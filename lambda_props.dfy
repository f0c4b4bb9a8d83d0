/**
 * The settings every Lambda function of the template starts from
 * (lib/infrastructure/lambda.ts). `fromRoot()` is a parameter: it is the
 * project's root directory on the machine running the build.
 */
module LambdaProps {
  import opened Wrappers
  import opened Dict
  import opened Json

  datatype RetentionDays = ThreeDays | Infinite

  /** Node.js function props: environment, runtime, timeout, bundling options, log retention, project root. */
  datatype CommonLambdaProps = CommonLambdaProps(
    environment: Dict<string>,
    runtime: string,
    timeoutSeconds: nat,
    bundling: Dict<Json>,
    logRetention: RetentionDays,
    projectRoot: string)

  /** The longest an API Gateway REST integration waits for a Lambda function. */
  const ApiGatewayRestApiMaxTimeout: nat := 29

  const Runtime := "nodejs18.x"

  function BoolToString(b: bool): (r: string)
    ensures r == "true" || r == "false"
  {
    if b then "true" else "false"
  }

  function BuildCommonLambdaProps(stage: string, stack: string, isStagingEnv: bool, projectRoot: string): CommonLambdaProps {
    CommonLambdaProps(
      [("LOGGING_LEVEL", if stage == "prod" then "warn" else "debug"),
       ("sentryLogPercentage", if stage == "prod" then "0.0001" else "0.1"),
       ("isStagingEnv", BoolToString(isStagingEnv)),
       ("stack", stack),
       ("stage", stage)],
      Runtime,
      ApiGatewayRestApiMaxTimeout,
      [("minify", JBool(true))],
      if stage == "prod" then Infinite else ThreeDays,
      projectRoot)
  }

  /** The environment sets exactly five variables, each once. */
  lemma CommonEnvironmentKeys(stage: string, stack: string, isStagingEnv: bool, projectRoot: string)
    ensures var env := BuildCommonLambdaProps(stage, stack, isStagingEnv, projectRoot).environment;
            DistinctKeys(env)
            && Keys(env) == {"LOGGING_LEVEL", "sentryLogPercentage", "isStagingEnv", "stack", "stage"}
  {
    var env := BuildCommonLambdaProps(stage, stack, isStagingEnv, projectRoot).environment;
    assert env[0].0 == "LOGGING_LEVEL" && env[1].0 == "sentryLogPercentage" && env[2].0 == "isStagingEnv"
        && env[3].0 == "stack" && env[4].0 == "stage";
  }

  /** `b.toString()` is read back as the boolean it came from. */
  lemma BoolToStringInjective(b: bool)
    ensures BoolToString(b) == "true" <==> b
    ensures BoolToString(b) == "false" <==> !b
  {
  }

  /**
   * Production differs from every other stage in exactly three settings: it
   * logs at `warn` instead of `debug`, samples 0.0001 instead of 0.1 of its
   * logs to Sentry, and keeps its logs forever instead of three days.
   */
  lemma ProdSettings(stage: string, stack: string, isStagingEnv: bool, projectRoot: string)
    ensures var r := BuildCommonLambdaProps(stage, stack, isStagingEnv, projectRoot);
            (Get(r.environment, "LOGGING_LEVEL") == Some("warn") <==> stage == "prod")
            && (Get(r.environment, "LOGGING_LEVEL") == Some("debug") <==> stage != "prod")
            && (Get(r.environment, "sentryLogPercentage") == Some("0.0001") <==> stage == "prod")
            && (Get(r.environment, "sentryLogPercentage") == Some("0.1") <==> stage != "prod")
            && (r.logRetention == Infinite <==> stage == "prod")
  {
    CommonEnvironmentKeys(stage, stack, isStagingEnv, projectRoot);
  }

  /**
   * Whatever the stage: the environment passes on the stack, the stage and
   * the staging flag as text; the timeout is 29 seconds; bundling minifies;
   * the runtime is Node.js 18.
   */
  lemma StageIndependentSettings(stage: string, stack: string, isStagingEnv: bool, projectRoot: string)
    ensures var r := BuildCommonLambdaProps(stage, stack, isStagingEnv, projectRoot);
            Get(r.environment, "stack") == Some(stack)
            && Get(r.environment, "stage") == Some(stage)
            && (Get(r.environment, "isStagingEnv") == Some("true") <==> isStagingEnv)
            && (Get(r.environment, "isStagingEnv") == Some("false") <==> !isStagingEnv)
            && r.timeoutSeconds == 29
            && Get(r.bundling, "minify") == Some(JBool(true))
            && r.runtime == "nodejs18.x"
            && r.projectRoot == projectRoot
  {
    CommonEnvironmentKeys(stage, stack, isStagingEnv, projectRoot);
  }
}
