/**
 * The machine the deployment scripts run on: `process.env`, the project's
 * file system, the record of calls that reach outside (profile checks, log
 * group deletions, spawned commands, queue messages, stacks added to the CDK
 * app) and the exit code. `Outside` gathers what those calls answer; the
 * scripts read it and never change it.
 *
 * Paths are relative to the project root, which is also the working
 * directory the scripts are started from.
 */
module Host {
  import opened Wrappers
  import opened Json
  import opened AppConfig

  /** Properties passed to a stack: the resolved configuration spread over the protection flag, then name and stack. */
  datatype StackProps = StackProps(terminationProtection: bool, config: ApplicationConfig, stackName: string, stack: string)

  datatype Event =
    | ValidateProfile(profile: string)
    | DeleteLogGroup(logGroupName: string, succeeded: bool)
    | Spawn(command: string)
    | SendMessage(queueUrl: string, messageBody: string)
    | CreateStack(id: string, props: StackProps)

  /** One answer of `DescribeLogGroups`: the names on the page (`logGroups` may be absent) and the next token. */
  datatype Page = Page(logGroupNames: Option<seq<string>>, nextToken: Option<string>)

  /**
   * How the world outside the process answers: the git branch, the profiles
   * AWS accepts, the log-group pages in the order they are served, which
   * deletions and commands succeed, `JSON.parse`/`JSON.stringify`, and
   * whether sending the queue message succeeds.
   */
  datatype Outside = Outside(
    gitBranch: Option<string>,
    profileAccepted: string -> bool,
    pages: seq<Page>,
    deleteSucceeds: string -> bool,
    spawnSucceeds: string -> bool,
    parse: string -> Option<Json>,
    stringify: Json -> string,
    sendSucceeds: bool)

  /** A snapshot of the host. `exitCode` is `None` while the process has not called `process.exit`. */
  datatype World = World(
    env: map<string, string>,
    dirs: set<string>,
    files: map<string, string>,
    events: seq<Event>,
    exitCode: Option<int>)

  const DistDir := "dist"
  const QueueFile := "dist/edgeCleanupQueue.json"

  /** `JSON.stringify({ edgeLambdaNames: [] })`. */
  const EmptyQueue := "{\"edgeLambdaNames\":[]}"

  /** `process.env[k]`, `None` for `undefined`. */
  function Lookup(env: map<string, string>, k: string): (r: Option<string>)
    ensures r.Some? <==> k in env
    ensures r.Some? ==> r.value == env[k]
  {
    if k in env then Some(env[k]) else None
  }

  /** Truthiness of an environment variable: defined and not empty (so `'false'` is truthy). */
  predicate EnvSet(env: map<string, string>, k: string) {
    k in env && env[k] != ""
  }

  /** `existsSync`: a file or a directory. */
  predicate PathExists(w: World, p: string) {
    p in w.dirs || p in w.files
  }

  function Recorded(w: World, es: seq<Event>): World {
    w.(events := w.events + es)
  }

  /** `console.error(error); process.exit(1)`. */
  function Fail(w: World): World {
    w.(exitCode := Some(1))
  }

  /** The configuration the scripts resolve from `BRANCH`, the git branch and `FULL_DEPLOY`. */
  function ScriptConfig(w: World, o: Outside, table: seq<Config.StageDefinition>): Result<ApplicationConfig, ConfigError> {
    GetAppConfig(Lookup(w.env, "BRANCH"), o.gitBranch, Lookup(w.env, "FULL_DEPLOY"), table)
  }

  /** A step of the file system that may fail; `world` is the state reached either way. */
  datatype Step = Step(world: World, ok: bool)

  /**
   * `./dist` is created when nothing is at that path; the queue file is written
   * with an empty list only when nothing is at its path. Writing fails when
   * `./dist` is a file rather than a directory.
   */
  function InitQueueFile(w: World): Step {
    var w1 := if PathExists(w, DistDir) then w else w.(dirs := w.dirs + {DistDir});
    if PathExists(w1, QueueFile) then Step(w1, true)
    else if DistDir !in w1.dirs then Step(w1, false)
    else Step(w1.(files := w1.files[QueueFile := EmptyQueue]), true)
  }

  /** The shared tail of synth and deploy: initialise the queue file, then run `command`. */
  function InitThenSpawn(w: World, spawnSucceeds: string -> bool, command: string): World {
    var s := InitQueueFile(w);
    if !s.ok then Fail(s.world)
    else
      var w1 := Recorded(s.world, [Spawn(command)]);
      if spawnSucceeds(command) then w1 else Fail(w1)
  }

  class Machine {
    var env: map<string, string>
    var dirs: set<string>
    var files: map<string, string>
    var events: seq<Event>
    var exitCode: Option<int>

    function State(): World
      reads this
    {
      World(env, dirs, files, events, exitCode)
    }

    constructor (w: World)
      ensures State() == w
    {
      env, dirs, files, events, exitCode := w.env, w.dirs, w.files, w.events, w.exitCode;
    }

    method Record(e: Event)
      modifies this
      ensures State() == Recorded(old(State()), [e])
    {
      events := events + [e];
    }

    /** `process.env[k] = v`. */
    method SetEnv(k: string, v: string)
      modifies this
      ensures State() == old(State()).(env := old(env)[k := v])
    {
      env := env[k := v];
    }

    method Exists(p: string) returns (b: bool)
      ensures b == PathExists(State(), p)
    {
      b := p in dirs || p in files;
    }

    /** `mkdirSync(p, { recursive: true })`. */
    method MakeDirectory(p: string)
      modifies this
      ensures State() == old(State()).(dirs := old(dirs) + {p})
    {
      dirs := dirs + {p};
    }

    /** `writeFileSync` into `./dist`: it succeeds when `./dist` is a directory. */
    method WriteDistFile(p: string, contents: string) returns (ok: bool)
      modifies this
      ensures ok == (DistDir in old(dirs))
      ensures State() == if ok then old(State()).(files := old(files)[p := contents]) else old(State())
    {
      ok := DistDir in dirs;
      if ok {
        files := files[p := contents];
      }
    }

    method ReadFile(p: string) returns (r: Option<string>)
      ensures r.Some? <==> p in files
      ensures r.Some? ==> r.value == files[p]
    {
      r := if p in files then Some(files[p]) else None;
    }

    /** The error is logged and the process exits with 1. */
    method Exit()
      modifies this
      ensures State() == Fail(old(State()))
    {
      exitCode := Some(1);
    }

    /** The directory and queue-file initialisation that synth and deploy share. */
    method EnsureQueueFile() returns (ok: bool)
      modifies this
      ensures InitQueueFile(old(State())) == Step(State(), ok)
    {
      var distExists := Exists(DistDir);
      if !distExists {
        MakeDirectory(DistDir);
      }
      var queueExists := Exists(QueueFile);
      if queueExists {
        ok := true;
      } else {
        ok := WriteDistFile(QueueFile, EmptyQueue);
      }
    }
  }

  /**
   * The initialisation never overwrites or removes a file: every file keeps
   * its contents; the only file it may add is the queue file, holding the
   * empty list; `./dist` exists afterwards, and so does the queue file
   * when it succeeds. Environment, record and exit code are untouched.
   */
  lemma InitQueueFileEffect(w: World)
    ensures var s := InitQueueFile(w);
            (forall p :: p in w.files ==> p in s.world.files && s.world.files[p] == w.files[p])
            && (forall p :: p in s.world.files && p !in w.files ==> p == QueueFile && s.world.files[p] == EmptyQueue)
            && s.world.dirs >= w.dirs && PathExists(s.world, DistDir)
            && (s.ok <==> PathExists(w, QueueFile) || DistDir in w.dirs || !PathExists(w, DistDir))
            && (s.ok ==> PathExists(s.world, QueueFile))
            && s.world.env == w.env && s.world.events == w.events && s.world.exitCode == w.exitCode
  {
  }

  /** Running the initialisation a second time changes nothing and succeeds whenever the first run did. */
  lemma InitQueueFileIdempotent(w: World)
    ensures var s := InitQueueFile(w);
            s.ok ==> InitQueueFile(s.world) == Step(s.world, true)
  {
  }

  method RunInitThenSpawn(h: Machine, spawnSucceeds: string -> bool, command: string)
    modifies h
    ensures h.State() == InitThenSpawn(old(h.State()), spawnSucceeds, command)
  {
    var ok := h.EnsureQueueFile();
    if !ok {
      h.Exit();
      return;
    }
    h.Record(Spawn(command));
    if !spawnSucceeds(command) {
      h.Exit();
    }
  }

  /**
   * Running the initialisation and a command twice leaves the same files and
   * directories as running them once, and the environment as it was; only the
   * record shows the second command.
   */
  lemma InitThenSpawnTwice(w: World, spawnSucceeds: string -> bool, command: string, command2: string)
    ensures var once := InitThenSpawn(w, spawnSucceeds, command);
            var twice := InitThenSpawn(once, spawnSucceeds, command2);
            twice.files == once.files && twice.dirs == once.dirs && twice.env == w.env
  {
    InitQueueFileEffect(w);
    var s := InitQueueFile(w);
    if s.ok {
      InitQueueFileIdempotent(w);
      var once := InitThenSpawn(w, spawnSucceeds, command);
      assert once.files == s.world.files && once.dirs == s.world.dirs;
      InitQueueFileOnlyReadsFiles(s.world, once);
    } else {
      InitQueueFileOnlyReadsFiles(s.world, Fail(s.world));
    }
  }

  /** The initialisation reads only the files and directories, and changes nothing else. */
  lemma InitQueueFileOnlyReadsFiles(w: World, v: World)
    requires v.files == w.files && v.dirs == w.dirs
    ensures InitQueueFile(v).world.files == InitQueueFile(w).world.files
    ensures InitQueueFile(v).world.dirs == InitQueueFile(w).world.dirs
    ensures InitQueueFile(v).ok == InitQueueFile(w).ok
    ensures InitQueueFile(v).world.env == v.env
  {
  }
}
