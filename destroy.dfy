/**
 * `bin/destroy.ts`: tear down a non-staging environment. After the staging
 * gate and the profile check it deletes every log group whose name contains
 * the stage, destroys all stacks, and hands the recorded edge Lambda names to
 * the cleanup queue. Any failure is logged and ends the process with code 1.
 */
module Destroy {
  import opened Wrappers
  import opened Strings
  import opened Dict
  import opened Json
  import opened AppConfig
  import opened Host
  import Config

  // ----- Pagination over DescribeLogGroups -----

  /** The names of `names` that contain `stage`, in order. */
  function Matching(names: seq<string>, stage: string): seq<string> {
    if names == [] then []
    else (if Includes(names[0], stage) then [names[0]] else []) + Matching(names[1..], stage)
  }

  /** What one page adds: its names containing the stage (no `logGroups` counts as none). */
  function PageNames(p: Page, stage: string): seq<string> {
    Matching(p.logGroupNames.GetOr([]), stage)
  }

  /** The loop goes on after page `p` when its token is truthy: present and not empty. */
  predicate HasMore(p: Page) {
    p.nextToken.Some? && p.nextToken.value != ""
  }

  /** What the loop gathers: the names it keeps and the token of each request, in order. */
  datatype Listing = Listing(names: seq<string>, requests: seq<Option<string>>)

  /** A request made after the last served page fails, as an SDK error would. */
  datatype SdkError = NoResponse

  /** The do/while loop from the request carrying `token`, answered by `pages` in order. */
  function Paginate(pages: seq<Page>, token: Option<string>, stage: string): Result<Listing, SdkError>
    decreases |pages|
  {
    if pages == [] then Err(NoResponse)
    else
      var here := Listing(PageNames(pages[0], stage), [token]);
      if HasMore(pages[0]) then Prepend(here, Paginate(pages[1..], pages[0].nextToken, stage))
      else Ok(here)
  }

  function Prepend(l: Listing, r: Result<Listing, SdkError>): Result<Listing, SdkError> {
    match r
    case Ok(rest) => Ok(Listing(l.names + rest.names, l.requests + rest.requests))
    case Err(e) => Err(e)
  }

  method CollectLogGroupNames(pages: seq<Page>, stage: string) returns (r: Result<Listing, SdkError>)
    ensures r == Paginate(pages, None, stage)
  {
    var total := Listing([], []);
    var nextToken: Option<string> := None;
    var i := 0;
    var more := true;
    assert pages[0..] == pages;
    PrependNothing(Paginate(pages, None, stage));
    while more
      invariant 0 <= i <= |pages|
      invariant more ==> Paginate(pages, None, stage) == Prepend(total, Paginate(pages[i..], nextToken, stage))
      invariant !more ==> Paginate(pages, None, stage) == Ok(total)
      decreases |pages| - i, more
    {
      if i == |pages| {
        return Err(NoResponse);
      }
      var page := pages[i];
      PaginateStep(pages, i, nextToken, stage, total);
      total := Listing(total.names + PageNames(page, stage), total.requests + [nextToken]);
      nextToken := page.nextToken;
      more := HasMore(page);
      i := i + 1;
    }
    r := Ok(total);
  }

  lemma PrependNothing(r: Result<Listing, SdkError>)
    ensures Prepend(Listing([], []), r) == r
  {
    if r.Ok? {
      assert [] + r.value.names == r.value.names && [] + r.value.requests == r.value.requests;
    }
  }

  /** One turn of the loop: serving page `i` moves its names and its request into the accumulator. */
  lemma PaginateStep(pages: seq<Page>, i: int, token: Option<string>, stage: string, total: Listing)
    requires 0 <= i < |pages|
    ensures var p := pages[i];
            var total' := Listing(total.names + PageNames(p, stage), total.requests + [token]);
            Prepend(total, Paginate(pages[i..], token, stage))
              == if HasMore(p) then Prepend(total', Paginate(pages[i + 1..], p.nextToken, stage)) else Ok(total')
  {
    assert pages[i..][0] == pages[i];
    assert pages[i..][1..] == pages[i + 1..];
    var p := pages[i];
    var here := Listing(PageNames(p, stage), [token]);
    if HasMore(p) {
      match Paginate(pages[i + 1..], p.nextToken, stage)
      case Ok(rest) =>
        assert total.names + (here.names + rest.names) == total.names + here.names + rest.names;
        assert total.requests + (here.requests + rest.requests) == total.requests + here.requests + rest.requests;
      case Err(_) =>
    }
  }

  /** Index of the first page with a falsy token, or -1 when every page has more. */
  function StopIndex(pages: seq<Page>): (k: int)
    ensures -1 <= k < |pages|
    ensures 0 <= k ==> !HasMore(pages[k]) && forall j :: 0 <= j < k ==> HasMore(pages[j])
    ensures k == -1 ==> forall j :: 0 <= j < |pages| ==> HasMore(pages[j])
  {
    if pages == [] then -1
    else if !HasMore(pages[0]) then 0
    else
      var k := StopIndex(pages[1..]);
      if k == -1 then -1 else k + 1
  }

  /** The names kept from every page of `pages`, page by page. */
  function Collected(pages: seq<Page>, stage: string): seq<string> {
    if pages == [] then [] else PageNames(pages[0], stage) + Collected(pages[1..], stage)
  }

  /**
   * The loop succeeds exactly when some served page has a falsy token; it then
   * makes one request per page up to and including the first such page, the
   * first with the starting token and each later one with the token of the
   * page before, and keeps the stage's names of those pages in order.
   */
  lemma {:induction false} PaginationProtocol(pages: seq<Page>, token: Option<string>, stage: string)
    ensures Paginate(pages, token, stage).Ok? <==> StopIndex(pages) >= 0
    ensures Paginate(pages, token, stage).Ok? ==>
              var l := Paginate(pages, token, stage).value;
              var k := StopIndex(pages);
              |l.requests| == k + 1
              && l.requests[0] == token
              && (forall j :: 0 < j <= k ==> l.requests[j] == pages[j - 1].nextToken)
              && l.names == Collected(pages[..k + 1], stage)
    decreases |pages|
  {
    if pages != [] && HasMore(pages[0]) {
      var rest := pages[1..];
      PaginationProtocol(rest, pages[0].nextToken, stage);
      if Paginate(rest, pages[0].nextToken, stage).Ok? {
        var k := StopIndex(rest);
        var l := Paginate(rest, pages[0].nextToken, stage).value;
        assert pages[..k + 2][1..] == rest[..k + 1];
        assert Paginate(pages, token, stage).value.requests == [token] + l.requests;
        forall j | 1 < j <= k + 1
          ensures ([token] + l.requests)[j] == pages[j - 1].nextToken
        {
          assert ([token] + l.requests)[j] == l.requests[j - 1];
        }
      }
    } else if pages != [] {
      assert pages[..1][1..] == [];
    }
  }

  /** A name is kept exactly when it is served and contains the stage; an empty stage keeps every name. */
  lemma {:induction false} MatchingFilters(names: seq<string>, stage: string)
    ensures forall n :: n in Matching(names, stage) <==> n in names && Includes(n, stage)
    ensures stage == "" ==> Matching(names, stage) == names
    decreases |names|
  {
    if names != [] {
      MatchingFilters(names[1..], stage);
      assert names == [names[0]] + names[1..];
      if stage == "" {
        IncludesEmpty(names[0]);
      }
    }
  }

  // ----- Deletion, stack teardown and the cleanup queue -----

  /** One deletion per collected name, in order; each outcome is only recorded. */
  function DeleteEvents(names: seq<string>, succeeds: string -> bool): (es: seq<Event>) {
    seq(|names|, i requires 0 <= i < |names| => DeleteLogGroup(names[i], succeeds(names[i])))
  }

  method DeleteLogGroups(h: Machine, names: seq<string>, succeeds: string -> bool)
    modifies h
    ensures h.State() == Recorded(old(h.State()), DeleteEvents(names, succeeds))
  {
    for i := 0 to |names|
      invariant h.State() == Recorded(old(h.State()), DeleteEvents(names[..i], succeeds))
    {
      h.Record(DeleteLogGroup(names[i], succeeds(names[i])));
      assert DeleteEvents(names[..i + 1], succeeds) == DeleteEvents(names[..i], succeeds) + [DeleteLogGroup(names[i], succeeds(names[i]))];
    }
    assert names[..|names|] == names;
  }

  /** Every collected name gets exactly one deletion attempt, whatever the other attempts do. */
  lemma DeleteEventsAttempts(names: seq<string>, succeeds: string -> bool, n: string)
    ensures |DeleteEvents(names, succeeds)| == |names|
    ensures forall i :: 0 <= i < |names| ==> DeleteEvents(names, succeeds)[i].logGroupName == names[i]
    ensures forall i :: 0 <= i < |names| ==> (DeleteEvents(names, succeeds)[i].succeeded <==> succeeds(names[i]))
  {
  }

  function DestroyCommand(profile: string): string {
    "npm run cdk -- destroy --all --force --profile " + profile
  }

  /**
   * The queue URL. The queue name is read from a field the resolved
   * configuration does not have, so it is the text `undefined`.
   */
  function QueueUrl(env: Config.Env): string {
    "https://sqs." + env.region + ".amazonaws.com/" + env.account + "/" + "undefined"
  }

  /** Reading the cleanup queue fails when its path is a directory, or its text or contents are unusable. */
  datatype ReadFailure = Thrown

  /** `edgeLambdaNames` from the queue file, or an empty list when no file is there. */
  function RecordedEdgeLambdas(w: World, parse: string -> Option<Json>): Result<Json, ReadFailure> {
    if !PathExists(w, QueueFile) then Ok(JArray([]))
    else if QueueFile !in w.files then Err(Thrown)
    else
      match parse(w.files[QueueFile])
      case None => Err(Thrown)
      case Some(j) =>
        match Prop(j, "edgeLambdaNames")
        case Some(v) => Ok(v)
        case None => Err(Thrown)
  }

  /** Truthiness of `v.length`; reading it off `null` throws. */
  function HasLength(v: Json): Result<bool, ReadFailure> {
    match v
    case JNull => Err(Thrown)
    case JArray(items) => Ok(|items| > 0)
    case JString(s) => Ok(|s| > 0)
    case JObject(fs) => Ok(Get(fs, "length").Some? && Truthy(Get(fs, "length").value))
    case _ => Ok(false)
  }

  function QueueMessage(env: Config.Env, names: Json, stringify: Json -> string): Event {
    SendMessage(QueueUrl(env), stringify(JObject([("edgeLambdaNames", names)])))
  }

  /** The dispatch after the stacks are gone: one message when the recorded list is non-empty. */
  function DispatchSpec(w: World, o: Outside, env: Config.Env): World {
    match RecordedEdgeLambdas(w, o.parse)
    case Err(_) => Fail(w)
    case Ok(names) =>
      match HasLength(names)
      case Err(_) => Fail(w)
      case Ok(nonEmpty) =>
        if !nonEmpty then w
        else
          var w1 := Recorded(w, [QueueMessage(env, names, o.stringify)]);
          if o.sendSucceeds then w1 else Fail(w1)
  }

  /** From the deletions on: run the destroy command, then dispatch the cleanup queue. */
  function TeardownSpec(w: World, o: Outside, cfg: ApplicationConfig, names: seq<string>): World {
    var w1 := Recorded(w, DeleteEvents(names, o.deleteSucceeds) + [Spawn(DestroyCommand(cfg.profile))]);
    if !o.spawnSucceeds(DestroyCommand(cfg.profile)) then Fail(w1)
    else DispatchSpec(w1, o, cfg.env)
  }

  /** From the profile check on, for a configuration that passed the staging gate. */
  function CleanupSpec(w: World, o: Outside, cfg: ApplicationConfig): World {
    var w1 := Recorded(w, [ValidateProfile(cfg.profile)]);
    if !o.profileAccepted(cfg.profile) then Fail(w1)
    else
      var w2 := w1.(env := w1.env["AWS_PROFILE" := cfg.profile]["AWS_REGION" := cfg.env.region]);
      match Paginate(o.pages, None, cfg.stage)
      case Err(_) => Fail(w2)
      case Ok(listing) => TeardownSpec(w2, o, cfg, listing.names)
  }

  /** The whole script. */
  function DestroySpec(w: World, o: Outside, table: seq<Config.StageDefinition>): World {
    match ScriptConfig(w, o, table)
    case Err(_) => Fail(w)
    case Ok(cfg) => if cfg.isStagingEnv then Fail(w) else CleanupSpec(w, o, cfg)
  }

  method Destroy(h: Machine, o: Outside, table: seq<Config.StageDefinition>)
    modifies h
    ensures h.State() == DestroySpec(old(h.State()), o, table)
  {
    var resolved := ScriptConfig(h.State(), o, table);
    if resolved.Err? || resolved.value.isStagingEnv {
      h.Exit();
      return;
    }
    var cfg := resolved.value;
    h.Record(ValidateProfile(cfg.profile));
    if !o.profileAccepted(cfg.profile) {
      h.Exit();
      return;
    }
    h.SetEnv("AWS_PROFILE", cfg.profile);
    h.SetEnv("AWS_REGION", cfg.env.region);
    var listing := CollectLogGroupNames(o.pages, cfg.stage);
    if listing.Err? {
      h.Exit();
      return;
    }
    Teardown(h, o, cfg, listing.value.names);
  }

  method Teardown(h: Machine, o: Outside, cfg: ApplicationConfig, names: seq<string>)
    modifies h
    ensures h.State() == TeardownSpec(old(h.State()), o, cfg, names)
  {
    ghost var w := h.State();
    var deletes := DeleteEvents(names, o.deleteSucceeds);
    DeleteLogGroups(h, names, o.deleteSucceeds);
    var command := DestroyCommand(cfg.profile);
    h.Record(Spawn(command));
    assert w.events + deletes + [Spawn(command)] == w.events + (deletes + [Spawn(command)]);
    assert h.State() == Recorded(w, deletes + [Spawn(command)]);
    if !o.spawnSucceeds(command) {
      h.Exit();
      return;
    }
    DispatchCleanupQueue(h, o, cfg.env);
  }

  method DispatchCleanupQueue(h: Machine, o: Outside, env: Config.Env)
    modifies h
    ensures h.State() == DispatchSpec(old(h.State()), o, env)
  {
    var present := h.Exists(QueueFile);
    var names := JArray([]);
    if present {
      var text := h.ReadFile(QueueFile);
      if text.None? {
        h.Exit();
        return;
      }
      var parsed := o.parse(text.value);
      if parsed.None? || Prop(parsed.value, "edgeLambdaNames").None? {
        h.Exit();
        return;
      }
      names := Prop(parsed.value, "edgeLambdaNames").value;
    }
    var nonEmpty := HasLength(names);
    if nonEmpty.Err? {
      h.Exit();
      return;
    }
    if nonEmpty.value {
      h.Record(QueueMessage(env, names, o.stringify));
      if !o.sendSucceeds {
        h.Exit();
      }
    }
  }

  // ----- Properties of the whole script -----

  /**
   * A configuration that fails to resolve, or resolves to a staging stage,
   * ends the script with code 1 before anything else happens: no profile
   * check, no change of environment, no deletion, command or message.
   */
  lemma StagingGate(w: World, o: Outside, table: seq<Config.StageDefinition>)
    requires ScriptConfig(w, o, table).Err? || ScriptConfig(w, o, table).value.isStagingEnv
    ensures DestroySpec(w, o, table) == w.(exitCode := Some(1))
  {
  }

  /**
   * Once the gate, the profile check and the listing pass: the profile and
   * region are exported, every collected name is deleted once, then the
   * destroy command runs, whatever the deletions did.
   */
  lemma DestroyOrder(w: World, o: Outside, table: seq<Config.StageDefinition>)
    requires ScriptConfig(w, o, table).Ok? && !ScriptConfig(w, o, table).value.isStagingEnv
    requires o.profileAccepted(ScriptConfig(w, o, table).value.profile)
    requires Paginate(o.pages, None, ScriptConfig(w, o, table).value.stage).Ok?
    ensures var cfg := ScriptConfig(w, o, table).value;
            var names := Paginate(o.pages, None, cfg.stage).value.names;
            var r := DestroySpec(w, o, table);
            |r.events| >= |w.events| + 1 + |names| + 1
            && r.events[..|w.events| + 1 + |names| + 1]
               == w.events + [ValidateProfile(cfg.profile)] + DeleteEvents(names, o.deleteSucceeds) + [Spawn(DestroyCommand(cfg.profile))]
            && Lookup(r.env, "AWS_PROFILE") == Some(cfg.profile)
            && Lookup(r.env, "AWS_REGION") == Some(cfg.env.region)
            && (!o.spawnSucceeds(DestroyCommand(cfg.profile)) ==> r.exitCode == Some(1))
  {
    var cfg := ScriptConfig(w, o, table).value;
    var names := Paginate(o.pages, None, cfg.stage).value.names;
    var w1 := Recorded(w, [ValidateProfile(cfg.profile)]);
    var w2 := w1.(env := w1.env["AWS_PROFILE" := cfg.profile]["AWS_REGION" := cfg.env.region]);
    var w3 := Recorded(w2, DeleteEvents(names, o.deleteSucceeds) + [Spawn(DestroyCommand(cfg.profile))]);
    assert w3.events == w.events + [ValidateProfile(cfg.profile)] + DeleteEvents(names, o.deleteSucceeds) + [Spawn(DestroyCommand(cfg.profile))];
    DispatchKeeps(w3, o, cfg.env);
  }

  /** The dispatch only appends to the record and leaves the environment alone. */
  lemma DispatchKeeps(w: World, o: Outside, env: Config.Env)
    ensures var r := DispatchSpec(w, o, env);
            |r.events| >= |w.events| && r.events[..|w.events|] == w.events && r.env == w.env
            && (w.exitCode == Some(1) ==> r.exitCode == Some(1))
  {
  }

  /**
   * Deletions are best effort: whether any of them fails changes nothing
   * but the recorded outcomes; the same command runs, the same message is
   * sent and the exit code is the same.
   */
  lemma DeletionsAreBestEffort(w: World, o: Outside, succeeds: string -> bool, table: seq<Config.StageDefinition>)
    ensures var r1 := DestroySpec(w, o, table);
            var r2 := DestroySpec(w, o.(deleteSucceeds := succeeds), table);
            r1.exitCode == r2.exitCode && r1.env == r2.env && r1.files == r2.files && |r1.events| == |r2.events|
  {
    match ScriptConfig(w, o, table)
    case Err(_) =>
    case Ok(cfg) =>
      if !cfg.isStagingEnv && o.profileAccepted(cfg.profile) && Paginate(o.pages, None, cfg.stage).Ok? {
        var names := Paginate(o.pages, None, cfg.stage).value.names;
        var w1 := Recorded(w, [ValidateProfile(cfg.profile)]);
        var w2 := w1.(env := w1.env["AWS_PROFILE" := cfg.profile]["AWS_REGION" := cfg.env.region]);
        TeardownIsBestEffort(w2, o, succeeds, cfg, names);
      }
  }

  lemma TeardownIsBestEffort(w: World, o: Outside, succeeds: string -> bool, cfg: ApplicationConfig, names: seq<string>)
    ensures var r1 := TeardownSpec(w, o, cfg, names);
            var r2 := TeardownSpec(w, o.(deleteSucceeds := succeeds), cfg, names);
            r1.exitCode == r2.exitCode && r1.env == r2.env && r1.files == r2.files && |r1.events| == |r2.events|
  {
    var cmd := DestroyCommand(cfg.profile);
    var a := Recorded(w, DeleteEvents(names, o.deleteSucceeds) + [Spawn(cmd)]);
    var b := Recorded(w, DeleteEvents(names, succeeds) + [Spawn(cmd)]);
    assert a.(events := b.events) == b;
    DispatchIgnoresEvents(a, b.events, o, cfg.env);
    DispatchIgnoresDeletes(b, o, succeeds, cfg.env);
  }

  /** The dispatch does not look at the deletion outcomes. */
  lemma DispatchIgnoresDeletes(w: World, o: Outside, succeeds: string -> bool, env: Config.Env)
    ensures DispatchSpec(w, o.(deleteSucceeds := succeeds), env) == DispatchSpec(w, o, env)
  {
  }

  /** The dispatch reads no event: runs from worlds that differ only in their record differ only in it. */
  lemma DispatchIgnoresEvents(w: World, es: seq<Event>, o: Outside, env: Config.Env)
    requires |es| == |w.events|
    ensures var r1 := DispatchSpec(w, o, env);
            var r2 := DispatchSpec(w.(events := es), o, env);
            r1.exitCode == r2.exitCode && r1.env == r2.env && r1.files == r2.files && |r1.events| == |r2.events|
  {
    var w2 := w.(events := es);
    assert RecordedEdgeLambdas(w2, o.parse) == RecordedEdgeLambdas(w, o.parse);
  }

  /**
   * For a queue file holding a list of names: exactly one message, carrying
   * that list, is sent when the list is non-empty, and none when it is empty.
   */
  lemma OneMessageIffNonEmpty(w: World, o: Outside, env: Config.Env, lambdaNames: seq<Json>)
    requires QueueFile in w.files
    requires o.parse(w.files[QueueFile]).Some?
    requires Prop(o.parse(w.files[QueueFile]).value, "edgeLambdaNames") == Some(JArray(lambdaNames))
    ensures var r := DispatchSpec(w, o, env);
            r.events == w.events + (if lambdaNames != [] then [QueueMessage(env, JArray(lambdaNames), o.stringify)] else [])
            && (r.exitCode == w.exitCode || (lambdaNames != [] && !o.sendSucceeds && r.exitCode == Some(1)))
  {
  }

  /** Without a queue file nothing is sent and the script ends normally. */
  lemma MissingQueueFileSendsNothing(w: World, o: Outside, env: Config.Env)
    requires !PathExists(w, QueueFile)
    ensures DispatchSpec(w, o, env) == w
  {
  }

  /** The queue URL names the region and the account, and ends in `/undefined`. */
  lemma QueueUrlShape(env: Config.Env)
    ensures var u := QueueUrl(env);
            StartsWith(u, "https://sqs." + env.region + ".amazonaws.com/" + env.account + "/")
            && u[|u| - |"/undefined"|..] == "/undefined"
  {
    var u := QueueUrl(env);
    var prefix := "https://sqs." + env.region + ".amazonaws.com/" + env.account + "/";
    assert u == prefix + "undefined";
    assert u[..|prefix|] == prefix;
  }
}
