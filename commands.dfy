/**
 * The WP-CLI commands (inc/Commands.php): `wp move push`, `pull`, `test` and
 * `dump`. Each one reads its flags, loads `move.yml`, builds the executor and
 * the task runner, and hands the chosen folders and database switch to the
 * task runner. The flag selection is imperative in the source (folders are
 * appended inside `foreach` loops) and is proved against the functions
 * `PushFolders`, `PushSkipped` and `PullFolders`.
 */
module Commands {
  import opened Wrappers
  import opened PhpStrings
  import opened Executor
  import opened Pipeline
  import opened Dumper
  import Plans
  import Config
  import TaskRunner

  // ---------------------------------------------------------------------------
  // Flags
  // ---------------------------------------------------------------------------

  /** A WP-CLI associative argument: `--db` is `Switch(true)`, `--no-db` is
      `Switch(false)`, `--db=x` is `Text("x")`. WP-CLI never stores null. */
  datatype Arg = Switch(on: bool) | Text(text: string)

  type AssocArgs = map<string, Arg>

  /** PHP's `isset($assoc_args[$key])`. */
  predicate IsSet(a: AssocArgs, key: string) {
    key in a
  }

  /** PHP's `!empty($assoc_args[$key])`: set, and neither false, "" nor "0". */
  predicate NotEmpty(a: AssocArgs, key: string) {
    key in a && match a[key] case Switch(on) => on case Text(t) => Truthy(t)
  }

  /** The environment of push and pull when none is given. */
  const DEFAULT_REMOTE := "staging"

  /** `$args[0] ?? $default`. */
  function EnvArgument(args: seq<string>, default: string): string {
    if |args| > 0 then args[0] else default
  }

  /** `init_services`: the executor runs dry exactly when `--dry-run` is set. */
  predicate DryRunRequested(a: AssocArgs) {
    IsSet(a, "dry-run")
  }

  /** `run_push`/`run_pull` delete on the destination exactly when `--delete` is set. */
  predicate DeleteRequested(a: AssocArgs) {
    IsSet(a, "delete")
  }

  /** Push syncs the database when `--db` or `--all` is non-empty. */
  predicate PushSyncsDb(a: AssocArgs) {
    NotEmpty(a, "db") || NotEmpty(a, "all")
  }

  /** Pull syncs the database when `--db` or `--all` is set at all. */
  predicate PullSyncsDb(a: AssocArgs) {
    IsSet(a, "db") || IsSet(a, "all")
  }

  // ---------------------------------------------------------------------------
  // Folder selection
  // ---------------------------------------------------------------------------

  /** A folder push and pull can sync: its flag name and its path below the
      WordPress root. */
  datatype Folder = Folder(key: string, path: string)

  const THEMES := Folder("themes", "wp-content/themes")
  const PLUGINS := Folder("plugins", "wp-content/plugins")
  const MU_PLUGINS := Folder("mu-plugins", "wp-content/mu-plugins")
  const UPLOADS := Folder("uploads", "wp-content/uploads")

  /** `$available_folders`, in its order. */
  const CATALOGUE: seq<Folder> := [THEMES, PLUGINS, MU_PLUGINS, UPLOADS]

  /** Every catalogue path, in catalogue order. */
  const ALL_PATHS: seq<string> := [THEMES.path, PLUGINS.path, MU_PLUGINS.path, UPLOADS.path]

  /** Push takes `f` when it is asked for (by `--all` or by its own flag) and
      `not_push` does not name it. */
  predicate Chosen(f: Folder, a: AssocArgs, denied: seq<string>) {
    (IsSet(a, "all") || IsSet(a, f.key)) && f.key !in denied
  }

  /** Push skips `f` with a warning when it is asked for by its own flag,
      without `--all`, and `not_push` names it. */
  predicate Denied(f: Folder, a: AssocArgs, denied: seq<string>) {
    !IsSet(a, "all") && IsSet(a, f.key) && f.key in denied
  }

  /** The paths of the chosen folders of `cat`, in the order of `cat`. */
  function Selected(cat: seq<Folder>, a: AssocArgs, denied: seq<string>): seq<string> {
    if cat == [] then []
    else
      var f := cat[|cat| - 1];
      Selected(cat[..|cat| - 1], a, denied) + (if Chosen(f, a, denied) then [f.path] else [])
  }

  /** The keys of the denied folders of `cat`, in the order of `cat`. */
  function Skipped(cat: seq<Folder>, a: AssocArgs, denied: seq<string>): seq<string> {
    if cat == [] then []
    else
      var f := cat[|cat| - 1];
      Skipped(cat[..|cat| - 1], a, denied) + (if Denied(f, a, denied) then [f.key] else [])
  }

  /** The paths of `cat`, in order. */
  function Paths(cat: seq<Folder>): (ps: seq<string>)
    ensures |ps| == |cat|
  {
    if cat == [] then [] else Paths(cat[..|cat| - 1]) + [cat[|cat| - 1].path]
  }

  /** `xs` is `ys` with some elements left out, the rest in their order. */
  predicate SubsequenceOf(xs: seq<string>, ys: seq<string>)
    decreases |ys|
  {
    || xs == []
    || (&& ys != []
        && ((xs[|xs| - 1] == ys[|ys| - 1] && SubsequenceOf(xs[..|xs| - 1], ys[..|ys| - 1]))
            || SubsequenceOf(xs, ys[..|ys| - 1])))
  }

  /** The folders `push` syncs. */
  function PushFolders(a: AssocArgs, denied: seq<string>): seq<string> {
    Selected(CATALOGUE, a, denied)
  }

  /** The folders `push` warns about and skips. */
  function PushSkipped(a: AssocArgs, denied: seq<string>): seq<string> {
    Skipped(CATALOGUE, a, denied)
  }

  /** The folders `pull` syncs: all four with `--all`, otherwise the flagged
      ones in the fixed order; `not_push` plays no part. */
  function PullFolders(a: AssocArgs): seq<string> {
    if IsSet(a, "all") then ALL_PATHS
    else
      (if IsSet(a, "themes") then [THEMES.path] else [])
      + (if IsSet(a, "plugins") then [PLUGINS.path] else [])
      + (if IsSet(a, "mu-plugins") then [MU_PLUGINS.path] else [])
      + (if IsSet(a, "uploads") then [UPLOADS.path] else [])
  }

  /** A path is selected exactly when some folder of `cat` with that path is chosen. */
  lemma {:induction false} SelectedMembers(cat: seq<Folder>, a: AssocArgs, denied: seq<string>, p: string)
    ensures p in Selected(cat, a, denied) <==>
            exists k :: 0 <= k < |cat| && cat[k].path == p && Chosen(cat[k], a, denied)
  {
    if cat != [] {
      var init := cat[..|cat| - 1];
      SelectedMembers(init, a, denied, p);
      assert forall k :: 0 <= k < |init| ==> init[k] == cat[k];
    }
  }

  /** A key is skipped exactly when some folder of `cat` with that key is denied. */
  lemma {:induction false} SkippedMembers(cat: seq<Folder>, a: AssocArgs, denied: seq<string>, key: string)
    ensures key in Skipped(cat, a, denied) <==>
            exists k :: 0 <= k < |cat| && cat[k].key == key && Denied(cat[k], a, denied)
  {
    if cat != [] {
      var init := cat[..|cat| - 1];
      SkippedMembers(init, a, denied, key);
      assert forall k :: 0 <= k < |init| ==> init[k] == cat[k];
    }
  }

  /** The selected paths keep the order of `cat`. */
  lemma {:induction false} SelectedInOrder(cat: seq<Folder>, a: AssocArgs, denied: seq<string>)
    ensures SubsequenceOf(Selected(cat, a, denied), Paths(cat))
  {
    if cat != [] {
      var init := cat[..|cat| - 1];
      var f := cat[|cat| - 1];
      var before := Selected(init, a, denied);
      SelectedInOrder(init, a, denied);
      var ps := Paths(cat);
      assert ps[..|ps| - 1] == Paths(init);
      if Chosen(f, a, denied) {
        var r := before + [f.path];
        assert r[..|r| - 1] == before;
      } else {
        assert before + [] == before;
      }
    }
  }

  /** What push does with each catalogue folder: it syncs it exactly when it
      is chosen, warns about it exactly when it is denied, and the paths it
      syncs keep the catalogue order. */
  lemma PushSelection(a: AssocArgs, denied: seq<string>)
    ensures forall k :: 0 <= k < |CATALOGUE| ==>
      (CATALOGUE[k].path in PushFolders(a, denied) <==> Chosen(CATALOGUE[k], a, denied))
    ensures forall k :: 0 <= k < |CATALOGUE| ==>
      (CATALOGUE[k].key in PushSkipped(a, denied) <==> Denied(CATALOGUE[k], a, denied))
    ensures forall p :: p in PushFolders(a, denied) ==> p in ALL_PATHS
    ensures SubsequenceOf(PushFolders(a, denied), ALL_PATHS)
  {
    forall k | 0 <= k < |CATALOGUE|
      ensures CATALOGUE[k].path in PushFolders(a, denied) <==> Chosen(CATALOGUE[k], a, denied)
      ensures CATALOGUE[k].key in PushSkipped(a, denied) <==> Denied(CATALOGUE[k], a, denied)
    {
      SelectedMembers(CATALOGUE, a, denied, CATALOGUE[k].path);
      SkippedMembers(CATALOGUE, a, denied, CATALOGUE[k].key);
    }
    forall p | p in PushFolders(a, denied)
      ensures p in ALL_PATHS
    {
      SelectedMembers(CATALOGUE, a, denied, p);
    }
    SelectedInOrder(CATALOGUE, a, denied);
    CataloguePaths();
  }

  /** A four-folder catalogue, spelled out. */
  lemma {:induction false} SelectedOfFour(f0: Folder, f1: Folder, f2: Folder, f3: Folder, a: AssocArgs, denied: seq<string>)
    ensures Selected([f0, f1, f2, f3], a, denied) ==
      (if Chosen(f0, a, denied) then [f0.path] else [])
      + (if Chosen(f1, a, denied) then [f1.path] else [])
      + (if Chosen(f2, a, denied) then [f2.path] else [])
      + (if Chosen(f3, a, denied) then [f3.path] else [])
    ensures Paths([f0, f1, f2, f3]) == [f0.path, f1.path, f2.path, f3.path]
  {
    var p0 := if Chosen(f0, a, denied) then [f0.path] else [];
    var p1 := if Chosen(f1, a, denied) then [f1.path] else [];
    var p2 := if Chosen(f2, a, denied) then [f2.path] else [];
    assert [f0][..0] == [];
    assert Selected([f0], a, denied) == p0;
    assert [f0, f1][..1] == [f0];
    assert Selected([f0, f1], a, denied) == p0 + p1;
    assert [f0, f1, f2][..2] == [f0, f1];
    assert Selected([f0, f1, f2], a, denied) == p0 + p1 + p2;
    assert [f0, f1, f2, f3][..3] == [f0, f1, f2];
    assert Paths([f0]) == [f0.path];
    assert Paths([f0, f1]) == [f0.path, f1.path];
    assert Paths([f0, f1, f2]) == [f0.path, f1.path, f2.path];
  }

  lemma CataloguePaths()
    ensures Paths(CATALOGUE) == ALL_PATHS
  {
    SelectedOfFour(THEMES, PLUGINS, MU_PLUGINS, UPLOADS, map[], []);
  }

  /** A folder flagged but named in `not_push` is warned about and never
      synced; every folder flagged without `--all` is one or the other. */
  lemma PushSkipsDenied(a: AssocArgs, denied: seq<string>)
    ensures forall k :: 0 <= k < |CATALOGUE| && CATALOGUE[k].key in PushSkipped(a, denied) ==>
      CATALOGUE[k].path !in PushFolders(a, denied)
    ensures !IsSet(a, "all") ==> forall k :: 0 <= k < |CATALOGUE| && IsSet(a, CATALOGUE[k].key) ==>
      (CATALOGUE[k].path in PushFolders(a, denied) || CATALOGUE[k].key in PushSkipped(a, denied))
    ensures IsSet(a, "all") ==> PushSkipped(a, denied) == []
  {
    PushSelection(a, denied);
    if IsSet(a, "all") && PushSkipped(a, denied) != [] {
      var key := PushSkipped(a, denied)[0];
      SkippedMembers(CATALOGUE, a, denied, key);
    }
  }

  /** `push --all` with an empty `not_push` list syncs every folder in
      catalogue order. */
  lemma PushAllSyncsEverything(a: AssocArgs)
    requires IsSet(a, "all")
    ensures PushFolders(a, []) == ALL_PATHS
  {
    SelectedOfFour(THEMES, PLUGINS, MU_PLUGINS, UPLOADS, a, []);
  }

  /** Pull selects exactly what push would select with an empty deny-list. */
  lemma PullIsPushWithoutDenyList(a: AssocArgs)
    ensures PullFolders(a) == PushFolders(a, [])
  {
    SelectedOfFour(THEMES, PLUGINS, MU_PLUGINS, UPLOADS, a, []);
  }

  /** `pull --all` syncs every folder and the database, whatever else is given. */
  lemma PullAllSyncsEverything(a: AssocArgs)
    requires IsSet(a, "all")
    ensures PullFolders(a) == ALL_PATHS && PullSyncsDb(a)
  {
  }

  /** The two database switches differ: `--no-db` keeps push from syncing the
      database (unless `--all` is non-empty) but makes pull sync it, and
      `push --all=0` syncs every allowed folder and not the database. */
  lemma DbSwitchesDiffer(a: AssocArgs)
    ensures a == map["db" := Switch(false)] ==> !PushSyncsDb(a) && PullSyncsDb(a)
    ensures a == map["all" := Text("0")] ==> !PushSyncsDb(a) && PushFolders(a, []) == ALL_PATHS
  {
    if a == map["all" := Text("0")] {
      PushAllSyncsEverything(a);
    }
  }

  /** The `foreach` loops of `push` over `$available_folders`. */
  method SelectPushFolders(a: AssocArgs, denied: seq<string>) returns (folders: seq<string>, skipped: seq<string>)
    ensures folders == PushFolders(a, denied) && skipped == PushSkipped(a, denied)
  {
    var available := CATALOGUE;
    folders, skipped := [], [];
    if IsSet(a, "all") {
      for k := 0 to |available|
        invariant folders == Selected(available[..k], a, denied)
        invariant skipped == Skipped(available[..k], a, denied) == []
      {
        assert available[..k + 1][..k] == available[..k];
        if available[k].key !in denied {
          folders := folders + [available[k].path];
        }
      }
    } else {
      for k := 0 to |available|
        invariant folders == Selected(available[..k], a, denied)
        invariant skipped == Skipped(available[..k], a, denied)
      {
        assert available[..k + 1][..k] == available[..k];
        if IsSet(a, available[k].key) {
          if available[k].key !in denied {
            folders := folders + [available[k].path];
          } else {
            skipped := skipped + [available[k].key];
          }
        }
      }
    }
    assert available[..|available|] == available;
  }

  /** The `if (isset(...))` chain of `pull`. */
  method SelectPullFolders(a: AssocArgs) returns (folders: seq<string>, syncDb: bool)
    ensures folders == PullFolders(a) && syncDb == PullSyncsDb(a)
  {
    syncDb := IsSet(a, "db");
    folders := [];
    if IsSet(a, "all") {
      syncDb := true;
      folders := [THEMES.path, PLUGINS.path, MU_PLUGINS.path, UPLOADS.path];
    } else {
      if IsSet(a, "themes") {
        folders := folders + [THEMES.path];
      }
      if IsSet(a, "plugins") {
        folders := folders + [PLUGINS.path];
      }
      if IsSet(a, "mu-plugins") {
        folders := folders + [MU_PLUGINS.path];
      }
      if IsSet(a, "uploads") {
        folders := folders + [UPLOADS.path];
      }
    }
  }

  // ---------------------------------------------------------------------------
  // The commands
  // ---------------------------------------------------------------------------

  /** What one invocation sees: the WordPress paths and clock reading, the
      process id, what the YAML parser makes of `move.yml`, the process
      oracle and the rest of the world. */
  datatype Machine = Machine(
    site: Plans.Site,
    pid: nat,
    parsed: Result<Config.Document, string>,
    process: string -> Proc,
    world: World)

  /** `ABSPATH . 'move.yml'`. */
  function ConfigPath(site: Plans.Site): string {
    site.absPath + "move.yml"
  }

  /** `new Config($config_file)` in `init_services`. */
  function LoadConfig(m: Machine): Result<Config.Store, Config.ConfigError> {
    Config.Load(ConfigPath(m.site), m.world.fileExists(ConfigPath(m.site)), m.parsed)
  }

  /** How a command ended: stopped by a `WP_CLI::error`, stopped early by
      push for want of anything to do, or finished. */
  datatype Verdict = Failed(failure: Failure) | NothingToPush | Succeeded

  /** What a command did: whether it ran dry, the folders it warned about,
      the calls it made of the executor, and how it ended. */
  datatype Report = Report(dryRun: bool, skipped: seq<string>, issued: seq<Call>, verdict: Verdict)

  function VerdictOf(o: Outcome): Verdict {
    match o
    case Completed => Succeeded
    case Aborted(f) => Failed(f)
  }

  /** The task runner's line context for an invocation. */
  function CtxFor(a: AssocArgs, m: Machine): Plans.Ctx {
    Plans.Ctx(m.site, SshOptions(m.pid), DryRunRequested(a), DumperEnv(m.world))
  }

  /** A command stopped before it issued anything. */
  function Stopped(dryRun: bool, f: Failure): Report {
    Report(dryRun, [], [], Failed(f))
  }

  /** What `wp move push` does. */
  function PushReport(args: seq<string>, a: AssocArgs, m: Machine): Report {
    match LoadConfig(m)
    case Failure(e) => Stopped(DryRunRequested(a), ConfigFailure(e))
    case Success(store) => PushWith(store, CtxFor(a, m), EnvArgument(args, DEFAULT_REMOTE), a, m.process, m.world)
  }

  /** What `push` does once the services are built. */
  function PushWith(store: Config.Store, ctx: Plans.Ctx, env: string, a: AssocArgs, process: string -> Proc, world: World): Report
    requires store.Valid()
  {
    match Config.GetEnvConfig(store, env)
    case Failure(e) => Stopped(ctx.dryRun, ConfigFailure(e))
    case Success(conf) =>
      var folders := PushFolders(a, conf.notPush);
      var skipped := PushSkipped(a, conf.notPush);
      if !PushSyncsDb(a) && folders == [] then Report(ctx.dryRun, skipped, [], NothingToPush)
      else Ran(ctx.dryRun, skipped, Plans.PushRun(ctx, store, env, folders, PushSyncsDb(a), DeleteRequested(a), process, world))
  }

  /** The report of a command that handed its work to the task runner. */
  function Ran(dryRun: bool, skipped: seq<string>, t: Trace): Report {
    Report(dryRun, skipped, t.issued, VerdictOf(t.outcome))
  }

  /** What `wp move pull` does. */
  function PullReport(args: seq<string>, a: AssocArgs, m: Machine): Report {
    match LoadConfig(m)
    case Failure(e) => Stopped(DryRunRequested(a), ConfigFailure(e))
    case Success(store) => PullWith(store, CtxFor(a, m), EnvArgument(args, DEFAULT_REMOTE), a, m.process, m.world)
  }

  function PullWith(store: Config.Store, ctx: Plans.Ctx, env: string, a: AssocArgs, process: string -> Proc, world: World): Report
    requires store.Valid()
  {
    Ran(ctx.dryRun, [], Plans.PullRun(ctx, store, env, PullFolders(a), PullSyncsDb(a), DeleteRequested(a), process, world))
  }

  /** What `wp move test` does. */
  function TestReport(args: seq<string>, a: AssocArgs, m: Machine): Report {
    match LoadConfig(m)
    case Failure(e) => Stopped(DryRunRequested(a), ConfigFailure(e))
    case Success(store) =>
      var ctx := CtxFor(a, m);
      Ran(ctx.dryRun, [], Plans.TestsRun(ctx, store, EnvArgument(args, Config.LOCAL), m.process, m.world))
  }

  /** What `wp move dump` does. */
  function DumpReport(args: seq<string>, a: AssocArgs, m: Machine): Report {
    match LoadConfig(m)
    case Failure(e) => Stopped(DryRunRequested(a), ConfigFailure(e))
    case Success(store) =>
      var ctx := CtxFor(a, m);
      Ran(ctx.dryRun, [], Plans.DumpRun(ctx, store, EnvArgument(args, Config.LOCAL), IsSet(a, "purge"), m.process, m.world))
  }

  /** `init_services($assoc_args)`: the configuration, then the executor and
      the task runner. */
  method InitServices(a: AssocArgs, m: Machine) returns (r: Result<TaskRunner.TaskRunner, Config.ConfigError>)
    ensures LoadConfig(m).Failure? <==> r.Failure?
    ensures r.Failure? ==> r.error == LoadConfig(m).error
    ensures r.Success? ==>
      var runner := r.value;
      && fresh(runner.executor)
      && runner.Valid()
      && runner.config == LoadConfig(m).value
      && runner.Context() == CtxFor(a, m)
      && runner.world == m.world && runner.executor.process == m.process
      && runner.executor.issued == [] && runner.executor.spawned == []
  {
    var loaded := Config.Load(ConfigPath(m.site), m.world.fileExists(ConfigPath(m.site)), m.parsed);
    if loaded.Failure? {
      return Failure(loaded.error);
    }
    var executor := new Executor(DryRunRequested(a), m.pid, m.process);
    var runner := new TaskRunner.TaskRunner(loaded.value, executor, m.site, m.world);
    return Success(runner);
  }

  /** The calls a fresh executor received, and the processes it started. */
  method Outcomes(runner: TaskRunner.TaskRunner, skipped: seq<string>, ghost t: Trace, outcome: Outcome)
    returns (report: Report, spawned: seq<Spawn>)
    requires runner.Valid() && runner.executor.issued == [] + t.issued && outcome == t.outcome
    ensures report == Ran(runner.Context().dryRun, skipped, t)
    ensures spawned == SpawnsOf(report.dryRun, report.issued)
  {
    assert [] + t.issued == t.issued;
    report := Report(runner.executor.isDryRun, skipped, runner.executor.issued, VerdictOf(outcome));
    spawned := runner.executor.spawned;
  }

  /** `push($args, $assoc_args)`. */
  method Push(args: seq<string>, a: AssocArgs, m: Machine) returns (report: Report, spawned: seq<Spawn>)
    ensures report == PushReport(args, a, m)
    ensures spawned == SpawnsOf(report.dryRun, report.issued)
  {
    var env := EnvArgument(args, DEFAULT_REMOTE);
    var services := InitServices(a, m);
    if services.Failure? {
      return Stopped(DryRunRequested(a), ConfigFailure(services.error)), [];
    }
    report, spawned := PushWithRunner(services.value, env, a);
  }

  /** The part of `push` after `init_services`. */
  method PushWithRunner(runner: TaskRunner.TaskRunner, env: string, a: AssocArgs) returns (report: Report, spawned: seq<Spawn>)
    requires runner.Valid() && runner.executor.issued == [] && runner.executor.spawned == []
    modifies runner.executor
    ensures report == PushWith(runner.config, runner.Context(), env, a, runner.executor.process, runner.world)
    ensures spawned == SpawnsOf(report.dryRun, report.issued)
  {
    var got := Config.GetEnvConfig(runner.config, env);
    if got.Failure? {
      return Stopped(runner.executor.isDryRun, ConfigFailure(got.error)), [];
    }
    var denied := got.value.notPush;
    var syncDb := PushSyncsDb(a);
    var folders, skipped := SelectPushFolders(a, denied);
    if !syncDb && folders == [] {
      return Report(runner.executor.isDryRun, skipped, [], NothingToPush), [];
    }
    report, spawned := PushFoldersAndDb(runner, env, folders, syncDb, DeleteRequested(a), skipped);
  }

  /** `run_push` on the selection. */
  method PushFoldersAndDb(runner: TaskRunner.TaskRunner, env: string, folders: seq<string>, syncDb: bool, useDelete: bool,
                          skipped: seq<string>)
    returns (report: Report, spawned: seq<Spawn>)
    requires runner.Valid() && runner.executor.issued == [] && runner.executor.spawned == []
    modifies runner.executor
    ensures report == Ran(runner.Context().dryRun, skipped,
                          Plans.PushRun(runner.Context(), runner.config, env, folders, syncDb, useDelete, runner.executor.process, runner.world))
    ensures spawned == SpawnsOf(report.dryRun, report.issued)
  {
    ghost var t := Plans.PushRun(runner.Context(), runner.config, env, folders, syncDb, useDelete,
                                 runner.executor.process, runner.world);
    var outcome := runner.RunPush(env, folders, syncDb, useDelete);
    report, spawned := Outcomes(runner, skipped, t, outcome);
  }

  /** `pull($args, $assoc_args)`. */
  method Pull(args: seq<string>, a: AssocArgs, m: Machine) returns (report: Report, spawned: seq<Spawn>)
    ensures report == PullReport(args, a, m)
    ensures spawned == SpawnsOf(report.dryRun, report.issued)
  {
    var env := EnvArgument(args, DEFAULT_REMOTE);
    var services := InitServices(a, m);
    if services.Failure? {
      return Stopped(DryRunRequested(a), ConfigFailure(services.error)), [];
    }
    var runner := services.value;
    var folders, syncDb := SelectPullFolders(a);
    ghost var t := Plans.PullRun(runner.Context(), runner.config, env, folders, syncDb, IsSet(a, "delete"),
                                 runner.executor.process, runner.world);
    var outcome := runner.RunPull(env, folders, syncDb, IsSet(a, "delete"));
    report, spawned := Outcomes(runner, [], t, outcome);
  }

  /** `test($args, $assoc_args)`. */
  method Test(args: seq<string>, a: AssocArgs, m: Machine) returns (report: Report, spawned: seq<Spawn>)
    ensures report == TestReport(args, a, m)
    ensures spawned == SpawnsOf(report.dryRun, report.issued)
  {
    var env := EnvArgument(args, Config.LOCAL);
    var services := InitServices(a, m);
    if services.Failure? {
      return Stopped(DryRunRequested(a), ConfigFailure(services.error)), [];
    }
    var runner := services.value;
    ghost var t := Plans.TestsRun(runner.Context(), runner.config, env, runner.executor.process, runner.world);
    var outcome := runner.RunTests(env);
    report, spawned := Outcomes(runner, [], t, outcome);
  }

  /** `dump($args, $assoc_args)`. */
  method Dump(args: seq<string>, a: AssocArgs, m: Machine) returns (report: Report, spawned: seq<Spawn>)
    ensures report == DumpReport(args, a, m)
    ensures spawned == SpawnsOf(report.dryRun, report.issued)
  {
    var env := EnvArgument(args, Config.LOCAL);
    var services := InitServices(a, m);
    if services.Failure? {
      return Stopped(DryRunRequested(a), ConfigFailure(services.error)), [];
    }
    var runner := services.value;
    ghost var t := Plans.DumpRun(runner.Context(), runner.config, env, IsSet(a, "purge"), runner.executor.process, runner.world);
    var outcome := runner.RunDump(env, IsSet(a, "purge"));
    report, spawned := Outcomes(runner, [], t, outcome);
  }

  // ---------------------------------------------------------------------------
  // What the commands promise
  // ---------------------------------------------------------------------------

  /** Without `move.yml` every command stops before building anything and
      issues no command. */
  lemma MissingConfigStopsEverything(args: seq<string>, a: AssocArgs, m: Machine)
    requires !m.world.fileExists(ConfigPath(m.site))
    ensures var stop := Stopped(DryRunRequested(a), ConfigFailure(Config.FileNotFound(ConfigPath(m.site))));
      && PushReport(args, a, m) == stop && PullReport(args, a, m) == stop
      && TestReport(args, a, m) == stop && DumpReport(args, a, m) == stop
  {
  }

  /** Push stops with "nothing to push" exactly when the environment is
      defined and neither the database nor any folder is selected; it then
      issues no command. */
  lemma NothingToPushIff(args: seq<string>, a: AssocArgs, m: Machine)
    ensures var env := EnvArgument(args, DEFAULT_REMOTE);
      PushReport(args, a, m).verdict == NothingToPush <==>
        && LoadConfig(m).Success?
        && Config.IsSet(LoadConfig(m).value.doc, env)
        && !PushSyncsDb(a)
        && PushFolders(a, LoadConfig(m).value.doc[env].value.notPush) == []
    ensures PushReport(args, a, m).verdict == NothingToPush ==> PushReport(args, a, m).issued == []
  {
    var env := EnvArgument(args, DEFAULT_REMOTE);
    if LoadConfig(m).Success? {
      var store := LoadConfig(m).value;
      assert PushReport(args, a, m) == PushWith(store, CtxFor(a, m), env, a, m.process, m.world);
      if Config.IsSet(store.doc, env) {
        var conf := store.doc[env].value;
        if PushSyncsDb(a) || PushFolders(a, conf.notPush) != [] {
          var t := Plans.PushRun(CtxFor(a, m), store, env, PushFolders(a, conf.notPush), PushSyncsDb(a), DeleteRequested(a),
                                 m.process, m.world);
          assert PushReport(args, a, m) == Ran(DryRunRequested(a), PushSkipped(a, conf.notPush), t);
        }
      }
    }
  }

  /** A dry-run push that has something to do runs to completion and issues
      every command of its plan: the rsync runs with `-ni`, then the
      database steps when selected. */
  lemma DryRunPushCompletes(args: seq<string>, a: AssocArgs, m: Machine)
    requires DryRunRequested(a) && LoadConfig(m).Success?
    requires var store := LoadConfig(m).value; Config.IsSet(store.doc, EnvArgument(args, DEFAULT_REMOTE))
    requires var conf := LoadConfig(m).value.doc[EnvArgument(args, DEFAULT_REMOTE)].value;
      PushSyncsDb(a) || PushFolders(a, conf.notPush) != []
    ensures var store := LoadConfig(m).value;
      var conf := store.doc[EnvArgument(args, DEFAULT_REMOTE)].value;
      var plan := Plans.SyncPlan(CtxFor(a, m), Plans.Push, conf, Config.GetLocalConfig(store),
                                 PushFolders(a, conf.notPush), PushSyncsDb(a), DeleteRequested(a));
      PushReport(args, a, m) == Report(true, PushSkipped(a, conf.notPush), CommandsOf(plan), Succeeded)
  {
    var store := LoadConfig(m).value;
    var conf := store.doc[EnvArgument(args, DEFAULT_REMOTE)].value;
    DumperEnvShape(m.world);
    Plans.DryRunSyncCompletes(CtxFor(a, m), Plans.Push, conf, Config.GetLocalConfig(store),
                              PushFolders(a, conf.notPush), PushSyncsDb(a), DeleteRequested(a), m.process, m.world);
  }

  /** A dry-run pull from an environment with a usable `ssh` entry runs to
      completion and issues every command of its plan. */
  lemma DryRunPullCompletes(args: seq<string>, a: AssocArgs, m: Machine)
    requires DryRunRequested(a) && LoadConfig(m).Success?
    requires var store := LoadConfig(m).value; Config.IsSet(store.doc, EnvArgument(args, DEFAULT_REMOTE))
    requires Truthy(LoadConfig(m).value.doc[EnvArgument(args, DEFAULT_REMOTE)].value.ssh.GetOr(""))
    ensures var store := LoadConfig(m).value;
      var conf := store.doc[EnvArgument(args, DEFAULT_REMOTE)].value;
      var plan := Plans.SyncPlan(CtxFor(a, m), Plans.Pull, conf, Config.GetLocalConfig(store),
                                 PullFolders(a), PullSyncsDb(a), DeleteRequested(a));
      PullReport(args, a, m) == Report(true, [], CommandsOf(plan), Succeeded)
  {
    var store := LoadConfig(m).value;
    var conf := store.doc[EnvArgument(args, DEFAULT_REMOTE)].value;
    DumperEnvShape(m.world);
    Plans.DryRunSyncCompletes(CtxFor(a, m), Plans.Pull, conf, Config.GetLocalConfig(store),
                              PullFolders(a), PullSyncsDb(a), DeleteRequested(a), m.process, m.world);
  }

  /** Pulling from an environment without a usable `ssh` entry fails before
      issuing anything, whatever the flags. */
  lemma PullWithoutSshIssuesNothing(args: seq<string>, a: AssocArgs, m: Machine)
    requires LoadConfig(m).Success?
    requires var store := LoadConfig(m).value; Config.IsSet(store.doc, EnvArgument(args, DEFAULT_REMOTE))
    requires !Truthy(LoadConfig(m).value.doc[EnvArgument(args, DEFAULT_REMOTE)].value.ssh.GetOr(""))
    ensures PullReport(args, a, m) ==
      Stopped(DryRunRequested(a), PullNeedsSsh(EnvArgument(args, DEFAULT_REMOTE)))
  {
  }

  /** Without an environment argument push and pull act on `staging`, test
      and dump on `local`. */
  lemma DefaultEnvironments(a: AssocArgs, m: Machine)
    ensures PushReport([], a, m) == PushReport([DEFAULT_REMOTE], a, m)
    ensures PullReport([], a, m) == PullReport([DEFAULT_REMOTE], a, m)
    ensures TestReport([], a, m) == TestReport([Config.LOCAL], a, m)
    ensures DumpReport([], a, m) == DumpReport([Config.LOCAL], a, m)
  {
  }
}
