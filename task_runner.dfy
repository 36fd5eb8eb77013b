/**
 * The task runner (inc/TaskRunner.php): the operations behind `push`, `pull`,
 * `dump` and `test`. Each one hands its commands to the executor one after
 * another and stops at the first failed check; every method is proved to
 * issue exactly the commands of the matching step list of module Plans and
 * to end as `Run` of that list says.
 */
module TaskRunner {
  import opened Wrappers
  import opened PhpStrings
  import opened Executor
  import opened Pipeline
  import opened Dumper
  import opened Plans
  import Config

  class TaskRunner {
    const config: Config.Store
    const executor: Executor
    /** `ABSPATH`, `WP_CONTENT_DIR` and the clock reading. */
    const site: Site
    /** HTTP, the local filesystem and database, and the dumper probes. */
    const world: World

    ghost predicate Valid()
      reads executor
    {
      config.Valid() && executor.Valid()
    }

    /** `new TaskRunner($config, $executor)`. */
    constructor (config: Config.Store, executor: Executor, site: Site, world: World)
      requires config.Valid() && executor.Valid()
      ensures Valid()
      ensures this.config == config && this.executor == executor && this.site == site && this.world == world
    {
      this.config := config;
      this.executor := executor;
      this.site := site;
      this.world := world;
    }

    /** What the command lines of this runner share. */
    function Context(): Ctx {
      Ctx(site, executor.sshOptions, executor.isDryRun, DumperEnv(world))
    }

    // -------------------------------------------------------------------------
    // get_dumper_path_env
    // -------------------------------------------------------------------------

    /** `get_dumper_path_env()`. */
    method DumperPathEnv() returns (env: string)
      ensures env == DumperEnv(world)
    {
      env := SearchDumpers(DUMP_BINARIES, FALLBACK_DUMPERS);
    }

    /** The two loops of `get_dumper_path_env`: the binaries found by
        `command -v`, then the fall-back locations; the first executable one
        wins. */
    method SearchDumpers(binaries: seq<string>, fallbacks: seq<string>) returns (env: string)
      ensures env == DumperFor(world.isExecutable, Candidates(world.which, binaries, fallbacks))
    {
      ghost var candidates := Candidates(world.which, binaries, fallbacks);
      var i := 0;
      while i < |binaries|
        invariant 0 <= i <= |binaries|
        invariant FirstExecutable(world.isExecutable, candidates) ==
                  FirstExecutable(world.isExecutable, Discovered(world.which, binaries[i..]) + fallbacks)
      {
        SearchFrom(world.which, world.isExecutable, binaries[i..], fallbacks);
        assert binaries[i..][0] == binaries[i];
        assert binaries[i..][1..] == binaries[i + 1..];
        var path := world.which(binaries[i]);
        if path.Some? && Truthy(path.value) && world.isExecutable(Trim(path.value)) {
          return DumperPrefix(Trim(path.value));
        }
        i := i + 1;
      }
      assert binaries[i..] == [];
      assert [] + fallbacks == fallbacks;
      var j := 0;
      while j < |fallbacks|
        invariant 0 <= j <= |fallbacks|
        invariant FirstExecutable(world.isExecutable, candidates) == FirstExecutable(world.isExecutable, fallbacks[j..])
      {
        assert fallbacks[j..][1..] == fallbacks[j + 1..];
        if world.isExecutable(fallbacks[j]) {
          return DumperPrefix(fallbacks[j]);
        }
        j := j + 1;
      }
      return "";
    }

    // -------------------------------------------------------------------------
    // Issuing a command
    // -------------------------------------------------------------------------

    /** `$this->executor->execute($cmd, $capture)` followed by the check the
        source makes on its result; a failed check is the `WP_CLI::error`
        that ends the command. */
    method Perform(s: Step) returns (f: Option<Failure>)
      requires Valid() && s.Exec?
      modifies executor
      ensures Valid()
      ensures f == StepFailure(s, executor.isDryRun, executor.process, world)
      ensures executor.issued == old(executor.issued) + [Call(s.command, s.capture)]
      ensures executor.spawned == old(executor.spawned) + Started(executor.isDryRun, Call(s.command, s.capture))
    {
      var result := executor.Execute(s.command, s.capture);
      f := CheckFailure(s.check, result, executor.isDryRun, world);
    }

    // -------------------------------------------------------------------------
    // The four checks of run_tests
    // -------------------------------------------------------------------------

    /** `test_ssh_connection($ssh)`: `echo 1` over ssh must exit with 0. */
    method TestSshConnection(ssh: string) returns (f: Option<Failure>)
      requires Valid()
      modifies executor
      ensures Valid()
      ensures f == StepFailure(SshCheck(Context(), ssh), executor.isDryRun, executor.process, world)
      ensures executor.issued == old(executor.issued) + StepCommands(SshCheck(Context(), ssh))
    {
      f := Perform(Exec(SshTestCommand(Context(), ssh), true, ExitZero(SshUnreachable(ssh))));
    }

    /** `test_vhost($vhost, $is_remote)`: its step number, and a 2xx answer or
        the failure. */
    method TestVhost(vhost: string, isRemote: bool) returns (step: string, f: Option<Failure>)
      ensures step == TestNumber(VhostTest, isRemote)
      ensures f == StepFailure(HttpGet(vhost), executor.isDryRun, executor.process, world)
    {
      step := if isRemote then "2" else "1";
      match world.http(vhost)
      case TransportError(_) =>
        f := Some(VhostUnreachable(vhost));
      case Response(code) =>
        if 200 <= code < 300 {
          f := None;
        } else {
          f := Some(VhostStatus(code));
        }
    }

    /** `test_wp_path($path, $ssh, $is_remote)`: remotely the captured output
        must be `1`; locally the directory must hold `wp-settings.php`. */
    method TestWpPath(path: string, ssh: string, isRemote: bool) returns (step: string, f: Option<Failure>)
      requires Valid()
      modifies executor
      ensures Valid()
      ensures step == TestNumber(PathTest, isRemote)
      ensures f == StepFailure(PathCheck(Context(), path, ssh, isRemote), executor.isDryRun, executor.process, world)
      ensures executor.issued == old(executor.issued) + StepCommands(PathCheck(Context(), path, ssh, isRemote))
    {
      step := if isRemote then "3" else "2";
      if isRemote {
        f := Perform(Exec(PathTestCommand(Context(), ssh, path), true, PrintsOne(NotWordPress(path))));
      } else if world.isDir(path) && world.fileExists(path + "/wp-settings.php") {
        f := None;
      } else {
        f := Some(NotWordPress(path));
      }
    }

    /** `test_db_connection($conf, $ssh, $is_remote)`: remotely `wp db check`,
        whose exit code is not looked at; locally a database login. */
    method TestDbConnection(conf: Config.EnvConf, ssh: string, isRemote: bool) returns (step: string, f: Option<Failure>)
      requires Valid()
      modifies executor
      ensures Valid()
      ensures step == TestNumber(DbTest, isRemote)
      ensures f == StepFailure(DbCheck(Context(), conf, ssh, isRemote), executor.isDryRun, executor.process, world)
      ensures executor.issued == old(executor.issued) + StepCommands(DbCheck(Context(), conf, ssh, isRemote))
    {
      step := if isRemote then "4" else "3";
      if isRemote {
        f := Perform(Exec(DbTestCommand(Context(), ssh, conf.wpPath), false, Unchecked));
      } else {
        match world.dbConnect(LocalLogin(conf.db))
        case Some(reason) =>
          f := Some(DbUnreachable(reason));
        case None =>
          f := None;
      }
    }

    /** `run_tests($env)`. */
    method RunTests(env: string) returns (outcome: Outcome)
      requires Valid()
      modifies executor
      ensures Valid()
      ensures var t := TestsRun(Context(), config, env, executor.process, world);
        && executor.issued == old(executor.issued) + t.issued
        && executor.spawned == SpawnsOf(executor.isDryRun, old(executor.issued) + t.issued)
        && outcome == t.outcome
    {
      var got := Config.GetEnvConfig(config, env);
      if got.Failure? {
        return Aborted(ConfigFailure(got.error));
      }
      var conf := got.value;
      var isRemote := conf.ssh.Some?;
      var ssh := conf.ssh.GetOr("");
      ghost var ctx := Context();
      ghost var dry, process := executor.isDryRun, executor.process;
      assert TestsRun(ctx, config, env, process, world) == Run(TestPlan(ctx, conf), dry, process, world);
      ghost var start := executor.issued;
      ghost var s0 := TestStep(ctx, conf, SshTest);
      ghost var rest := [HttpGet(conf.vhost), PathCheck(ctx, conf.wpPath, ssh, isRemote), DbCheck(ctx, conf, ssh, isRemote)];
      ghost var r := Run(rest, dry, process, world);
      ghost var pre: seq<Call> := [];
      if isRemote {
        assert TestPlan(ctx, conf) == [s0] + rest;
        RunCons(s0, rest, dry, process, world);
        var f := TestSshConnection(ssh);
        if f.Some? {
          return Aborted(f.value);
        }
        pre := StepCommands(s0);
      } else {
        assert TestPlan(ctx, conf) == rest;
      }
      assert Run(TestPlan(ctx, conf), dry, process, world).issued == pre + r.issued;
      assert Run(TestPlan(ctx, conf), dry, process, world).outcome == r.outcome;
      assert executor.issued == start + pre;
      IssuedAssoc(start, pre, r.issued);
      outcome := LaterTests(conf, ssh, isRemote);
    }

    /** The vhost, path and database checks of `run_tests`, each only if the
        one before it passed. */
    method LaterTests(conf: Config.EnvConf, ssh: string, isRemote: bool) returns (outcome: Outcome)
      requires Valid()
      modifies executor
      ensures Valid()
      ensures var t := Run([HttpGet(conf.vhost), PathCheck(Context(), conf.wpPath, ssh, isRemote),
                            DbCheck(Context(), conf, ssh, isRemote)], executor.isDryRun, executor.process, world);
        executor.issued == old(executor.issued) + t.issued && outcome == t.outcome
    {
      ghost var s1, s2, s3 := HttpGet(conf.vhost), PathCheck(Context(), conf.wpPath, ssh, isRemote),
                              DbCheck(Context(), conf, ssh, isRemote);
      RunThree(s1, s2, s3, executor.isDryRun, executor.process, world);
      ghost var start := executor.issued;
      ghost var c2, c3 := StepCommands(s2), StepCommands(s3);
      var step, f := TestVhost(conf.vhost, isRemote);
      if f.Some? {
        return Aborted(f.value);
      }
      step, f := TestWpPath(conf.wpPath, ssh, isRemote);
      assert StepCommands(s1) + c2 == c2;
      if f.Some? {
        return Aborted(f.value);
      }
      step, f := TestDbConnection(conf, ssh, isRemote);
      IssuedAssoc(start, c2, c3);
      assert StepCommands(s1) + c2 + c3 == c2 + c3;
      if f.Some? {
        return Aborted(f.value);
      }
      return Completed;
    }

    // -------------------------------------------------------------------------
    // Sync
    // -------------------------------------------------------------------------

    /** `rsync($path, $ssh, $remote_path, $excludes, $direction, $use_delete)`:
        one rsync whose exit code is not looked at. */
    method Rsync(path: string, ssh: string, remotePath: string, excludes: seq<string>, d: Direction, useDelete: bool)
      requires Valid()
      modifies executor
      ensures Valid()
      ensures executor.issued == old(executor.issued) + [Call(RsyncStep(Context(), d, ssh, remotePath, excludes, useDelete, path).command, false)]
    {
      var source := RsyncSource(d, site, ssh, remotePath, path);
      var destination := RsyncDestination(d, site, ssh, remotePath, path);
      var cmd := RsyncCommand(Context(), useDelete, excludes, source, destination);
      var _ := executor.Execute(cmd, false);
    }

    /** The folder loop of `run_push` and `run_pull`. */
    method SyncFolders(folders: seq<string>, ssh: string, remotePath: string, excludes: seq<string>, d: Direction, useDelete: bool)
      requires Valid()
      modifies executor
      ensures Valid()
      ensures executor.issued == old(executor.issued) + CommandsOf(RsyncSteps(Context(), d, ssh, remotePath, excludes, useDelete, folders))
    {
      ghost var start := executor.issued;
      var i := 0;
      while i < |folders|
        invariant 0 <= i <= |folders|
        invariant Valid()
        invariant executor.issued == start + CommandsOf(RsyncSteps(Context(), d, ssh, remotePath, excludes, useDelete, folders[..i]))
      {
        ghost var done := CommandsOf(RsyncSteps(Context(), d, ssh, remotePath, excludes, useDelete, folders[..i]));
        Rsync(folders[i], ssh, remotePath, excludes, d, useDelete);
        RsyncStepsSnoc(Context(), d, ssh, remotePath, excludes, useDelete, folders, i);
        IssuedAssoc(start, done, [Call(RsyncStep(Context(), d, ssh, remotePath, excludes, useDelete, folders[i]).command, false)]);
        i := i + 1;
      }
      assert folders[..i] == folders;
    }

    /** `db_push($ssh, $remote_wp_path, $local_conf, $remote_conf)`. */
    method DbPush(ssh: string, remoteWpPath: string, localConf: Config.EnvConf, remoteConf: Config.EnvConf)
      returns (outcome: Outcome)
      requires Valid()
      modifies executor
      ensures Valid()
      ensures var t := Run(DbPushPlan(Context(), ssh, remoteWpPath, localConf, remoteConf), executor.isDryRun, executor.process, world);
        && executor.issued == old(executor.issued) + t.issued
        && executor.spawned == SpawnsOf(executor.isDryRun, old(executor.issued) + t.issued)
        && outcome == t.outcome
    {
      var file := PushDumpFile(site);
      var dumper := DumperPathEnv();
      var ctx := Ctx(site, executor.sshOptions, executor.isDryRun, dumper);
      var s0 := Exec(PushExportCommand(ctx), false, ExportedTo(file, LocalExportFailed(file)));
      var s1 := Exec(UNDEFINED_COMMAND, false, ExitZero(RemoteDirFailed));
      var s2 := Exec(PushScpCommand(ctx, ssh, remoteWpPath), false, ExitZero(PushTransferFailed));
      var s3 := Exec(PushImportCommand(ctx, ssh, remoteWpPath, localConf.vhost, remoteConf.vhost), false, ExitZero(RemoteImportFailed));
      assert DbPushPlan(Context(), ssh, remoteWpPath, localConf, remoteConf) == [s0, s1, s2, s3];
      outcome := PerformFour(s0, s1, s2, s3);
    }

    /** `db_pull($ssh, $remote_wp_path, $local_conf, $remote_conf)`; the
        dumper prefix is looked up again before the local import. */
    method DbPull(ssh: string, remoteWpPath: string, localConf: Config.EnvConf, remoteConf: Config.EnvConf)
      returns (outcome: Outcome)
      requires Valid()
      modifies executor
      ensures Valid()
      ensures var t := Run(DbPullPlan(Context(), ssh, remoteWpPath, localConf, remoteConf), executor.isDryRun, executor.process, world);
        && executor.issued == old(executor.issued) + t.issued
        && executor.spawned == SpawnsOf(executor.isDryRun, old(executor.issued) + t.issued)
        && outcome == t.outcome
    {
      var dumper := DumperPathEnv();
      var ctx := Ctx(site, executor.sshOptions, executor.isDryRun, dumper);
      var s0 := Exec(PullMkdirCommand(ctx, ssh, remoteWpPath), false, ExitZero(RemoteDirFailed));
      var s1 := Exec(PullExportCommand(ctx, ssh, remoteWpPath), false, ExitZero(RemoteExportFailed));
      var s2 := Exec(PullScpCommand(ctx, ssh, remoteWpPath), false, ExitZero(PullTransferFailed));
      dumper := DumperPathEnv();
      ctx := Ctx(site, executor.sshOptions, executor.isDryRun, dumper);
      var s3 := Exec(PullImportCommand(ctx, localConf.vhost, remoteConf.vhost), false, ExitZero(LocalImportFailed));
      assert DbPullPlan(Context(), ssh, remoteWpPath, localConf, remoteConf) == [s0, s1, s2, s3];
      outcome := PerformFour(s0, s1, s2, s3);
    }

    /** Four commands in a row, each only if the checks before it passed: the
        shape of `db_push` and `db_pull`. */
    method PerformFour(s0: Step, s1: Step, s2: Step, s3: Step) returns (outcome: Outcome)
      requires Valid() && s0.Exec? && s1.Exec? && s2.Exec? && s3.Exec?
      modifies executor
      ensures Valid()
      ensures var t := Run([s0, s1, s2, s3], executor.isDryRun, executor.process, world);
        executor.issued == old(executor.issued) + t.issued && outcome == t.outcome
    {
      RunFour(s0, s1, s2, s3, executor.isDryRun, executor.process, world);
      ghost var start := executor.issued;
      ghost var c0, c1, c2, c3 := StepCommands(s0), StepCommands(s1), StepCommands(s2), StepCommands(s3);
      var f := Perform(s0);
      if f.Some? {
        return Aborted(f.value);
      }
      f := Perform(s1);
      IssuedAssoc(start, c0, c1);
      if f.Some? {
        return Aborted(f.value);
      }
      f := Perform(s2);
      IssuedAssoc(start, c0 + c1, c2);
      if f.Some? {
        return Aborted(f.value);
      }
      f := Perform(s3);
      IssuedAssoc(start, c0 + c1 + c2, c3);
      if f.Some? {
        return Aborted(f.value);
      }
      return Completed;
    }

    /** `run_push($env, $folders_to_sync, $sync_db, $use_delete)`. */
    method RunPush(env: string, folders: seq<string>, syncDb: bool, useDelete: bool) returns (outcome: Outcome)
      requires Valid()
      modifies executor
      ensures Valid()
      ensures var t := PushRun(Context(), config, env, folders, syncDb, useDelete, executor.process, world);
        && executor.issued == old(executor.issued) + t.issued
        && executor.spawned == SpawnsOf(executor.isDryRun, old(executor.issued) + t.issued)
        && outcome == t.outcome
    {
      var got := Config.GetEnvConfig(config, env);
      if got.Failure? {
        return Aborted(ConfigFailure(got.error));
      }
      var conf := got.value;
      var ssh := conf.ssh.GetOr("");
      ghost var start := executor.issued;
      ghost var rs := CommandsOf(RsyncSteps(Context(), Push, ssh, conf.wpPath, conf.exclude, useDelete, folders));
      SyncOrder(Context(), Push, conf, Config.GetLocalConfig(config), folders, syncDb, useDelete, executor.process, world);
      SyncFolders(folders, ssh, conf.wpPath, conf.exclude, Push, useDelete);
      ghost var mid := executor.issued;
      outcome := Completed;
      if syncDb {
        outcome := DbPush(ssh, conf.wpPath, Config.GetLocalConfig(config), conf);
        IssuedAssoc(start, rs, executor.issued[|mid|..]);
      } else {
        assert rs + [] == rs;
      }
    }

    /** `run_pull($env, $folders_to_sync, $sync_db, $use_delete)`. */
    method RunPull(env: string, folders: seq<string>, syncDb: bool, useDelete: bool) returns (outcome: Outcome)
      requires Valid()
      modifies executor
      ensures Valid()
      ensures var t := PullRun(Context(), config, env, folders, syncDb, useDelete, executor.process, world);
        && executor.issued == old(executor.issued) + t.issued
        && executor.spawned == SpawnsOf(executor.isDryRun, old(executor.issued) + t.issued)
        && outcome == t.outcome
    {
      var got := Config.GetEnvConfig(config, env);
      if got.Failure? {
        return Aborted(ConfigFailure(got.error));
      }
      var remoteConf := got.value;
      var ssh := remoteConf.ssh.GetOr("");
      if !Truthy(ssh) {
        return Aborted(PullNeedsSsh(env));
      }
      ghost var start := executor.issued;
      ghost var rs := CommandsOf(RsyncSteps(Context(), Pull, ssh, remoteConf.wpPath, remoteConf.exclude, useDelete, folders));
      SyncOrder(Context(), Pull, remoteConf, Config.GetLocalConfig(config), folders, syncDb, useDelete, executor.process, world);
      SyncFolders(folders, ssh, remoteConf.wpPath, remoteConf.exclude, Pull, useDelete);
      ghost var mid := executor.issued;
      outcome := Completed;
      if syncDb {
        outcome := DbPull(ssh, remoteConf.wpPath, Config.GetLocalConfig(config), remoteConf);
        IssuedAssoc(start, rs, executor.issued[|mid|..]);
      } else {
        assert rs + [] == rs;
      }
    }

    // -------------------------------------------------------------------------
    // Dumps
    // -------------------------------------------------------------------------

    /** `purge_dumps($env)`: one removal, whose exit code is not looked at. */
    method PurgeDumps(env: string) returns (outcome: Outcome)
      requires Valid()
      modifies executor
      ensures Valid()
      ensures var t := DumpRun(Context(), config, env, true, executor.process, world);
        && executor.issued == old(executor.issued) + t.issued
        && executor.spawned == SpawnsOf(executor.isDryRun, old(executor.issued) + t.issued)
        && outcome == t.outcome
    {
      var got := Config.GetEnvConfig(config, env);
      if got.Failure? {
        return Aborted(ConfigFailure(got.error));
      }
      var conf := got.value;
      var s := Exec(PurgeCommand(Context(), conf), false, Unchecked);
      assert PurgePlan(Context(), conf) == [s];
      RunSingle(s, executor.isDryRun, executor.process, world);
      var _ := Perform(s);
      return Completed;
    }

    /** `run_dump($env, $purge)`. */
    method RunDump(env: string, purge: bool) returns (outcome: Outcome)
      requires Valid()
      modifies executor
      ensures Valid()
      ensures var t := DumpRun(Context(), config, env, purge, executor.process, world);
        && executor.issued == old(executor.issued) + t.issued
        && executor.spawned == SpawnsOf(executor.isDryRun, old(executor.issued) + t.issued)
        && outcome == t.outcome
    {
      if purge {
        outcome := PurgeDumps(env);
        return;
      }
      var got := Config.GetEnvConfig(config, env);
      if got.Failure? {
        return Aborted(ConfigFailure(got.error));
      }
      var conf := got.value;
      var dumper := DumperPathEnv();
      var ctx := Ctx(site, executor.sshOptions, executor.isDryRun, dumper);
      var s := Exec(DumpCommand(ctx, env, conf), false, ExitZero(DumpFailed(env)));
      assert DumpPlan(Context(), env, conf) == [s];
      RunSingle(s, executor.isDryRun, executor.process, world);
      var f := Perform(s);
      if f.Some? {
        return Aborted(f.value);
      }
      return Completed;
    }
  }
}
