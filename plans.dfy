/**
 * The command lines the task runner (inc/TaskRunner.php) builds, and for each
 * of its operations the list of steps it goes through. These are plain
 * string expressions in the source; the imperative task runner issues
 * exactly these steps, in this order, stopping at the first failed check.
 */
module Plans {
  import opened Wrappers
  import opened PhpStrings
  import opened Executor
  import opened Pipeline
  import opened Dumper
  import Config

  /** `ABSPATH`, `WP_CONTENT_DIR` and the one `date('Ymd_His')` reading of an
      invocation. */
  datatype Site = Site(absPath: string, contentDir: string, now: string)

  /** What every command line of one invocation shares: the site, the
      executor's ssh options and dry-run flag, and the dumper prefix. */
  datatype Ctx = Ctx(site: Site, sshOptions: string, dryRun: bool, dumper: string)

  datatype Direction = Push | Pull

  // ---------------------------------------------------------------------------
  // rsync
  // ---------------------------------------------------------------------------

  /** The option words rsync is given, in order. */
  function RsyncFlags(useDelete: bool, dryRun: bool): seq<string> {
    ["-avz"] + (if useDelete then ["--delete"] else []) + (if dryRun then ["-ni"] else ["--progress"])
  }

  /** `$rsync_options`. */
  function RsyncOptions(useDelete: bool, dryRun: bool): string {
    "-avz" + (if useDelete then " --delete" else "") + (if dryRun then " -ni" else " --progress")
  }

  /** The option string reads back as `-avz`, then `--delete` only when
      deleting, then `-ni` under dry-run and `--progress` otherwise. */
  lemma RsyncOptionsWords(useDelete: bool, dryRun: bool)
    ensures Split(RsyncOptions(useDelete, dryRun), ' ') == RsyncFlags(useDelete, dryRun)
    ensures RsyncFlags(useDelete, dryRun)[0] == "-avz"
    ensures "--delete" in RsyncFlags(useDelete, dryRun) <==> useDelete
    ensures "-ni" in RsyncFlags(useDelete, dryRun) <==> dryRun
    ensures "--progress" in RsyncFlags(useDelete, dryRun) <==> !dryRun
  {
    var fs := RsyncFlags(useDelete, dryRun);
    RsyncOptionsJoin(useDelete, dryRun);
    SplitJoin(fs, ' ');
  }

  lemma RsyncOptionsJoin(useDelete: bool, dryRun: bool)
    ensures RsyncOptions(useDelete, dryRun) == Join(RsyncFlags(useDelete, dryRun), " ")
  {
    var fs := RsyncFlags(useDelete, dryRun);
    var last := if dryRun then "-ni" else "--progress";
    if useDelete {
      assert fs == ["-avz", "--delete", last];
      assert fs[1..] == ["--delete", last];
      assert fs[1..][1..] == [last];
      assert Join(fs[1..][1..], " ") == last;
      assert Join(fs[1..], " ") == "--delete" + " " + last;
      assert Join(fs, " ") == "-avz" + " " + ("--delete" + " " + last);
    } else {
      assert fs == ["-avz", last];
      assert fs[1..] == [last];
      assert Join(fs, " ") == "-avz" + " " + last;
    }
  }

  /** The `--exclude=X` word for each configured exclude, in order. */
  function ExcludeFlags(excludes: seq<string>): (fs: seq<string>)
    ensures |fs| == |excludes|
    ensures forall i :: 0 <= i < |excludes| ==> fs[i] == "--exclude=" + excludes[i]
  {
    seq(|excludes|, i requires 0 <= i < |excludes| => "--exclude=" + excludes[i])
  }

  /** `$excludeArgs`. */
  function ExcludeArgs(excludes: seq<string>): string {
    Join(ExcludeFlags(excludes), " ")
  }

  /** Without spaces inside the patterns, the exclude arguments read back as
      one `--exclude=X` word per pattern, in the configured order. */
  lemma ExcludeArgsWords(excludes: seq<string>)
    requires excludes != []
    requires forall i :: 0 <= i < |excludes| ==> ' ' !in excludes[i]
    ensures var ws := Split(ExcludeArgs(excludes), ' ');
      |ws| == |excludes| && forall i :: 0 <= i < |excludes| ==> ws[i] == "--exclude=" + excludes[i]
  {
    var fs := ExcludeFlags(excludes);
    forall i | 0 <= i < |fs|
      ensures ' ' !in fs[i]
    {
      var w := "--exclude=" + excludes[i];
      assert fs[i] == w;
      forall j | 0 <= j < |w|
        ensures w[j] != ' '
      {
        if j >= 10 {
          assert w[j] == excludes[i][j - 10];
        }
      }
    }
    SplitJoin(fs, ' ');
  }

  /** `$source`: the directory whose content is sent, with a trailing slash. */
  function RsyncSource(d: Direction, site: Site, ssh: string, remotePath: string, path: string): string {
    if d == Pull then ssh + ":" + RTrimSlash(remotePath) + "/" + path + "/"
    else RTrimSlash(site.absPath) + "/" + path + "/"
  }

  /** `$destination`: the directory that receives it, without one. */
  function RsyncDestination(d: Direction, site: Site, ssh: string, remotePath: string, path: string): string {
    if d == Pull then RTrimSlash(site.absPath) + "/" + path
    else ssh + ":" + RTrimSlash(remotePath) + "/" + path
  }

  /** Pulling swaps the two sides of a push: what a push sends from is what
      a pull writes into, and the other way round. */
  lemma RsyncDirectionsSwap(site: Site, ssh: string, remotePath: string, path: string)
    ensures RsyncSource(Pull, site, ssh, remotePath, path) == RsyncDestination(Push, site, ssh, remotePath, path) + "/"
    ensures RsyncSource(Push, site, ssh, remotePath, path) == RsyncDestination(Pull, site, ssh, remotePath, path) + "/"
    ensures StartsWith(RsyncSource(Pull, site, ssh, remotePath, path), ssh + ":")
    ensures StartsWith(RsyncDestination(Push, site, ssh, remotePath, path), ssh + ":")
  {
    var a := ssh + ":";
    assert RsyncSource(Pull, site, ssh, remotePath, path) == a + (RTrimSlash(remotePath) + "/" + path + "/");
    assert RsyncDestination(Push, site, ssh, remotePath, path) == a + (RTrimSlash(remotePath) + "/" + path);
  }

  /** `$cmd` of `rsync()`. */
  function RsyncCommand(ctx: Ctx, useDelete: bool, excludes: seq<string>, source: string, destination: string): (cmd: string)
    ensures IsRsync(cmd)
  {
    var cmd := "rsync " + RsyncOptions(useDelete, ctx.dryRun) + " -e 'ssh " + ctx.sshOptions + "' "
      + ExcludeArgs(excludes) + " " + source + " " + destination;
    assert cmd[..5] == "rsync";
    cmd
  }

  /** The step `rsync()` is: its exit code is never looked at. */
  function RsyncStep(ctx: Ctx, d: Direction, ssh: string, remotePath: string, excludes: seq<string>,
                     useDelete: bool, path: string): Step
  {
    Exec(RsyncCommand(ctx, useDelete, excludes,
                      RsyncSource(d, ctx.site, ssh, remotePath, path),
                      RsyncDestination(d, ctx.site, ssh, remotePath, path)), false, Unchecked)
  }

  /** One rsync step per folder, in the order given. */
  function RsyncSteps(ctx: Ctx, d: Direction, ssh: string, remotePath: string, excludes: seq<string>,
                      useDelete: bool, folders: seq<string>): (plan: seq<Step>)
    ensures |plan| == |folders| && AllUnchecked(plan)
    ensures forall i :: 0 <= i < |folders| ==> plan[i] == RsyncStep(ctx, d, ssh, remotePath, excludes, useDelete, folders[i])
  {
    seq(|folders|, i requires 0 <= i < |folders| => RsyncStep(ctx, d, ssh, remotePath, excludes, useDelete, folders[i]))
  }

  /** The calls of the rsync steps: one uncaptured rsync per folder, in order. */
  lemma {:induction false} RsyncStepsCommands(ctx: Ctx, d: Direction, ssh: string, remotePath: string,
                                               excludes: seq<string>, useDelete: bool, folders: seq<string>)
    ensures var cs := CommandsOf(RsyncSteps(ctx, d, ssh, remotePath, excludes, useDelete, folders));
      |cs| == |folders| &&
      forall i :: 0 <= i < |folders| ==>
        cs[i] == Call(RsyncStep(ctx, d, ssh, remotePath, excludes, useDelete, folders[i]).command, false)
  {
    if folders != [] {
      var plan := RsyncSteps(ctx, d, ssh, remotePath, excludes, useDelete, folders);
      var rest := RsyncSteps(ctx, d, ssh, remotePath, excludes, useDelete, folders[1..]);
      assert plan[1..] == rest;
      RsyncStepsCommands(ctx, d, ssh, remotePath, excludes, useDelete, folders[1..]);
    }
  }

  /** One more folder adds its rsync call at the end. */
  lemma RsyncStepsSnoc(ctx: Ctx, d: Direction, ssh: string, remotePath: string, excludes: seq<string>,
                       useDelete: bool, folders: seq<string>, i: nat)
    requires i < |folders|
    ensures CommandsOf(RsyncSteps(ctx, d, ssh, remotePath, excludes, useDelete, folders[..i + 1])) ==
            CommandsOf(RsyncSteps(ctx, d, ssh, remotePath, excludes, useDelete, folders[..i]))
              + [Call(RsyncStep(ctx, d, ssh, remotePath, excludes, useDelete, folders[i]).command, false)]
  {
    var s := RsyncStep(ctx, d, ssh, remotePath, excludes, useDelete, folders[i]);
    var before := RsyncSteps(ctx, d, ssh, remotePath, excludes, useDelete, folders[..i]);
    assert RsyncSteps(ctx, d, ssh, remotePath, excludes, useDelete, folders[..i + 1]) == before + [s];
    CommandsOfAppend(before, [s]);
    assert [s][1..] == [];
  }

  // ---------------------------------------------------------------------------
  // Shared command shapes
  // ---------------------------------------------------------------------------

  /** A command whose first character is not `r` is not an rsync command. */
  lemma NotRsync(cmd: string)
    requires cmd != "" && cmd[0] != 'r'
    ensures !IsRsync(cmd)
  {
    if |cmd| >= 5 {
      assert cmd[..5][0] == cmd[0];
    }
  }

  /** `ssh <options> <target> '<script>'`. */
  function RemoteShell(ctx: Ctx, target: string, script: string): (cmd: string)
    ensures StartsWith(cmd, "ssh " + ctx.sshOptions + " ") && !IsRsync(cmd)
  {
    var cmd := "ssh " + ctx.sshOptions + " " + target + " '" + script + "'";
    assert cmd[..|"ssh " + ctx.sshOptions + " "|] == "ssh " + ctx.sshOptions + " ";
    NotRsync(cmd);
    cmd
  }

  /** `scp <options> '<from>' '<to>'`. */
  function ScpCommand(ctx: Ctx, from: string, to: string): (cmd: string)
    ensures StartsWith(cmd, "scp " + ctx.sshOptions + " ") && !IsRsync(cmd)
  {
    var cmd := "scp " + ctx.sshOptions + " " + EscapeShellArg(from) + " " + EscapeShellArg(to);
    assert cmd[..|"scp " + ctx.sshOptions + " "|] == "scp " + ctx.sshOptions + " ";
    NotRsync(cmd);
    cmd
  }

  /** The `wp search-replace` call that rewrites `from` into `to` in every table
      but leaves the `guid` column alone. */
  function SearchReplace(pathArg: string, from: string, to: string): string {
    "wp --path=" + pathArg + " search-replace " + EscapeShellArg(from) + " " + EscapeShellArg(to)
      + SEARCH_REPLACE_FLAGS
  }

  const SEARCH_REPLACE_FLAGS := " --all-tables" + " --skip-columns=guid" + " --allow-root"

  // ---------------------------------------------------------------------------
  // Dump files
  // ---------------------------------------------------------------------------

  /** `WP_CONTENT_DIR . '/wpcli-move'`. */
  function DumpDir(site: Site): string {
    site.contentDir + "/wpcli-move"
  }

  /** `rtrim($wp_path, '/') . '/wp-content/wpcli-move'`. */
  function RemoteDumpDir(wpPath: string): string {
    RTrimSlash(wpPath) + "/wp-content/wpcli-move"
  }

  /** A path of the remote dump directory for file `name`. */
  function RemoteDumpPath(wpPath: string, name: string): string {
    RTrimSlash(wpPath) + "/wp-content/wpcli-move/" + name
  }

  /** `run_dump`'s file name: `<env>_<Ymd_His>.sql`. */
  function DumpFileName(env: string, now: string): string {
    env + "_" + now + ".sql"
  }

  /** A time stamp of the `Ymd_His` kind: no slash in it. */
  predicate PlainStamp(s: string) {
    '/' !in s
  }

  /** A file name made of slash-free parts has no slash. */
  lemma NoSlashInConcat(a: string, b: string)
    requires '/' !in a && '/' !in b
    ensures '/' !in a + b
  {
    forall i | 0 <= i < |a + b|
      ensures (a + b)[i] != '/'
    {
      if i >= |a| { assert (a + b)[i] == b[i - |a|]; }
    }
  }

  lemma DumpFileNameHasNoSlash(env: string, now: string)
    requires '/' !in env && PlainStamp(now)
    ensures DumpFileName(env, now) != "" && '/' !in DumpFileName(env, now)
  {
    NoSlashInConcat(env, "_");
    NoSlashInConcat(env + "_", now);
    NoSlashInConcat(env + "_" + now, ".sql");
  }

  /** The remote dump directory does not end in a slash. */
  lemma RemoteDumpDirShape(wpPath: string)
    ensures RemoteDumpDir(wpPath) != "" && RemoteDumpDir(wpPath)[|RemoteDumpDir(wpPath)| - 1] != '/'
    ensures RemoteDumpPath(wpPath, "") == RemoteDumpDir(wpPath) + "/"
  {
  }

  /** A remote dump file lies in the remote dump directory: `dirname` gives the
      directory back and `basename` the file name. */
  lemma RemoteDumpPathParts(wpPath: string, name: string)
    requires name != "" && '/' !in name
    ensures Dirname(RemoteDumpPath(wpPath, name)) == RemoteDumpDir(wpPath)
    ensures Basename(RemoteDumpPath(wpPath, name)) == name
  {
    RemoteDumpDirShape(wpPath);
    assert RemoteDumpPath(wpPath, name) == RemoteDumpDir(wpPath) + "/" + name;
    DirnameBasenameOfChild(RemoteDumpDir(wpPath), name);
  }

  /** The same for a local dump file and the local dump directory. */
  lemma LocalDumpPathParts(site: Site, name: string)
    requires name != "" && '/' !in name
    ensures Dirname(DumpDir(site) + "/" + name) == DumpDir(site)
    ensures Basename(DumpDir(site) + "/" + name) == name
  {
    DirnameBasenameOfChild(DumpDir(site), name);
  }

  // ---------------------------------------------------------------------------
  // db_push
  // ---------------------------------------------------------------------------

  /** `$mkdir_cmd` is never assigned in `db_push`: PHP's null, used as a
      command, is the empty string. */
  const UNDEFINED_COMMAND := ""

  /** `$local_dump_file` of `db_push`. */
  function PushDumpFile(site: Site): string {
    DumpDir(site) + "/local_" + site.now + ".sql"
  }

  /** `$remote_dump_path` of `db_push`. */
  function PushRemoteDumpPath(site: Site, remoteWpPath: string): string {
    RemoteDumpPath(remoteWpPath, Basename(PushDumpFile(site)))
  }

  function PushExportCommand(ctx: Ctx): string {
    ctx.dumper + "wp --path=" + EscapeShellArg(ctx.site.absPath) + " db export " + PushDumpFile(ctx.site) + " --allow-root"
  }

  function PushScpCommand(ctx: Ctx, ssh: string, remoteWpPath: string): string {
    ScpCommand(ctx, PushDumpFile(ctx.site), ssh + ":" + PushRemoteDumpPath(ctx.site, remoteWpPath))
  }

  function PushImportCommand(ctx: Ctx, ssh: string, remoteWpPath: string, localVhost: string, remoteVhost: string): string {
    RemoteShell(ctx, ssh,
      "wp --path=" + EscapeShellArg(remoteWpPath) + " db import " + EscapeShellArg(PushRemoteDumpPath(ctx.site, remoteWpPath))
      + " --allow-root && " + SearchReplace(EscapeShellArg(remoteWpPath), localVhost, remoteVhost))
  }

  /** `db_push`: local export (checked only outside dry-run, also for the
      file), the undefined command, upload, then remote import followed by
      the search-replace of the local vhost into the remote one. */
  function DbPushPlan(ctx: Ctx, ssh: string, remoteWpPath: string, localConf: Config.EnvConf,
                      remoteConf: Config.EnvConf): seq<Step>
  {
    var file := PushDumpFile(ctx.site);
    [ Exec(PushExportCommand(ctx), false, ExportedTo(file, LocalExportFailed(file))),
      Exec(UNDEFINED_COMMAND, false, ExitZero(RemoteDirFailed)),
      Exec(PushScpCommand(ctx, ssh, remoteWpPath), false, ExitZero(PushTransferFailed)),
      Exec(PushImportCommand(ctx, ssh, remoteWpPath, localConf.vhost, remoteConf.vhost), false, ExitZero(RemoteImportFailed)) ]
  }

  /** The upload goes to the remote dump directory under the local file's name. */
  lemma PushDumpLandsInRemoteDumpDir(site: Site, remoteWpPath: string)
    requires PlainStamp(site.now)
    ensures Basename(PushDumpFile(site)) == "local_" + site.now + ".sql"
    ensures Dirname(PushRemoteDumpPath(site, remoteWpPath)) == RemoteDumpDir(remoteWpPath)
  {
    var name := "local_" + site.now + ".sql";
    NoSlashInConcat("local_", site.now);
    NoSlashInConcat("local_" + site.now, ".sql");
    assert PushDumpFile(site) == DumpDir(site) + "/" + name;
    LocalDumpPathParts(site, name);
    RemoteDumpPathParts(remoteWpPath, name);
  }

  /** A real database push never gets past its second step, whatever the
      processes report: the export either fails, or is followed by the empty
      command, which is refused and so fails its exit-code check. Nothing is
      uploaded and nothing imported. */
  lemma DbPushStopsAtUndefinedCommand(ctx: Ctx, ssh: string, remoteWpPath: string, localConf: Config.EnvConf,
                                      remoteConf: Config.EnvConf, process: string -> Proc, world: World)
    requires !ctx.dryRun
    ensures var file := PushDumpFile(ctx.site);
      var exported := Call(PushExportCommand(ctx), false);
      Run(DbPushPlan(ctx, ssh, remoteWpPath, localConf, remoteConf), false, process, world) ==
        if Reported(false, process, PushExportCommand(ctx), false).returnCode != 0 || !world.fileExists(file)
        then Trace([exported], 1, Aborted(LocalExportFailed(file)))
        else Trace([exported, Call(UNDEFINED_COMMAND, false)], 2, Aborted(RemoteDirFailed))
  {
    var file := PushDumpFile(ctx.site);
    var s0 := Exec(PushExportCommand(ctx), false, ExportedTo(file, LocalExportFailed(file)));
    var s1 := Exec(UNDEFINED_COMMAND, false, ExitZero(RemoteDirFailed));
    var s2 := Exec(PushScpCommand(ctx, ssh, remoteWpPath), false, ExitZero(PushTransferFailed));
    var s3 := Exec(PushImportCommand(ctx, ssh, remoteWpPath, localConf.vhost, remoteConf.vhost), false, ExitZero(RemoteImportFailed));
    assert DbPushPlan(ctx, ssh, remoteWpPath, localConf, remoteConf) == [s0, s1, s2, s3];
    RefusedSecondStep(s0, s1, s2, s3, process, world);
  }

  /** Outside dry-run, four uncaptured steps whose second is the empty
      command stop at the first or at the second. */
  lemma RefusedSecondStep(s0: Step, s1: Step, s2: Step, s3: Step, process: string -> Proc, world: World)
    requires s0.Exec? && !s0.capture && s1 == Exec(UNDEFINED_COMMAND, false, ExitZero(RemoteDirFailed))
    ensures Run([s0, s1, s2, s3], false, process, world) ==
      match StepFailure(s0, false, process, world)
      case Some(f) => Trace([Call(s0.command, false)], 1, Aborted(f))
      case None => Trace([Call(s0.command, false), Call(UNDEFINED_COMMAND, false)], 2, Aborted(RemoteDirFailed))
  {
    assert Rejected(false, UNDEFINED_COMMAND, false);
    RunSecondOfFourFails(s0, s1, s2, s3, false, process, world);
    assert StepCommands(s0) + StepCommands(s1) == [Call(s0.command, false), Call(UNDEFINED_COMMAND, false)];
  }

  // ---------------------------------------------------------------------------
  // db_pull
  // ---------------------------------------------------------------------------

  /** `$remote_dump_file_name` of `db_pull`. */
  function PullDumpName(site: Site): string {
    "wp_move_remote_" + site.now + ".sql"
  }

  function PullRemoteDumpPath(site: Site, remoteWpPath: string): string {
    RemoteDumpPath(remoteWpPath, PullDumpName(site))
  }

  function PullLocalDumpFile(site: Site): string {
    DumpDir(site) + "/" + PullDumpName(site)
  }

  function PullMkdirCommand(ctx: Ctx, ssh: string, remoteWpPath: string): string {
    RemoteShell(ctx, ssh, "mkdir -p " + EscapeShellArg(Dirname(PullRemoteDumpPath(ctx.site, remoteWpPath))))
  }

  function PullExportCommand(ctx: Ctx, ssh: string, remoteWpPath: string): string {
    RemoteShell(ctx, ssh, ctx.dumper + "wp --path=" + EscapeShellArg(remoteWpPath) + " db export "
      + EscapeShellArg(PullRemoteDumpPath(ctx.site, remoteWpPath)) + " --allow-root")
  }

  function PullScpCommand(ctx: Ctx, ssh: string, remoteWpPath: string): string {
    ScpCommand(ctx, ssh + ":" + PullRemoteDumpPath(ctx.site, remoteWpPath), PullLocalDumpFile(ctx.site))
  }

  /** The local import and search-replace of `db_pull`, with the dumper
      prefix leading both `wp` calls as it is. */
  function PullImportCommand(ctx: Ctx, localVhost: string, remoteVhost: string): (cmd: string)
    ensures StartsWith(cmd, ctx.dumper + "wp --path=" + EscapeShellArg(ctx.site.absPath) + " db import ")
    ensures DumperShaped(ctx.dumper) ==> !IsRsync(cmd)
  {
    var abs := EscapeShellArg(ctx.site.absPath);
    var cmd := ctx.dumper + "wp --path=" + abs + " db import " + EscapeShellArg(PullLocalDumpFile(ctx.site)) + " --allow-root && "
      + ctx.dumper + SearchReplace(abs, remoteVhost, localVhost);
    var lead := ctx.dumper + "wp --path=" + abs + " db import ";
    assert StartsWith(cmd, lead) by {
      assert cmd[..|lead|] == lead;
    }
    assert StartsWith(cmd, ctx.dumper + "w") by {
      assert cmd[..|ctx.dumper| + 1] == ctx.dumper + "w";
    }
    if DumperShaped(ctx.dumper) then DumperLed(ctx.dumper, cmd); cmd else cmd
  }

  /** The format `db_pull` gives `sprintf` for its local import. The dumper
      prefix is spliced into the format itself; the paths and vhosts are `%s`
      arguments. */
  function PullImportFormat(dumper: string): string {
    dumper + "wp --path=" + "%s" + " db import " + "%s" + " --allow-root && "
      + dumper + "wp --path=" + "%s" + " search-replace " + "%s" + " " + "%s" + SEARCH_REPLACE_FLAGS
  }

  /** `$import_cmd` of `db_pull` as written: the format read by `sprintf`. */
  function PullImportAsWritten(ctx: Ctx, localVhost: string, remoteVhost: string): Option<string> {
    var abs := EscapeShellArg(ctx.site.absPath);
    Sprintf(PullImportFormat(ctx.dumper),
      [abs, EscapeShellArg(PullLocalDumpFile(ctx.site)), abs, EscapeShellArg(remoteVhost), EscapeShellArg(localVhost)])
  }

  /** `sprintf` reads the dumper prefix as a format: the import it builds is
      the one for the prefix as `sprintf` reads it. */
  lemma PullImportAsWrittenReads(ctx: Ctx, localVhost: string, remoteVhost: string, d: string)
    requires Sprintf(ctx.dumper, []) == Some(d)
    ensures PullImportAsWritten(ctx, localVhost, remoteVhost) == Some(PullImportCommand(ctx.(dumper := d), localVhost, remoteVhost))
  {
    var abs := EscapeShellArg(ctx.site.absPath);
    var file := EscapeShellArg(PullLocalDumpFile(ctx.site));
    var from, to := EscapeShellArg(remoteVhost), EscapeShellArg(localVhost);
    var w, di, amp, sr, sp := "wp --path=", " db import ", " --allow-root && ", " search-replace ", " ";
    var flags := SEARCH_REPLACE_FLAGS;
    RegroupImport(ctx.dumper, w, "%s", di, "%s", amp, ctx.dumper, w, "%s", sr, "%s", sp, "%s", flags);
    assert '%' !in flags;
    SprintfPlain(flags);
    ImportFormatReads(ctx.dumper, d, w, di, amp, sr, sp, flags, abs, file, abs, from, to);
    RegroupImport(d, w, abs, di, file, amp, d, w, abs, sr, from, sp, to, flags);
  }

  /** The import command and its format share one grouping of fourteen
      parts. */
  lemma RegroupImport<T>(a0: seq<T>, a1: seq<T>, a2: seq<T>, a3: seq<T>, a4: seq<T>, a5: seq<T>, a6: seq<T>,
                         a7: seq<T>, a8: seq<T>, a9: seq<T>, a10: seq<T>, a11: seq<T>, a12: seq<T>, a13: seq<T>)
    ensures a0 + a1 + a2 + a3 + a4 + a5 + a6 + a7 + a8 + a9 + a10 + a11 + a12 + a13
         == a0 + (a1 + a2 + (a3 + a4 + (a5 + a6 + (a7 + a8 + (a9 + a10 + (a11 + a12 + a13))))))
    ensures a0 + a1 + a2 + a3 + a4 + a5 + a6 + (a7 + a8 + a9 + a10 + a11 + a12 + a13)
         == a0 + (a1 + a2 + (a3 + a4 + (a5 + a6 + (a7 + a8 + (a9 + a10 + (a11 + a12 + a13))))))
  {
  }

  /** The shape of the import format: the prefix twice, each time before the
      same text, and five `%s` directives between texts without `%`. */
  lemma ImportFormatReads(dumper: string, d: string, w: string, di: string, amp: string, sr: string, sp: string, tail: string,
                          x0: string, x1: string, x2: string, x3: string, x4: string)
    requires Sprintf(dumper, []) == Some(d)
    requires '%' !in w && '%' !in di && '%' !in amp && '%' !in sr && '%' !in sp
    requires Sprintf(tail, []) == Some(tail)
    ensures Sprintf(dumper + (w + "%s" + (di + "%s" + (amp + dumper + (w + "%s" + (sr + "%s" + (sp + "%s" + tail)))))), [x0, x1, x2, x3, x4])
         == Some(d + (w + x0 + (di + x1 + (amp + d + (w + x2 + (sr + x3 + (sp + x4 + tail)))))))
  {
    var f4 := sp + "%s" + tail;
    var r4 := sp + x4 + tail;
    assert Sprintf(f4, [x4]) == Some(r4) by {
      SprintfTextArg(sp, x4, tail, []);
      assert [x4] + [] == [x4];
    }
    var f3 := sr + "%s" + f4;
    var r3 := sr + x3 + r4;
    assert Sprintf(f3, [x3, x4]) == Some(r3) by {
      SprintfTextArg(sr, x3, f4, [x4]);
      assert [x3] + [x4] == [x3, x4];
    }
    var f2 := w + "%s" + f3;
    var r2 := w + x2 + r3;
    assert Sprintf(f2, [x2, x3, x4]) == Some(r2) by {
      SprintfTextArg(w, x2, f3, [x3, x4]);
      assert [x2] + [x3, x4] == [x2, x3, x4];
    }
    var f2' := amp + dumper + f2;
    var r2' := amp + d + r2;
    assert Sprintf(f2', [x2, x3, x4]) == Some(r2') by {
      SprintfPlain(amp);
      SprintfPrefix(amp, amp, dumper, []);
      SprintfPrefix(amp + dumper, amp + d, f2, [x2, x3, x4]);
    }
    var f1 := di + "%s" + f2';
    var r1 := di + x1 + r2';
    assert Sprintf(f1, [x1, x2, x3, x4]) == Some(r1) by {
      SprintfTextArg(di, x1, f2', [x2, x3, x4]);
      assert [x1] + [x2, x3, x4] == [x1, x2, x3, x4];
    }
    var f0 := w + "%s" + f1;
    var r0 := w + x0 + r1;
    assert Sprintf(f0, [x0, x1, x2, x3, x4]) == Some(r0) by {
      SprintfTextArg(w, x0, f1, [x1, x2, x3, x4]);
      assert [x0] + [x1, x2, x3, x4] == [x0, x1, x2, x3, x4];
    }
    SprintfPrefix(dumper, d, f0, [x0, x1, x2, x3, x4]);
  }

  /** Without a `%` in the dumper prefix `sprintf` leaves it alone, and the
      import as written is the model's. */
  lemma PullImportAsWrittenWithoutPercent(ctx: Ctx, localVhost: string, remoteVhost: string)
    requires '%' !in ctx.dumper
    ensures PullImportAsWritten(ctx, localVhost, remoteVhost) == Some(PullImportCommand(ctx, localVhost, remoteVhost))
  {
    SprintfPlain(ctx.dumper);
    PullImportAsWrittenReads(ctx, localVhost, remoteVhost, ctx.dumper);
    assert ctx.(dumper := ctx.dumper) == ctx;
  }

  /** A `%` in the discovered path is read by `sprintf`: for a `mysqldump`
      found at a path with `%%` in it, such as `/opt/a%%b/mysqldump`, the
      import as written points `MYSQLDUMP_PATH` at the path with `%` instead
      (`/opt/a%b/mysqldump`), so it is not the import that keeps the prefix
      as discovered. */
  lemma PercentInDumperPathRewritten(ctx: Ctx, localVhost: string, remoteVhost: string, a: string, b: string)
    requires '%' !in a && '%' !in b
    requires ctx.dumper == DumperPrefix(a + "%%" + b)
    ensures PullImportAsWritten(ctx, localVhost, remoteVhost)
         == Some(PullImportCommand(ctx.(dumper := DumperPrefix(a + "%" + b)), localVhost, remoteVhost))
    ensures PullImportAsWritten(ctx, localVhost, remoteVhost) != Some(PullImportCommand(ctx, localVhost, remoteVhost))
  {
    var d := DumperPrefix(a + "%" + b);
    PercentPairPrefix(a, b);
    PullImportAsWrittenReads(ctx, localVhost, remoteVhost, d);
    var shown := PullImportCommand(ctx.(dumper := d), localVhost, remoteVhost);
    var kept := PullImportCommand(ctx, localVhost, remoteVhost);
    var abs := EscapeShellArg(ctx.site.absPath);
    StartsWithLonger(shown, d, "wp --path=", abs, " db import ");
    StartsWithLonger(kept, ctx.dumper, "wp --path=", abs, " db import ");
    if shown == kept {
      SharedStart(kept, d, ctx.dumper);
    }
  }



  /** `db_pull`: remote mkdir, remote export, download, local import followed
      by the search-replace of the remote vhost into the local one; each
      step's non-zero exit code stops the rest. */
  function DbPullPlan(ctx: Ctx, ssh: string, remoteWpPath: string, localConf: Config.EnvConf,
                      remoteConf: Config.EnvConf): seq<Step>
  {
    [ Exec(PullMkdirCommand(ctx, ssh, remoteWpPath), false, ExitZero(RemoteDirFailed)),
      Exec(PullExportCommand(ctx, ssh, remoteWpPath), false, ExitZero(RemoteExportFailed)),
      Exec(PullScpCommand(ctx, ssh, remoteWpPath), false, ExitZero(PullTransferFailed)),
      Exec(PullImportCommand(ctx, localConf.vhost, remoteConf.vhost), false, ExitZero(LocalImportFailed)) ]
  }

  /** The directory made remotely is the remote dump directory, and the
      downloaded file keeps the remote file's name. */
  lemma PullDumpPaths(site: Site, remoteWpPath: string)
    requires PlainStamp(site.now)
    ensures Dirname(PullRemoteDumpPath(site, remoteWpPath)) == RemoteDumpDir(remoteWpPath)
    ensures Basename(PullLocalDumpFile(site)) == Basename(PullRemoteDumpPath(site, remoteWpPath))
    ensures Dirname(PullLocalDumpFile(site)) == DumpDir(site)
  {
    var name := PullDumpName(site);
    NoSlashInConcat("wp_move_remote_", site.now);
    NoSlashInConcat("wp_move_remote_" + site.now, ".sql");
    RemoteDumpPathParts(remoteWpPath, name);
    LocalDumpPathParts(site, name);
  }

  /** Push and pull rewrite the vhosts in opposite directions: a push import
      ends with replacing the local vhost by the remote one inside the remote
      shell, a pull import with replacing the remote vhost by the local one. */
  lemma ImportsReplaceOppositeVhosts(ctx: Ctx, ssh: string, remoteWpPath: string, localVhost: string, remoteVhost: string)
    ensures EndsWith(PushImportCommand(ctx, ssh, remoteWpPath, localVhost, remoteVhost),
                     SearchReplace(EscapeShellArg(remoteWpPath), localVhost, remoteVhost) + "'")
    ensures EndsWith(PullImportCommand(ctx, localVhost, remoteVhost),
                     SearchReplace(EscapeShellArg(ctx.site.absPath), remoteVhost, localVhost))
  {
    var path := EscapeShellArg(remoteWpPath);
    var lead := "ssh " + ctx.sshOptions + " " + ssh + " '";
    var load := "wp --path=" + path + " db import " + EscapeShellArg(PushRemoteDumpPath(ctx.site, remoteWpPath)) + " --allow-root && ";
    EndsWithWrapped(lead, load, SearchReplace(path, localVhost, remoteVhost), "'");
    var abs := EscapeShellArg(ctx.site.absPath);
    var pre := ctx.dumper + "wp --path=" + abs + " db import " + EscapeShellArg(PullLocalDumpFile(ctx.site))
      + " --allow-root && " + ctx.dumper;
    EndsWithTail(pre, SearchReplace(abs, remoteVhost, localVhost));
  }


  // ---------------------------------------------------------------------------
  // run_dump and purge_dumps
  // ---------------------------------------------------------------------------

  /** `$export_cmd` of `run_dump`, for a remote or a local environment. */
  function DumpCommand(ctx: Ctx, env: string, conf: Config.EnvConf): string {
    var name := DumpFileName(env, ctx.site.now);
    if conf.ssh.Some? then
      var path := RemoteDumpPath(conf.wpPath, name);
      RemoteShell(ctx, conf.ssh.value, "mkdir -p " + EscapeShellArg(Dirname(path)) + " && " + ctx.dumper
        + " wp --path=" + EscapeShellArg(conf.wpPath) + " db export " + EscapeShellArg(path) + " --allow-root")
    else
      ctx.dumper + " wp --path=" + EscapeShellArg(ctx.site.absPath) + " db export "
        + EscapeShellArg(DumpDir(ctx.site) + "/" + name) + " --allow-root"
  }

  /** `$purge_cmd`: removes the `.sql` files of the dump directory. */
  function PurgeCommand(ctx: Ctx, conf: Config.EnvConf): string {
    if conf.ssh.Some? then
      RemoteShell(ctx, conf.ssh.value, "rm -f " + EscapeShellArg(RemoteDumpDir(conf.wpPath)) + "/*.sql")
    else
      "rm -f " + EscapeShellArg(DumpDir(ctx.site)) + "/*.sql"
  }

  function DumpPlan(ctx: Ctx, env: string, conf: Config.EnvConf): seq<Step> {
    [Exec(DumpCommand(ctx, env, conf), false, ExitZero(DumpFailed(env)))]
  }

  function PurgePlan(ctx: Ctx, conf: Config.EnvConf): seq<Step> {
    [Exec(PurgeCommand(ctx, conf), false, Unchecked)]
  }

  /** A dump is written into the directory that purging clears: remotely the
      directory `mkdir -p` creates, locally `WP_CONTENT_DIR/wpcli-move`. */
  lemma DumpGoesWherePurgeClears(ctx: Ctx, env: string, conf: Config.EnvConf)
    requires '/' !in env && PlainStamp(ctx.site.now)
    ensures var name := DumpFileName(env, ctx.site.now);
      && Dirname(RemoteDumpPath(conf.wpPath, name)) == RemoteDumpDir(conf.wpPath)
      && Dirname(DumpDir(ctx.site) + "/" + name) == DumpDir(ctx.site)
  {
    var name := DumpFileName(env, ctx.site.now);
    DumpFileNameHasNoSlash(env, ctx.site.now);
    RemoteDumpPathParts(conf.wpPath, name);
    LocalDumpPathParts(ctx.site, name);
  }

  // ---------------------------------------------------------------------------
  // run_tests
  // ---------------------------------------------------------------------------

  datatype TestKind = SshTest | VhostTest | PathTest | DbTest

  /** The checks `run_tests` makes, in order: ssh only for a remote environment. */
  function TestKinds(isRemote: bool): seq<TestKind> {
    (if isRemote then [SshTest] else []) + [VhostTest, PathTest, DbTest]
  }

  /** The number each check announces itself with (`$step`). */
  function TestNumber(kind: TestKind, isRemote: bool): string {
    match kind
    case SshTest => "1"
    case VhostTest => if isRemote then "2" else "1"
    case PathTest => if isRemote then "3" else "2"
    case DbTest => if isRemote then "4" else "3"
  }

  /** The checks are numbered 1, 2, 3, ... in the order they run, whether or
      not the ssh check comes first. */
  lemma TestsNumberedInOrder(isRemote: bool)
    ensures |TestKinds(isRemote)| == if isRemote then 4 else 3
    ensures forall i :: 0 <= i < |TestKinds(isRemote)| ==> TestNumber(TestKinds(isRemote)[i], isRemote) == NatToString(i + 1)
  {
    assert NatToString(1) == "1" && NatToString(2) == "2" && NatToString(3) == "3" && NatToString(4) == "4";
  }

  function SshTestCommand(ctx: Ctx, ssh: string): string {
    "ssh " + ctx.sshOptions + " -o ConnectTimeout=5 " + ssh + " 'echo 1'"
  }

  function PathTestCommand(ctx: Ctx, ssh: string, path: string): string {
    RemoteShell(ctx, ssh, "cd \"" + path + "\" && [ -f \"wp-settings.php\" ] && echo 1 || echo 0")
  }

  function DbTestCommand(ctx: Ctx, ssh: string, wpPath: string): string {
    RemoteShell(ctx, ssh, "cd " + wpPath + " && wp db check --allow-root")
  }

  /** `new mysqli(...)`'s arguments; an absent host is `localhost`. */
  function LocalLogin(db: Config.Db): DbLogin {
    DbLogin(db.host.GetOr("localhost"), db.user, db.password, db.name)
  }

  /** `test_ssh_connection($ssh)` as a step. */
  function SshCheck(ctx: Ctx, ssh: string): Step {
    Exec(SshTestCommand(ctx, ssh), true, ExitZero(SshUnreachable(ssh)))
  }

  /** `test_wp_path($path, $ssh, $is_remote)` as a step: over ssh for a
      remote environment, on the local filesystem otherwise. */
  function PathCheck(ctx: Ctx, path: string, ssh: string, isRemote: bool): Step {
    if isRemote then Exec(PathTestCommand(ctx, ssh, path), true, PrintsOne(NotWordPress(path)))
    else LocalInstall(path)
  }

  /** `test_db_connection($conf, $ssh, $is_remote)` as a step: `wp db check`
      over ssh, whose exit code is not looked at, or a local login. */
  function DbCheck(ctx: Ctx, conf: Config.EnvConf, ssh: string, isRemote: bool): Step {
    if isRemote then Exec(DbTestCommand(ctx, ssh, conf.wpPath), false, Unchecked)
    else LocalDb(LocalLogin(conf.db))
  }

  /** Each check as `run_tests` calls it for `conf`; `$conf['ssh']` is passed
      only for a remote environment. */
  function TestStep(ctx: Ctx, conf: Config.EnvConf, kind: TestKind): Step {
    var ssh := conf.ssh.GetOr("");
    match kind
    case SshTest => SshCheck(ctx, ssh)
    case VhostTest => HttpGet(conf.vhost)
    case PathTest => PathCheck(ctx, conf.wpPath, ssh, conf.ssh.Some?)
    case DbTest => DbCheck(ctx, conf, ssh, conf.ssh.Some?)
  }

  /** `run_tests`: the ssh check for a remote environment, then the vhost,
      path and database checks. */
  function TestPlan(ctx: Ctx, conf: Config.EnvConf): seq<Step> {
    (if conf.ssh.Some? then [TestStep(ctx, conf, SshTest)] else [])
      + [TestStep(ctx, conf, VhostTest), TestStep(ctx, conf, PathTest), TestStep(ctx, conf, DbTest)]
  }

  /** The checks run in the order `TestKinds` lists them. */
  lemma TestPlanFollowsKinds(ctx: Ctx, conf: Config.EnvConf)
    ensures |TestPlan(ctx, conf)| == |TestKinds(conf.ssh.Some?)|
    ensures forall i :: 0 <= i < |TestPlan(ctx, conf)| ==>
      TestPlan(ctx, conf)[i] == TestStep(ctx, conf, TestKinds(conf.ssh.Some?)[i])
  {
  }

  /** The vhost check passes exactly for a 2xx answer. */
  lemma VhostPassesIff2xx(ctx: Ctx, conf: Config.EnvConf, dryRun: bool, process: string -> Proc, world: World)
    ensures StepFailure(TestStep(ctx, conf, VhostTest), dryRun, process, world).None? <==>
            world.http(conf.vhost).Response? && 200 <= world.http(conf.vhost).code < 300
  {
  }

  /** Testing a local environment hands nothing to the executor. */
  lemma LocalTestsIssueNothing(ctx: Ctx, conf: Config.EnvConf, process: string -> Proc, world: World)
    requires conf.ssh.None?
    ensures Run(TestPlan(ctx, conf), ctx.dryRun, process, world).issued == []
  {
    var plan := TestPlan(ctx, conf);
    assert plan == [HttpGet(conf.vhost), LocalInstall(conf.wpPath), LocalDb(LocalLogin(conf.db))];
    NoExecIssuesNothing(plan, ctx.dryRun, process, world);
  }

  /** Under dry-run the remote path check sees no output, so testing a remote
      environment whose vhost answers stops there, after the ssh and path
      commands. */
  lemma DryRunRemoteTestsStopAtPath(ctx: Ctx, conf: Config.EnvConf, process: string -> Proc, world: World)
    requires ctx.dryRun && conf.ssh.Some?
    requires world.http(conf.vhost).Response? && 200 <= world.http(conf.vhost).code < 300
    ensures Run(TestPlan(ctx, conf), true, process, world) ==
            Trace([Call(SshTestCommand(ctx, conf.ssh.value), true), Call(PathTestCommand(ctx, conf.ssh.value, conf.wpPath), true)], 3,
                  Aborted(NotWordPress(conf.wpPath)))
  {
    var ssh := conf.ssh.value;
    var p0 := Exec(SshTestCommand(ctx, ssh), true, ExitZero(SshUnreachable(ssh)));
    var p1 := HttpGet(conf.vhost);
    var p2 := Exec(PathTestCommand(ctx, ssh, conf.wpPath), true, PrintsOne(NotWordPress(conf.wpPath)));
    var p3 := Exec(DbTestCommand(ctx, ssh, conf.wpPath), false, Unchecked);
    assert TestPlan(ctx, conf) == [p0, p1, p2, p3];
    DryRunRemoteStepFailures(ctx, conf, process, world);
    RunFour(p0, p1, p2, p3, true, process, world);
    var c0, c2 := StepCommands(p0), StepCommands(p2);
    assert c0 + [] + c2 == [c0[0], c2[0]];
  }

  /** Under dry-run the ssh probe and a 2xx vhost pass and the path probe,
      which prints nothing, fails. */
  lemma DryRunRemoteStepFailures(ctx: Ctx, conf: Config.EnvConf, process: string -> Proc, world: World)
    requires conf.ssh.Some?
    requires world.http(conf.vhost).Response? && 200 <= world.http(conf.vhost).code < 300
    ensures var ssh := conf.ssh.value;
      && StepFailure(Exec(SshTestCommand(ctx, ssh), true, ExitZero(SshUnreachable(ssh))), true, process, world) == None
      && StepFailure(HttpGet(conf.vhost), true, process, world) == None
      && StepFailure(Exec(PathTestCommand(ctx, ssh, conf.wpPath), true, PrintsOne(NotWordPress(conf.wpPath))), true, process, world)
         == Some(NotWordPress(conf.wpPath))
  {
    var ssh := conf.ssh.value;
    NotRsync(SshTestCommand(ctx, ssh));
    assert Reported(true, process, SshTestCommand(ctx, ssh), true) == ExecResult(0, None, None);
    DryRunPrintsNothing(PathTestCommand(ctx, ssh, conf.wpPath), NotWordPress(conf.wpPath), process, world);
  }

  /** Under dry-run a probe that is not rsync prints nothing, so a check for
      `1` on its output fails. */
  lemma DryRunPrintsNothing(command: string, f: Failure, process: string -> Proc, world: World)
    requires !IsRsync(command)
    ensures StepFailure(Exec(command, true, PrintsOne(f)), true, process, world) == Some(f)
  {
    assert Reported(true, process, command, true) == ExecResult(0, None, None);
    assert Trim("") == "";
  }

  // ---------------------------------------------------------------------------
  // The operations
  // ---------------------------------------------------------------------------

  /** A command stopped by the configuration before issuing anything. */
  function Refused(f: Failure): Trace {
    Trace([], 0, Aborted(f))
  }

  /** The database steps of a push or a pull. */
  function DbPlan(ctx: Ctx, d: Direction, ssh: string, conf: Config.EnvConf, localConf: Config.EnvConf): seq<Step> {
    if d == Push then DbPushPlan(ctx, ssh, conf.wpPath, localConf, conf)
    else DbPullPlan(ctx, ssh, conf.wpPath, localConf, conf)
  }

  /** `run_push` and `run_pull`: one rsync per folder, then `db_push` or
      `db_pull` when the database is synced. `$conf['ssh'] ?? null` is the
      empty string when absent. */
  function SyncPlan(ctx: Ctx, d: Direction, conf: Config.EnvConf, localConf: Config.EnvConf, folders: seq<string>,
                    syncDb: bool, useDelete: bool): seq<Step>
  {
    var ssh := conf.ssh.GetOr("");
    RsyncSteps(ctx, d, ssh, conf.wpPath, conf.exclude, useDelete, folders)
      + (if syncDb then DbPlan(ctx, d, ssh, conf, localConf) else [])
  }

  function PushRun(ctx: Ctx, store: Config.Store, env: string, folders: seq<string>, syncDb: bool,
                   useDelete: bool, process: string -> Proc, world: World): Trace
    requires store.Valid()
  {
    match Config.GetEnvConfig(store, env)
    case Failure(e) => Refused(ConfigFailure(e))
    case Success(conf) =>
      Run(SyncPlan(ctx, Push, conf, Config.GetLocalConfig(store), folders, syncDb, useDelete), ctx.dryRun, process, world)
  }

  function PullRun(ctx: Ctx, store: Config.Store, env: string, folders: seq<string>, syncDb: bool,
                   useDelete: bool, process: string -> Proc, world: World): Trace
    requires store.Valid()
  {
    match Config.GetEnvConfig(store, env)
    case Failure(e) => Refused(ConfigFailure(e))
    case Success(conf) =>
      if !Truthy(conf.ssh.GetOr("")) then Refused(PullNeedsSsh(env))
      else Run(SyncPlan(ctx, Pull, conf, Config.GetLocalConfig(store), folders, syncDb, useDelete), ctx.dryRun, process, world)
  }

  /** `run_dump`: purging, or the one export. */
  function DumpRun(ctx: Ctx, store: Config.Store, env: string, purge: bool, process: string -> Proc, world: World): Trace {
    match Config.GetEnvConfig(store, env)
    case Failure(e) => Refused(ConfigFailure(e))
    case Success(conf) =>
      Run(if purge then PurgePlan(ctx, conf) else DumpPlan(ctx, env, conf), ctx.dryRun, process, world)
  }

  function TestsRun(ctx: Ctx, store: Config.Store, env: string, process: string -> Proc, world: World): Trace {
    match Config.GetEnvConfig(store, env)
    case Failure(e) => Refused(ConfigFailure(e))
    case Success(conf) => Run(TestPlan(ctx, conf), ctx.dryRun, process, world)
  }

  /** Pulling from an environment without a usable `ssh` entry issues no
      command at all. */
  lemma PullNeedsSshFirst(ctx: Ctx, store: Config.Store, env: string, folders: seq<string>, syncDb: bool,
                          useDelete: bool, process: string -> Proc, world: World)
    requires store.Valid()
    requires Config.IsSet(store.doc, env) && !Truthy(store.doc[env].value.ssh.GetOr(""))
    ensures PullRun(ctx, store, env, folders, syncDb, useDelete, process, world) == Refused(PullNeedsSsh(env))
  {
  }

  /** The rsync steps of a push or pull never stop it: every folder is synced
      in the given order, and then the database steps run exactly when the
      database is synced. */
  lemma SyncOrder(ctx: Ctx, d: Direction, conf: Config.EnvConf, localConf: Config.EnvConf, folders: seq<string>,
                  syncDb: bool, useDelete: bool, process: string -> Proc, world: World)
    ensures var ssh := conf.ssh.GetOr("");
      var rs := RsyncSteps(ctx, d, ssh, conf.wpPath, conf.exclude, useDelete, folders);
      var db := Run(DbPlan(ctx, d, ssh, conf, localConf), ctx.dryRun, process, world);
      var t := Run(SyncPlan(ctx, d, conf, localConf, folders, syncDb, useDelete), ctx.dryRun, process, world);
      && t.issued == CommandsOf(rs) + (if syncDb then db.issued else [])
      && t.outcome == (if syncDb then db.outcome else Completed)
  {
    var ssh := conf.ssh.GetOr("");
    var rs := RsyncSteps(ctx, d, ssh, conf.wpPath, conf.exclude, useDelete, folders);
    var tail := if syncDb then DbPlan(ctx, d, ssh, conf, localConf) else [];
    UncheckedPrefix(rs, tail, ctx.dryRun, process, world);
  }

  /** Outside dry-run a push that syncs the database never succeeds: the
      rsyncs run, then `db_push` stops at its export or at the empty command. */
  lemma RealDbPushNeverCompletes(ctx: Ctx, store: Config.Store, env: string, folders: seq<string>, useDelete: bool,
                                 process: string -> Proc, world: World)
    requires store.Valid() && !ctx.dryRun
    ensures PushRun(ctx, store, env, folders, true, useDelete, process, world).outcome.Aborted?
  {
    match Config.GetEnvConfig(store, env)
    case Failure(_) =>
    case Success(conf) =>
      var localConf := Config.GetLocalConfig(store);
      SyncOrder(ctx, Push, conf, localConf, folders, true, useDelete, process, world);
      DbPushStopsAtUndefinedCommand(ctx, conf.ssh.GetOr(""), conf.wpPath, localConf, conf, process, world);
  }

  /** A command that starts with a well-shaped dumper prefix and then `w` is
      not an rsync command. */
  lemma DumperLed(dumper: string, cmd: string)
    requires DumperShaped(dumper) && StartsWith(cmd, dumper + "w")
    ensures !IsRsync(cmd)
  {
    assert cmd[0] == (dumper + "w")[0];
    if dumper != "" {
      assert dumper[0] == dumper[..15][0];
    }
    NotRsync(cmd);
  }

  /** Every step of `db_push` is let through by a dry run. */
  lemma DbPushPassesDryRun(ctx: Ctx, ssh: string, remoteWpPath: string, localConf: Config.EnvConf, remoteConf: Config.EnvConf)
    ensures forall i :: 0 <= i < 4 ==> DryRunPasses(DbPushPlan(ctx, ssh, remoteWpPath, localConf, remoteConf)[i])
  {
    var file := PushDumpFile(ctx.site);
    var s0 := Exec(PushExportCommand(ctx), false, ExportedTo(file, LocalExportFailed(file)));
    var s1 := Exec(UNDEFINED_COMMAND, false, ExitZero(RemoteDirFailed));
    var s2 := Exec(PushScpCommand(ctx, ssh, remoteWpPath), false, ExitZero(PushTransferFailed));
    var s3 := Exec(PushImportCommand(ctx, ssh, remoteWpPath, localConf.vhost, remoteConf.vhost), false, ExitZero(RemoteImportFailed));
    assert DbPushPlan(ctx, ssh, remoteWpPath, localConf, remoteConf) == [s0, s1, s2, s3];
    assert DryRunPasses(s0) && DryRunPasses(s1) && DryRunPasses(s2) && DryRunPasses(s3);
  }

  /** Every step of `db_pull` is let through by a dry run. */
  lemma DbPullPassesDryRun(ctx: Ctx, ssh: string, remoteWpPath: string, localConf: Config.EnvConf, remoteConf: Config.EnvConf)
    requires DumperShaped(ctx.dumper)
    ensures forall i :: 0 <= i < 4 ==> DryRunPasses(DbPullPlan(ctx, ssh, remoteWpPath, localConf, remoteConf)[i])
  {
  }

  /** Under dry-run a push or a pull runs to completion and issues every
      command of its plan: every step but rsync is simulated, and rsync's
      result is not looked at. */
  lemma DryRunSyncCompletes(ctx: Ctx, d: Direction, conf: Config.EnvConf, localConf: Config.EnvConf,
                            folders: seq<string>, syncDb: bool, useDelete: bool, process: string -> Proc, world: World)
    requires ctx.dryRun && DumperShaped(ctx.dumper)
    ensures var plan := SyncPlan(ctx, d, conf, localConf, folders, syncDb, useDelete);
      Run(plan, true, process, world) == Trace(CommandsOf(plan), |plan|, Completed)
  {
    var ssh := conf.ssh.GetOr("");
    var rs := RsyncSteps(ctx, d, ssh, conf.wpPath, conf.exclude, useDelete, folders);
    if d == Push {
      DbPushPassesDryRun(ctx, ssh, conf.wpPath, localConf, conf);
    } else {
      DbPullPassesDryRun(ctx, ssh, conf.wpPath, localConf, conf);
    }
    var tail := if syncDb then DbPlan(ctx, d, ssh, conf, localConf) else [];
    DryRunPassesConcat(rs, tail);
    DryRunCompletes(rs + tail, process, world);
  }

  /** Purging issues exactly the one `rm -f` command and always succeeds,
      whatever its exit code; no export is made. */
  lemma PurgeIssuesOneRemoval(ctx: Ctx, store: Config.Store, env: string, process: string -> Proc, world: World)
    requires Config.IsSet(store.doc, env)
    ensures DumpRun(ctx, store, env, true, process, world) ==
            Trace([Call(PurgeCommand(ctx, store.doc[env].value), false)], 1, Completed)
  {
    RunSingle(PurgePlan(ctx, store.doc[env].value)[0], ctx.dryRun, process, world);
  }

  /** A dump issues exactly its export command; it fails exactly when that
      command's exit code is not 0. */
  lemma DumpIssuesOneExport(ctx: Ctx, store: Config.Store, env: string, process: string -> Proc, world: World)
    requires Config.IsSet(store.doc, env)
    ensures var cmd := DumpCommand(ctx, env, store.doc[env].value);
      && DumpRun(ctx, store, env, false, process, world).issued == [Call(cmd, false)]
      && (DumpRun(ctx, store, env, false, process, world).outcome.Completed? <==>
            Reported(ctx.dryRun, process, cmd, false).returnCode == 0)
  {
    RunSingle(DumpPlan(ctx, env, store.doc[env].value)[0], ctx.dryRun, process, world);
  }
}
