# wpcli-move in Dafny

This project models `wp move`, a WP-CLI command that moves a WordPress site
between environments listed in a `move.yml` file. Its four subcommands are:

- `push` rsyncs the selected `wp-content` folders to a remote environment.
  It skips the folders that environment lists under `not_push`. When the
  database is selected, it exports it, copies the dump with `scp`, and
  imports it remotely with a URL search-replace.
- `pull` does the same in the other direction. It refuses an environment
  that has no `ssh` entry.
- `test` checks an environment's ssh connection, URL, WordPress path and
  database.
- `dump` writes a database dump into the environment's
  `wp-content/wpcli-move` directory. With `--purge` it empties that
  directory of `.sql` files instead.

The modules follow the program's classes:

- `Config` is the loaded `move.yml`: a map of environments in which `local`
  is required. Asking for an environment that is not defined is an error.
- `Executor` is a class: it logs every command and answers dry-run. Under
  dry-run every command except rsync is only logged. rsync really runs,
  with `-ni` added by its caller.
- `Pipeline` models a text of `execute` calls, each followed or not by an
  exit-code check that stops the command with `WP_CLI::error`. It is a list
  of steps, run fail-fast (`Run`).
- `Plans` builds the exact command strings of every operation of
  `TaskRunner`. Each operation becomes a plan.
- `Dumper` models the search for `mysqldump`/`mariadb-dump`.
- `TaskRunner` is a class whose methods issue the same commands through the
  executor, in the order of the source. Each method is proved to leave
  exactly the trace of its plan.
- `Commands` models the flag handling of the four subcommands and their
  outcome (`Report`).

The operating system is an oracle that the model takes as a parameter:

- `process: command -> (exit code, stdout, stderr)`;
- `World`: HTTP, directories and files, the local database, `command -v`
  and `is_executable`.

## Model

| member | source | states |
|---|---|---|
| Config.Load | inc/Config.php:17-32 | loading succeeds exactly when the file exists, parses and has a `local` section; otherwise the error is file-not-found, parse error or missing `local`, checked in that order |
| Config.GetEnvConfig | inc/Config.php:40-47 | succeeds exactly when the environment is set, returning its section; otherwise the error names that environment |
| Config.GetLocalConfig | inc/Config.php:52-55 | returns the `local` section of a loaded configuration |
| Config.LocalLookupAgrees | inc/Config.php:40-55 | looking up `local` by name gives the same section as `get_local_config` and never fails |
| Executor.SshOptionsDistinguishPids | inc/Executor.php:24-26 | two processes with different pids get different ssh control-socket options |
| Executor.LogLine | inc/Executor.php:40-48 | the logged line carries the `[Dry Run]` tag exactly under dry-run and ends with `Executing: <command>` |
| Executor.SpawnOf | inc/Executor.php:40-62 | no process is started exactly for a non-rsync command under dry-run and for an empty command handed to `passthru` outside dry-run, which PHP refuses; otherwise `WP_CLI::launch` is used exactly when not dry-run and capturing (an empty captured command included), `passthru` in every other case, and the process runs the command given |
| Executor.Reported | inc/Executor.php:40-62 | a simulated command reports exit code 0 and no output; an empty command refused by `passthru` reports an exit code that is not 0; any other command reports the process's own exit code; stdout and stderr are present exactly when captured outside dry-run, and then they are the process's own |
| Executor.DryRunIgnoresCapture | inc/Executor.php:50-54 | under dry-run, asking to capture output changes neither the result nor the process started |
| Executor.LogOfAnnounces | inc/Executor.php:40-48 | the i-th log line announces the i-th command and is tagged exactly under dry-run |
| Executor.SpawnsOfAppend | inc/Executor.php:36-63 | the processes started by two runs of calls one after the other are those of the first run followed by those of the second |
| Executor.SpawnsOfAllowed | inc/Executor.php:40-62 | every process started belongs to a call that was made, is neither simulated nor refused, was launched exactly when captured outside dry-run, and is an rsync run through `passthru` under dry-run |
| Executor.DryRunStartsEveryRsync | inc/Executor.php:46-54 | under dry-run every rsync call is really run, through `passthru` |
| Executor.Executor.constructor | inc/Executor.php:20-27 | stores the dry-run flag and builds the ssh options from the pid; nothing is issued, logged or started yet |
| Executor.Executor.Execute | inc/Executor.php:36-63 | appends the call (command and capture flag) to the issued list, its line to the log and the process it starts, if any, to the started list, and returns what `execute` returns; the log stays one tagged line per call and the started list stays exactly the processes of the calls made |
| Pipeline.CommandsOfAppend | inc/TaskRunner.php:58-64 | the commands of two plans run one after the other are the first plan's followed by the second's |
| Pipeline.RunIssuesAttempted | inc/TaskRunner.php:308-428 | a run issues exactly the commands of the steps it reached, in plan order |
| Pipeline.RunPassedBefore | inc/TaskRunner.php:308-428 | every step before the last one reached passed its check |
| Pipeline.RunEnds | inc/TaskRunner.php:308-428 | a run completes exactly when it reached every step and the last one passed; an aborted run names the failure of the step where it stopped |
| Pipeline.RunIsFailFast | inc/TaskRunner.php:308-428 | a run stops at the first failing check: it issues just the commands up to that step, and no later command |
| Pipeline.RunCompletesIffNoStepFails | inc/TaskRunner.php:308-428 | a run completes exactly when no step fails, and then it has issued every command of the plan |
| Pipeline.RunStopsAtFirstFailure | inc/TaskRunner.php:308-428 | if step k is the first that fails, the run issues the commands of steps 0..k and aborts with step k's failure |
| Pipeline.RunCons | inc/TaskRunner.php:308-428 | running a step and then a plan: a failing first step stops everything, and a passing one is followed by the rest's run |
| Pipeline.RunSingle | inc/TaskRunner.php:133-138 | a one-step run issues that step's commands and aborts exactly when the step fails |
| Pipeline.RunThree | inc/TaskRunner.php:40-42 | a three-step run stops at the first failing step with the commands issued so far |
| Pipeline.RunFour | inc/TaskRunner.php:320-357 | a four-step run stops at the first failing step with the commands issued so far |
| Pipeline.RunSecondOfFourFails | inc/TaskRunner.php:328-331 | when the second of four steps fails, at most the first two commands are issued |
| Pipeline.NoExecIssuesNothing | inc/TaskRunner.php:194-260 | a plan made only of non-shell checks (HTTP, file system, mysqli) issues no command |
| Pipeline.UncheckedPrefix | inc/TaskRunner.php:273-300 | steps whose exit code is never checked (rsync) never stop a run: their commands are issued and the rest runs as it would alone |
| Pipeline.DryRunPassesConcat | inc/Executor.php:40-44 | unchecked steps followed by steps that pass under dry-run form a plan whose steps all pass |
| Pipeline.DryRunCompletes | inc/Executor.php:40-44 | under dry-run, a plan of such steps completes and issues every command |
| PhpStrings.RTrimSlash | inc/TaskRunner.php:276-277 | `rtrim($s, '/')` removes exactly the trailing slashes: the result is a prefix, does not end in `/`, and only slashes were removed |
| PhpStrings.TrimEnd | inc/TaskRunner.php:447 | removes exactly the trailing whitespace |
| PhpStrings.TrimStart | inc/TaskRunner.php:447 | removes exactly the leading whitespace |
| PhpStrings.Trim | inc/TaskRunner.php:445-448 | the result is a slice of the input with only whitespace around it, starts and ends with a non-space, and is the input itself when the input has no whitespace |
| PhpStrings.TrimUnique | inc/TaskRunner.php:445-448 | any slice with only whitespace around it and none at its ends is the result of `trim`, so the contract above fixes the result |
| PhpStrings.EscapeShellArg | inc/TaskRunner.php:117-130 | the result is wrapped in single quotes |
| PhpStrings.EscapeShellArgReadsBack | inc/TaskRunner.php:117-130 | a POSIX shell reads an `escapeshellarg` result back as exactly the original string, as one word |
| PhpStrings.QuotedRunOfEscaped | inc/TaskRunner.php:117-130 | how the shell reads the body of an escaped string followed by a closing quote |
| PhpStrings.DecimalValueOfNatToString | inc/Executor.php:25 | the decimal text of the pid reads back as the pid |
| PhpStrings.NatToStringInjective | inc/Executor.php:25 | different pids give different texts |
| PhpStrings.DirnameBasenameOfChild | inc/TaskRunner.php:113-115 | `dirname` and `basename` of `dir/name` give back `dir` and `name` |
| PhpStrings.SplitJoin | inc/TaskRunner.php:275 | splitting an `implode` on its separator gives back the parts when no part contains the separator |
| Plans.RsyncOptionsWords | inc/TaskRunner.php:285-296 | the rsync options are `-avz`, then `--delete` exactly when deleting, then `-ni` under dry-run or `--progress` otherwise |
| Plans.ExcludeArgsWords | inc/TaskRunner.php:275 | the exclude argument is one `--exclude=<x>` word per configured exclude, in order |
| Plans.RsyncDirectionsSwap | inc/TaskRunner.php:276-277 | the pull source is the push destination plus a trailing slash and vice versa; the remote side is `<ssh>:` |
| Plans.RsyncCommand | inc/TaskRunner.php:298 | the command built is an rsync command, so it really runs under dry-run |
| Plans.RsyncSteps | inc/TaskRunner.php:58-60 | one unchecked rsync step per folder, in folder order |
| Plans.RsyncStepsCommands | inc/TaskRunner.php:82-84 | the commands issued are the rsync command of each folder, in folder order |
| Plans.RemoteShell | inc/TaskRunner.php:155-158 | a remote command starts with `ssh <control options>` and is never rsync, so dry-run only logs it |
| Plans.ScpCommand | inc/TaskRunner.php:335 | an scp command uses the control options and is never rsync |
| Plans.DumpFileNameHasNoSlash | inc/TaskRunner.php:109 | `<env>_<stamp>.sql` is one path component when the environment name contains no slash |
| Plans.RemoteDumpDirShape | inc/TaskRunner.php:153 | the remote dump directory never ends in a slash |
| Plans.RemoteDumpPathParts | inc/TaskRunner.php:114-115 | a remote dump path's directory is the remote dump directory and its base name is the file name |
| Plans.LocalDumpPathParts | inc/TaskRunner.php:122-126 | the local dump file lies directly in the local dump directory |
| Plans.PushDumpLandsInRemoteDumpDir | inc/TaskRunner.php:314-315 | the pushed dump is `local_<stamp>.sql` and lands in the remote `wp-content/wpcli-move` |
| Plans.DbPushStopsAtUndefinedCommand | inc/TaskRunner.php:320-331 | outside dry-run, whatever the processes report, `db_push` stops at the export when it fails or leaves no file, and otherwise at the empty `$mkdir_cmd`, which PHP refuses; `scp` and the import are never issued |
| Plans.RealDbPushNeverCompletes | inc/TaskRunner.php:53-65 | outside dry-run a push that syncs the database never succeeds |
| Plans.PullImportCommand | inc/TaskRunner.php:413-416 | the local import begins with the dumper prefix exactly as discovered, then `wp --path=<ABSPATH> db import `; it is not an rsync command, so dry-run only logs it |
| Plans.PullImportAsWrittenReads | inc/TaskRunner.php:413-416 | `sprintf` reads the dumper prefix spliced into the format: the import as written is the import for the prefix as `sprintf` reads it |
| Plans.PullImportAsWrittenWithoutPercent | inc/TaskRunner.php:413-416 | when the dumper prefix has no `%`, the import as written is exactly `Plans.PullImportCommand` |
| Plans.PercentInDumperPathRewritten | inc/TaskRunner.php:413-416 | for a dumper path with `%%` in it, the import as written names the path with one `%` and differs from the import that keeps the prefix |
| PhpStrings.SprintfPrefix | inc/TaskRunner.php:413-416 | a leading part of a format that takes no argument is read on its own, before the rest is read with all the arguments |
| PhpStrings.SprintfPercentPair | inc/TaskRunner.php:413-416 | `%%` between texts without `%` is read as one `%` |
| Plans.PullDumpPaths | inc/TaskRunner.php:377-386 | the pulled dump keeps its file name and goes from the remote dump directory to the local one |
| Plans.ImportsReplaceOppositeVhosts | inc/TaskRunner.php:335-416 | the push import ends with replacing the local URL by the remote one inside the remote shell, the pull import with replacing the remote URL by the local one |
| Plans.DumpGoesWherePurgeClears | inc/TaskRunner.php:109-161 | a dump file lies directly in the remote dump directory (remotely) or in `WP_CONTENT_DIR/wpcli-move` (locally), the directories whose `.sql` files `--purge` removes |
| Plans.TestsNumberedInOrder | inc/TaskRunner.php:175-247 | the tests are numbered 1, 2, 3(, 4) in the order they run; ssh comes first and only for a remote environment |
| Plans.TestPlanFollowsKinds | inc/TaskRunner.php:36-42 | `run_tests` runs one check per test, in test order |
| Plans.VhostPassesIff2xx | inc/TaskRunner.php:198-207 | the URL check passes exactly for a response with a 2xx code |
| Plans.LocalTestsIssueNothing | inc/TaskRunner.php:231-258 | testing a local environment runs no shell command |
| Plans.DryRunRemoteTestsStopAtPath | inc/TaskRunner.php:220-228 | under dry-run, the simulated remote path check yields no `1`, so the remote tests stop at test 3 after two logged commands |
| Plans.PullNeedsSshFirst | inc/TaskRunner.php:76-80 | pulling from an environment with no usable `ssh` entry stops before issuing anything |
| Plans.SyncOrder | inc/TaskRunner.php:53-89 | a push or pull syncs every folder in order, never stopped by rsync, and then runs the database steps exactly when the database is synced |
| Plans.DumperLed | inc/TaskRunner.php:412-416 | a command led by the dumper prefix is not rsync |
| Plans.DbPushPassesDryRun | inc/TaskRunner.php:320-357 | under dry-run every check of `db_push` passes |
| Plans.DbPullPassesDryRun | inc/TaskRunner.php:387-420 | under dry-run every check of `db_pull` passes |
| Plans.DryRunSyncCompletes | inc/TaskRunner.php:53-89 | under dry-run a push or pull completes and issues every one of its commands |
| Plans.PurgeIssuesOneRemoval | inc/TaskRunner.php:144-167 | purging issues exactly one removal command and always completes, since its exit code is not checked |
| Plans.DumpIssuesOneExport | inc/TaskRunner.php:105-138 | a dump issues exactly one export and succeeds exactly when that export returns 0 |
| Dumper.DumperPrefix | inc/TaskRunner.php:463-467 | the environment prefix has the shape `MYSQLDUMP_PATH='<path>' ` |
| Dumper.PercentPairPrefix | inc/TaskRunner.php:449 | the prefix of a path with `%%` in it is read by `sprintf` as the prefix of the path with one `%`, which is not a start of the original prefix |
| Dumper.FirstExecutable | inc/TaskRunner.php:463-467 | finds nothing exactly when no candidate is executable; what it finds is an executable candidate |
| Dumper.FirstExecutableIsFirst | inc/TaskRunner.php:463-467 | what it finds is the first executable candidate |
| Dumper.FirstExecutableAppend | inc/TaskRunner.php:441-467 | searching the discovered binaries and then the fallbacks is searching the first list and, if it yields nothing, the second |
| Dumper.SearchFrom | inc/TaskRunner.php:442-452 | one step of the `command -v` loop: the first binary wins if its trimmed path is executable, and otherwise the search goes on with the rest |
| Dumper.DumperForShape | inc/TaskRunner.php:438-472 | the result is empty exactly when no candidate is executable, and otherwise it is a well-shaped prefix |
| Dumper.DumperEnvShape | inc/TaskRunner.php:438-472 | the same for the real binaries and fallback paths |
| Dumper.NoDumperWithoutCandidates | inc/TaskRunner.php:469-471 | when neither binary is found and no fallback is executable, the prefix is empty |
| TaskRunner.TaskRunner.constructor | inc/TaskRunner.php:20-24 | keeps the configuration and the executor, with the site and the world, and establishes the runner's invariant from those of the configuration and the executor |
| TaskRunner.TaskRunner.DumperPathEnv | inc/TaskRunner.php:438-472 | the loops of `get_dumper_path_env` return the dumper prefix of the world |
| TaskRunner.TaskRunner.SearchDumpers | inc/TaskRunner.php:441-467 | the two search loops return the prefix of the first executable candidate, or empty |
| TaskRunner.TaskRunner.Perform | inc/TaskRunner.php:328-331 | one `execute` call and the check on its result: the call is appended to the issued list, its process to the started list, and the failure is the step's |
| TaskRunner.TaskRunner.TestSshConnection | inc/TaskRunner.php:175-188 | issues the ssh probe and fails exactly as the ssh check step does |
| TaskRunner.TaskRunner.TestVhost | inc/TaskRunner.php:194-208 | numbers the test and fails exactly as the URL check does |
| TaskRunner.TaskRunner.TestWpPath | inc/TaskRunner.php:215-237 | numbers the test, issues the remote probe when remote, and fails exactly as the path check does |
| TaskRunner.TaskRunner.TestDbConnection | inc/TaskRunner.php:244-260 | numbers the test, issues `wp db check` when remote (never checked), or tries mysqli locally |
| TaskRunner.TaskRunner.RunTests | inc/TaskRunner.php:29-45 | issues exactly the calls of the test plan, stopping at the first failing test, and starts exactly their processes |
| TaskRunner.TaskRunner.LaterTests | inc/TaskRunner.php:40-42 | the vhost, path and database tests, each run only when the one before it passed, issue exactly the calls of their three steps |
| TaskRunner.TaskRunner.Rsync | inc/TaskRunner.php:273-300 | issues exactly one rsync command for the folder, with the options, excludes, source and destination of the direction |
| TaskRunner.TaskRunner.SyncFolders | inc/TaskRunner.php:58-60 | issues the rsync commands of the folders, in order |
| TaskRunner.TaskRunner.DbPush | inc/TaskRunner.php:308-364 | issues the export, the undefined mkdir, scp and the remote import with search-replace, stopping at the first failing check |
| TaskRunner.TaskRunner.DbPull | inc/TaskRunner.php:371-428 | issues the remote mkdir, the remote export, scp and the local import with search-replace, stopping at the first failing check |
| TaskRunner.TaskRunner.PerformFour | inc/TaskRunner.php:320-357 | four calls, each only when the checks before it passed, issue exactly the calls of the four-step run |
| TaskRunner.TaskRunner.RunPush | inc/TaskRunner.php:53-65 | issues exactly the calls of the push plan and starts exactly their processes, and its outcome is the plan's |
| TaskRunner.TaskRunner.RunPull | inc/TaskRunner.php:73-89 | issues exactly the calls of the pull plan and starts exactly their processes, refusing first when there is no ssh |
| TaskRunner.TaskRunner.PurgeDumps | inc/TaskRunner.php:144-167 | issues the one purge command of the environment and starts its process |
| TaskRunner.TaskRunner.RunDump | inc/TaskRunner.php:96-139 | purges, or issues the one export command, as `--purge` says, and starts exactly their processes |
| Commands.SelectedMembers | inc/Commands.php:79-94 | a path is selected exactly when some catalogue entry with that path is chosen |
| Commands.SkippedMembers | inc/Commands.php:86-94 | a key is reported skipped exactly when its entry was asked for, without `--all`, and is denied |
| Commands.SelectedInOrder | inc/Commands.php:72-94 | the selected paths keep catalogue order |
| Commands.PushSelection | inc/Commands.php:72-94 | a folder is pushed exactly when it was asked for (or `--all`) and is not in `not_push`; skipped exactly when asked for without `--all` but denied; the pushed paths are catalogue paths in catalogue order |
| Commands.SelectedOfFour | inc/Commands.php:79-94 | selecting from four entries keeps the chosen ones in order |
| Commands.CataloguePaths | inc/Commands.php:72-77 | the catalogue is themes, plugins, mu-plugins, uploads |
| Commands.PushSkipsDenied | inc/Commands.php:79-94 | a skipped folder is never pushed; without `--all` every folder asked for is pushed or skipped; with `--all` denied folders are dropped without a warning |
| Commands.PushAllSyncsEverything | inc/Commands.php:79-84 | with `--all` and an empty deny-list all four folders are pushed |
| Commands.PullIsPushWithoutDenyList | inc/Commands.php:159-176 | pull's folder choice is push's with an empty deny-list |
| Commands.PullAllSyncsEverything | inc/Commands.php:159-162 | `pull --all` syncs all four folders and the database |
| Commands.DbSwitchesDiffer | inc/Commands.php:69-156 | push tests `db`/`all` for truthiness and pull for presence: `--no-db` syncs the database on pull only, and `--all=0` pushes all folders but no database |
| Commands.SelectPushFolders | inc/Commands.php:67-95 | the two loops of `push` compute exactly the pushed folders and the skipped keys |
| Commands.SelectPullFolders | inc/Commands.php:156-176 | the flag tests of `pull` compute exactly the pulled folders and whether the database is synced |
| Commands.InitServices | inc/Commands.php:241-249 | fails exactly as loading `move.yml` does; otherwise builds a fresh executor with the dry-run flag and the pid, and nothing is issued yet |
| Commands.Outcomes | inc/Commands.php:103-110 | turns the runner's trace into the command's report; the processes started are exactly those of the calls reported |
| Commands.Push | inc/Commands.php:61-111 | `wp move push` reports exactly as its specification says, and the processes it starts are exactly those of the calls it reports |
| Commands.PushWithRunner | inc/Commands.php:66-104 | after the services exist, reports a missing environment, nothing to push, or the push run |
| Commands.PushFoldersAndDb | inc/Commands.php:103-110 | the report of a push run on the chosen folders |
| Commands.Pull | inc/Commands.php:151-186 | `wp move pull` reports exactly as its specification says, and the processes it starts are exactly those of the calls it reports |
| Commands.Test | inc/Commands.php:203-208 | `wp move test` reports exactly as its specification says, with the same equality on processes |
| Commands.Dump | inc/Commands.php:231-236 | `wp move dump` reports exactly as its specification says, with the same equality on processes |
| Commands.MissingConfigStopsEverything | inc/Config.php:19-21 | without `move.yml` every subcommand stops before issuing anything, naming the file |
| Commands.NothingToPushIff | inc/Commands.php:97-101 | push says nothing-to-push exactly when the configuration and environment load, the database is off and no folder survives selection; then nothing is issued |
| Commands.DryRunPushCompletes | inc/Commands.php:103-110 | a dry-run push that has something to do completes, issuing every command of its plan |
| Commands.DryRunPullCompletes | inc/Commands.php:178-185 | a dry-run pull from an environment with ssh completes, issuing every command of its plan |
| Commands.PullWithoutSshIssuesNothing | inc/TaskRunner.php:76-80 | `wp move pull` from an environment with no ssh stops with that error and issues nothing |
| Commands.DefaultEnvironments | inc/Commands.php:61-236 | with no environment argument, push and pull act on `staging` and test and dump on `local` |

## Left out

- Filesystem side effects made by PHP rather than by a command are left out:
  the `mkdir` calls of `run_dump`, `db_push`, `db_pull` and `rsync`. Only
  the existence tests they imply are inputs (`World`).
- YAML parsing is left out: the parser's result, success or a message, is an
  input of `Config.Load`. An entry missing from an environment is the empty
  string (`wp_path`, `vhost`) or absent (`ssh`, `exclude`, `not_push`). A
  missing `db` block, or a missing `user`, `password` or `name` in it, is
  the empty string, and a missing `host` is absent (the login's host is
  then `localhost`). PHP hands `mysqli` a null there; whether the world
  treats it like the empty string is up to the `dbConnect` oracle.
- The network, HTTP (`wp_remote_get`), `mysqli`, `shell_exec('command -v')`,
  `is_dir`, `file_exists` and `is_executable` are left out. They are
  functions of the world, given as a parameter.
- What a started process does is left out. Its exit code and output are a
  function of the command text.
- `date('Ymd_His')` is one reading of the clock (`Site.now`), and
  `getmypid()` is a parameter. `ABSPATH` and `WP_CONTENT_DIR` are fields of
  `Site`.
- The text of messages printed with `WP_CLI::log`, `success`, `warning` and
  `error` is left out, and so are colours. A subcommand's outcome is a
  `Report`: the dry-run flag, the skipped keys, the calls made of the executor, and a
  verdict (failed with a reason, nothing to push, or succeeded). The
  executor's log keeps the `Executing:` lines, with `[Dry Run] ` for the
  coloured tag.
- `escapeshellarg` is modelled as POSIX single-quote wrapping, with `'`
  written as `'\''`.
- The undefined `$mkdir_cmd` of `db_push` is the empty command `""`, which
  is what PHP passes for an undefined variable. Outside dry-run `passthru`
  refuses an empty command: PHP 8 throws a `ValueError` and PHP 7 leaves the
  exit code null. PHP 8 ends the run with the uncaught `ValueError`; PHP 7
  leaves the code null and the check that follows stops the run. Either way
  a real `db_push` never gets to `scp` (`Plans.DbPushStopsAtUndefinedCommand`).
  The model records that stop as the step's `WP_CLI::error`; the uncaught
  `ValueError` of PHP 8 and its message are left out. Under dry-run the
  empty command is only logged, like any command that is not rsync. Only
  `passthru` refuses an empty command: a captured one goes to
  `WP_CLI::launch` and is handed to the shell like any other.
- `sprintf` is modelled for the `%s` and `%%` directives, the only ones the
  orchestrator's formats contain (`PhpStrings.Sprintf`). Every other
  directive, and too few arguments, give no result; PHP's padding, width and
  numbered-argument directives and its errors are left out.
- The command registration in `wp-move-cli.php` is not part of this model.
- `Executor.is_dry_run` is not a method: it is the constant field
  `isDryRun` of the `Executor` class.
- The commented-out cleanup of dump files in `db_push` and `db_pull` is not
  modelled, because it is not code.
- `TaskRunner.Perform`, `PerformFour`, `LaterTests`, `SearchDumpers`,
  `Commands.PushWithRunner`, `PushFoldersAndDb`, `Outcomes` and
  `InitServices` are helpers split out of straight-line source text. Each
  is cited with the lines it covers.

## Findings

| source | as written | input that shows it | evidently intended | confidence | as-written member | corrected member |
|---|---|---|---|---|---|---|
| inc/TaskRunner.php:413-416 | the dumper prefix is spliced into the `sprintf` format of the local import, so `sprintf` reads any `%` in the discovered path as a directive | `mysqldump` found at `/opt/a%%b/mysqldump`: the import sets `MYSQLDUMP_PATH='/opt/a%b/mysqldump'`, a file that was never found | the prefix passed through as it is, like every other `sprintf` of the runner, which take values as `%s` arguments | not executed | Plans.PercentInDumperPathRewritten | Plans.PullImportCommand |
