/**
 * Every operation of the task runner (inc/TaskRunner.php) is a fixed list of
 * steps run one after another, where a failed check (`WP_CLI::error`) stops
 * the whole command and nothing after it runs. This module describes such a
 * list as data, together with what running it issues and how it ends, so that
 * ordering and abort properties are stated once for all operations.
 */
module Pipeline {
  import opened Wrappers
  import opened PhpStrings
  import opened Executor
  import Config

  /** What `wp_remote_get` gives: a transport error or an HTTP status. */
  datatype HttpReply = TransportError(message: string) | Response(code: int)

  /** The arguments `new mysqli(...)` is called with. */
  datatype DbLogin = DbLogin(host: string, user: string, password: string, name: string)

  /** Everything outside the executor the task runner asks about: HTTP, the
      local filesystem, the local database, and the two `get_dumper_path_env`
      probes (`command -v` output and `is_executable`). */
  datatype World = World(
    http: string -> HttpReply,
    isDir: string -> bool,
    fileExists: string -> bool,
    dbConnect: DbLogin -> Option<string>,
    which: string -> Option<string>,
    isExecutable: string -> bool)

  /** Why a command stopped (the `WP_CLI::error` calls). */
  datatype Failure =
    | ConfigFailure(error: Config.ConfigError)
    | PullNeedsSsh(env: string)
    | LocalExportFailed(file: string)
    | RemoteDirFailed
    | RemoteExportFailed
    | PushTransferFailed
    | PullTransferFailed
    | RemoteImportFailed
    | LocalImportFailed
    | DumpFailed(env: string)
    | SshUnreachable(target: string)
    | VhostUnreachable(url: string)
    | VhostStatus(code: int)
    | NotWordPress(path: string)
    | DbUnreachable(reason: string)

  datatype Outcome = Completed | Aborted(failure: Failure)

  /** How a step's result is judged. */
  datatype Check =
    | Unchecked                                   // the exit code is not looked at
    | ExitZero(onFail: Failure)                   // a non-zero exit code stops the command
    | ExportedTo(file: string, onFail: Failure)   // outside dry-run: non-zero, or `file` missing, stops
    | PrintsOne(onFail: Failure)                  // the trimmed captured output must be "1"

  datatype Step =
    | Exec(command: string, capture: bool, check: Check)   // through the executor
    | HttpGet(url: string)                                 // must answer with a 2xx status
    | LocalInstall(path: string)                           // a directory holding wp-settings.php
    | LocalDb(login: DbLogin)                              // the local database must accept the login

  /** The commands a run issued, how many steps it attempted, how it ended. */
  datatype Trace = Trace(issued: seq<Call>, attempted: nat, outcome: Outcome)

  /** What the source concludes from what `execute` returned. */
  function CheckFailure(check: Check, r: ExecResult, dryRun: bool, world: World): Option<Failure> {
    match check
    case Unchecked => None
    case ExitZero(f) => if r.returnCode != 0 then Some(f) else None
    case ExportedTo(file, f) =>
      if !dryRun && (r.returnCode != 0 || !world.fileExists(file)) then Some(f) else None
    case PrintsOne(f) => if Trim(r.stdout.GetOr("")) != "1" then Some(f) else None
  }

  /** The failure a step ends in, if any. */
  function StepFailure(s: Step, dryRun: bool, process: string -> Proc, world: World): Option<Failure> {
    match s
    case Exec(command, capture, check) => CheckFailure(check, Reported(dryRun, process, command, capture), dryRun, world)
    case HttpGet(url) =>
      (match world.http(url)
       case TransportError(_) => Some(VhostUnreachable(url))
       case Response(code) => if 200 <= code < 300 then None else Some(VhostStatus(code)))
    case LocalInstall(path) =>
      if world.isDir(path) && world.fileExists(path + "/wp-settings.php") then None else Some(NotWordPress(path))
    case LocalDb(login) =>
      (match world.dbConnect(login)
       case Some(reason) => Some(DbUnreachable(reason))
       case None => None)
  }

  /** The call a step makes of the executor, if it is an executor step. */
  function StepCommands(s: Step): seq<Call> {
    if s.Exec? then [Call(s.command, s.capture)] else []
  }

  /** The calls a list of steps makes of the executor, in order. */
  function CommandsOf(plan: seq<Step>): (cs: seq<Call>)
    ensures |cs| <= |plan|
  {
    if plan == [] then [] else StepCommands(plan[0]) + CommandsOf(plan[1..])
  }

  lemma {:induction false} CommandsOfAppend(p: seq<Step>, q: seq<Step>)
    ensures CommandsOf(p + q) == CommandsOf(p) + CommandsOf(q)
  {
    if p == [] {
      assert p + q == q;
    } else {
      assert (p + q)[1..] == p[1..] + q;
      CommandsOfAppend(p[1..], q);
    }
  }

  /** Running the steps in order, stopping at the first one that fails. */
  function Run(plan: seq<Step>, dryRun: bool, process: string -> Proc, world: World): Trace {
    if plan == [] then Trace([], 0, Completed)
    else
      match StepFailure(plan[0], dryRun, process, world)
      case Some(f) => Trace(StepCommands(plan[0]), 1, Aborted(f))
      case None =>
        var t := Run(plan[1..], dryRun, process, world);
        Trace(StepCommands(plan[0]) + t.issued, t.attempted + 1, t.outcome)
  }

  /** The commands issued are exactly those of the attempted steps, in order. */
  lemma {:induction false} RunIssuesAttempted(plan: seq<Step>, dryRun: bool, process: string -> Proc, world: World)
    ensures var t := Run(plan, dryRun, process, world);
      t.attempted <= |plan| && t.issued == CommandsOf(plan[..t.attempted])
  {
    if plan != [] {
      match StepFailure(plan[0], dryRun, process, world)
      case Some(f) =>
        assert plan[..1] == [plan[0]];
        assert plan[..1][1..] == [];
      case None =>
        var r := Run(plan[1..], dryRun, process, world);
        RunIssuesAttempted(plan[1..], dryRun, process, world);
        assert plan[..r.attempted + 1][1..] == plan[1..][..r.attempted];
    }
  }

  /** Every step before the last attempted one passed. */
  lemma {:induction false} RunPassedBefore(plan: seq<Step>, dryRun: bool, process: string -> Proc, world: World)
    ensures var t := Run(plan, dryRun, process, world);
      forall i :: 0 <= i < t.attempted - 1 && i < |plan| ==> StepFailure(plan[i], dryRun, process, world).None?
  {
    if plan != [] && StepFailure(plan[0], dryRun, process, world).None? {
      RunPassedBefore(plan[1..], dryRun, process, world);
      assert forall i :: 1 <= i < |plan| ==> plan[i] == plan[1..][i - 1];
    }
  }

  /** A run completes when it attempted every step and the last one passed,
      and otherwise it stopped at the step that failed. */
  lemma {:induction false} RunEnds(plan: seq<Step>, dryRun: bool, process: string -> Proc, world: World)
    ensures var t := Run(plan, dryRun, process, world);
      && (t.outcome.Completed? <==>
            t.attempted == |plan| && (|plan| == 0 || StepFailure(plan[|plan| - 1], dryRun, process, world).None?))
      && (t.outcome.Aborted? ==>
            1 <= t.attempted <= |plan| && StepFailure(plan[t.attempted - 1], dryRun, process, world) == Some(t.outcome.failure))
  {
    if plan != [] && StepFailure(plan[0], dryRun, process, world).None? {
      var r := Run(plan[1..], dryRun, process, world);
      RunEnds(plan[1..], dryRun, process, world);
      if |plan| > 1 {
        assert plan[1..][|plan| - 2] == plan[|plan| - 1];
      }
      if r.outcome.Aborted? {
        assert plan[1..][r.attempted - 1] == plan[r.attempted];
      }
    }
  }

  /** Fail-fast: every step before the last attempted one passed, the last
      attempted one is the one that failed (if any did), and the commands
      issued are exactly those of the attempted steps, in order. */
  lemma RunIsFailFast(plan: seq<Step>, dryRun: bool, process: string -> Proc, world: World)
    ensures var t := Run(plan, dryRun, process, world);
      && t.attempted <= |plan|
      && t.issued == CommandsOf(plan[..t.attempted])
      && (forall i :: 0 <= i < t.attempted - 1 ==> StepFailure(plan[i], dryRun, process, world).None?)
      && (t.outcome.Completed? <==>
            t.attempted == |plan| && (|plan| == 0 || StepFailure(plan[|plan| - 1], dryRun, process, world).None?))
      && (t.outcome.Aborted? ==>
            t.attempted >= 1 && StepFailure(plan[t.attempted - 1], dryRun, process, world) == Some(t.outcome.failure))
  {
    RunIssuesAttempted(plan, dryRun, process, world);
    RunPassedBefore(plan, dryRun, process, world);
    RunEnds(plan, dryRun, process, world);
  }

  /** A run completes exactly when no step fails, and then it issues every
      command of the list. */
  lemma RunCompletesIffNoStepFails(plan: seq<Step>, dryRun: bool, process: string -> Proc, world: World)
    ensures var t := Run(plan, dryRun, process, world);
      t.outcome.Completed? <==> forall i :: 0 <= i < |plan| ==> StepFailure(plan[i], dryRun, process, world).None?
    ensures var t := Run(plan, dryRun, process, world);
      t.outcome.Completed? ==> t.issued == CommandsOf(plan) && t.attempted == |plan|
  {
    RunIsFailFast(plan, dryRun, process, world);
    assert plan[..|plan|] == plan;
  }

  /** A run that stops, stops at the first failing step: it attempted exactly
      the steps up to and including that one. */
  lemma RunStopsAtFirstFailure(plan: seq<Step>, k: nat, dryRun: bool, process: string -> Proc, world: World)
    requires k < |plan| && StepFailure(plan[k], dryRun, process, world).Some?
    requires forall i :: 0 <= i < k ==> StepFailure(plan[i], dryRun, process, world).None?
    ensures var t := Run(plan, dryRun, process, world);
      t == Trace(CommandsOf(plan[..k + 1]), k + 1, Aborted(StepFailure(plan[k], dryRun, process, world).value))
  {
    RunIsFailFast(plan, dryRun, process, world);
    var t := Run(plan, dryRun, process, world);
    assert t.attempted == k + 1;
  }

  /** Steps whose result is never looked at cannot stop a run. */
  predicate AllUnchecked(plan: seq<Step>) {
    forall i :: 0 <= i < |plan| ==> plan[i].Exec? && plan[i].check.Unchecked?
  }

  /** Appending commands in two goes is appending them at once. */
  lemma IssuedAssoc<T>(a: seq<T>, b: seq<T>, c: seq<T>)
    ensures a + (b + c) == a + b + c
  {
  }

  /** One step of `Run`: the first step, then the rest only if it passed. */
  lemma RunCons(s: Step, rest: seq<Step>, dryRun: bool, process: string -> Proc, world: World)
    ensures var t := Run(rest, dryRun, process, world);
      Run([s] + rest, dryRun, process, world) ==
        match StepFailure(s, dryRun, process, world)
        case Some(f) => Trace(StepCommands(s), 1, Aborted(f))
        case None => Trace(StepCommands(s) + t.issued, t.attempted + 1, t.outcome)
  {
    assert ([s] + rest)[0] == s;
    assert ([s] + rest)[1..] == rest;
  }

  /** A run of four steps whose second step fails stops after the first or
      the second step. */
  lemma RunSecondOfFourFails(s0: Step, s1: Step, s2: Step, s3: Step, dryRun: bool, process: string -> Proc, world: World)
    requires StepFailure(s1, dryRun, process, world).Some?
    ensures Run([s0, s1, s2, s3], dryRun, process, world) ==
      match StepFailure(s0, dryRun, process, world)
      case Some(f) => Trace(StepCommands(s0), 1, Aborted(f))
      case None => Trace(StepCommands(s0) + StepCommands(s1), 2, Aborted(StepFailure(s1, dryRun, process, world).value))
  {
    assert [s0, s1, s2, s3] == [s0] + ([s1] + [s2, s3]);
    RunCons(s0, [s1] + [s2, s3], dryRun, process, world);
    RunCons(s1, [s2, s3], dryRun, process, world);
  }

  /** A single step: its command, and its failure if it has one. */
  lemma RunSingle(s: Step, dryRun: bool, process: string -> Proc, world: World)
    ensures Run([s], dryRun, process, world) ==
      Trace(StepCommands(s), 1, match StepFailure(s, dryRun, process, world) case Some(f) => Aborted(f) case None => Completed)
  {
    assert [s] == [s] + [];
    RunCons(s, [], dryRun, process, world);
  }

  /** Three steps run in order, each only if the ones before it passed. */
  lemma RunThree(s0: Step, s1: Step, s2: Step, dryRun: bool, process: string -> Proc, world: World)
    ensures var f0, f1, f2 := StepFailure(s0, dryRun, process, world), StepFailure(s1, dryRun, process, world),
                              StepFailure(s2, dryRun, process, world);
      var c0, c1, c2 := StepCommands(s0), StepCommands(s1), StepCommands(s2);
      Run([s0, s1, s2], dryRun, process, world) ==
        if f0.Some? then Trace(c0, 1, Aborted(f0.value))
        else if f1.Some? then Trace(c0 + c1, 2, Aborted(f1.value))
        else if f2.Some? then Trace(c0 + c1 + c2, 3, Aborted(f2.value))
        else Trace(c0 + c1 + c2, 3, Completed)
  {
    assert [s0, s1, s2] == [s0] + ([s1] + [s2]);
    RunCons(s0, [s1] + [s2], dryRun, process, world);
    RunCons(s1, [s2], dryRun, process, world);
    RunSingle(s2, dryRun, process, world);
  }

  /** Four steps run in order, each only if the ones before it passed. */
  lemma RunFour(s0: Step, s1: Step, s2: Step, s3: Step, dryRun: bool, process: string -> Proc, world: World)
    ensures var f0, f1, f2, f3 := StepFailure(s0, dryRun, process, world), StepFailure(s1, dryRun, process, world),
                                  StepFailure(s2, dryRun, process, world), StepFailure(s3, dryRun, process, world);
      var c0, c1, c2, c3 := StepCommands(s0), StepCommands(s1), StepCommands(s2), StepCommands(s3);
      Run([s0, s1, s2, s3], dryRun, process, world) ==
        if f0.Some? then Trace(c0, 1, Aborted(f0.value))
        else if f1.Some? then Trace(c0 + c1, 2, Aborted(f1.value))
        else if f2.Some? then Trace(c0 + c1 + c2, 3, Aborted(f2.value))
        else if f3.Some? then Trace(c0 + c1 + c2 + c3, 4, Aborted(f3.value))
        else Trace(c0 + c1 + c2 + c3, 4, Completed)
  {
    var c0, c1, c2, c3 := StepCommands(s0), StepCommands(s1), StepCommands(s2), StepCommands(s3);
    assert [s0, s1, s2, s3] == [s0] + [s1, s2, s3];
    RunCons(s0, [s1, s2, s3], dryRun, process, world);
    RunThree(s1, s2, s3, dryRun, process, world);
    IssuedAssoc(c0, c1, c2);
    IssuedAssoc(c0, c1 + c2, c3);
    IssuedAssoc(c0, c1, c2);
  }

  /** Steps that do not go through the executor issue no command. */
  lemma {:induction false} NoExecIssuesNothing(plan: seq<Step>, dryRun: bool, process: string -> Proc, world: World)
    requires forall i :: 0 <= i < |plan| ==> !plan[i].Exec?
    ensures Run(plan, dryRun, process, world).issued == []
  {
    if plan != [] {
      assert plan == [plan[0]] + plan[1..];
      NoExecIssuesNothing(plan[1..], dryRun, process, world);
      RunCons(plan[0], plan[1..], dryRun, process, world);
    }
  }

  /** Unchecked steps in front of a list only add their commands: the run
      then goes on as the list alone would. */
  lemma {:induction false} UncheckedPrefix(p: seq<Step>, q: seq<Step>, dryRun: bool, process: string -> Proc, world: World)
    requires AllUnchecked(p)
    ensures var b := Run(q, dryRun, process, world);
      Run(p + q, dryRun, process, world) == Trace(CommandsOf(p) + b.issued, |p| + b.attempted, b.outcome)
  {
    if p == [] {
      assert p + q == q;
    } else {
      assert p + q == [p[0]] + (p[1..] + q);
      assert p == [p[0]] + p[1..];
      UncheckedPrefix(p[1..], q, dryRun, process, world);
      RunCons(p[0], p[1..] + q, dryRun, process, world);
    }
  }

  /** A step that a dry run always lets through: an executor command that is
      either simulated (so it reports 0) or whose result is not judged by
      its exit code alone, and never one that must print "1". */
  predicate DryRunPasses(s: Step) {
    && s.Exec?
    && !s.check.PrintsOne?
    && (s.check.ExitZero? ==> !IsRsync(s.command))
  }

  /** Unchecked steps in front of steps a dry run lets through: the whole
      list is let through. */
  lemma DryRunPassesConcat(p: seq<Step>, q: seq<Step>)
    requires AllUnchecked(p)
    requires forall i :: 0 <= i < |q| ==> DryRunPasses(q[i])
    ensures forall i :: 0 <= i < |p + q| ==> DryRunPasses((p + q)[i])
  {
    forall i | 0 <= i < |p + q|
      ensures DryRunPasses((p + q)[i])
    {
      if i >= |p| { assert (p + q)[i] == q[i - |p|]; }
    }
  }

  /** Dry-run never reports a failure for simulated steps: a list made of such
      steps runs to completion and issues every command. */
  lemma DryRunCompletes(plan: seq<Step>, process: string -> Proc, world: World)
    requires forall i :: 0 <= i < |plan| ==> DryRunPasses(plan[i])
    ensures Run(plan, true, process, world) == Trace(CommandsOf(plan), |plan|, Completed)
  {
    forall i | 0 <= i < |plan|
      ensures StepFailure(plan[i], true, process, world).None?
    {
      var s := plan[i];
      assert s.check.ExitZero? ==> Simulated(true, s.command);
    }
    RunCompletesIffNoStepFails(plan, true, process, world);
  }
}
