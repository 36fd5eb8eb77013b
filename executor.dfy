/**
 * The command executor (inc/Executor.php). It logs every command it is given,
 * simulates everything but rsync under dry-run, and otherwise hands the
 * command to the operating system. The operating system is an oracle: what a
 * really started command reports is `process(command)`.
 */
module Executor {
  import opened Wrappers
  import opened PhpStrings

  /** What a started process reports back. */
  datatype Proc = Proc(returnCode: int, stdout: string, stderr: string)

  /** What `execute` returns: the exit code always, the captured output only
      when it was captured (`WP_CLI::launch`); `passthru` streams it instead. */
  datatype ExecResult = ExecResult(returnCode: int, stdout: Option<string>, stderr: Option<string>)

  /** A process the executor really started, and how. */
  datatype Spawn = Passthru(command: string) | Launch(command: string)

  const DRY_RUN_TAG := "[Dry Run] "

  /** The ssh options naming this invocation's shared control socket. */
  function SshOptions(pid: nat): string {
    "-o ControlMaster=auto -o ControlPath=/tmp/wp-move-ssh-" + NatToString(pid) + " -o ControlPersist=60s"
  }

  /** Two invocations with different process ids never share a control socket. */
  lemma SshOptionsDistinguishPids(p: nat, q: nat)
    ensures SshOptions(p) == SshOptions(q) ==> p == q
  {
    var pre := "-o ControlMaster=auto -o ControlPath=/tmp/wp-move-ssh-";
    var post := " -o ControlPersist=60s";
    if SshOptions(p) == SshOptions(q) {
      var a, b := NatToString(p), NatToString(q);
      assert SshOptions(p) == pre + a + post;
      assert SshOptions(q) == pre + b + post;
      assert |a| == |b|;
      assert a == SshOptions(p)[|pre|..|pre| + |a|];
      assert b == SshOptions(q)[|pre|..|pre| + |b|];
      NatToStringInjective(p, q);
    }
  }

  predicate IsRsync(command: string) {
    StartsWith(command, "rsync")
  }

  /** Under dry-run every command but rsync is only logged. */
  predicate Simulated(dryRun: bool, command: string) {
    dryRun && !IsRsync(command)
  }

  /** An empty command that reaches `passthru` is refused by PHP without
      starting anything: PHP 8 throws a `ValueError`, PHP 7 warns and leaves
      the exit code null. A captured empty command goes to `WP_CLI::launch`,
      whose `proc_open` hands it to the shell like any other string. Under
      dry-run an empty command is only logged, since it is not rsync. */
  predicate Rejected(dryRun: bool, command: string, capture: bool) {
    !dryRun && !capture && command == ""
  }

  /** The exit code of a refused command, one no process can report: it is
      never 0, so every `0 !== $result->return_code` check fails on it. */
  const NO_EXIT_CODE: int := -1

  /** One call of `execute($command, $capture_stdout)`. */
  datatype Call = Call(command: string, capture: bool)

  /** The line `execute` logs for `command`. */
  function LogLine(dryRun: bool, command: string): (line: string)
    ensures StartsWith(line, DRY_RUN_TAG) <==> dryRun
    ensures EndsWith(line, "Executing: " + command)
  {
    var line := (if dryRun then DRY_RUN_TAG else "") + "Executing: " + command;
    assert dryRun ==> line[..|DRY_RUN_TAG|] == DRY_RUN_TAG;
    assert !dryRun ==> line[0] == 'E';
    line
  }

  /** The process `execute` starts for `command`, if any. */
  function SpawnOf(dryRun: bool, command: string, capture: bool): (s: Option<Spawn>)
    ensures s.None? <==> Simulated(dryRun, command) || Rejected(dryRun, command, capture)
    ensures s.Some? ==> s.value.command == command
    ensures s.Some? && s.value.Launch? <==> !dryRun && capture
  {
    if Simulated(dryRun, command) || Rejected(dryRun, command, capture) then None
    else if !dryRun && capture then Some(Launch(command))
    else Some(Passthru(command))
  }

  /** What `execute` returns for `command`. */
  function Reported(dryRun: bool, process: string -> Proc, command: string, capture: bool): (r: ExecResult)
    ensures Simulated(dryRun, command) ==> r == ExecResult(0, None, None)
    ensures Rejected(dryRun, command, capture) ==> r == ExecResult(NO_EXIT_CODE, None, None) && r.returnCode != 0
    ensures !Simulated(dryRun, command) && !Rejected(dryRun, command, capture) ==> r.returnCode == process(command).returnCode
    ensures r.stdout.Some? <==> !dryRun && capture
    ensures r.stderr.Some? <==> !dryRun && capture
    ensures r.stdout.Some? ==> r.stdout.value == process(command).stdout && r.stderr.value == process(command).stderr
  {
    if Simulated(dryRun, command) then ExecResult(0, None, None)
    else if Rejected(dryRun, command, capture) then ExecResult(NO_EXIT_CODE, None, None)
    else if !dryRun && capture then
      var p := process(command);
      ExecResult(p.returnCode, Some(p.stdout), Some(p.stderr))
    else ExecResult(process(command).returnCode, None, None)
  }

  /** Under dry-run rsync is really run, and whether its output was to be
      captured makes no difference. */
  lemma DryRunIgnoresCapture(process: string -> Proc, command: string)
    ensures Reported(true, process, command, true) == Reported(true, process, command, false)
    ensures SpawnOf(true, command, true) == SpawnOf(true, command, false)
  {
  }

  /** The log lines for `calls`, one per call, in order. */
  function LogOf(dryRun: bool, calls: seq<Call>): (log: seq<string>)
    ensures |log| == |calls|
  {
    if calls == [] then [] else LogOf(dryRun, calls[..|calls| - 1]) + [LogLine(dryRun, calls[|calls| - 1].command)]
  }

  /** The `i`-th log line announces the `i`-th command, tagged exactly under dry-run. */
  lemma {:induction false} LogOfAnnounces(dryRun: bool, calls: seq<Call>, i: nat)
    requires i < |calls|
    ensures LogOf(dryRun, calls)[i] == LogLine(dryRun, calls[i].command)
    ensures StartsWith(LogOf(dryRun, calls)[i], DRY_RUN_TAG) <==> dryRun
  {
    if i < |calls| - 1 {
      LogOfAnnounces(dryRun, calls[..|calls| - 1], i);
    }
  }

  /** The process one call starts, as a list of zero or one. */
  function Started(dryRun: bool, c: Call): seq<Spawn> {
    match SpawnOf(dryRun, c.command, c.capture)
    case Some(s) => [s]
    case None => []
  }

  /** The processes a list of calls starts, in order. */
  function SpawnsOf(dryRun: bool, calls: seq<Call>): (spawns: seq<Spawn>)
    ensures |spawns| <= |calls|
  {
    if calls == [] then [] else SpawnsOf(dryRun, calls[..|calls| - 1]) + Started(dryRun, calls[|calls| - 1])
  }

  /** The processes of two lists of calls made one after the other. */
  lemma {:induction false} SpawnsOfAppend(dryRun: bool, a: seq<Call>, b: seq<Call>)
    ensures SpawnsOf(dryRun, a + b) == SpawnsOf(dryRun, a) + SpawnsOf(dryRun, b)
  {
    if b != [] {
      assert (a + b)[..|a + b| - 1] == a + b[..|b| - 1];
      assert (a + b)[|a + b| - 1] == b[|b| - 1];
      SpawnsOfAppend(dryRun, a, b[..|b| - 1]);
    } else {
      assert a + b == a;
    }
  }

  /** Every process started belongs to a call that was made, is neither
      simulated nor refused, and was launched exactly when its output was
      captured outside dry-run; under dry-run every one is an rsync run through
      `passthru`. */
  predicate SpawnsAllowed(dryRun: bool, calls: seq<Call>, spawned: seq<Spawn>) {
    && (forall s :: s in spawned ==>
          && !Simulated(dryRun, s.command) && !Rejected(dryRun, s.command, s.Launch?)
          && (dryRun ==> s.Passthru? && IsRsync(s.command))
          && (!dryRun ==> Call(s.command, s.Launch?) in calls))
    && (dryRun ==> forall s :: s in spawned ==> Call(s.command, false) in calls || Call(s.command, true) in calls)
  }

  lemma {:induction false} SpawnsOfAllowed(dryRun: bool, calls: seq<Call>)
    ensures SpawnsAllowed(dryRun, calls, SpawnsOf(dryRun, calls))
  {
    if calls != [] {
      var init, last := calls[..|calls| - 1], calls[|calls| - 1];
      SpawnsOfAllowed(dryRun, init);
      assert forall c :: c in init ==> c in calls;
      assert last in calls;
      assert calls[|calls| - 1] == last;
      assert Started(dryRun, last) != [] ==> !dryRun ==> Call(last.command, Started(dryRun, last)[0].Launch?) == last;
    }
  }

  /** Under dry-run every rsync call is really run, through `passthru`. */
  lemma {:induction false} DryRunStartsEveryRsync(calls: seq<Call>, i: nat)
    requires i < |calls| && IsRsync(calls[i].command)
    ensures Passthru(calls[i].command) in SpawnsOf(true, calls)
  {
    if i < |calls| - 1 {
      DryRunStartsEveryRsync(calls[..|calls| - 1], i);
    } else {
      assert Started(true, calls[i]) == [Passthru(calls[i].command)];
    }
  }

  class Executor {
    const isDryRun: bool
    const sshOptions: string
    const process: string -> Proc
    /** Every call of `execute`, in order. */
    var issued: seq<Call>
    /** The `Executing: ...` lines of the log, one per call. */
    var log: seq<string>
    /** The processes really started, in order. */
    var spawned: seq<Spawn>

    ghost predicate Valid()
      reads this
    {
      && log == LogOf(isDryRun, issued)
      && spawned == SpawnsOf(isDryRun, issued)
    }

    /** `new Executor($is_dry_run)` in the process numbered `pid`. */
    constructor (isDryRun: bool, pid: nat, process: string -> Proc)
      ensures Valid()
      ensures this.isDryRun == isDryRun && this.process == process
      ensures sshOptions == SshOptions(pid)
      ensures issued == [] && log == [] && spawned == []
    {
      this.isDryRun := isDryRun;
      this.process := process;
      sshOptions := SshOptions(pid);
      issued, log, spawned := [], [], [];
    }

    /** `execute($command, $capture_stdout)`. */
    method Execute(command: string, capture: bool) returns (r: ExecResult)
      requires Valid()
      modifies this
      ensures Valid()
      ensures r == Reported(isDryRun, process, command, capture)
      ensures issued == old(issued) + [Call(command, capture)]
      ensures log == old(log) + [LogLine(isDryRun, command)]
      ensures spawned == old(spawned) + Started(isDryRun, Call(command, capture))
    {
      var call := Call(command, capture);
      assert (issued + [call])[..|issued|] == issued;
      assert SpawnsOf(isDryRun, issued + [call]) == spawned + Started(isDryRun, call);
      assert LogOf(isDryRun, issued + [call]) == log + [LogLine(isDryRun, command)];
      issued := issued + [call];
      if isDryRun && !StartsWith(command, "rsync") {
        log := log + [DRY_RUN_TAG + "Executing: " + command];
        r := ExecResult(0, None, None);
        assert Started(isDryRun, call) == [];
      } else {
        var prefix := if isDryRun && StartsWith(command, "rsync") then DRY_RUN_TAG else "";
        log := log + [prefix + "Executing: " + command];
        if isDryRun {
          spawned := spawned + [Passthru(command)];
          r := ExecResult(process(command).returnCode, None, None);
          assert Started(isDryRun, call) == [Passthru(command)];
        } else if command == "" && !capture {
          r := ExecResult(NO_EXIT_CODE, None, None);
          assert Started(isDryRun, call) == [];
        } else if capture {
          spawned := spawned + [Launch(command)];
          var p := process(command);
          r := ExecResult(p.returnCode, Some(p.stdout), Some(p.stderr));
          assert Started(isDryRun, call) == [Launch(command)];
        } else {
          spawned := spawned + [Passthru(command)];
          r := ExecResult(process(command).returnCode, None, None);
          assert Started(isDryRun, call) == [Passthru(command)];
        }
      }
    }
  }
}
