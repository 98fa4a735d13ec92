/** The remediation engine: a dispatch table from issue types to handlers, each of which
    issues shell commands through `execute_command` and reports one command's success. */
module Remediation {
  import opened Wrappers

  /** What running one command through the shell gives: the exit code and both output
      streams, or a failure to launch the shell at all (an `OSError`). */
  datatype Process = Exited(code: int, stdout: string, stderr: string) | LaunchFailed

  /** The operating system, as an oracle from command line to process result. */
  type Shell = string -> Process

  /** Exceptions that leave a handler. */
  datatype Error = TypeError | OSError

  /** A handler either returns its success flag or raises. */
  datatype Outcome = Returned(success: bool) | Raised(error: Error)

  /** What a call did: its outcome and the commands it issued, in order. */
  datatype Run = Run(outcome: Outcome, issued: seq<string>)

  /** `execute_command`: a zero exit gives (true, stdout) and a non-zero exit (false,
      stderr); only a non-zero exit is caught, so a launch failure propagates (None). */
  function ExecuteCommand(shell: Shell, command: string): (r: Option<(bool, string)>)
    ensures r.None? <==> shell(command).LaunchFailed?
    ensures r.Some? ==> (r.value.0 <==> shell(command).code == 0)
    ensures r.Some? ==> r.value.1 == (if r.value.0 then shell(command).stdout else shell(command).stderr)
  {
    match shell(command)
    case LaunchFailed => None
    case Exited(code, stdout, stderr) => if code == 0 then Some((true, stdout)) else Some((false, stderr))
  }

  /** The outcome of a handler that ends by returning `command`'s success flag. */
  function ResultOf(shell: Shell, command: string): Outcome {
    match ExecuteCommand(shell, command)
    case None => Raised(OSError)
    case Some((success, _)) => Returned(success)
  }

  // ----- Command lines --------------------------------------------------------------------

  const TopCpuCommand: string :=
    "powershell \"Get-Process | Sort-Object CPU -Descending | Select-Object -First 5\""
  const TopMemoryCommand: string :=
    "powershell \"Get-Process | Sort-Object WorkingSet -Descending | Select-Object -First 5\""
  const CleanmgrCommand: string := "cleanmgr /sagerun:1"
  const DefaultTempPath: string := "C:\\Windows\\Temp"

  function KillCommand(name: string): string { "taskkill /F /IM " + name }
  function RestartCommand(name: string): string { "taskkill /F /IM " + name + " && start " + name }
  function DeleteCommand(path: string): string { "del /q /s /f \"" + path + "\\*.*\"" }
  function QueryCommand(name: string): string { "sc query " + name }
  function StartCommand(name: string): string { "sc start " + name }

  /** An optional keyword argument as an f-string formats it: Python's `None` prints as
      "None". */
  function Format(arg: Option<string>): string {
    if arg.None? then "None" else arg.value
  }

  /** A process name is used only when it is truthy: given and non-empty. */
  predicate Named(arg: Option<string>) {
    arg.Some? && arg.value != ""
  }

  // ----- Handlers ---------------------------------------------------------------------------

  /** `handle_high_cpu`: one command, whose success is the result. */
  function HighCpu(processName: Option<string>, shell: Shell): (r: Run)
    ensures Named(processName) ==> r.issued == [KillCommand(processName.value)]
    ensures !Named(processName) ==> r.issued == [TopCpuCommand]
    ensures r.outcome == ResultOf(shell, r.issued[0])
  {
    var command := if Named(processName) then KillCommand(processName.value) else TopCpuCommand;
    Run(ResultOf(shell, command), [command])
  }

  /** `handle_memory_leak`: one kill-and-start command for a named process, otherwise the
      top-5 memory listing; the result is that command's success. */
  function MemoryLeak(processName: Option<string>, shell: Shell): (r: Run)
    ensures Named(processName) ==> r.issued == [RestartCommand(processName.value)]
    ensures !Named(processName) ==> r.issued == [TopMemoryCommand]
    ensures r.outcome == ResultOf(shell, r.issued[0])
  {
    var command := if Named(processName) then RestartCommand(processName.value) else TopMemoryCommand;
    Run(ResultOf(shell, command), [command])
  }

  /** Substring test, as Python's `in` on strings. */
  predicate Contains(s: string, sub: string) {
    exists i | 0 <= i <= |s| - |sub| :: OccursAt(s, sub, i)
  }

  predicate OccursAt(s: string, sub: string, i: int)
    requires 0 <= i <= |s| - |sub|
  {
    s[i..i + |sub|] == sub
  }

  /** `handle_service_down`: query the service; when the query's output (stdout or stderr)
      mentions RUNNING report success without starting it, otherwise start it and report
      the start command's success. */
  function ServiceDown(serviceName: Option<string>, shell: Shell): (r: Run)
    ensures |r.issued| >= 1 && r.issued[0] == QueryCommand(Format(serviceName))
    ensures var query := ExecuteCommand(shell, QueryCommand(Format(serviceName)));
      && (query.None? ==> r == Run(Raised(OSError), [QueryCommand(Format(serviceName))]))
      && (query.Some? && Contains(query.value.1, "RUNNING") ==>
            r == Run(Returned(true), [QueryCommand(Format(serviceName))]))
      && (query.Some? && !Contains(query.value.1, "RUNNING") ==>
            && r.issued == [QueryCommand(Format(serviceName)), StartCommand(Format(serviceName))]
            && r.outcome == ResultOf(shell, StartCommand(Format(serviceName))))
  {
    var name := Format(serviceName);
    match ExecuteCommand(shell, QueryCommand(name))
    case None => Run(Raised(OSError), [QueryCommand(name)])
    case Some((_, output)) =>
      if Contains(output, "RUNNING") then Run(Returned(true), [QueryCommand(name)])
      else Run(ResultOf(shell, StartCommand(name)), [QueryCommand(name), StartCommand(name)])
  }

  /** The host facts `handle_disk_full` consults: the TEMP environment variable and
      `os.path.exists`. */
  datatype Host = Host(tempVariable: Option<string>, pathExists: string -> bool)

  /** The two temp directories tried, in order: `TEMP` (or the default) and the default. */
  function TempPaths(host: Host): (paths: seq<string>)
    ensures |paths| == 2 && paths[1] == DefaultTempPath
  {
    [if host.tempVariable.Some? then host.tempVariable.value else DefaultTempPath, DefaultTempPath]
  }

  /** The state of the clean-up loop: the commands issued so far and whether one of them
      failed to launch (which ends the handler). */
  datatype Cleanup = Cleanup(issued: seq<string>, raised: bool)

  /** The clean-up loop over `paths`, defined from its last iteration backwards: one delete
      per existing path; the result of each delete is ignored. */
  function TempCleanup(paths: seq<string>, host: Host, shell: Shell): Cleanup
    decreases |paths|
  {
    if paths == [] then Cleanup([], false)
    else
      var before := TempCleanup(paths[..|paths| - 1], host, shell);
      var path := paths[|paths| - 1];
      if before.raised || !host.pathExists(path) then before
      else Cleanup(before.issued + [DeleteCommand(path)], shell(DeleteCommand(path)).LaunchFailed?)
  }

  /** `handle_disk_full`: clean the temp directories, then run the disk clean-up tool and
      report only its success. */
  function DiskFull(host: Host, shell: Shell): Run {
    var cleanup := TempCleanup(TempPaths(host), host, shell);
    if cleanup.raised then Run(Raised(OSError), cleanup.issued)
    else Run(ResultOf(shell, CleanmgrCommand), cleanup.issued + [CleanmgrCommand])
  }

  /** `handle_disk_full` as the source writes it: a loop over the temp paths. */
  method HandleDiskFull(host: Host, shell: Shell) returns (r: Run)
    ensures r == DiskFull(host, shell)
  {
    var paths := TempPaths(host);
    var issued: seq<string> := [];
    for i := 0 to |paths|
      invariant TempCleanup(paths[..i], host, shell) == Cleanup(issued, false)
    {
      assert paths[..i + 1][..i] == paths[..i];
      if host.pathExists(paths[i]) {
        var command := DeleteCommand(paths[i]);
        issued := issued + [command];
        var result := ExecuteCommand(shell, command);
        if result.None? {
          assert TempCleanup(paths[..i + 1], host, shell) == Cleanup(issued, true);
          MoreCleanupAfterRaise(paths, i + 1, host, shell);
          assert paths[..|paths|] == paths;
          return Run(Raised(OSError), issued);
        }
      }
    }
    assert paths[..|paths|] == paths;
    var cleaned := ExecuteCommand(shell, CleanmgrCommand);
    if cleaned.None? {
      return Run(Raised(OSError), issued + [CleanmgrCommand]);
    }
    r := Run(Returned(cleaned.value.0), issued + [CleanmgrCommand]);
  }

  /** Once a delete has failed to launch, later paths add nothing. */
  lemma {:induction false} MoreCleanupAfterRaise(paths: seq<string>, k: nat, host: Host, shell: Shell)
    requires k <= |paths| && TempCleanup(paths[..k], host, shell).raised
    ensures TempCleanup(paths, host, shell) == TempCleanup(paths[..k], host, shell)
    decreases |paths| - k
  {
    if k < |paths| {
      assert paths[..k + 1][..k] == paths[..k];
      MoreCleanupAfterRaise(paths, k + 1, host, shell);
    } else {
      assert paths[..k] == paths;
    }
  }

  /** The commands `handle_disk_full` issues when every command launches: a delete for
      each existing temp path, in order, then the clean-up tool; the result is the
      clean-up tool's exit status alone. */
  lemma DiskFullCommands(host: Host, shell: Shell)
    requires forall p | p in TempPaths(host) && host.pathExists(p) :: !shell(DeleteCommand(p)).LaunchFailed?
    ensures var paths := TempPaths(host);
      && DiskFull(host, shell).issued
        == (if host.pathExists(paths[0]) then [DeleteCommand(paths[0])] else [])
          + (if host.pathExists(paths[1]) then [DeleteCommand(paths[1])] else [])
          + [CleanmgrCommand]
      && DiskFull(host, shell).outcome == ResultOf(shell, CleanmgrCommand)
  {
    var paths := TempPaths(host);
    var first, second := paths[0], paths[1];
    assert paths[..|paths| - 1] == [first] && [first][..0] == [];
    var cleanup1 := TempCleanup([first], host, shell);
    assert cleanup1 == (if host.pathExists(first) then Cleanup([DeleteCommand(first)], false) else Cleanup([], false)) by {
      assert first in paths;
      assert [first][..|[first]| - 1] == [] && [first][|[first]| - 1] == first;
      assert TempCleanup([], host, shell) == Cleanup([], false);
    }
    assert TempCleanup(paths, host, shell)
      == (if host.pathExists(second) then Cleanup(cleanup1.issued + [DeleteCommand(second)], false) else cleanup1) by {
      assert second in paths;
    }
  }

  /** Failures of the temp deletes do not matter: two shells that agree on the clean-up
      tool and both launch every delete give the same result. */
  lemma DiskFullIgnoresTempResults(host: Host, shell1: Shell, shell2: Shell)
    requires forall p | p in TempPaths(host) && host.pathExists(p) ::
      !shell1(DeleteCommand(p)).LaunchFailed? && !shell2(DeleteCommand(p)).LaunchFailed?
    requires shell1(CleanmgrCommand) == shell2(CleanmgrCommand)
    ensures DiskFull(host, shell1) == DiskFull(host, shell2)
  {
    DiskFullCommands(host, shell1);
    DiskFullCommands(host, shell2);
  }

  // ----- Dispatch ---------------------------------------------------------------------------

  const IssueTypes: set<string> := {"high_cpu", "memory_leak", "disk_full", "service_down"}

  /** Keyword arguments; a value of None stands for Python's `None`. */
  type Kwargs = map<string, Option<string>>

  function Arg(kwargs: Kwargs, name: string): Option<string> {
    if name in kwargs then kwargs[name] else None
  }

  /** The keyword arguments a handler accepts, and whether it has a required one. */
  predicate Accepts(issueType: string, kwargs: Kwargs) {
    if issueType == "high_cpu" || issueType == "memory_leak" then kwargs.Keys <= {"process_name"}
    else if issueType == "disk_full" then kwargs.Keys <= {"path"}
    else kwargs.Keys == {"service_name"}
  }

  /** `remediate`: an unknown issue type returns false without running anything; a known one
      calls its handler with the keyword arguments, which raises `TypeError` when they do not
      fit the handler's parameters. */
  function Remediate(issueType: string, kwargs: Kwargs, host: Host, shell: Shell): (r: Run)
    ensures issueType !in IssueTypes ==> r == Run(Returned(false), [])
    ensures issueType in IssueTypes && !Accepts(issueType, kwargs) ==> r == Run(Raised(TypeError), [])
  {
    if issueType !in IssueTypes then Run(Returned(false), [])
    else if !Accepts(issueType, kwargs) then Run(Raised(TypeError), [])
    else if issueType == "high_cpu" then HighCpu(Arg(kwargs, "process_name"), shell)
    else if issueType == "memory_leak" then MemoryLeak(Arg(kwargs, "process_name"), shell)
    else if issueType == "disk_full" then DiskFull(host, shell)
    else ServiceDown(Arg(kwargs, "service_name"), shell)
  }

  /** The dispatch table: a known issue type whose keyword arguments fit its handler gives
      exactly that handler's result, with a missing argument passed as `None`. */
  lemma DispatchTable(kwargs: Kwargs, host: Host, shell: Shell)
    ensures Accepts("high_cpu", kwargs) ==>
      Remediate("high_cpu", kwargs, host, shell) == HighCpu(Arg(kwargs, "process_name"), shell)
    ensures Accepts("memory_leak", kwargs) ==>
      Remediate("memory_leak", kwargs, host, shell) == MemoryLeak(Arg(kwargs, "process_name"), shell)
    ensures Accepts("disk_full", kwargs) ==> Remediate("disk_full", kwargs, host, shell) == DiskFull(host, shell)
    ensures Accepts("service_down", kwargs) ==>
      Remediate("service_down", kwargs, host, shell) == ServiceDown(Arg(kwargs, "service_name"), shell)
  {
  }

  /** The calls the controller makes (no keyword arguments) never raise `TypeError`, and
      `service_down` without a service name always does. */
  lemma ArgumentlessCalls(host: Host, shell: Shell)
    ensures Remediate("high_cpu", map[], host, shell) == Run(ResultOf(shell, TopCpuCommand), [TopCpuCommand])
    ensures Remediate("memory_leak", map[], host, shell) == Run(ResultOf(shell, TopMemoryCommand), [TopMemoryCommand])
    ensures Remediate("disk_full", map[], host, shell) == DiskFull(host, shell)
    ensures Remediate("service_down", map[], host, shell) == Run(Raised(TypeError), [])
  {
  }

  /** The three handlers the controller calls accept a call without keyword arguments, so
      such a call never raises `TypeError`; whatever it raises is an `OSError`. */
  lemma ArgumentlessNeverTypeError(issueType: string, host: Host, shell: Shell)
    requires issueType in {"high_cpu", "memory_leak", "disk_full"}
    ensures Remediate(issueType, map[], host, shell).outcome.Raised? ==>
      Remediate(issueType, map[], host, shell).outcome.error == OSError
  {
    assert Accepts(issueType, map[]);
  }

  /** Whenever a handler returns normally, its result is the exit status of the last
      command it issued, except that a running service is reported as success. */
  lemma LastCommandDecides(issueType: string, kwargs: Kwargs, host: Host, shell: Shell)
    requires issueType in IssueTypes
    ensures var r := Remediate(issueType, kwargs, host, shell);
      r.outcome.Returned? && r.issued != [] ==>
        var last := shell(r.issued[|r.issued| - 1]);
        || (last.Exited? && (r.outcome.success <==> last.code == 0))
        || (issueType == "service_down" && |r.issued| == 1 && r.outcome.success)
  {
  }

  /** A service reported running is never started. */
  lemma ServiceAlreadyRunning(serviceName: Option<string>, shell: Shell)
    requires var query := shell(QueryCommand(Format(serviceName)));
      query.Exited? && Contains(if query.code == 0 then query.stdout else query.stderr, "RUNNING")
    ensures ServiceDown(serviceName, shell) == Run(Returned(true), [QueryCommand(Format(serviceName))])
  {
  }
}
