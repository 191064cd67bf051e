/**
 * `Tara::Shell.exec` (lib/tara/shell.rb): runs a command, returns its output,
 * and raises `ExecError` when the exit status is not zero. The installer's
 * `exec_with_env` is the same with an explicit environment.
 */
module Shell {
  import opened Errors
  import opened Text
  import opened Hosts

  /**
   * The exit status `sh` reports: a command list ending in `|| true`
   * succeeds whatever its left-hand side did.
   */
  function ExitStatus(command: string, output: Output): int {
    if EndsWith(command, "|| true") then 0 else output.status
  }

  function ExecOutcome(command: string, output: Output): (r: Result<string>)
    ensures r.Ok? <==> ExitStatus(command, output) == 0
    ensures r.Ok? ==> r.value == output.text
    ensures r.Err? ==> r.error == ExecError("Command `" + command + "` failed with output: " + output.text)
  {
    if ExitStatus(command, output) == 0 then Ok(output.text)
    else Err(ExecError("Command `" + command + "` failed with output: " + output.text))
  }

  /** A command guarded by `|| true` can never raise, whatever the shell does. */
  lemma OrTrueNeverRaises(command: string, output: Output)
    requires EndsWith(command, "|| true")
    ensures ExecOutcome(command, output) == Ok(output.text)
  {
  }

  method ExecWithEnv(host: Host, command: string, env: map<string, string>) returns (r: Result<string>)
    modifies host
    ensures host.log == old(host.log) + [Run(Invocation(command, env))]
    ensures host.files == old(host.files) && host.dirs == old(host.dirs)
    ensures r == ExecOutcome(command, host.shell(Invocation(command, env)))
  {
    var output := host.RunCommand(Invocation(command, env));
    r := ExecOutcome(command, output);
  }

  method Exec(host: Host, command: string) returns (r: Result<string>)
    modifies host
    ensures host.log == old(host.log) + [Run(Invocation(command, map[]))]
    ensures host.files == old(host.files) && host.dirs == old(host.dirs)
    ensures r == ExecOutcome(command, host.shell(Invocation(command, map[])))
  {
    r := ExecWithEnv(host, command, map[]);
  }
}
