/**
 * What running a child process can give: `spawn` fails, `wait` fails, or the process
 * exits, leaving its captured output and, unless a signal ended it, an exit code.
 * Child processes are never started by the model; every caller takes the outcome as
 * an input.
 */
module Process {
  import opened Wrappers

  datatype ChildOutcome =
    | SpawnFailed(message: string)
    | WaitFailed(message: string)
    | Exited(stdout: string, stderr: string, code: Option<int>)
}
