/** Running external commands: `execCommand` and the two probes built on it,
    `checkPrerequisites` and `isMCPServerInstalled`.

    Nothing is spawned here. The outcome of every command line is supplied by
    a `Shell`, and each probe reports the command lines it issued, in order,
    so that "this command is not run" is a statement about that list. */
module Exec {
  import opened Optional

  /** What `child_process.exec` reports for one command line: a normal exit
      with the captured standard output and standard error, or an error
      (a non-zero exit status, a failure to spawn, or the 30-second timeout,
      which the caller cannot tell apart). */
  datatype Outcome = Exited(stdout: string, stderr: string) | Failed

  /** The outcome each command line has in the environment of one run. */
  type Shell = string -> Outcome

  /** The settled promise of `execCommand`. */
  datatype Settled = Resolved(output: string) | Rejected

  const NodeVersion := "node --version"
  const NpmVersion := "npm --version"
  /** The installed-probe; the package in use is the `cowsay` stand-in. */
  const ServerVersion := "cowsay --version"

  /** A version query that produced an answer: the command exited and printed
      something, on either stream. Whitespace counts: the source tests the
      untrimmed string. */
  predicate Answers(o: Outcome) {
    o.Exited? && (o.stdout != "" || o.stderr != "")
  }

  /** `execCommand`: reject on error, otherwise resolve with `stdout || stderr`
      (an empty string is falsy in JavaScript). */
  function ExecCommand(o: Outcome): (r: Settled)
    ensures r.Rejected? <==> o.Failed?
    ensures r.Resolved? ==> r.output == o.stdout || r.output == o.stderr
    ensures o.Exited? && o.stdout != "" ==> r.Resolved? && r.output == o.stdout
    ensures (r.Resolved? && r.output != "") <==> Answers(o)
  {
    match o
    case Failed => Rejected
    case Exited(out, err) => Resolved(if out != "" then out else err)
  }

  /** Why `checkPrerequisites` returned false. An empty answer shows an error
      message naming the missing tool; a rejected command lands in the catch
      block, which only logs. */
  datatype PrereqFailure = NodeMissing | NpmMissing | CheckThrew

  datatype Prerequisites = Prerequisites(failure: Option<PrereqFailure>, ran: seq<string>) {
    predicate Met() { failure.None? }
  }

  /** `checkPrerequisites`: `node --version`, then `npm --version`, each of
      which must resolve with a non-empty string; the first failure ends the
      check. */
  function CheckPrerequisites(sh: Shell): (r: Prerequisites)
    ensures r.Met() <==> Answers(sh(NodeVersion)) && Answers(sh(NpmVersion))
    ensures r.ran == if Answers(sh(NodeVersion)) then [NodeVersion, NpmVersion] else [NodeVersion]
    ensures r.failure == Some(NodeMissing) <==> sh(NodeVersion) == Exited("", "")
    ensures r.failure == Some(NpmMissing) <==>
      Answers(sh(NodeVersion)) && sh(NpmVersion) == Exited("", "")
    ensures r.failure == Some(CheckThrew) <==>
      sh(NodeVersion).Failed? || (Answers(sh(NodeVersion)) && sh(NpmVersion).Failed?)
  {
    match ExecCommand(sh(NodeVersion))
    case Rejected => Prerequisites(Some(CheckThrew), [NodeVersion])
    case Resolved(node) =>
      if node == "" then
        Prerequisites(Some(NodeMissing), [NodeVersion])
      else
        match ExecCommand(sh(NpmVersion))
        case Rejected => Prerequisites(Some(CheckThrew), [NodeVersion, NpmVersion])
        case Resolved(npm) =>
          if npm == "" then Prerequisites(Some(NpmMissing), [NodeVersion, NpmVersion])
          else Prerequisites(None, [NodeVersion, NpmVersion])
  }

  /** `isMCPServerInstalled`: true exactly when the probe command resolves.
      Unlike the prerequisites, an empty answer still counts. */
  function IsServerInstalled(sh: Shell): (r: bool)
    ensures r <==> sh(ServerVersion).Exited?
  {
    ExecCommand(sh(ServerVersion)).Resolved?
  }

  /** The two probes read command output differently: a version query that
      exits silently satisfies the installed-probe but not the prerequisite
      check. */
  lemma SilentExitCountsOnlyAsInstalled(sh: Shell)
    requires sh(NodeVersion) == Exited("", "")
    requires sh(ServerVersion) == Exited("", "")
    ensures IsServerInstalled(sh)
    ensures !CheckPrerequisites(sh).Met()
    ensures CheckPrerequisites(sh).ran == [NodeVersion]
  {
  }
}
