/** The two linear workflows, `installMCPServer` and `uninstallMCPServer`.

    Inputs: the shell answering every command line, the stores before the
    run, the `settingsScope` setting, the `mcp` value the configuration step
    reads, and whether the editor accepts the settings update. Outputs: how
    the workflow ended, the stores after it, the steps it took and the
    pop-ups it showed. */
module Workflows {
  import opened Optional
  import opened Exec
  import opened McpSettings
  import opened Notices

  /** The package commands; install uses the `cowsay` stand-in while
      uninstall names the real package. */
  const InstallPackage := "npm install -g cowsay"
  const UninstallPackage := "npm uninstall -g @demiliani/d365bc-admin-mcp"

  /** One externally visible step: a command line issued, or a settings
      update attempted. */
  datatype Step = Run(command: string) | Write(update: Update)

  /** The steps of issuing the given command lines in order. */
  function Runs(commands: seq<string>): seq<Step> {
    seq(|commands|, i requires 0 <= i < |commands| => Run(commands[i]))
  }

  /** A settings update that the editor accepted takes effect; a rejected one
      changes nothing. */
  function Commit(s: Stores, u: Update, accepted: bool): Stores {
    if accepted then Apply(s, u) else s
  }

  datatype InstallOutcome = Aborted | FailedAt(stage: Stage) | Succeeded

  datatype InstallRun = InstallRun(
    outcome: InstallOutcome,
    stores: Stores,
    trace: seq<Step>,
    notices: seq<Notice>)

  /** `installMCPServer`: prerequisites (their failure ends the run with no
      pop-up of its own), then the package command, then the configuration
      write. A failure of either later step is rethrown and reported as an
      installation error. */
  function Install(sh: Shell, s: Stores, scopeSetting: Option<string>, current: McpMap,
                   accepted: bool): (r: InstallRun)
    ensures r.outcome == Aborted <==> !(Answers(sh(NodeVersion)) && Answers(sh(NpmVersion)))
    ensures r.outcome == FailedAt(PackageStep) <==>
      Answers(sh(NodeVersion)) && Answers(sh(NpmVersion)) && sh(InstallPackage).Failed?
    ensures r.outcome == FailedAt(ConfigStep) <==>
      Answers(sh(NodeVersion)) && Answers(sh(NpmVersion)) && sh(InstallPackage).Exited? && !accepted
    ensures var package := [Run(InstallPackage)];
            var configure := [Write(ConfigureUpdate(scopeSetting, current))];
            var met := Answers(sh(NodeVersion)) && Answers(sh(NpmVersion));
            r.trace == Runs(CheckPrerequisites(sh).ran) +
              (if !met then [] else if sh(InstallPackage).Failed? then package else package + configure)
    ensures Run(InstallPackage) in r.trace <==> Answers(sh(NodeVersion)) && Answers(sh(NpmVersion))
    ensures Write(ConfigureUpdate(scopeSetting, current)) in r.trace <==>
      Answers(sh(NodeVersion)) && Answers(sh(NpmVersion)) && sh(InstallPackage).Exited?
    ensures r.outcome != Succeeded ==> r.stores == s
    ensures r.outcome == Succeeded ==>
      var t := TargetOf(scopeSetting);
      && IsConfigured(r.stores.Get(t))
      && r.stores.Get(t)[ServerKey] == ServerEntry
      && (forall k :: k in current && k != ServerKey ==> k in r.stores.Get(t) && r.stores.Get(t)[k] == current[k])
      && r.stores.Get(t.Other()) == s.Get(t.Other())
      && r.stores.Get(t).Keys == current.Keys + {ServerKey}
      && r.stores.Get(t) == ConfigureUpdate(scopeSetting, current).mcp
    ensures InstallSucceeded in r.notices <==> r.outcome == Succeeded
    ensures r.outcome == Succeeded ==> r.notices == [InstallSucceeded]
    ensures r.outcome.FailedAt? ==> r.notices == [InstallFailed(r.outcome.stage)]
    ensures r.outcome == Aborted ==> r.notices == PrereqNotices(CheckPrerequisites(sh))
  {
    var p := CheckPrerequisites(sh);
    if !p.Met() then
      InstallRun(Aborted, s, Runs(p.ran), PrereqNotices(p))
    else
      var commands := Runs(p.ran) + [Run(InstallPackage)];
      if sh(InstallPackage).Failed? then
        InstallRun(FailedAt(PackageStep), s, commands, [InstallFailed(PackageStep)])
      else
        var u := ConfigureUpdate(scopeSetting, current);
        var trace := commands + [Write(u)];
        if accepted then InstallRun(Succeeded, Apply(s, u), trace, [InstallSucceeded])
        else InstallRun(FailedAt(ConfigStep), s, trace, [InstallFailed(ConfigStep)])
  }

  datatype UninstallRun = UninstallRun(
    stores: Stores,
    trace: seq<Step>,
    warnings: seq<Stage>,
    notices: seq<Notice>)

  /** `uninstallMCPServer`: the package command, then the configuration
      removal regardless of how the package command went. Each step's failure
      is only logged as a warning, and the run always ends with the success
      pop-up. */
  function Uninstall(sh: Shell, s: Stores, scopeSetting: Option<string>, current: McpMap,
                     accepted: bool): (r: UninstallRun)
    ensures r.notices == [UninstallSucceeded]
    ensures r.trace == [Run(UninstallPackage)] +
      (if IsConfigured(current) then [Write(RemoveUpdate(scopeSetting, current).value)] else [])
    ensures r.warnings ==
      (if sh(UninstallPackage).Failed? then [PackageStep] else []) +
      (if IsConfigured(current) && !accepted then [ConfigStep] else [])
    ensures PackageStep in r.warnings <==> sh(UninstallPackage).Failed?
    ensures ConfigStep in r.warnings <==> IsConfigured(current) && !accepted
    ensures !(IsConfigured(current) && accepted) ==> r.stores == s
    ensures IsConfigured(current) && accepted ==>
      var t := TargetOf(scopeSetting);
      && r.stores.Get(t) == current - {ServerKey}
      && r.stores.Get(t.Other()) == s.Get(t.Other())
  {
    var packageWarnings := if sh(UninstallPackage).Failed? then [PackageStep] else [];
    match RemoveUpdate(scopeSetting, current)
    case None =>
      UninstallRun(s, [Run(UninstallPackage)], packageWarnings, [UninstallSucceeded])
    case Some(u) =>
      var configWarnings := if accepted then [] else [ConfigStep];
      UninstallRun(Commit(s, u, accepted), [Run(UninstallPackage), Write(u)],
                   packageWarnings + configWarnings, [UninstallSucceeded])
  }

  /** The configuration removal does not depend on the package command:
      two shells that differ in every answer yield the same stores and the
      same settings write. */
  lemma UninstallConfigIgnoresPackageStep(sh1: Shell, sh2: Shell, s: Stores,
                                          scopeSetting: Option<string>, current: McpMap,
                                          accepted: bool)
    ensures Uninstall(sh1, s, scopeSetting, current, accepted).stores ==
            Uninstall(sh2, s, scopeSetting, current, accepted).stores
    ensures Uninstall(sh1, s, scopeSetting, current, accepted).trace ==
            Uninstall(sh2, s, scopeSetting, current, accepted).trace
  {
  }

  /** Install followed by uninstall, where uninstall reads back the map the
      install wrote, restores the targeted store to the map install started
      from and never touches the other store. */
  lemma InstallThenUninstall(sh: Shell, s: Stores, scopeSetting: Option<string>, current: McpMap)
    requires Answers(sh(NodeVersion)) && Answers(sh(NpmVersion)) && sh(InstallPackage).Exited?
    requires !IsConfigured(current)
    ensures var t := TargetOf(scopeSetting);
            var i := Install(sh, s, scopeSetting, current, true);
            var u := Uninstall(sh, i.stores, scopeSetting, i.stores.Get(t), true);
            && i.outcome == Succeeded
            && u.stores.Get(t) == current
            && u.stores.Get(t.Other()) == s.Get(t.Other())
  {
  }
}
