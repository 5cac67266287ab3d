/** The two status views: the status-bar icon set by `updateStatusBar` and
    the summary pop-up of `checkStatus`. */
module Status {
  import opened Optional
  import opened Exec
  import opened McpSettings
  import opened Notices

  /** `$(check)`, `$(warning)`, `$(x)` and `$(question)`. */
  datatype Icon = CheckIcon | WarningIcon | CrossIcon | QuestionIcon

  /** `updateStatusBar`. `read` is the value of `config.get('mcp', {})`, or
      `None` when reading the settings threw; the installed-probe itself
      never throws, so a failed read is the only way into the catch block. */
  function StatusBarIcon(sh: Shell, read: Option<McpMap>): (i: Icon)
    ensures i == QuestionIcon <==> read.None?
    ensures i == CheckIcon <==>
      read.Some? && sh(ServerVersion).Exited? && IsConfigured(read.value)
    ensures i == WarningIcon <==>
      read.Some? && sh(ServerVersion).Exited? && !IsConfigured(read.value)
    ensures i == CrossIcon <==> read.Some? && sh(ServerVersion).Failed?
  {
    match read
    case None => QuestionIcon
    case Some(mcp) =>
      var installed := IsServerInstalled(sh);
      if installed && IsConfigured(mcp) then CheckIcon
      else if installed then WarningIcon
      else CrossIcon
  }

  /** What `checkStatus` finds and reports. `ran` lists the command lines it
      issues; `notices` are its pop-ups, those of the prerequisite check
      followed by the summary. */
  datatype StatusReport = StatusReport(
    prerequisitesMet: bool,
    installed: bool,
    configured: bool,
    settingsScope: string,
    ran: seq<string>,
    notices: seq<Notice>)

  /** `checkStatus`: every probe runs (a failed prerequisite check does not
      skip the installed-probe) and the summary is informational only when all
      three signals hold. */
  function CheckStatus(sh: Shell, mcp: McpMap, scopeSetting: Option<string>): (r: StatusReport)
    ensures r.prerequisitesMet <==> Answers(sh(NodeVersion)) && Answers(sh(NpmVersion))
    ensures r.installed <==> sh(ServerVersion).Exited?
    ensures r.configured <==> ServerKey in mcp
    ensures r.settingsScope == (if scopeSetting.None? then "global" else scopeSetting.value)
    ensures r.ran == CheckPrerequisites(sh).ran + [ServerVersion]
    ensures |r.ran| >= 2 && r.ran[0] == NodeVersion && r.ran[|r.ran| - 1] == ServerVersion
    ensures NpmVersion in r.ran <==> Answers(sh(NodeVersion))
    ensures |r.notices| >= 1
    ensures r.notices == PrereqNotices(CheckPrerequisites(sh)) + [r.notices[|r.notices| - 1]]
    ensures StatusComplete in r.notices <==>
      Answers(sh(NodeVersion)) && Answers(sh(NpmVersion)) && sh(ServerVersion).Exited? &&
      ServerKey in mcp
    ensures r.notices[|r.notices| - 1] == StatusComplete <==>
      Answers(sh(NodeVersion)) && Answers(sh(NpmVersion)) && sh(ServerVersion).Exited? &&
      ServerKey in mcp
    ensures r.notices[|r.notices| - 1] in {StatusComplete, StatusIncomplete}
  {
    var p := CheckPrerequisites(sh);
    var installed := IsServerInstalled(sh);
    var configured := IsConfigured(mcp);
    var summary := if p.Met() && installed && configured then StatusComplete else StatusIncomplete;
    StatusReport(p.Met(), installed, configured, ScopeValue(scopeSetting),
                 p.ran + [ServerVersion], PrereqNotices(p) + [summary])
  }

  /** A complete status summary implies a check-mark icon for the same
      settings value; the converse fails, see `CheckIconIgnoresPrerequisites`. */
  lemma CompleteStatusShowsCheck(sh: Shell, mcp: McpMap, scopeSetting: Option<string>)
    ensures var ns := CheckStatus(sh, mcp, scopeSetting).notices;
            ns[|ns| - 1] == StatusComplete ==> StatusBarIcon(sh, Some(mcp)) == CheckIcon
  {
  }

  /** The status bar does not look at the prerequisites: with the server
      installed and registered but no `node` on the path, the icon is a check
      mark while `checkStatus` warns. */
  lemma CheckIconIgnoresPrerequisites()
    ensures var sh: Shell := c => if c == ServerVersion then Exited("6.2.0", "") else Failed;
            var mcp := map[ServerKey := ServerEntry];
            && StatusBarIcon(sh, Some(mcp)) == CheckIcon
            && CheckStatus(sh, mcp, None).notices == [StatusIncomplete]
  {
  }
}
