/** The pop-up messages the extension shows (`showInformationMessage`,
    `showWarningMessage`, `showErrorMessage`) as values, without their text.
    Output-channel lines are not notices: they are only logged. */
module Notices {
  import opened Optional
  import opened Exec

  datatype Level = InfoMessage | WarningMessage | ErrorMessage

  /** The two steps of each workflow after the prerequisite check. */
  datatype Stage = PackageStep | ConfigStep

  datatype Notice =
    | NodeNotInstalled            // checkPrerequisites: empty `node --version`
    | NpmNotInstalled             // checkPrerequisites: empty `npm --version`
    | InstallSucceeded            // installMCPServer
    | InstallFailed(stage: Stage) // installMCPServer, "Installation failed: ..."
    | UninstallSucceeded          // uninstallMCPServer
    | StatusComplete              // checkStatus summary
    | StatusIncomplete            // checkStatus summary

  function LevelOf(n: Notice): Level {
    match n
    case NodeNotInstalled => ErrorMessage
    case NpmNotInstalled => ErrorMessage
    case InstallSucceeded => InfoMessage
    case InstallFailed(_) => ErrorMessage
    case UninstallSucceeded => InfoMessage
    case StatusComplete => InfoMessage
    case StatusIncomplete => WarningMessage
  }

  /** The pop-ups `checkPrerequisites` itself shows: an error naming the tool
      whose version query answered nothing; a rejected query is only logged. */
  function PrereqNotices(p: Prerequisites): (ns: seq<Notice>)
    ensures |ns| <= 1
    ensures ns == [] <==> p.Met() || p.failure == Some(CheckThrew)
    ensures ns == [NodeNotInstalled] <==> p.failure == Some(NodeMissing)
    ensures ns == [NpmNotInstalled] <==> p.failure == Some(NpmMissing)
    ensures forall i :: 0 <= i < |ns| ==> LevelOf(ns[i]) == ErrorMessage
  {
    match p.failure
    case None => []
    case Some(NodeMissing) => [NodeNotInstalled]
    case Some(NpmMissing) => [NpmNotInstalled]
    case Some(CheckThrew) => []
  }
}
