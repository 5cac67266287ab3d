# D365 BC Admin MCP extension: decision logic

This project models the decision logic inside the VS Code extension `src/extension.ts`. The extension installs an MCP server package and registers it for GitHub Copilot. The model covers five pieces:

- how a command result is read (`execCommand`);
- the two probes built on it (`checkPrerequisites`, `isMCPServerInstalled`);
- the two writes to the `github.copilot.mcp` setting (`configureGitHubCopilot`, `removeGitHubCopilotConfig`), one store per configuration target;
- the two status views (`updateStatusBar`, `checkStatus`);
- the install and uninstall workflows, modelled as linear step sequences.

All of it is pure functions over values:

- Command outcomes come from a `Shell` parameter, which maps a command line to `Exited(stdout, stderr)` or `Failed`. `CheckPrerequisites`, `CheckStatus`, `Install` and `Uninstall` report the command lines they issue, so "npm is not run" is a statement about that list. `IsServerInstalled` and `StatusBarIcon` return only their result.
- The value read with `config.get('mcp', {})` is an input map.
- Whether the editor accepts a `config.update` is a boolean input. A rejected update changes nothing.
- Pop-up messages are `Notice` values with a level (information, warning, error). Output-channel lines are not modelled, except the two uninstall warnings (`UninstallRun.warnings`) and the logged settings scope (`StatusReport.settingsScope`).

Modules: `Optional` (an option type), `Exec`, `McpSettings`, `Notices`, `Status`, `Workflows`. There is one file per module.

Facts about the program that the model keeps:

- "Configured" means the key `d365bc-admin` is present in the `github.copilot.mcp` setting.
- A failed configuration step during install is reported as an installation error.
- Install runs `npm install -g cowsay` and registers the command `cowsay`. The installed-probe runs `cowsay --version`. Uninstall runs `npm uninstall -g @demiliani/d365bc-admin-mcp`. The source marks the `cowsay` parts as a temporary stand-in, and the model keeps these constants exactly as written.

## Model

| member | source | states |
|---|---|---|
| Exec.ExecCommand | src/extension.ts:423-433 | A command that errors rejects. Otherwise the result is stdout when stdout is non-empty, else stderr. The result is non-empty exactly when the command exited and printed something on either stream. |
| Exec.CheckPrerequisites | src/extension.ts:60-89 | The result is true iff `node --version` and `npm --version` both resolve with non-empty output. `npm --version` is issued only when the node query answered. An empty answer and a rejection are told apart as missing-tool and thrown failures. |
| Exec.IsServerInstalled | src/extension.ts:231-239 | The result is true exactly when the probe command `cowsay --version` does not error, even when its output is empty. |
| Exec.SilentExitCountsOnlyAsInstalled | src/extension.ts:68-72 | A version query that exits with no output satisfies the installed-probe but fails the prerequisite check, and that check then stops after the node query. |
| McpSettings.Apply | src/extension.ts:198-212 | An update replaces the targeted store with the new map and leaves the other store unchanged. |
| McpSettings.ConfigureUpdate | src/extension.ts:189-213 | The write targets Global iff `settingsScope` is unset or exactly `"global"`. The written map has `d365bc-admin` mapped to `{command: "cowsay"}` and every other key of the read map with its prior entry, and no other keys. |
| McpSettings.RemoveUpdate | src/extension.ts:215-229 | No update is issued iff `d365bc-admin` is absent. Otherwise the update targets the scope's store and writes the read map without exactly that key, with every remaining entry unchanged. |
| McpSettings.ConfigureIdempotent | src/extension.ts:192-204 | Configuring again from the map that configure just wrote leaves both stores as they are. |
| McpSettings.RemoveUndoesConfigure | src/extension.ts:222-228 | When the key was absent, removing it after configure writes back exactly the map configure read, to the same target. |
| McpSettings.RemoveThenConfigure | src/extension.ts:222-228 | Configure after remove writes the same update as configure alone. A second remove issues no update. |
| McpSettings.RegisteredCount | src/extension.ts:203-227 | Configure adds one entry when the key is absent and none when it is present. Remove drops exactly one entry. |
| Notices.PrereqNotices | src/extension.ts:64-88 | The prerequisite check shows at most one pop-up, always an error. It names Node.js exactly when `node --version` answered nothing and npm exactly when `npm --version` answered nothing. It shows none exactly when the check passed or a query was rejected. |
| Status.StatusBarIcon | src/extension.ts:330-360 | The icon is a check iff installed and configured, a warning iff installed and not configured, an x iff not installed whatever the configuration, and a question mark iff reading the settings threw. |
| Status.CheckStatus | src/extension.ts:241-275 | The commands run are exactly those of the prerequisite check followed by the installed-probe, which runs even after a failed prerequisite check. The pop-ups are exactly those of the prerequisite check followed by one summary. The information summary appears iff prerequisites are met, the server is installed and the key is configured. Otherwise the summary is the warning. |
| Status.CompleteStatusShowsCheck | src/extension.ts:270-274 | When `checkStatus` reports complete, the status bar shows the check icon for the same shell and settings value. |
| Status.CheckIconIgnoresPrerequisites | src/extension.ts:333-339 | For a shell in which only the installed-probe answers and every other command fails, with the server registered, the bar shows a check while `checkStatus` shows only its warning summary. |
| Workflows.Install | src/extension.ts:91-142 | Failed prerequisites abort the run with the stores unchanged and no pop-up from install itself. The package command runs iff prerequisites are met. The configure write is attempted iff prerequisites are met and the package command succeeded. The trace is exactly these steps, in this order. A failure of either step ends the run with one installation error and unchanged stores. Success shows only the success pop-up. The targeted store then becomes exactly the read map with the entry registered, and the other store is unchanged. |
| Workflows.Uninstall | src/extension.ts:144-187 | The package command always runs, and the removal write follows whenever the key is present. Each step's failure becomes one logged warning, package step first. The run always ends with the success pop-up. Only an accepted removal changes the stores, and then only the targeted one. |
| Workflows.UninstallConfigIgnoresPackageStep | src/extension.ts:159-176 | The package-removal result has no effect on the configuration removal: the stores and steps are the same for any shell. |
| Workflows.InstallThenUninstall | src/extension.ts:116-228 | Suppose install succeeds on a map without the key, and uninstall then reads what install wrote. The targeted store ends as the map install started from, and the other store is never changed. |

## Left out

- VS Code presentation is not modelled: status-bar colours and tooltips, output-channel lines other than those noted above, progress notifications, message texts and the quick-start webview (src/extension.ts:19-22, 104-131, 362-421).
- Activation, command registration and the auto-install prompt are not modelled (src/extension.ts:15-58). They depend on user interaction and asynchronous callbacks.
- `showDiagnostics` is not modelled (src/extension.ts:277-328). It only logs strings.
- Process spawning and the 30-second timeout of `cp.exec` are not modelled. A timeout is one of the ways a command reports `Failed`.
- The `Shell` gives each command line one fixed outcome per run, so the effect of an install command on later probes is not modelled.
- How `getConfiguration(...).get('mcp', {})` resolves the effective value across targets is editor behaviour. The value read is an input, and `InstallThenUninstall` assumes that uninstall reads back what install wrote.
- Any failure of a settings read is not modelled, except in `updateStatusBar`, where it is the only way to reach the question-mark icon.
- After a successful install, the source refreshes the status bar and opens the quick-start guide without awaiting them; after uninstall it refreshes the status bar the same way (src/extension.ts:134-135, 180). None of these appears in the step lists, so the `cowsay --version` that each refresh issues is missing from `Install` and `Uninstall` traces.
- A falsy value stored under `d365bc-admin` (such as `null`) is not modelled. The `MCPConfig` type admits only objects, and objects are always truthy, so "configured" is the same as "key present".
