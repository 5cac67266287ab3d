/** The `github.copilot.mcp` setting: a map from server name to its launch
    entry, held once per configuration target (user-global and workspace),
    and the two writes the extension makes to it, `configureGitHubCopilot`
    and `removeGitHubCopilotConfig`.

    The value read with `config.get('mcp', {})` is an input: how the editor
    resolves it across targets is not part of this model. A write is an
    `Update` request naming a target and the whole new map; `Apply` performs
    it. */
module McpSettings {
  import opened Optional

  /** One `MCPConfig` value: how to launch a server. */
  datatype Entry = Entry(command: string)

  type McpMap = map<string, Entry>

  /** The key this extension owns, and the entry it registers under it
      (the `cowsay` stand-in command). */
  const ServerKey := "d365bc-admin"
  const ServerEntry := Entry("cowsay")

  /** `mcpConfig['d365bc-admin']` is truthy. Entries are objects, so this is
      presence of the key. */
  predicate IsConfigured(m: McpMap) {
    ServerKey in m
  }

  /** `vscode.ConfigurationTarget.Global` and `.Workspace`. */
  datatype Target = Global | Workspace {
    function Other(): Target {
      if Global? then Workspace else Global
    }
  }

  /** The value of the `d365bc-admin-mcp.settingsScope` setting, read with
      the default `'global'`. */
  function ScopeValue(scopeSetting: Option<string>): string {
    if scopeSetting.Some? then scopeSetting.value else "global"
  }

  /** The scope chooses the target by strict string equality. */
  function TargetOf(scopeSetting: Option<string>): Target {
    if ScopeValue(scopeSetting) == "global" then Global else Workspace
  }

  /** The stored value of the setting at each target. */
  datatype Stores = Stores(global: McpMap, workspace: McpMap) {
    function Get(t: Target): McpMap {
      if t == Global then global else workspace
    }
  }

  /** `config.update('mcp', mcp, target)`. */
  datatype Update = Update(target: Target, mcp: McpMap)

  /** Performing an update replaces the targeted store and nothing else. */
  function Apply(s: Stores, u: Update): (r: Stores)
    ensures r.Get(u.target) == u.mcp
    ensures r.Get(u.target.Other()) == s.Get(u.target.Other())
  {
    if u.target == Global then s.(global := u.mcp) else s.(workspace := u.mcp)
  }

  /** `configureGitHubCopilot`: the write of `{ ...currentMCP, ...mcpConfig }`,
      which sets the owned key and keeps every other entry. */
  function ConfigureUpdate(scopeSetting: Option<string>, current: McpMap): (u: Update)
    ensures u.target == Global <==> scopeSetting == None || scopeSetting == Some("global")
    ensures IsConfigured(u.mcp) && u.mcp[ServerKey] == ServerEntry
    ensures u.mcp.Keys == current.Keys + {ServerKey}
    ensures forall k :: k in current && k != ServerKey ==> u.mcp[k] == current[k]
  {
    Update(TargetOf(scopeSetting), current + map[ServerKey := ServerEntry])
  }

  /** `removeGitHubCopilotConfig`: no update at all when the owned key is
      absent; otherwise the write of the read value without that key. */
  function RemoveUpdate(scopeSetting: Option<string>, current: McpMap): (u: Option<Update>)
    ensures u.None? <==> !IsConfigured(current)
    ensures u.Some? ==>
      (u.value.target == Global <==> scopeSetting == None || scopeSetting == Some("global"))
    ensures u.Some? ==> u.value.mcp.Keys == current.Keys - {ServerKey}
    ensures u.Some? ==> forall k :: k in u.value.mcp ==> u.value.mcp[k] == current[k]
  {
    if IsConfigured(current) then Some(Update(TargetOf(scopeSetting), current - {ServerKey}))
    else None
  }

  /** Configuring again from the map the first configure wrote writes the
      same stores: configure is idempotent. */
  lemma ConfigureIdempotent(s: Stores, scopeSetting: Option<string>, current: McpMap)
    ensures var u := ConfigureUpdate(scopeSetting, current);
            var s1 := Apply(s, u);
            Apply(s1, ConfigureUpdate(scopeSetting, s1.Get(u.target))) == s1
  {
  }

  /** Removal undoes a configure that added the key: the written map is the
      one configure started from. */
  lemma RemoveUndoesConfigure(scopeSetting: Option<string>, current: McpMap)
    requires !IsConfigured(current)
    ensures var u := ConfigureUpdate(scopeSetting, current);
            RemoveUpdate(scopeSetting, u.mcp) == Some(Update(u.target, current))
  {
    var written := ConfigureUpdate(scopeSetting, current).mcp;
    var restored := RemoveUpdate(scopeSetting, written).value.mcp;
    assert restored.Keys == current.Keys;
    assert forall k :: k in restored ==> restored[k] == current[k];
    assert restored == current;
  }

  /** Configure after remove writes what configure alone would have written,
      and a second remove issues no update. */
  lemma RemoveThenConfigure(scopeSetting: Option<string>, current: McpMap)
    requires IsConfigured(current)
    ensures var u := RemoveUpdate(scopeSetting, current).value;
            && ConfigureUpdate(scopeSetting, u.mcp) == ConfigureUpdate(scopeSetting, current)
            && RemoveUpdate(scopeSetting, u.mcp).None?
  {
  }

  /** Configure registers at most one new server and remove unregisters
      exactly one: no sibling entry is added or lost. */
  lemma RegisteredCount(scopeSetting: Option<string>, current: McpMap)
    ensures |ConfigureUpdate(scopeSetting, current).mcp| ==
            if IsConfigured(current) then |current| else |current| + 1
    ensures IsConfigured(current) ==>
            |RemoveUpdate(scopeSetting, current).value.mcp| == |current| - 1
  {
  }
}
