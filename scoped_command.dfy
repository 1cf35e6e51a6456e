/*
 * `ScopedCommand`: a command such as ban or mute that comes in one variant
 * per enabled action scope. The constructor fills the table from command
 * names to scopes, and the advertised names with their aliases; loading a
 * command's state looks the typed name up, sets the scope and checks the
 * scope's permission, `<base permission>.<scope suffix>`.
 *
 * The root and shorthand parts of the names and the base permission are
 * constructor parameters (the subclasses supply them); the executor's
 * permissions are a predicate.
 */
module ScopedCommands {
  import opened ApiData

  /** The statuses a command's state can carry, as far as loading a scoped command sets them. */
  datatype ExecutionStatus = SUCCESS | ERROR | NO_PERMISSION

  type Table = map<string, ActionScope>
  type Aliases = map<string, seq<string>>

  /** A scope is offered when every flag it has is enabled. */
  predicate Offered(enabled: ActionScope, s: ActionScope) {
    (IsTemporary(s) ==> IsTemporary(enabled)) && (IsGlobal(s) ==> IsGlobal(enabled)) && (IsIP(s) ==> IsIP(enabled))
  }

  predicate AllOffered(enabled: ActionScope, m: Table) {
    forall n :: n in m ==> Offered(enabled, m[n])
  }

  // ---------------------------------------------------------------------------
  // The command table, block by block in the constructor's order

  /**
   * The temporary block as written: for temporary with IP it maps the alias
   * `gt<shorthand>i` to TEMPORARY_GLOBAL_IP, where the advertised alias of
   * `temp<root>ip` is `t<shorthand>i`.
   */
  function TemporaryCommandsAsWritten(enabled: ActionScope, root: string, sh: string, m: Table): Table {
    if !IsTemporary(enabled) then m
    else
      var m1 := m["temp" + root := TEMPORARY]["t" + sh := TEMPORARY];
      var m2 := if !IsGlobal(enabled) then m1
                else
                  var g := m1["gtemp" + root := TEMPORARY_GLOBAL]["gt" + sh := TEMPORARY_GLOBAL];
                  if IsIP(enabled) then g["gtemp" + root + "ip" := TEMPORARY_GLOBAL_IP]["gt" + sh + "i" := TEMPORARY_GLOBAL_IP] else g;
      if IsIP(enabled) then m2["temp" + root + "ip" := TEMPORARY_IP]["gt" + sh + "i" := TEMPORARY_GLOBAL_IP] else m2
  }

  /** The temporary block corrected: `t<shorthand>i` maps to TEMPORARY_IP. */
  function TemporaryCommands(enabled: ActionScope, root: string, sh: string, m: Table): (r: Table)
    ensures AllOffered(enabled, m) ==> AllOffered(enabled, r)
    ensures IsTemporary(enabled) ==> "temp" + root in r && "t" + sh in r
    ensures IsTemporary(enabled) && IsIP(enabled) ==> "temp" + root + "ip" in r && "t" + sh + "i" in r
    ensures IsTemporary(enabled) && IsGlobal(enabled) ==> "gtemp" + root in r && "gt" + sh in r
    ensures IsTemporary(enabled) && IsGlobal(enabled) && IsIP(enabled) ==> "gtemp" + root + "ip" in r && "gt" + sh + "i" in r
    ensures forall n :: n in m ==> n in r
  {
    if !IsTemporary(enabled) then m
    else
      var m1 := m["temp" + root := TEMPORARY]["t" + sh := TEMPORARY];
      var m2 := if !IsGlobal(enabled) then m1
                else
                  var g := m1["gtemp" + root := TEMPORARY_GLOBAL]["gt" + sh := TEMPORARY_GLOBAL];
                  if IsIP(enabled) then g["gtemp" + root + "ip" := TEMPORARY_GLOBAL_IP]["gt" + sh + "i" := TEMPORARY_GLOBAL_IP] else g;
      if IsIP(enabled) then m2["temp" + root + "ip" := TEMPORARY_IP]["t" + sh + "i" := TEMPORARY_IP] else m2
  }

  function GlobalCommands(enabled: ActionScope, root: string, sh: string, m: Table): (r: Table)
    ensures AllOffered(enabled, m) ==> AllOffered(enabled, r)
    ensures IsGlobal(enabled) ==> "g" + root in r && "g" + sh in r
    ensures IsGlobal(enabled) && IsIP(enabled) ==> "g" + root + "ip" in r && "g" + sh + "i" in r
    ensures forall n :: n in m ==> n in r
  {
    if !IsGlobal(enabled) then m
    else
      var g := m["g" + root := GLOBAL]["g" + sh := GLOBAL];
      if IsIP(enabled) then g["g" + root + "ip" := GLOBAL_IP]["g" + sh + "i" := GLOBAL_IP] else g
  }

  function IpCommands(enabled: ActionScope, root: string, sh: string, m: Table): (r: Table)
    ensures AllOffered(enabled, m) ==> AllOffered(enabled, r)
    ensures IsIP(enabled) ==> root + "ip" in r && sh + "i" in r
    ensures forall n :: n in m ==> n in r
  {
    if IsIP(enabled) then m[root + "ip" := IP][sh + "i" := IP] else m
  }

  /** The root and shorthand names, put last. */
  function DefaultCommands(root: string, sh: string, m: Table): Table {
    m[root := DEFAULT][sh := DEFAULT]
  }

  /** The constructor's command table as written. */
  function CommandTableAsWritten(enabled: ActionScope, root: string, sh: string): Table {
    DefaultCommands(root, sh, IpCommands(enabled, root, sh, GlobalCommands(enabled, root, sh,
      TemporaryCommandsAsWritten(enabled, root, sh, map[]))))
  }

  /** The constructor's command table, with the temporary-IP alias corrected. */
  function CommandTable(enabled: ActionScope, root: string, sh: string): Table {
    DefaultCommands(root, sh, IpCommands(enabled, root, sh, GlobalCommands(enabled, root, sh,
      TemporaryCommands(enabled, root, sh, map[]))))
  }

  /** Every advertised name, and every alias advertised for it, is a command of `c`. */
  predicate Covers(a: Aliases, c: Table) {
    forall n :: n in a ==> n in c && forall x :: x in a[n] ==> x in c
  }

  /** The temporary block's advertised names: `temp<root>`, `gtemp<root>`, `gtemp<root>ip` and `temp<root>ip`. */
  function TemporaryAliases(enabled: ActionScope, root: string, sh: string, a: Aliases): Aliases
  {
    if !IsTemporary(enabled) then a
    else
      var t := a["temp" + root := ["t" + sh]];
      var t2 := if !IsGlobal(enabled) then t
                else
                  var g := t["gtemp" + root := ["gt" + sh]];
                  if IsIP(enabled) then g["gtemp" + root + "ip" := ["gt" + sh + "i"]] else g;
      if IsIP(enabled) then t2["temp" + root + "ip" := ["t" + sh + "i"]] else t2
  }

  function GlobalAliases(enabled: ActionScope, root: string, sh: string, a: Aliases): Aliases
  {
    if !IsGlobal(enabled) then a
    else
      var g := a["g" + root := ["g" + sh]];
      if IsIP(enabled) then g["g" + root + "ip" := ["g" + sh + "i"]] else g
  }

  function IpAliases(enabled: ActionScope, root: string, sh: string, a: Aliases): Aliases
  {
    if IsIP(enabled) then a[root + "ip" := [sh + "i"]] else a
  }

  function DefaultAliases(root: string, sh: string, a: Aliases): Aliases
  {
    a[root := [sh]]
  }

  /** The advertised names, each with its one alias, in the constructor's order. */
  function AliasTable(enabled: ActionScope, root: string, sh: string): Aliases {
    DefaultAliases(root, sh, IpAliases(enabled, root, sh, GlobalAliases(enabled, root, sh,
      TemporaryAliases(enabled, root, sh, map[]))))
  }

  // ---------------------------------------------------------------------------
  // Properties of the table

  /** The root and shorthand names always select DEFAULT, whatever is enabled. */
  lemma RootAndShorthandAreDefault(enabled: ActionScope, root: string, sh: string)
    ensures root in CommandTable(enabled, root, sh) && CommandTable(enabled, root, sh)[sh] == DEFAULT
    ensures root != sh ==> CommandTable(enabled, root, sh)[root] == DEFAULT
    ensures root == sh ==> CommandTable(enabled, root, sh)[root] == DEFAULT
  {
  }

  /** Every name the table knows selects a scope whose flags are all enabled. */
  lemma CommandsOnlyOffered(enabled: ActionScope, root: string, sh: string)
    ensures AllOffered(enabled, CommandTable(enabled, root, sh))
  {
    var t := TemporaryCommands(enabled, root, sh, map[]);
    var g := GlobalCommands(enabled, root, sh, t);
    var i := IpCommands(enabled, root, sh, g);
    assert AllOffered(enabled, i);
    assert Offered(enabled, DEFAULT);
  }

  /** The names of each scope are present whenever that scope's flags are enabled. */
  lemma EnabledScopesHaveNames(enabled: ActionScope, root: string, sh: string)
    ensures var c := CommandTable(enabled, root, sh);
            && (IsTemporary(enabled) ==> "temp" + root in c && "t" + sh in c)
            && (IsGlobal(enabled) ==> "g" + root in c && "g" + sh in c)
            && (IsIP(enabled) ==> root + "ip" in c && sh + "i" in c)
            && (IsTemporary(enabled) && IsGlobal(enabled) ==> "gtemp" + root in c && "gt" + sh in c)
            && (IsTemporary(enabled) && IsIP(enabled) ==> "temp" + root + "ip" in c && "t" + sh + "i" in c)
            && (IsGlobal(enabled) && IsIP(enabled) ==> "g" + root + "ip" in c && "g" + sh + "i" in c)
            && (IsTemporary(enabled) && IsGlobal(enabled) && IsIP(enabled) ==> "gtemp" + root + "ip" in c && "gt" + sh + "i" in c)
  {
  }

  /** Every advertised name, and every alias advertised for it, is a command the table knows. */
  lemma AdvertisedNamesResolve(enabled: ActionScope, root: string, sh: string)
    ensures var c := CommandTable(enabled, root, sh);
            Covers(AliasTable(enabled, root, sh), c)
  {
    var c0: Table := map[];
    var a0: Aliases := map[];
    var c1, a1 := TemporaryCommands(enabled, root, sh, c0), TemporaryAliases(enabled, root, sh, a0);
    TemporaryCovers(enabled, root, sh, a0, c0);
    var c2, a2 := GlobalCommands(enabled, root, sh, c1), GlobalAliases(enabled, root, sh, a1);
    GlobalCovers(enabled, root, sh, a1, c1);
    IpCovers(enabled, root, sh, a2, c2);
    DefaultCovers(root, sh, IpAliases(enabled, root, sh, a2), IpCommands(enabled, root, sh, c2));
  }

  lemma TemporaryCovers(enabled: ActionScope, root: string, sh: string, a: Aliases, c: Table)
    requires Covers(a, c)
    ensures Covers(TemporaryAliases(enabled, root, sh, a), TemporaryCommands(enabled, root, sh, c))
  {
  }

  lemma GlobalCovers(enabled: ActionScope, root: string, sh: string, a: Aliases, c: Table)
    requires Covers(a, c)
    ensures Covers(GlobalAliases(enabled, root, sh, a), GlobalCommands(enabled, root, sh, c))
  {
  }

  lemma IpCovers(enabled: ActionScope, root: string, sh: string, a: Aliases, c: Table)
    requires Covers(a, c)
    ensures Covers(IpAliases(enabled, root, sh, a), IpCommands(enabled, root, sh, c))
  {
  }

  lemma DefaultCovers(root: string, sh: string, a: Aliases, c: Table)
    requires Covers(a, c)
    ensures Covers(DefaultAliases(root, sh, a), DefaultCommands(root, sh, c))
  {
  }

  /**
   * As written, a command with temporary and IP scopes but not global ones
   * advertises `t<shorthand>i`, which is not a command, and accepts
   * `gt<shorthand>i` for TEMPORARY_GLOBAL_IP, which is not enabled (when no
   * other name of the command happens to coincide with those two).
   */
  lemma AsWrittenTemporaryIpAlias(root: string, sh: string)
    requires "t" + sh + "i" != "temp" + root && "t" + sh + "i" != "temp" + root + "ip"
    requires "t" + sh + "i" != root + "ip" && "t" + sh + "i" != root
    requires "gt" + sh + "i" != root + "ip" && "gt" + sh + "i" != root
    ensures var c := CommandTableAsWritten(TEMPORARY_IP, root, sh);
            && "temp" + root + "ip" in AliasTable(TEMPORARY_IP, root, sh)
            && "t" + sh + "i" in AliasTable(TEMPORARY_IP, root, sh)["temp" + root + "ip"]
            && "t" + sh + "i" !in c
            && "gt" + sh + "i" in c && c["gt" + sh + "i"] == TEMPORARY_GLOBAL_IP
            && !Offered(TEMPORARY_IP, TEMPORARY_GLOBAL_IP)
  {
    var t := TemporaryCommandsAsWritten(TEMPORARY_IP, root, sh, map[]);
    assert t.Keys == {"temp" + root, "t" + sh, "temp" + root + "ip", "gt" + sh + "i"};
    var al := TemporaryAliases(TEMPORARY_IP, root, sh, map[]);
    assert "temp" + root + "ip" in al && al["temp" + root + "ip"] == ["t" + sh + "i"];
    assert "temp" + root + "ip" != root;
  }

  /** The ban command (`ban`, shorthand `b`) with TEMPORARY_IP enabled advertises `tbi`, which is unknown, and knows `gtbi`. */
  lemma AsWrittenBanCommand()
    ensures var c := CommandTableAsWritten(TEMPORARY_IP, "ban", "b");
            "tbi" !in c && "gtbi" in c && c["gtbi"] == TEMPORARY_GLOBAL_IP
  {
    assert "t" + "b" + "i" == "tbi" && "gt" + "b" + "i" == "gtbi";
    assert "tbi"[0] != "ban"[0];
    AsWrittenTemporaryIpAlias("ban", "b");
  }

  /** Corrected, the advertised `t<shorthand>i` selects TEMPORARY_IP (unless a later name overwrites it). */
  lemma CorrectedTemporaryIpAlias(root: string, sh: string)
    requires "t" + sh + "i" != root + "ip" && "t" + sh + "i" != root
    ensures var c := CommandTable(TEMPORARY_IP, root, sh);
            "t" + sh + "i" in c && c["t" + sh + "i"] == TEMPORARY_IP
  {
  }

  // ---------------------------------------------------------------------------
  // Loading and checking

  /** `checkPermission`: the executor's permission `<base>.<suffix of the scope>`. */
  function ScopePermission(base: string, scope: ActionScope): string {
    base + "." + PermissionSuffix(scope)
  }

  /** `ScopedData`: the status and scope a command's execution carries. */
  class ScopedData {
    var status: ExecutionStatus
    var scope: ActionScope

    /** `ScopedData(status)`: the DEFAULT scope. */
    constructor (status: ExecutionStatus)
      ensures this.status == status && scope == DEFAULT
    {
      this.status := status;
      scope := DEFAULT;
    }

    method SetStatus(status: ExecutionStatus)
      modifies this
      ensures this.status == status && scope == old(scope)
    {
      this.status := status;
    }

    method SetScope(scope: ActionScope)
      modifies this
      ensures this.scope == scope && status == old(status)
    {
      this.scope := scope;
    }
  }

  /** What `loadState` leaves: ERROR for an unknown name; otherwise the name's scope, SUCCESS or NO_PERMISSION by the scope's permission. */
  function LoadedStatus(commands: Table, name: string, base: string, hasPermission: string -> bool): ExecutionStatus {
    if name !in commands then ERROR
    else if hasPermission(ScopePermission(base, commands[name])) then SUCCESS
    else NO_PERMISSION
  }

  /** The constructor's temporary block. */
  method FillTemporary(enabled: ActionScope, root: string, sh: string, c0: Table, a0: Aliases) returns (c: Table, a: Aliases)
    ensures c == TemporaryCommands(enabled, root, sh, c0) && a == TemporaryAliases(enabled, root, sh, a0)
  {
    c, a := c0, a0;
    if IsTemporary(enabled) {
      c := c["temp" + root := TEMPORARY];
      c := c["t" + sh := TEMPORARY];
      a := a["temp" + root := ["t" + sh]];
      if IsGlobal(enabled) {
        c := c["gtemp" + root := TEMPORARY_GLOBAL];
        c := c["gt" + sh := TEMPORARY_GLOBAL];
        a := a["gtemp" + root := ["gt" + sh]];
        if IsIP(enabled) {
          c := c["gtemp" + root + "ip" := TEMPORARY_GLOBAL_IP];
          c := c["gt" + sh + "i" := TEMPORARY_GLOBAL_IP];
          a := a["gtemp" + root + "ip" := ["gt" + sh + "i"]];
        }
      }
      if IsIP(enabled) {
        c := c["temp" + root + "ip" := TEMPORARY_IP];
        c := c["t" + sh + "i" := TEMPORARY_IP];
        a := a["temp" + root + "ip" := ["t" + sh + "i"]];
      }
    }
  }

  /** The constructor's global block. */
  method FillGlobal(enabled: ActionScope, root: string, sh: string, c0: Table, a0: Aliases) returns (c: Table, a: Aliases)
    ensures c == GlobalCommands(enabled, root, sh, c0) && a == GlobalAliases(enabled, root, sh, a0)
  {
    c, a := c0, a0;
    if IsGlobal(enabled) {
      c := c["g" + root := GLOBAL];
      c := c["g" + sh := GLOBAL];
      a := a["g" + root := ["g" + sh]];
      if IsIP(enabled) {
        c := c["g" + root + "ip" := GLOBAL_IP];
        c := c["g" + sh + "i" := GLOBAL_IP];
        a := a["g" + root + "ip" := ["g" + sh + "i"]];
      }
    }
  }

  /** The constructor's IP block. */
  method FillIp(enabled: ActionScope, root: string, sh: string, c0: Table, a0: Aliases) returns (c: Table, a: Aliases)
    ensures c == IpCommands(enabled, root, sh, c0) && a == IpAliases(enabled, root, sh, a0)
  {
    c, a := c0, a0;
    if IsIP(enabled) {
      c := c[root + "ip" := IP];
      c := c[sh + "i" := IP];
      a := a[root + "ip" := [sh + "i"]];
    }
  }

  /** The constructor's last puts: root and shorthand select DEFAULT. */
  method FillDefault(root: string, sh: string, c0: Table, a0: Aliases) returns (c: Table, a: Aliases)
    ensures c == DefaultCommands(root, sh, c0) && a == DefaultAliases(root, sh, a0)
  {
    c := c0[root := DEFAULT];
    c := c[sh := DEFAULT];
    a := a0[root := [sh]];
  }

  class ScopedCommand {
    const enabledScopes: ActionScope
    const root: string
    const shorthand: string
    const basePermission: string
    var commands: Table
    var nameAndAliases: Aliases

    /** Fills the table block by block: temporary, global, IP, then root and shorthand. */
    constructor (enabledScopes: ActionScope, root: string, shorthand: string, basePermission: string)
      ensures this.enabledScopes == enabledScopes && this.root == root && this.shorthand == shorthand
      ensures this.basePermission == basePermission
      ensures commands == CommandTable(enabledScopes, root, shorthand)
      ensures nameAndAliases == AliasTable(enabledScopes, root, shorthand)
    {
      this.enabledScopes := enabledScopes;
      this.root := root;
      this.shorthand := shorthand;
      this.basePermission := basePermission;
      var c, a := FillTemporary(enabledScopes, root, shorthand, map[], map[]);
      c, a := FillGlobal(enabledScopes, root, shorthand, c, a);
      c, a := FillIp(enabledScopes, root, shorthand, c, a);
      c, a := FillDefault(root, shorthand, c, a);
      commands := c;
      nameAndAliases := a;
    }

    /**
     * `loadState`: `state` is the command's fresh default state. An unknown
     * name sets ERROR and leaves the scope; a known one sets its scope, then
     * SUCCESS when the executor holds that scope's permission and
     * NO_PERMISSION otherwise.
     */
    method LoadState(name: string, hasPermission: string -> bool, state: ScopedData)
      modifies state
      ensures state.status == LoadedStatus(commands, name, basePermission, hasPermission)
      ensures state.scope == if name in commands then commands[name] else old(state.scope)
    {
      if name !in commands {
        state.SetStatus(ERROR);
        return;
      }
      var scope := commands[name];
      state.SetScope(scope);
      var permitted := CheckPermission(hasPermission, scope);
      if permitted {
        state.SetStatus(SUCCESS);
      } else {
        state.SetStatus(NO_PERMISSION);
      }
    }

    /** `checkPermission`: whether the executor holds `<base>.<suffix>` for the scope. */
    method CheckPermission(hasPermission: string -> bool, scope: ActionScope) returns (permitted: bool)
      ensures permitted == hasPermission(ScopePermission(basePermission, scope))
    {
      permitted := hasPermission(basePermission + "." + PermissionSuffix(scope));
    }

    /** `preExecute`: the status `loadState` left, unchanged. */
    method PreExecute(state: ScopedData) returns (status: ExecutionStatus)
      ensures status == state.status
    {
      status := state.status;
    }
  }

  /**
   * Loading succeeds exactly when the name is a command and the executor
   * holds that scope's permission; it errs exactly when the name is unknown;
   * and with the corrected table a loaded scope is always one the command
   * enables.
   */
  lemma LoadOutcomes(enabled: ActionScope, root: string, sh: string, name: string, base: string, hasPermission: string -> bool)
    ensures var c := CommandTable(enabled, root, sh);
            && (LoadedStatus(c, name, base, hasPermission) == SUCCESS <==>
                  name in c && hasPermission(ScopePermission(base, c[name])))
            && (LoadedStatus(c, name, base, hasPermission) == ERROR <==> name !in c)
            && (name in c ==> Offered(enabled, c[name]))
  {
    CommandsOnlyOffered(enabled, root, sh);
  }

  /** Scopes have distinct permissions: holding one scope's permission says nothing of another's suffix. */
  lemma ScopePermissionsDistinct(base: string, a: ActionScope, b: ActionScope)
    requires a != b
    ensures ScopePermission(base, a) != ScopePermission(base, b)
  {
    ScopeTable();
    var p := base + ".";
    assert (p + PermissionSuffix(a))[|p|..] == PermissionSuffix(a);
    assert (p + PermissionSuffix(b))[|p|..] == PermissionSuffix(b);
  }
}
