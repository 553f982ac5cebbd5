/** The settings a persistent session is bound to, how two of them are compared,
    and the permission mode a request may end up with. */
module SessionSpec {
  import opened Prelude

  /** Permission modes are plain strings in the gateway; these three (and "inherit") are the known ones. */
  const DENY := "deny"
  const ALLOW := "allow"
  const BRIDGE := "bridge"
  const INHERIT := "inherit"

  /** Fingerprints are represented by what is hashed: the sorted tool encodings,
      the public provider settings and the provider credentials. */
  datatype Spec = Spec(
    model: string,
    systemPrompt: string,
    systemPromptMode: string,
    reasoningEffort: string,
    agent: string,
    interactive: bool,
    toolsFingerprint: seq<string>,
    permissionMode: string,
    providerFingerprint: string,
    providerSecretFingerprint: string)

  /** The credential fingerprint never reaches the disk. */
  function SpecForStorage(spec: Spec): Spec {
    spec.(providerSecretFingerprint := "")
  }

  predicate PersistedSpecMatches(stored: Spec, requested: Spec) {
    stored == SpecForStorage(requested)
  }

  /** Field-by-field agreement on everything but the credentials. */
  predicate AgreesExceptSecret(a: Spec, b: Spec) {
    && a.model == b.model
    && a.systemPrompt == b.systemPrompt
    && a.systemPromptMode == b.systemPromptMode
    && a.reasoningEffort == b.reasoningEffort
    && a.agent == b.agent
    && a.interactive == b.interactive
    && a.toolsFingerprint == b.toolsFingerprint
    && a.permissionMode == b.permissionMode
    && a.providerFingerprint == b.providerFingerprint
  }

  /** A record accepts exactly the requests that agree with the one that wrote it, whatever the credentials. */
  lemma StoredSpecAcceptsIff(writer: Spec, requested: Spec)
    ensures PersistedSpecMatches(SpecForStorage(writer), requested) <==> AgreesExceptSecret(writer, requested)
  {
    if AgreesExceptSecret(writer, requested) {
      assert SpecForStorage(writer) == SpecForStorage(requested);
    } else {
      assert SpecForStorage(writer).model == writer.model;
    }
  }

  function PermissionModeRank(mode: string): nat {
    if mode == ALLOW then 2 else if mode == BRIDGE then 1 else 0
  }

  datatype PermissionError = Escalation | UnsupportedMode

  /** The server's policy: an unset or inheriting configuration means deny. */
  function ServerMode(configured: string): string {
    if configured == "" || configured == INHERIT then DENY else configured
  }

  function EffectivePermissionMode(requested: string, configured: string): Result<string, PermissionError> {
    var server := ServerMode(configured);
    var mode := ToLower(TrimSpace(requested));
    if mode == "" || mode == INHERIT then Ok(server)
    else if mode == ALLOW || mode == DENY || mode == BRIDGE then
      if PermissionModeRank(mode) > PermissionModeRank(server) then Err(Escalation) else Ok(mode)
    else Err(UnsupportedMode)
  }

  /** A request never rises above the server, is refused as an escalation exactly when it tries to,
      and gets the mode it named whenever the server allows that mode. */
  lemma PermissionNeverEscalates(requested: string, configured: string)
    ensures var r := EffectivePermissionMode(requested, configured);
      var named := ToLower(TrimSpace(requested));
      && (r.Ok? ==> PermissionModeRank(r.value) <= PermissionModeRank(ServerMode(configured)))
      && (r == Err(Escalation) <==> PermissionModeRank(named) > PermissionModeRank(ServerMode(configured)))
      && (r.Ok? && named !in {"", INHERIT} ==> r.value == named)
      && (r.Ok? && named in {"", INHERIT} ==> r.value == ServerMode(configured))
  {
  }

  /** Which modes a request may name: deny always, bridge if the server bridges or allows, allow only if it allows. One
      that names none gets the server's, and a server that is not told otherwise denies. */
  lemma NamedModes(requested: string, configured: string)
    ensures var named := ToLower(TrimSpace(requested));
      var server := if configured == "" || configured == "inherit" then "deny" else configured;
      EffectivePermissionMode(requested, configured) ==
        if named == "" || named == "inherit" then Ok(server)
        else if named == "deny" then Ok(named)
        else if named == "bridge" then if server == "bridge" || server == "allow" then Ok(named) else Err(Escalation)
        else if named == "allow" then if server == "allow" then Ok(named) else Err(Escalation)
        else Err(UnsupportedMode)
  {
  }

  /** Loosening the server policy never takes away or changes a mode a request names explicitly. */
  lemma LooserServerKeepsExplicitModes(requested: string, strict: string, loose: string)
    requires PermissionModeRank(ServerMode(strict)) <= PermissionModeRank(ServerMode(loose))
    requires ToLower(TrimSpace(requested)) !in {"", INHERIT}
    requires EffectivePermissionMode(requested, strict).Ok?
    ensures EffectivePermissionMode(requested, loose) == EffectivePermissionMode(requested, strict)
  {
  }
}
