/** The in-place half of `src/config/secrets.rs`: the configuration as the process holds it,
    edited field by field and, for tunnels and uplinks, entry by entry. */
module RunningConfig {
  import opened Outcomes
  import opened Secrets

  class Config {
    var manager: Option<Manager>
    var server: Server
    var setupEnabled: bool
    var setupToken: Option<string>
    var nmos: Option<Nmos>
    var tunnels: seq<Tunnel>
    var uplinks: seq<Uplink>
    var settings: string

    function Value(): AppConfig
      reads this
    {
      AppConfig(manager, server, setupEnabled, setupToken, nmos, tunnels, uplinks, settings)
    }

    constructor (c: AppConfig)
      ensures Value() == c
    {
      manager, server, setupEnabled, setupToken := c.manager, c.server, c.setupEnabled, c.setupToken;
      nmos, tunnels, uplinks, settings := c.nmos, c.tunnels, c.uplinks, c.settings;
    }

    method Assign(c: AppConfig)
      modifies this
      ensures Value() == c
    {
      manager, server, setupEnabled, setupToken := c.manager, c.server, c.setupEnabled, c.setupToken;
      nmos, tunnels, uplinks, settings := c.nmos, c.tunnels, c.uplinks, c.settings;
    }

    /** `strip_secrets`: what `config.json` is given. */
    method StripSecrets()
      modifies this
      ensures Value() == Strip(old(Value()))
    {
      HideBlocks();
      HideLists();
    }

    /** `mask_secrets`: what `GET /api/v1/config` answers. It hides exactly what a save strips. */
    method MaskSecrets()
      modifies this
      ensures Value() == Strip(old(Value()))
    {
      HideBlocks();
      HideLists();
    }

    method HideBlocks()
      modifies this
      ensures Value() == Strip(old(Value())).(tunnels := old(tunnels), uplinks := old(uplinks))
    {
      if manager.Some? {
        manager := Some(manager.value.(nodeSecret := None, registrationToken := None));
      }
      server := server.(tls := None, auth := None);
      setupToken := None;
      if nmos.Some? {
        nmos := Some(nmos.value.(bearerToken := None));
      }
    }

    method HideLists()
      modifies this`tunnels, this`uplinks
      ensures tunnels == Strip(old(Value())).tunnels && uplinks == Strip(old(Value())).uplinks
    {
      for i := 0 to |tunnels|
        invariant |tunnels| == |old(tunnels)| && uplinks == old(uplinks)
        invariant forall k :: 0 <= k < |tunnels| ==>
                    tunnels[k] == if k < i then StripTunnel(old(tunnels)[k]) else old(tunnels)[k]
      {
        tunnels := tunnels[i := tunnels[i].(keys := NO_KEYS)];
      }
      assert tunnels == Strip(old(Value())).tunnels;
      for i := 0 to |uplinks|
        invariant |uplinks| == |old(uplinks)| && tunnels == Strip(old(Value())).tunnels
        invariant forall k :: 0 <= k < |uplinks| ==>
                    uplinks[k] == if k < i then StripUplink(old(uplinks)[k]) else old(uplinks)[k]
      {
        uplinks := uplinks[i := uplinks[i].(password := None)];
      }
    }

    /** `merge_into`: fill every secret that is absent, in the blocks the configuration has. */
    method MergeFrom(s: SecretsConfig)
      modifies this
      ensures Value() == Merge(s, old(Value()))
    {
      MergeBlocks(s);
      MergeLists(s);
    }

    method MergeBlocks(s: SecretsConfig)
      modifies this
      ensures Value() == Merge(s, old(Value())).(tunnels := old(tunnels), uplinks := old(uplinks))
    {
      if manager.Some? { MergeCredentials(s); }
      MergeServer(s);
      if s.setupToken.Some? && setupToken.None? { setupToken := s.setupToken; }
      if s.nmosToken.Some? && nmos.Some? && nmos.value.bearerToken.None? {
        nmos := Some(nmos.value.(bearerToken := s.nmosToken));
      }
    }

    method MergeServer(s: SecretsConfig)
      modifies this`server
      ensures server == Merge(s, old(Value())).server
    {
      if s.tls.Some? && server.tls.None? { server := server.(tls := s.tls); }
      if s.auth.Some? && server.auth.None? { server := server.(auth := s.auth); }
    }

    method MergeCredentials(s: SecretsConfig)
      requires manager.Some?
      modifies this`manager
      ensures manager == Some(MergeManager(s, old(manager).value))
    {
      var m := manager.value;
      if s.nodeSecret.Some? && m.nodeSecret.None? {
        m := m.(nodeSecret := s.nodeSecret);
        if s.nodeId.Some? { m := m.(nodeId := s.nodeId); }
      }
      if s.registrationToken.Some? && m.registrationToken.None? {
        m := m.(registrationToken := s.registrationToken);
      }
      manager := Some(m);
    }

    method MergeLists(s: SecretsConfig)
      modifies this`tunnels, this`uplinks
      ensures tunnels == Merge(s, old(Value())).tunnels && uplinks == Merge(s, old(Value())).uplinks
    {
      for i := 0 to |tunnels|
        invariant |tunnels| == |old(tunnels)| && uplinks == old(uplinks)
        invariant forall k :: 0 <= k < |tunnels| ==>
                    tunnels[k] == if k < i then MergeTunnel(s.tunnels, old(tunnels)[k]) else old(tunnels)[k]
      {
        var t := tunnels[i];
        if t.id in s.tunnels {
          var stored := s.tunnels[t.id];
          var keys := t.keys;
          if stored.encryptionKey.Some? && keys.encryptionKey.None? {
            keys := keys.(encryptionKey := stored.encryptionKey);
          }
          if stored.bindSecret.Some? && keys.bindSecret.None? { keys := keys.(bindSecret := stored.bindSecret); }
          if stored.psk.Some? && keys.psk.None? { keys := keys.(psk := stored.psk); }
          if stored.certPem.Some? && keys.certPem.None? { keys := keys.(certPem := stored.certPem); }
          if stored.keyPem.Some? && keys.keyPem.None? { keys := keys.(keyPem := stored.keyPem); }
          assert keys == FillKeys(t.keys, stored);
          tunnels := tunnels[i := t.(keys := keys)];
        }
      }
      assert tunnels == Merge(s, old(Value())).tunnels;
      for i := 0 to |uplinks|
        invariant |uplinks| == |old(uplinks)| && tunnels == Merge(s, old(Value())).tunnels
        invariant forall k :: 0 <= k < |uplinks| ==>
                    uplinks[k] == if k < i then MergeUplink(s.uplinks, old(uplinks)[k]) else old(uplinks)[k]
      {
        var u := uplinks[i];
        if u.interface in s.uplinks && s.uplinks[u.interface].Some? && u.password.None? {
          uplinks := uplinks[i := u.(password := s.uplinks[u.interface])];
        }
      }
    }
  }

  /** `extract_from`: the tunnel and uplink maps are filled in list order. */
  method ExtractFrom(c: AppConfig) returns (s: SecretsConfig)
    ensures s == Extract(c)
  {
    s := NO_SECRETS;
    if c.manager.Some? {
      s := s.(nodeSecret := c.manager.value.nodeSecret, registrationToken := c.manager.value.registrationToken);
      if c.manager.value.nodeSecret.Some? { s := s.(nodeId := c.manager.value.nodeId); }
    }
    s := s.(tls := c.server.tls, auth := c.server.auth, setupToken := c.setupToken);
    if c.nmos.Some? { s := s.(nmosToken := c.nmos.value.bearerToken); }
    for i := 0 to |c.tunnels|
      invariant s == Extract(c).(tunnels := TunnelEntries(c.tunnels[..i]), uplinks := map[])
    {
      assert c.tunnels[..i + 1][..i] == c.tunnels[..i];
      if c.tunnels[i].keys != NO_KEYS {
        s := s.(tunnels := s.tunnels[c.tunnels[i].id := c.tunnels[i].keys]);
      }
    }
    assert c.tunnels[..|c.tunnels|] == c.tunnels;
    for i := 0 to |c.uplinks|
      invariant s == Extract(c).(uplinks := UplinkEntries(c.uplinks[..i]))
    {
      assert c.uplinks[..i + 1][..i] == c.uplinks[..i];
      if c.uplinks[i].password.Some? {
        s := s.(uplinks := s.uplinks[c.uplinks[i].interface := c.uplinks[i].password]);
      }
    }
    assert c.uplinks[..|c.uplinks|] == c.uplinks;
  }

  /** `has_secrets`: the first secret found answers. */
  method FindSecret(c: AppConfig) returns (found: bool)
    ensures found <==> !IsEmpty(Extract(c))
  {
    HasSecretsIffExtracted(c);
    if c.manager.Some? && (c.manager.value.nodeSecret.Some? || c.manager.value.registrationToken.Some?) { return true; }
    if c.server.tls.Some? || c.server.auth.Some? { return true; }
    if c.setupToken.Some? { return true; }
    if c.nmos.Some? && c.nmos.value.bearerToken.Some? { return true; }
    for i := 0 to |c.tunnels|
      invariant forall k :: 0 <= k < i ==> c.tunnels[k].keys == NO_KEYS
    {
      if c.tunnels[i].keys != NO_KEYS { return true; }
    }
    for i := 0 to |c.uplinks|
      invariant forall k :: 0 <= k < i ==> c.uplinks[k].password.None?
    {
      if c.uplinks[i].password.Some? { return true; }
    }
    return false;
  }
}
