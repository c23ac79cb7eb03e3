/** `src/config/secrets.rs`: the split of one in-memory configuration into the part kept in
    `config.json` and the part kept in `secrets.json`, and the merge that puts them together.

    The configuration keeps every field these operations read or write; the rest of each
    block is one opaque `settings` text. The five secrets of a tunnel are grouped in `keys`. */
module Secrets {
  import opened Outcomes

  datatype Manager = Manager(
    nodeId: Option<string>, nodeSecret: Option<string>, registrationToken: Option<string>, settings: string)

  datatype Tls = Tls(certPath: string, keyPath: string)

  datatype Server = Server(tls: Option<Tls>, auth: Option<string>, settings: string)

  datatype Nmos = Nmos(bearerToken: Option<string>, settings: string)

  datatype TunnelSecrets = TunnelSecrets(
    encryptionKey: Option<string>, bindSecret: Option<string>, psk: Option<string>,
    certPem: Option<string>, keyPem: Option<string>)

  datatype Tunnel = Tunnel(
    id: string, keys: TunnelSecrets, relayAddrs: seq<string>, relayAddr: Option<string>,
    direct: bool, settings: string)

  datatype Uplink = Uplink(interface: string, password: Option<string>, settings: string)

  datatype AppConfig = AppConfig(
    manager: Option<Manager>, server: Server, setupEnabled: bool, setupToken: Option<string>,
    nmos: Option<Nmos>, tunnels: seq<Tunnel>, uplinks: seq<Uplink>, settings: string)

  /** `secrets.json`, without the legacy per-flow map. */
  datatype SecretsConfig = SecretsConfig(
    nodeSecret: Option<string>, nodeId: Option<string>, registrationToken: Option<string>,
    tls: Option<Tls>, auth: Option<string>, setupToken: Option<string>, nmosToken: Option<string>,
    tunnels: map<string, TunnelSecrets>, uplinks: map<string, Option<string>>)

  const NO_KEYS := TunnelSecrets(None, None, None, None, None)

  const NO_SECRETS := SecretsConfig(None, None, None, None, None, None, None, map[], map[])

  predicate IsEmpty(s: SecretsConfig) {
    s.nodeSecret.None? && s.nodeId.None? && s.registrationToken.None? && s.tls.None? && s.auth.None? &&
    s.setupToken.None? && s.nmosToken.None? && s.tunnels == map[] && s.uplinks == map[]
  }

  // ---- extract_from ----

  /** One entry per tunnel that holds a secret; a later tunnel of the same id overwrites. */
  function TunnelEntries(ts: seq<Tunnel>): map<string, TunnelSecrets> {
    if ts == [] then map[]
    else
      var t := ts[|ts| - 1];
      var m := TunnelEntries(ts[..|ts| - 1]);
      if t.keys == NO_KEYS then m else m[t.id := t.keys]
  }

  function UplinkEntries(us: seq<Uplink>): map<string, Option<string>> {
    if us == [] then map[]
    else
      var u := us[|us| - 1];
      var m := UplinkEntries(us[..|us| - 1]);
      if u.password.None? then m else m[u.interface := u.password]
  }

  function Extract(c: AppConfig): SecretsConfig {
    SecretsConfig(
      if c.manager.Some? then c.manager.value.nodeSecret else None,
      if c.manager.Some? && c.manager.value.nodeSecret.Some? then c.manager.value.nodeId else None,
      if c.manager.Some? then c.manager.value.registrationToken else None,
      c.server.tls, c.server.auth, c.setupToken,
      if c.nmos.Some? then c.nmos.value.bearerToken else None,
      TunnelEntries(c.tunnels), UplinkEntries(c.uplinks))
  }

  // ---- merge_into ----

  /** The secret brings the node ID it was issued for. */
  function MergeManager(s: SecretsConfig, m: Manager): Manager {
    var token := FillAbsent(m.registrationToken, s.registrationToken);
    if s.nodeSecret.Some? && m.nodeSecret.None?
    then m.(nodeSecret := s.nodeSecret,
            nodeId := if s.nodeId.Some? then s.nodeId else m.nodeId,
            registrationToken := token)
    else m.(registrationToken := token)
  }

  function FillKeys(own: TunnelSecrets, stored: TunnelSecrets): TunnelSecrets {
    TunnelSecrets(
      FillAbsent(own.encryptionKey, stored.encryptionKey), FillAbsent(own.bindSecret, stored.bindSecret),
      FillAbsent(own.psk, stored.psk), FillAbsent(own.certPem, stored.certPem),
      FillAbsent(own.keyPem, stored.keyPem))
  }

  function MergeTunnel(entries: map<string, TunnelSecrets>, t: Tunnel): Tunnel {
    if t.id in entries then t.(keys := FillKeys(t.keys, entries[t.id])) else t
  }

  function MergeUplink(entries: map<string, Option<string>>, u: Uplink): Uplink {
    if u.interface in entries then u.(password := FillAbsent(u.password, entries[u.interface])) else u
  }

  function MergeTunnels(entries: map<string, TunnelSecrets>, ts: seq<Tunnel>): seq<Tunnel> {
    seq(|ts|, i requires 0 <= i < |ts| => MergeTunnel(entries, ts[i]))
  }

  function MergeUplinks(entries: map<string, Option<string>>, us: seq<Uplink>): seq<Uplink> {
    seq(|us|, i requires 0 <= i < |us| => MergeUplink(entries, us[i]))
  }

  function Merge(s: SecretsConfig, c: AppConfig): AppConfig {
    c.(manager := if c.manager.Some? then Some(MergeManager(s, c.manager.value)) else None,
       server := c.server.(tls := FillAbsent(c.server.tls, s.tls), auth := FillAbsent(c.server.auth, s.auth)),
       setupToken := FillAbsent(c.setupToken, s.setupToken),
       nmos := if c.nmos.Some?
               then Some(c.nmos.value.(bearerToken := FillAbsent(c.nmos.value.bearerToken, s.nmosToken)))
               else None,
       tunnels := MergeTunnels(s.tunnels, c.tunnels),
       uplinks := MergeUplinks(s.uplinks, c.uplinks))
  }

  // ---- strip_secrets, clear_node_local_secrets, has_secrets, registered_since ----

  function StripTunnel(t: Tunnel): Tunnel { t.(keys := NO_KEYS) }

  function StripUplink(u: Uplink): Uplink { u.(password := None) }

  function StripTunnels(ts: seq<Tunnel>): seq<Tunnel> {
    seq(|ts|, i requires 0 <= i < |ts| => StripTunnel(ts[i]))
  }

  function StripUplinks(us: seq<Uplink>): seq<Uplink> {
    seq(|us|, i requires 0 <= i < |us| => StripUplink(us[i]))
  }

  function Strip(c: AppConfig): AppConfig {
    c.(manager := if c.manager.Some?
                  then Some(c.manager.value.(nodeSecret := None, registrationToken := None)) else None,
       server := c.server.(tls := None, auth := None),
       setupToken := None,
       nmos := if c.nmos.Some? then Some(c.nmos.value.(bearerToken := None)) else None,
       tunnels := StripTunnels(c.tunnels),
       uplinks := StripUplinks(c.uplinks))
  }

  function ClearNodeLocal(c: AppConfig): AppConfig {
    c.(server := c.server.(tls := None, auth := None), setupToken := None)
  }

  predicate HasSecrets(c: AppConfig) {
    || (c.manager.Some? && (c.manager.value.nodeSecret.Some? || c.manager.value.registrationToken.Some?))
    || c.server.tls.Some? || c.server.auth.Some? || c.setupToken.Some?
    || (c.nmos.Some? && c.nmos.value.bearerToken.Some?)
    || (exists i :: 0 <= i < |c.tunnels| && c.tunnels[i].keys != NO_KEYS)
    || (exists i :: 0 <= i < |c.uplinks| && c.uplinks[i].password.Some?)
  }

  /** Whether `config.json` predates the registration that issued this file's node secret. */
  predicate RegisteredSince(s: SecretsConfig, c: AppConfig) {
    && c.manager.Some? && s.nodeSecret.Some? && c.manager.value.nodeSecret.None?
    && s.nodeId.Some? && c.manager.value.nodeId != s.nodeId
  }

  // ---- What the split keeps ----

  predicate SameTunnelKeys(ts: seq<Tunnel>) {
    forall i, j :: 0 <= i < |ts| && 0 <= j < |ts| && ts[i].id == ts[j].id ==> ts[i].keys == ts[j].keys
  }

  predicate SameUplinkPasswords(us: seq<Uplink>) {
    forall i, j :: 0 <= i < |us| && 0 <= j < |us| && us[i].interface == us[j].interface ==>
        us[i].password == us[j].password
  }

  /** Tunnels that share an id hold the same secrets, and so do uplinks of one interface.
      Unique ids and interfaces are the usual way to have this. */
  predicate SameKeysPerId(c: AppConfig) {
    SameTunnelKeys(c.tunnels) && SameUplinkPasswords(c.uplinks)
  }

  predicate UniqueIds(c: AppConfig) {
    && (forall i, j :: 0 <= i < j < |c.tunnels| ==> c.tunnels[i].id != c.tunnels[j].id)
    && (forall i, j :: 0 <= i < j < |c.uplinks| ==> c.uplinks[i].interface != c.uplinks[j].interface)
  }

  lemma UniqueIdsHoldOneKey(c: AppConfig)
    requires UniqueIds(c)
    ensures SameKeysPerId(c)
  {}

  /** The entry kept for an id is that of some tunnel holding a secret; none means none held one. */
  lemma {:induction false} TunnelEntryOrigin(ts: seq<Tunnel>, id: string)
    ensures id in TunnelEntries(ts) ==>
              exists i :: 0 <= i < |ts| && ts[i].id == id && ts[i].keys != NO_KEYS
                  && ts[i].keys == TunnelEntries(ts)[id]
    ensures id !in TunnelEntries(ts) ==> forall i :: 0 <= i < |ts| && ts[i].id == id ==> ts[i].keys == NO_KEYS
  {
    if ts != [] {
      TunnelEntryOrigin(ts[..|ts| - 1], id);
      var t := ts[|ts| - 1];
      if id in TunnelEntries(ts) && (t.keys == NO_KEYS || t.id != id) {
        var i :| 0 <= i < |ts| - 1 && ts[i].id == id && ts[i].keys != NO_KEYS && ts[i].keys == TunnelEntries(ts)[id];
      }
    }
  }

  lemma {:induction false} UplinkEntryOrigin(us: seq<Uplink>, id: string)
    ensures id in UplinkEntries(us) ==>
              exists i :: 0 <= i < |us| && us[i].interface == id && us[i].password.Some?
                  && us[i].password == UplinkEntries(us)[id]
    ensures id !in UplinkEntries(us) ==> forall i :: 0 <= i < |us| && us[i].interface == id ==> us[i].password.None?
  {
    if us != [] {
      UplinkEntryOrigin(us[..|us| - 1], id);
      var u := us[|us| - 1];
      if id in UplinkEntries(us) && (u.password.None? || u.interface != id) {
        var i :| 0 <= i < |us| - 1 && us[i].interface == id && us[i].password.Some?
            && us[i].password == UplinkEntries(us)[id];
      }
    }
  }

  /** A tunnel comes back from the split exactly when it holds the secrets kept under its id. */
  /** Of several tunnels of one id that hold secrets the last one's are kept, and of several uplinks of
      one interface the last one's password. */
  lemma {:induction false} LastTunnelWins(ts: seq<Tunnel>, i: nat)
    requires i < |ts| && ts[i].keys != NO_KEYS
    requires forall j :: i < j < |ts| ==> ts[j].id != ts[i].id || ts[j].keys == NO_KEYS
    ensures ts[i].id in TunnelEntries(ts) && TunnelEntries(ts)[ts[i].id] == ts[i].keys
  {
    if i < |ts| - 1 { LastTunnelWins(ts[..|ts| - 1], i); }
  }

  lemma {:induction false} LastUplinkWins(us: seq<Uplink>, i: nat)
    requires i < |us| && us[i].password.Some?
    requires forall j :: i < j < |us| ==> us[j].interface != us[i].interface || us[j].password.None?
    ensures us[i].interface in UplinkEntries(us) && UplinkEntries(us)[us[i].interface] == us[i].password
  {
    if i < |us| - 1 { LastUplinkWins(us[..|us| - 1], i); }
  }

  lemma TunnelComesBack(ts: seq<Tunnel>, i: nat)
    requires i < |ts|
    ensures MergeTunnels(TunnelEntries(ts), StripTunnels(ts))[i] == ts[i] <==>
              ts[i].keys == (if ts[i].id in TunnelEntries(ts) then TunnelEntries(ts)[ts[i].id] else NO_KEYS)
  {}

  lemma TunnelsComeBack(ts: seq<Tunnel>)
    ensures MergeTunnels(TunnelEntries(ts), StripTunnels(ts)) == ts <==> SameTunnelKeys(ts)
  {
    forall i | 0 <= i < |ts| { TunnelComesBack(ts, i); }
    if SameTunnelKeys(ts) {
      forall i | 0 <= i < |ts|
        ensures MergeTunnels(TunnelEntries(ts), StripTunnels(ts))[i] == ts[i]
      { TunnelEntryOrigin(ts, ts[i].id); }
    }
  }

  lemma UplinksComeBack(us: seq<Uplink>)
    ensures MergeUplinks(UplinkEntries(us), StripUplinks(us)) == us <==> SameUplinkPasswords(us)
  {
    var back := MergeUplinks(UplinkEntries(us), StripUplinks(us));
    assert forall i :: 0 <= i < |us| ==> back[i] == MergeUplink(UplinkEntries(us), StripUplink(us[i]));
    if SameUplinkPasswords(us) {
      forall i | 0 <= i < |us| ensures back[i] == us[i] { UplinkEntryOrigin(us, us[i].interface); }
    }
  }

  /** Everything outside the two lists always comes back. */
  lemma BlocksComeBack(c: AppConfig)
    ensures Merge(Extract(c), Strip(c)) ==
              c.(tunnels := MergeTunnels(TunnelEntries(c.tunnels), StripTunnels(c.tunnels)),
                 uplinks := MergeUplinks(UplinkEntries(c.uplinks), StripUplinks(c.uplinks)))
  {}

  /** Splitting and merging gives the configuration back, exactly when tunnels of one id (and
      uplinks of one interface) hold the same secrets. */
  lemma SplitThenMerge(c: AppConfig)
    ensures Merge(Extract(c), Strip(c)) == c <==> SameKeysPerId(c)
  {
    BlocksComeBack(c);
    TunnelsComeBack(c.tunnels);
    UplinksComeBack(c.uplinks);
  }

  lemma NoTunnelEntries(ts: seq<Tunnel>)
    ensures TunnelEntries(ts) == map[] <==> forall i :: 0 <= i < |ts| ==> ts[i].keys == NO_KEYS
  {
    if TunnelEntries(ts) == map[] {
      forall i | 0 <= i < |ts| ensures ts[i].keys == NO_KEYS { TunnelEntryOrigin(ts, ts[i].id); }
    } else {
      var id :| id in TunnelEntries(ts);
      TunnelEntryOrigin(ts, id);
    }
  }

  lemma NoUplinkEntries(us: seq<Uplink>)
    ensures UplinkEntries(us) == map[] <==> forall i :: 0 <= i < |us| ==> us[i].password.None?
  {
    if UplinkEntries(us) == map[] {
      forall i | 0 <= i < |us| ensures us[i].password.None? { UplinkEntryOrigin(us, us[i].interface); }
    } else {
      var id :| id in UplinkEntries(us);
      UplinkEntryOrigin(us, id);
    }
  }

  /** The migration test agrees with the extraction: a configuration has secrets exactly when
      something is extracted from it. */
  lemma HasSecretsIffExtracted(c: AppConfig)
    ensures HasSecrets(c) <==> !IsEmpty(Extract(c))
  {
    NoTunnelEntries(c.tunnels);
    NoUplinkEntries(c.uplinks);
  }

  /** A stripped configuration holds no secret, and stripping it again changes nothing. */
  lemma StripLeavesNoSecret(c: AppConfig)
    ensures !HasSecrets(Strip(c))
    ensures IsEmpty(Extract(Strip(c)))
    ensures Strip(Strip(c)) == Strip(c)
  {
    assert !HasSecrets(Strip(c));
    HasSecretsIffExtracted(Strip(c));
  }

  /** Merging over a configuration that still holds its secrets changes nothing it holds. */
  lemma MergeKeepsWhatIsHeld(c: AppConfig)
    requires SameKeysPerId(c)
    ensures Merge(Extract(c), c) == c
  {
    var d := Merge(Extract(c), c);
    forall i | 0 <= i < |c.tunnels|
      ensures d.tunnels[i] == c.tunnels[i]
    { TunnelEntryOrigin(c.tunnels, c.tunnels[i].id); }
    forall i | 0 <= i < |c.uplinks|
      ensures d.uplinks[i] == c.uplinks[i]
    { UplinkEntryOrigin(c.uplinks, c.uplinks[i].interface); }
    assert d.tunnels == c.tunnels && d.uplinks == c.uplinks;
  }

  /** A manager push: whatever it names for them, the node keeps its own API authentication,
      TLS material and setup token. */
  lemma PushKeepsNodeLocal(running: AppConfig, pushed: AppConfig)
    ensures var merged := Merge(Extract(running), ClearNodeLocal(pushed));
            && merged.server.tls == running.server.tls
            && merged.server.auth == running.server.auth
            && merged.setupToken == running.setupToken
  {}

  /** All else a push names is its own: the settings, the manager and NMOS blocks it keeps, and every key
      and password it gives. */
  lemma PushIsOtherwiseTaken(running: AppConfig, pushed: AppConfig)
    ensures var merged := Merge(Extract(running), ClearNodeLocal(pushed));
            && merged.settings == pushed.settings && merged.setupEnabled == pushed.setupEnabled
            && merged.server.settings == pushed.server.settings
            && (merged.manager.Some? <==> pushed.manager.Some?) && (merged.nmos.Some? <==> pushed.nmos.Some?)
            && |merged.tunnels| == |pushed.tunnels| && |merged.uplinks| == |pushed.uplinks|
            && (forall i :: 0 <= i < |pushed.tunnels| ==> KeepsOwn(pushed.tunnels[i], merged.tunnels[i]))
            && (forall i :: 0 <= i < |pushed.uplinks| ==>
                  && merged.uplinks[i].interface == pushed.uplinks[i].interface
                  && (pushed.uplinks[i].password.Some? ==> merged.uplinks[i] == pushed.uplinks[i]))
  {}

  predicate KeepsOwn(t: Tunnel, u: Tunnel) {
    && u.id == t.id && u.direct == t.direct && u.settings == t.settings
    && u.relayAddrs == t.relayAddrs && u.relayAddr == t.relayAddr
    && (t.keys.encryptionKey.Some? ==> u.keys.encryptionKey == t.keys.encryptionKey)
    && (t.keys.bindSecret.Some? ==> u.keys.bindSecret == t.keys.bindSecret)
    && (t.keys.psk.Some? ==> u.keys.psk == t.keys.psk)
    && (t.keys.certPem.Some? ==> u.keys.certPem == t.keys.certPem)
    && (t.keys.keyPem.Some? ==> u.keys.keyPem == t.keys.keyPem)
  }
}
