/** `PUT /api/v1/config` (`replace_config` and `validate_changed_tunnels` in `src/api/flows.rs`,
    `forget_nulled` in `src/config/secrets.rs`): a whole configuration sent as JSON, in which
    leaving a secret out, naming it `null` and naming a value mean three different things. */
module ConfigPut {
  import opened Outcomes
  import opened Secrets
  import RunningConfig
  import P = Persistence

  datatype Field<+T> = Absent | Null | Named(value: T)

  datatype BodyManager = BodyManager(
    nodeId: Field<string>, nodeSecret: Field<string>, registrationToken: Field<string>, settings: string)

  datatype BodyServer = BodyServer(tls: Field<Tls>, auth: Field<string>, settings: string)

  datatype BodyNmos = BodyNmos(bearerToken: Field<string>, settings: string)

  datatype BodyKeys = BodyKeys(
    encryptionKey: Field<string>, bindSecret: Field<string>, psk: Field<string>,
    certPem: Field<string>, keyPem: Field<string>)

  datatype BodyTunnel = BodyTunnel(
    id: string, keys: BodyKeys, relayAddrs: seq<string>, relayAddr: Option<string>, direct: bool, settings: string)

  datatype BodyUplink = BodyUplink(interface: string, password: Field<string>, settings: string)

  /** A body serde accepts as a configuration, with the difference between `null` and absent kept. */
  datatype Body = Body(
    manager: Field<BodyManager>, server: BodyServer, setupEnabled: bool, setupToken: Field<string>,
    nmos: Field<BodyNmos>, tunnels: seq<BodyTunnel>, uplinks: seq<BodyUplink>, settings: string)

  // ---- The typed configuration: null and absent both read as none ----

  function Typed<T>(f: Field<T>): Option<T> { if f.Named? then Some(f.value) else None }

  function TypedKeys(k: BodyKeys): TunnelSecrets {
    TunnelSecrets(Typed(k.encryptionKey), Typed(k.bindSecret), Typed(k.psk), Typed(k.certPem), Typed(k.keyPem))
  }

  function TypedTunnel(t: BodyTunnel): Tunnel {
    Tunnel(t.id, TypedKeys(t.keys), t.relayAddrs, t.relayAddr, t.direct, t.settings)
  }

  function TypedUplink(u: BodyUplink): Uplink { Uplink(u.interface, Typed(u.password), u.settings) }

  function TypedManager(m: BodyManager): Manager {
    Manager(Typed(m.nodeId), Typed(m.nodeSecret), Typed(m.registrationToken), m.settings)
  }

  function TypedConfig(b: Body): AppConfig {
    AppConfig(
      if b.manager.Named? then Some(TypedManager(b.manager.value)) else None,
      Server(Typed(b.server.tls), Typed(b.server.auth), b.server.settings),
      b.setupEnabled, Typed(b.setupToken),
      if b.nmos.Named? then Some(Nmos(Typed(b.nmos.value.bearerToken), b.nmos.value.settings)) else None,
      seq(|b.tunnels|, i requires 0 <= i < |b.tunnels| => TypedTunnel(b.tunnels[i])),
      seq(|b.uplinks|, i requires 0 <= i < |b.uplinks| => TypedUplink(b.uplinks[i])),
      b.settings)
  }

  // ---- forget_nulled ----

  function Forget<T>(f: Field<T>, held: Option<T>): Option<T> { if f.Null? then None else held }

  function ForgetKeys(k: BodyKeys, held: TunnelSecrets): TunnelSecrets {
    TunnelSecrets(Forget(k.encryptionKey, held.encryptionKey), Forget(k.bindSecret, held.bindSecret),
                  Forget(k.psk, held.psk), Forget(k.certPem, held.certPem), Forget(k.keyPem, held.keyPem))
  }

  function ForgetTunnels(held: map<string, TunnelSecrets>, ts: seq<BodyTunnel>): map<string, TunnelSecrets> {
    if ts == [] then held
    else
      var rest := ForgetTunnels(held, ts[..|ts| - 1]);
      var t := ts[|ts| - 1];
      if t.id in rest then rest[t.id := ForgetKeys(t.keys, rest[t.id])] else rest
  }

  function ForgetUplinks(held: map<string, Option<string>>, us: seq<BodyUplink>): map<string, Option<string>> {
    if us == [] then held
    else
      var rest := ForgetUplinks(held, us[..|us| - 1]);
      var u := us[|us| - 1];
      if u.password.Null? && u.interface in rest then rest[u.interface := None] else rest
  }

  /** The manager's part: a node secret is only good with its own node ID, so either being
      `null` forgets both. */
  function ForgetCredentials(s: SecretsConfig, m: BodyManager): SecretsConfig {
    var s1 := if m.nodeSecret.Null? || m.nodeId.Null? then s.(nodeSecret := None, nodeId := None) else s;
    s1.(registrationToken := Forget(m.registrationToken, s.registrationToken))
  }

  function ForgetNulled(s: SecretsConfig, b: Body): SecretsConfig {
    var s1 := if b.manager.Named? then ForgetCredentials(s, b.manager.value) else s;
    s1.(tls := Forget(b.server.tls, s.tls),
        auth := Forget(b.server.auth, s.auth),
        nmosToken := if b.nmos.Named? then Forget(b.nmos.value.bearerToken, s.nmosToken) else s.nmosToken,
        tunnels := ForgetTunnels(s.tunnels, b.tunnels),
        uplinks := ForgetUplinks(s.uplinks, b.uplinks))
  }

  method ForgetNulledIn(s: SecretsConfig, b: Body) returns (kept: SecretsConfig)
    ensures kept == ForgetNulled(s, b)
  {
    kept := s;
    if b.manager.Named? {
      var m := b.manager.value;
      if m.nodeSecret.Null? || m.nodeId.Null? { kept := kept.(nodeSecret := None, nodeId := None); }
      if m.registrationToken.Null? { kept := kept.(registrationToken := None); }
    }
    if b.server.tls.Null? { kept := kept.(tls := None); }
    if b.server.auth.Null? { kept := kept.(auth := None); }
    if b.nmos.Named? && b.nmos.value.bearerToken.Null? { kept := kept.(nmosToken := None); }
    assert kept == ForgetNulled(s, b).(tunnels := s.tunnels, uplinks := s.uplinks);
    var tunnels := ForgetNulledTunnels(s.tunnels, b.tunnels);
    var uplinks := ForgetNulledUplinks(s.uplinks, b.uplinks);
    kept := kept.(tunnels := tunnels, uplinks := uplinks);
  }

  method ForgetNulledTunnels(held: map<string, TunnelSecrets>, ts: seq<BodyTunnel>)
    returns (kept: map<string, TunnelSecrets>)
    ensures kept == ForgetTunnels(held, ts)
  {
    kept := held;
    for i := 0 to |ts|
      invariant kept == ForgetTunnels(held, ts[..i])
    {
      assert ts[..i + 1][..i] == ts[..i];
      var t := ts[i];
      if t.id in kept {
        var k := kept[t.id];
        if t.keys.encryptionKey.Null? { k := k.(encryptionKey := None); }
        if t.keys.bindSecret.Null? { k := k.(bindSecret := None); }
        if t.keys.psk.Null? { k := k.(psk := None); }
        if t.keys.certPem.Null? { k := k.(certPem := None); }
        if t.keys.keyPem.Null? { k := k.(keyPem := None); }
        assert k == ForgetKeys(t.keys, kept[t.id]);
        kept := kept[t.id := k];
      }
    }
    assert ts[..|ts|] == ts;
  }

  method ForgetNulledUplinks(held: map<string, Option<string>>, us: seq<BodyUplink>)
    returns (kept: map<string, Option<string>>)
    ensures kept == ForgetUplinks(held, us)
  {
    kept := held;
    for i := 0 to |us|
      invariant kept == ForgetUplinks(held, us[..i])
    {
      assert us[..i + 1][..i] == us[..i];
      if us[i].password.Null? && us[i].interface in kept { kept := kept[us[i].interface := None]; }
    }
    assert us[..|us|] == us;
  }

  // ---- replace_config ----

  /** A tunnel the body leaves as it runs is not judged again; one it adds or changes must pass
      the tunnel route's validation and, in direct mode, hold its pre-shared key. */
  predicate TunnelsAllowed(running: seq<Tunnel>, new_: seq<Tunnel>, validTunnel: Tunnel -> bool) {
    forall t :: t in new_ && t !in running ==> validTunnel(t) && (t.direct ==> t.keys.psk.Some?)
  }

  method ValidateChangedTunnels(running: seq<Tunnel>, new_: seq<Tunnel>, validTunnel: Tunnel -> bool) returns (ok: bool)
    ensures ok <==> TunnelsAllowed(running, new_, validTunnel)
  {
    for i := 0 to |new_|
      invariant forall k :: 0 <= k < i && new_[k] !in running ==>
              validTunnel(new_[k]) && (new_[k].direct ==> new_[k].keys.psk.Some?)
    {
      if new_[i] !in running && (!validTunnel(new_[i]) || (new_[i].direct && new_[i].keys.psk.None?)) { return false; }
    }
    return true;
  }

  /** The body with every secret it leaves out filled from the running configuration. */
  function PutValue(running: AppConfig, b: Body): AppConfig {
    Merge(ForgetNulled(Extract(running), b), TypedConfig(b))
  }

  /** The configuration a `PUT` puts in place of `running`, or its refusal. */
  function Put(running: AppConfig, b: Body,
          validConfig: AppConfig -> bool, validTunnel: Tunnel -> bool): Result<AppConfig, string> {
    if !b.setupToken.Absent? then Err("setup_token is minted by the node")
    else
      var c := PutValue(running, b);
      if !validConfig(c) then Err("config fails validation")
      else if !TunnelsAllowed(running.tunnels, c.tunnels, validTunnel) then Err("tunnel fails validation")
      else Ok(c)
  }

  /** The handler up to the swap: `Put`, computed with the loops above. */
  method DecidePut(running: AppConfig, b: Body, validConfig: AppConfig -> bool, validTunnel: Tunnel -> bool)
    returns (r: Result<AppConfig, string>)
    ensures r == Put(running, b, validConfig, validTunnel)
  {
    if !b.setupToken.Absent? { return Err("setup_token is minted by the node"); }
    var held := RunningConfig.ExtractFrom(running);
    var kept := ForgetNulledIn(held, b);
    var cell := new RunningConfig.Config(TypedConfig(b));
    cell.MergeFrom(kept);
    if !validConfig(cell.Value()) { return Err("config fails validation"); }
    var allowed := ValidateChangedTunnels(running.tunnels, cell.tunnels, validTunnel);
    if !allowed { return Err("tunnel fails validation"); }
    return Ok(cell.Value());
  }

  /** The handler: a refusal changes neither the running configuration nor the disk; an accepted
      body is running and is what the save writes. */
  method ReplaceConfig(config: RunningConfig.Config, disk: P.Disk, b: Body, f1: P.Fault, f2: P.Fault,
          validConfig: AppConfig -> bool, validTunnel: Tunnel -> bool) returns (accepted: bool)
    modifies config, disk
    ensures accepted <==> Put(old(config.Value()), b, validConfig, validTunnel).Ok?
    ensures accepted ==> Put(old(config.Value()), b, validConfig, validTunnel) == Ok(config.Value())
    ensures accepted ==> disk.files == P.EndOf(old(disk.files), P.SaveVisits(old(disk.files), config.Value(), f1, f2))
    ensures !accepted ==> config.Value() == old(config.Value()) && disk.files == old(disk.files)
  {
    var r := DecidePut(config.Value(), b, validConfig, validTunnel);
    if r.Err? { return false; }
    config.Assign(r.value);
    var _ := disk.SaveConfigSplit(r.value, f1, f2);
    return true;
  }

  // ---- When a PUT is accepted, and what it leaves ----

  /** Accepted exactly when the body leaves the setup token out, the result validates, and each of its
      tunnels is one already running or validates and, in direct mode, holds its pre-shared key. */
  lemma PutAcceptedIff(running: AppConfig, b: Body, validConfig: AppConfig -> bool, validTunnel: Tunnel -> bool)
    ensures var c := PutValue(running, b);
            Put(running, b, validConfig, validTunnel).Ok? <==>
            && b.setupToken == Absent && validConfig(c)
            && forall i :: 0 <= i < |c.tunnels| ==>
                 || (exists j :: 0 <= j < |running.tunnels| && running.tunnels[j] == c.tunnels[i])
                 || (validTunnel(c.tunnels[i]) && (!c.tunnels[i].direct || c.tunnels[i].keys.psk.Some?))
  {
    var c := PutValue(running, b);
    if Put(running, b, validConfig, validTunnel).Ok? {
      forall i | 0 <= i < |c.tunnels| && c.tunnels[i] in running.tunnels
        ensures exists j :: 0 <= j < |running.tunnels| && running.tunnels[j] == c.tunnels[i]
      {}
    }
  }

  /** Everything of an accepted body that is not a secret takes effect. */
  lemma PutTakesBody(running: AppConfig, b: Body, validConfig: AppConfig -> bool, validTunnel: Tunnel -> bool)
    requires Put(running, b, validConfig, validTunnel).Ok?
    ensures var c := Put(running, b, validConfig, validTunnel).value;
            && c.settings == b.settings && c.setupEnabled == b.setupEnabled && c.server.settings == b.server.settings
            && (b.manager.Named? <==> c.manager.Some?) && (b.nmos.Named? <==> c.nmos.Some?)
            && (b.manager.Named? ==> c.manager.value.settings == b.manager.value.settings)
            && (b.nmos.Named? ==> c.nmos.value.settings == b.nmos.value.settings)
            && |c.tunnels| == |b.tunnels| && |c.uplinks| == |b.uplinks|
  {}

  lemma PutTakesTunnel(running: AppConfig, b: Body, validConfig: AppConfig -> bool, validTunnel: Tunnel -> bool,
          i: nat)
    requires Put(running, b, validConfig, validTunnel).Ok? && i < |b.tunnels|
    ensures var c, t := Put(running, b, validConfig, validTunnel).value, b.tunnels[i];
            && |c.tunnels| == |b.tunnels| && c.tunnels[i].id == t.id && c.tunnels[i].direct == t.direct
            && c.tunnels[i].relayAddrs == t.relayAddrs && c.tunnels[i].relayAddr == t.relayAddr
            && c.tunnels[i].settings == t.settings
  {}

  lemma PutTakesUplink(running: AppConfig, b: Body, validConfig: AppConfig -> bool, validTunnel: Tunnel -> bool,
          i: nat)
    requires Put(running, b, validConfig, validTunnel).Ok? && i < |b.uplinks|
    ensures var c, u := Put(running, b, validConfig, validTunnel).value, b.uplinks[i];
            |c.uplinks| == |b.uplinks| && c.uplinks[i].interface == u.interface && c.uplinks[i].settings == u.settings
  {}

  // ---- What a PUT does to each secret ----

  /** The rule: the body's value if it names one, none if it names `null`, else what is running. */
  function Resolve<T>(f: Field<T>, running: Option<T>): Option<T> {
    match f
    case Named(v) => Some(v)
    case Null => None
    case Absent => running
  }

  lemma PutServer(running: AppConfig, b: Body, validConfig: AppConfig -> bool, validTunnel: Tunnel -> bool)
    requires Put(running, b, validConfig, validTunnel).Ok?
    ensures var c := Put(running, b, validConfig, validTunnel).value;
            && c.server.tls == Resolve(b.server.tls, running.server.tls)
            && c.server.auth == Resolve(b.server.auth, running.server.auth)
            && c.setupToken == running.setupToken
  {}

  /** The registration token and the NMOS token, within a block the body keeps; a block it drops
      takes its secrets with it. */
  lemma PutBlocks(running: AppConfig, b: Body, validConfig: AppConfig -> bool, validTunnel: Tunnel -> bool)
    requires Put(running, b, validConfig, validTunnel).Ok?
    ensures var c := Put(running, b, validConfig, validTunnel).value;
            && (c.manager.Some? <==> b.manager.Named?)
            && (b.manager.Named? ==>
                  c.manager.value.registrationToken ==
                    Resolve(b.manager.value.registrationToken,
                            if running.manager.Some? then running.manager.value.registrationToken else None))
            && (c.nmos.Some? <==> b.nmos.Named?)
            && (b.nmos.Named? ==>
                  c.nmos.value.bearerToken ==
                    Resolve(b.nmos.value.bearerToken,
                            if running.nmos.Some? then running.nmos.value.bearerToken else None))
  {}

  /** The node secret follows the rule except that a `null` node ID removes it too; a kept secret
      brings the ID it was issued for over whatever ID the body names. */
  lemma PutCredentials(running: AppConfig, b: Body, validConfig: AppConfig -> bool, validTunnel: Tunnel -> bool)
    requires Put(running, b, validConfig, validTunnel).Ok? && b.manager.Named?
    ensures var m := b.manager.value;
            var (heldId, heldSecret) := RunningPair(running);
            var after := Put(running, b, validConfig, validTunnel).value.manager.value;
            && after.nodeSecret == Resolve(m.nodeSecret, if m.nodeId.Null? then None else heldSecret)
            && after.nodeId ==
                 if m.nodeSecret.Absent? && !m.nodeId.Null? && heldSecret.Some? && heldId.Some? then heldId
                 else if m.nodeId.Named? then Some(m.nodeId.value) else None
  {}

  function RunningPair(running: AppConfig): (Option<string>, Option<string>) {
    if running.manager.Some? then (running.manager.value.nodeId, running.manager.value.nodeSecret) else (None, None)
  }

  datatype Key = EncryptionKey | BindSecret | Psk | CertPem | KeyPem

  function KeyOf(s: TunnelSecrets, k: Key): Option<string> {
    match k
    case EncryptionKey => s.encryptionKey
    case BindSecret => s.bindSecret
    case Psk => s.psk
    case CertPem => s.certPem
    case KeyPem => s.keyPem
  }

  function FieldOf(s: BodyKeys, k: Key): Field<string> {
    match k
    case EncryptionKey => s.encryptionKey
    case BindSecret => s.bindSecret
    case Psk => s.psk
    case CertPem => s.certPem
    case KeyPem => s.keyPem
  }

  /** Some tunnel of that id in the body names the key `null`. */
  predicate NullsKey(ts: seq<BodyTunnel>, id: string, k: Key) {
    exists i :: 0 <= i < |ts| && ts[i].id == id && FieldOf(ts[i].keys, k).Null?
  }

  lemma {:induction false} ForgetTunnelsKey(held: map<string, TunnelSecrets>, ts: seq<BodyTunnel>, id: string, k: Key)
    ensures ForgetTunnels(held, ts).Keys == held.Keys
    ensures id in held ==>
              KeyOf(ForgetTunnels(held, ts)[id], k) == if NullsKey(ts, id, k) then None else KeyOf(held[id], k)
  {
    if ts != [] {
      var front := ts[..|ts| - 1];
      var t := ts[|ts| - 1];
      ForgetTunnelsKey(held, front, id, k);
      assert NullsKey(ts, id, k) <==> NullsKey(front, id, k) || (t.id == id && FieldOf(t.keys, k).Null?) by {
        if NullsKey(front, id, k) {
          var i :| 0 <= i < |front| && front[i].id == id && FieldOf(front[i].keys, k).Null?;
          assert ts[i] == front[i];
        }
        if NullsKey(ts, id, k) {
          var i :| 0 <= i < |ts| && ts[i].id == id && FieldOf(ts[i].keys, k).Null?;
          if i < |front| { assert front[i] == ts[i]; }
        }
      }
    }
  }

  /** Each key of each tunnel in the body: its own value, else none if any tunnel of that id names
      it `null`, else what the node holds under the id. With one tunnel per id this is `Resolve`. */
  lemma PutTunnelKey(running: AppConfig, b: Body,
          validConfig: AppConfig -> bool, validTunnel: Tunnel -> bool, i: nat, k: Key)
    requires Put(running, b, validConfig, validTunnel).Ok? && i < |b.tunnels|
    ensures var c := Put(running, b, validConfig, validTunnel).value;
            var t := b.tunnels[i];
            var held := Extract(running).tunnels;
            && |c.tunnels| == |b.tunnels|
            && c.tunnels[i] == TypedTunnel(t).(keys := c.tunnels[i].keys)
            && KeyOf(c.tunnels[i].keys, k) ==
                 if FieldOf(t.keys, k).Named? then Some(FieldOf(t.keys, k).value)
                 else if NullsKey(b.tunnels, t.id, k) then None
                 else KeyOf(if t.id in held then held[t.id] else NO_KEYS, k)
  {
    var held := Extract(running).tunnels;
    ForgetTunnelsKey(held, b.tunnels, b.tunnels[i].id, k);
    var c := Put(running, b, validConfig, validTunnel).value;
    assert c.tunnels[i] == MergeTunnel(ForgetTunnels(held, b.tunnels), TypedTunnel(b.tunnels[i]));
  }

  /** With one tunnel of an id running and one in the body, each key is the body's if named, gone if
      `null`, and the running tunnel's if left out. */
  lemma PutKeyOfOneTunnel(running: AppConfig, b: Body, validConfig: AppConfig -> bool, validTunnel: Tunnel -> bool,
          i: nat, j: nat, k: Key)
    requires Put(running, b, validConfig, validTunnel).Ok? && i < |b.tunnels| && j < |running.tunnels|
    requires b.tunnels[i].id == running.tunnels[j].id
    requires forall n :: 0 <= n < |b.tunnels| && n != i ==> b.tunnels[n].id != b.tunnels[i].id
    requires forall n :: 0 <= n < |running.tunnels| && n != j ==> running.tunnels[n].id != running.tunnels[j].id
    ensures var c := Put(running, b, validConfig, validTunnel).value;
            && |c.tunnels| == |b.tunnels|
            && KeyOf(c.tunnels[i].keys, k) == Resolve(FieldOf(b.tunnels[i].keys, k), KeyOf(running.tunnels[j].keys, k))
  {
    PutTunnelKey(running, b, validConfig, validTunnel, i, k);
    TunnelEntryOrigin(running.tunnels, running.tunnels[j].id);
    var held := Extract(running).tunnels;
    assert running.tunnels[j].id in held ==> held[running.tunnels[j].id] == running.tunnels[j].keys;
    assert running.tunnels[j].id !in held ==> running.tunnels[j].keys == NO_KEYS;
    assert NullsKey(b.tunnels, b.tunnels[i].id, k) <==> FieldOf(b.tunnels[i].keys, k).Null?;
  }

  predicate NullsPassword(us: seq<BodyUplink>, id: string) {
    exists i :: 0 <= i < |us| && us[i].interface == id && us[i].password.Null?
  }

  lemma {:induction false} ForgetUplinksPassword(held: map<string, Option<string>>, us: seq<BodyUplink>, id: string)
    ensures ForgetUplinks(held, us).Keys == held.Keys
    ensures id in held ==> ForgetUplinks(held, us)[id] == if NullsPassword(us, id) then None else held[id]
  {
    if us != [] {
      var front := us[..|us| - 1];
      ForgetUplinksPassword(held, front, id);
      assert forall i :: 0 <= i < |front| ==> front[i] == us[i];
    }
  }

  lemma PutUplinkPassword(running: AppConfig, b: Body,
          validConfig: AppConfig -> bool, validTunnel: Tunnel -> bool, i: nat)
    requires Put(running, b, validConfig, validTunnel).Ok? && i < |b.uplinks|
    ensures var c := Put(running, b, validConfig, validTunnel).value;
            var u := b.uplinks[i];
            var held := Extract(running).uplinks;
            && |c.uplinks| == |b.uplinks|
            && c.uplinks[i] == TypedUplink(u).(password := c.uplinks[i].password)
            && c.uplinks[i].password ==
                 if u.password.Named? then Some(u.password.value)
                 else if NullsPassword(b.uplinks, u.interface) then None
                 else if u.interface in held then held[u.interface] else None
  {
    var held := Extract(running).uplinks;
    ForgetUplinksPassword(held, b.uplinks, b.uplinks[i].interface);
    var c := Put(running, b, validConfig, validTunnel).value;
    assert c.uplinks[i] == MergeUplink(ForgetUplinks(held, b.uplinks), TypedUplink(b.uplinks[i]));
  }

  // ---- Putting back what GET answered ----

  /** How a configuration is serialised: a field that is none is left out. */
  function Written<T>(o: Option<T>): Field<T> { if o.Some? then Named(o.value) else Absent }

  function WrittenKeys(k: TunnelSecrets): BodyKeys {
    BodyKeys(Written(k.encryptionKey), Written(k.bindSecret), Written(k.psk), Written(k.certPem), Written(k.keyPem))
  }

  function WrittenTunnel(t: Tunnel): BodyTunnel {
    BodyTunnel(t.id, WrittenKeys(t.keys), t.relayAddrs, t.relayAddr, t.direct, t.settings)
  }

  function WrittenUplink(u: Uplink): BodyUplink { BodyUplink(u.interface, Written(u.password), u.settings) }

  function WrittenManager(m: Manager): BodyManager {
    BodyManager(Written(m.nodeId), Written(m.nodeSecret), Written(m.registrationToken), m.settings)
  }

  function BodyOf(c: AppConfig): Body {
    Body(
      if c.manager.Some? then Named(WrittenManager(c.manager.value)) else Absent,
      BodyServer(Written(c.server.tls), Written(c.server.auth), c.server.settings),
      c.setupEnabled, Written(c.setupToken),
      if c.nmos.Some? then Named(BodyNmos(Written(c.nmos.value.bearerToken), c.nmos.value.settings)) else Absent,
      seq(|c.tunnels|, i requires 0 <= i < |c.tunnels| => WrittenTunnel(c.tunnels[i])),
      seq(|c.uplinks|, i requires 0 <= i < |c.uplinks| => WrittenUplink(c.uplinks[i])),
      c.settings)
  }

  lemma WrittenReadsBack(c: AppConfig)
    ensures TypedConfig(BodyOf(c)) == c
  {
    assert TypedConfig(BodyOf(c)).tunnels == c.tunnels by {
      assert forall t: Tunnel :: TypedTunnel(WrittenTunnel(t)) == t;
    }
    assert TypedConfig(BodyOf(c)).uplinks == c.uplinks by {
      assert forall u: Uplink :: TypedUplink(WrittenUplink(u)) == u;
    }
  }

  predicate NamesNoNull(k: BodyKeys) {
    !k.encryptionKey.Null? && !k.bindSecret.Null? && !k.psk.Null? && !k.certPem.Null? && !k.keyPem.Null?
  }

  lemma {:induction false} NothingNulled(held: map<string, TunnelSecrets>, ts: seq<BodyTunnel>)
    requires forall i :: 0 <= i < |ts| ==> NamesNoNull(ts[i].keys)
    ensures ForgetTunnels(held, ts) == held
  {
    if ts != [] { NothingNulled(held, ts[..|ts| - 1]); }
  }

  lemma {:induction false} NothingNulledUplinks(held: map<string, Option<string>>, us: seq<BodyUplink>)
    requires forall i :: 0 <= i < |us| ==> !us[i].password.Null?
    ensures ForgetUplinks(held, us) == held
  {
    if us != [] { NothingNulledUplinks(held, us[..|us| - 1]); }
  }

  lemma WrittenForgetsNothing(s: SecretsConfig, c: AppConfig)
    ensures ForgetNulled(s, BodyOf(c)) == s
  {
    var b := BodyOf(c);
    NothingNulled(s.tunnels, b.tunnels);
    NothingNulledUplinks(s.uplinks, b.uplinks);
  }

  /** Putting back the masked body `GET /api/v1/config` answered leaves the running configuration
      as it is: accepted and unchanged, exactly when it still validates and same-id tunnels
      (same-interface uplinks) hold the same secrets. */
  lemma PutBackMaskedBody(c: AppConfig, validConfig: AppConfig -> bool, validTunnel: Tunnel -> bool)
    ensures Put(c, BodyOf(Strip(c)), validConfig, validTunnel) == Ok(c) <==> SameKeysPerId(c) && validConfig(c)
  {
    WrittenReadsBack(Strip(c));
    WrittenForgetsNothing(Extract(c), Strip(c));
    SplitThenMerge(c);
  }
}
