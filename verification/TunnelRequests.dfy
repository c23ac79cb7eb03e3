/** `src/api/tunnels.rs`: creating and deleting tunnels while other requests run. A handler is a
    sequence of sections, each atomic under the configuration lock or in the tunnel registry, and
    the sections of different requests interleave freely. The port check is
    `validate_port_conflicts` in `src/config/validation.rs`; the registry is `TunnelManager` in
    `src/tunnel/manager.rs`. */
module TunnelRequests {
  import opened Outcomes

  datatype Proto = Tcp | Udp

  /** A local address an entity binds; ephemeral, multicast and unparseable ones are not listed. */
  datatype Bound = Bound(port: nat, proto: Proto, wildcard: bool, ip: string)

  predicate PortsConflict(a: Bound, b: Bound) {
    a.port == b.port && a.proto == b.proto && (a.wildcard || b.wildcard || a.ip == b.ip)
  }

  /** A tunnel, an input or an output: its id, what it binds, and the rest of its definition. */
  datatype Entity = Entity(id: string, binds: seq<Bound>, definition: string)

  /** `server` holds the binds of the API server and of the monitor dashboard. */
  datatype Config = Config(server: seq<Bound>, tunnels: seq<Entity>, inputs: seq<Entity>, outputs: seq<Entity>)

  type Runtime = map<string, Entity>

  function Flat(es: seq<Entity>): seq<Bound> {
    if es == [] then [] else Flat(es[..|es| - 1]) + es[|es| - 1].binds
  }

  function AllBinds(c: Config): seq<Bound> {
    c.server + Flat(c.tunnels) + Flat(c.inputs) + Flat(c.outputs)
  }

  predicate ConflictFree(bs: seq<Bound>) {
    forall i, j :: 0 <= i < j < |bs| ==> !PortsConflict(bs[i], bs[j])
  }

  /** `validate_port_conflicts`: each bind is registered against those before it. */
  method RegisterAll(bs: seq<Bound>) returns (ok: bool)
    ensures ok <==> ConflictFree(bs)
  {
    for j := 0 to |bs|
      invariant ConflictFree(bs[..j])
    {
      for i := 0 to j
        invariant forall k :: 0 <= k < i ==> !PortsConflict(bs[k], bs[j])
      {
        if PortsConflict(bs[i], bs[j]) { return false; }
      }
      assert forall k :: 0 <= k < j ==> bs[..j + 1][k] == bs[..j][k];
    }
    assert bs[..|bs|] == bs;
    return true;
  }

  function Without(es: seq<Entity>, id: string): seq<Entity> {
    if es == [] then []
    else
      var front := Without(es[..|es| - 1], id);
      if es[|es| - 1].id == id then front else front + [es[|es| - 1]]
  }

  function Upserted(c: Config, t: Entity): Config { c.(tunnels := Without(c.tunnels, t.id) + [t]) }

  predicate Fits(c: Config, t: Entity) { ConflictFree(AllBinds(Upserted(c, t))) }

  function Find(es: seq<Entity>, id: string): Option<Entity> {
    if es == [] then None else if es[0].id == id then Some(es[0]) else Find(es[1..], id)
  }

  predicate DistinctIds(es: seq<Entity>) {
    forall i, j :: 0 <= i < j < |es| ==> es[i].id != es[j].id
  }

  function Live(rt: Runtime, id: string): Option<Entity> { if id in rt then Some(rt[id]) else None }

  /** `TunnelManager::create_tunnel`. One that fails has first stopped a tunnel it was to replace. */
  function RuntimeCreated(rt: Runtime, t: Entity, ok: bool): Runtime {
    if ok then rt[t.id := t] else if Live(rt, t.id) == Some(t) then rt else rt - {t.id}
  }

  // ---- Interleavings ----

  /** Where a request stands between two sections. */
  datatype Phase =
    | Prechecked(t: Entity, replaced: Option<Entity>)
    | Started(t: Entity, replaced: Option<Entity>)
    | Losing(t: Entity, replaced: Option<Entity>)
    | TornDown(t: Entity, replaced: Option<Entity>)
    | Destroyed(id: string)

  function IdOf(p: Phase): string { if p.Destroyed? then p.id else p.t.id }

  datatype System = System(cfg: Config, runtime: Runtime, requests: map<nat, Phase>)

  datatype Action =
    | BeginCreate(r: nat, t: Entity)
    | RuntimeCreate(r: nat, ok: bool)
    | Commit(r: nat)
    | TearDown(r: nat)
    | Restore(r: nat, ok: bool)
    | BeginDelete(r: nat, id: string)
    | EndDelete(r: nat)
    | AddInput(e: Entity)
    | AddOutput(e: Entity)
    | SelfEvict(id: string)

  predicate Possible(s: System, a: Action) {
    match a
    case BeginCreate(r, _) => r !in s.requests
    case RuntimeCreate(r, _) => r in s.requests && s.requests[r].Prechecked?
    case Commit(r) => r in s.requests && s.requests[r].Started?
    case TearDown(r) => r in s.requests && s.requests[r].Losing?
    case Restore(r, _) => r in s.requests && s.requests[r].TornDown?
    case BeginDelete(r, _) => r !in s.requests
    case EndDelete(r) => r in s.requests && s.requests[r].Destroyed?
    case _ => true
  }

  predicate IdUsed(c: Config, id: string) {
    Find(c.inputs, id).Some? || Find(c.outputs, id).Some?
  }

  /** A request that has answered leaves the table. */
  function Next(s: System, a: Action): System
    requires Possible(s, a)
  {
    match a
    case BeginCreate(r, t) =>
      if Fits(s.cfg, t) then s.(requests := s.requests[r := Prechecked(t, Find(s.cfg.tunnels, t.id))]) else s
    case RuntimeCreate(r, ok) =>
      var p := s.requests[r];
      s.(runtime := RuntimeCreated(s.runtime, p.t, ok),
         requests := if ok then s.requests[r := Started(p.t, p.replaced)] else s.requests - {r})
    case Commit(r) =>
      var p := s.requests[r];
      if Fits(s.cfg, p.t) then s.(cfg := Upserted(s.cfg, p.t), requests := s.requests - {r})
      else s.(requests := s.requests[r := Losing(p.t, p.replaced)])
    case TearDown(r) =>
      var p := s.requests[r];
      s.(runtime := s.runtime - {p.t.id}, requests := s.requests[r := TornDown(p.t, p.replaced)])
    case Restore(r, ok) =>
      var p := s.requests[r];
      s.(runtime := if p.replaced.Some? then RuntimeCreated(s.runtime, p.replaced.value, ok) else s.runtime,
         requests := s.requests - {r})
    case BeginDelete(r, id) => s.(runtime := s.runtime - {id}, requests := s.requests[r := Destroyed(id)])
    case EndDelete(r) =>
      s.(cfg := s.cfg.(tunnels := Without(s.cfg.tunnels, s.requests[r].id)), requests := s.requests - {r})
    case AddInput(e) =>
      var c := s.cfg.(inputs := s.cfg.inputs + [e]);
      if !IdUsed(s.cfg, e.id) && ConflictFree(AllBinds(c)) then s.(cfg := c) else s
    case AddOutput(e) =>
      var c := s.cfg.(outputs := s.cfg.outputs + [e]);
      if !IdUsed(s.cfg, e.id) && ConflictFree(AllBinds(c)) then s.(cfg := c) else s
    case SelfEvict(id) => s.(runtime := s.runtime - {id})
  }

  /** The configuration, the registry and the requests in flight; each method is one atomic section of
      a handler, and performs exactly its step of the machine. */
  class TunnelService {
    var cfg: Config
    var runtime: Runtime
    var requests: map<nat, Phase>

    ghost function Value(): System
      reads this
    {
      System(cfg, runtime, requests)
    }

    /** The cheap check before the runtime is touched, and the snapshot of what may be replaced. */
    method PreCheck(r: nat, t: Entity) returns (ok: bool)
      requires Possible(Value(), BeginCreate(r, t))
      modifies this
      ensures Value() == Next(old(Value()), BeginCreate(r, t))
      ensures ok <==> Fits(old(cfg), t)
    {
      ok := RegisterAll(AllBinds(Upserted(cfg, t)));
      if ok { requests := requests[r := Prechecked(t, Find(cfg.tunnels, t.id))]; }
    }

    method CreateRuntime(r: nat, ok: bool)
      requires Possible(Value(), RuntimeCreate(r, ok))
      modifies this
      ensures Value() == Next(old(Value()), RuntimeCreate(r, ok))
    {
      var p := requests[r];
      if ok {
        runtime := runtime[p.t.id := p.t];
        requests := requests[r := Started(p.t, p.replaced)];
      } else {
        if Live(runtime, p.t.id) != Some(p.t) { runtime := runtime - {p.t.id}; }
        requests := requests - {r};
      }
    }

    /** The check that decides, under the same write guard as the upsert. */
    method CommitCreate(r: nat) returns (won: bool)
      requires Possible(Value(), Commit(r))
      modifies this
      ensures Value() == Next(old(Value()), Commit(r))
      ensures won <==> Fits(old(cfg), old(requests)[r].t)
    {
      var p := requests[r];
      won := RegisterAll(AllBinds(Upserted(cfg, p.t)));
      if won {
        cfg := cfg.(tunnels := Without(cfg.tunnels, p.t.id) + [p.t]);
        requests := requests - {r};
      } else {
        requests := requests[r := Losing(p.t, p.replaced)];
      }
    }

    method TearDownLoser(r: nat)
      requires Possible(Value(), TearDown(r))
      modifies this
      ensures Value() == Next(old(Value()), TearDown(r))
    {
      var p := requests[r];
      runtime := runtime - {p.t.id};
      requests := requests[r := TornDown(p.t, p.replaced)];
    }

    method RestorePrevious(r: nat, ok: bool)
      requires Possible(Value(), Restore(r, ok))
      modifies this
      ensures Value() == Next(old(Value()), Restore(r, ok))
    {
      var p := requests[r];
      if p.replaced.Some? {
        var t := p.replaced.value;
        if ok { runtime := runtime[t.id := t]; }
        else if Live(runtime, t.id) != Some(t) { runtime := runtime - {t.id}; }
      }
      requests := requests - {r};
    }

    method DestroyRuntime(r: nat, id: string) returns (wasLive: bool)
      requires Possible(Value(), BeginDelete(r, id))
      modifies this
      ensures Value() == Next(old(Value()), BeginDelete(r, id))
      ensures wasLive <==> id in old(runtime)
    {
      wasLive := id in runtime;
      runtime := runtime - {id};
      requests := requests[r := Destroyed(id)];
    }

    method CommitDelete(r: nat)
      requires Possible(Value(), EndDelete(r))
      modifies this
      ensures Value() == Next(old(Value()), EndDelete(r))
    {
      cfg := cfg.(tunnels := Without(cfg.tunnels, requests[r].id));
      requests := requests - {r};
    }
  }

  // ---- The configuration stays bootable in every interleaving ----

  predicate Bootable(c: Config) { DistinctIds(c.tunnels) && ConflictFree(AllBinds(c)) }

  lemma FewerBinds(a: seq<Bound>, b: seq<Bound>, c: seq<Bound>)
    requires ConflictFree(a + b + c)
    ensures ConflictFree(a + c)
  {
    var all, some := a + b + c, a + c;
    forall i, j | 0 <= i < j < |some| ensures !PortsConflict(some[i], some[j]) {
      var i' := if i < |a| then i else i + |b|;
      var j' := if j < |a| then j else j + |b|;
      assert some[i] == all[i'] && some[j] == all[j'];
    }
  }

  lemma {:induction false} RemovalKeepsConflictFree(pre: seq<Bound>, es: seq<Entity>, post: seq<Bound>, id: string)
    requires ConflictFree(pre + Flat(es) + post)
    ensures ConflictFree(pre + Flat(Without(es, id)) + post)
    decreases |es|
  {
    if es != [] {
      var front := es[..|es| - 1];
      var e := es[|es| - 1];
      if e.id == id {
        assert pre + Flat(es) + post == (pre + Flat(front)) + e.binds + post;
        FewerBinds(pre + Flat(front), e.binds, post);
        RemovalKeepsConflictFree(pre, front, post, id);
      } else {
        assert pre + Flat(es) + post == pre + Flat(front) + (e.binds + post);
        RemovalKeepsConflictFree(pre, front, e.binds + post, id);
        var kept := Without(es, id);
        assert kept[..|kept| - 1] == Without(front, id);
        assert pre + Flat(kept) + post == pre + Flat(Without(front, id)) + (e.binds + post);
      }
    }
  }

  lemma {:induction false} WithoutKeepsDistinct(es: seq<Entity>, id: string)
    requires DistinctIds(es)
    ensures DistinctIds(Without(es, id))
    ensures forall i :: 0 <= i < |Without(es, id)| ==> Without(es, id)[i] in es && Without(es, id)[i].id != id
  {
    if es != [] { WithoutKeepsDistinct(es[..|es| - 1], id); }
  }

  lemma DeleteKeepsBootable(c: Config, id: string)
    requires Bootable(c)
    ensures Bootable(c.(tunnels := Without(c.tunnels, id)))
  {
    WithoutKeepsDistinct(c.tunnels, id);
    var post := Flat(c.inputs) + Flat(c.outputs);
    Regroup(c.server, Flat(c.tunnels), Flat(c.inputs), Flat(c.outputs));
    RemovalKeepsConflictFree(c.server, c.tunnels, post, id);
    Regroup(c.server, Flat(Without(c.tunnels, id)), Flat(c.inputs), Flat(c.outputs));
  }

  lemma StepKeepsBootable(s: System, a: Action)
    requires Bootable(s.cfg) && Possible(s, a)
    ensures Bootable(Next(s, a).cfg)
  {
    match a
    case Commit(r) => WithoutKeepsDistinct(s.cfg.tunnels, s.requests[r].t.id);
    case EndDelete(r) => DeleteKeepsBootable(s.cfg, s.requests[r].id);
    case _ =>
  }

  // ---- What that means for the ports ----

  /** A socket bound so receives on an address: its own, or any if it is a wildcard. */
  predicate Receives(b: Bound, ip: string) { b.wildcard || b.ip == ip }

  /** Two sockets of one port and protocol that would both receive on some address. */
  ghost predicate Clash(a: Bound, b: Bound) {
    a.port == b.port && a.proto == b.proto && exists ip :: Receives(a, ip) && Receives(b, ip)
  }

  lemma ConflictIsClash(a: Bound, b: Bound)
    ensures PortsConflict(a, b) <==> Clash(a, b)
  {
    if PortsConflict(a, b) { assert Receives(a, if a.wildcard then b.ip else a.ip); }
  }

  ghost predicate Apart(a: seq<Bound>, b: seq<Bound>) { forall x, y :: x in a && y in b ==> !Clash(x, y) }

  ghost predicate NoClash(bs: seq<Bound>) { forall i, j :: 0 <= i < j < |bs| ==> !Clash(bs[i], bs[j]) }

  /** The server, the tunnels, the inputs and the outputs bind no port twice: not one of them by itself,
      no two of them, and none the server's. */
  ghost predicate SharesNoPort(c: Config) {
    var all := c.tunnels + c.inputs + c.outputs;
    && NoClash(c.server)
    && (forall i :: 0 <= i < |all| ==> NoClash(all[i].binds) && Apart(c.server, all[i].binds))
    && (forall i, j :: 0 <= i < j < |all| ==> Apart(all[i].binds, all[j].binds))
  }

  lemma FreeIsNoClash(bs: seq<Bound>)
    ensures ConflictFree(bs) <==> NoClash(bs)
  {
    forall i, j | 0 <= i < j < |bs| ensures PortsConflict(bs[i], bs[j]) <==> Clash(bs[i], bs[j]) {
      ConflictIsClash(bs[i], bs[j]);
    }
  }

  lemma NoClashConcat(a: seq<Bound>, b: seq<Bound>)
    ensures NoClash(a + b) <==> NoClash(a) && NoClash(b) && Apart(a, b)
  {
    var all := a + b;
    if NoClash(all) {
      forall i, j | 0 <= i < j < |b| ensures !Clash(b[i], b[j]) {
        assert all[|a| + i] == b[i] && all[|a| + j] == b[j];
      }
      forall i, j | 0 <= i < j < |a| ensures !Clash(a[i], a[j]) { assert all[i] == a[i] && all[j] == a[j]; }
      forall x, y | x in a && y in b ensures !Clash(x, y) {
        var i :| 0 <= i < |a| && a[i] == x;
        var j :| 0 <= j < |b| && b[j] == y;
        assert all[i] == x && all[|a| + j] == y;
      }
    }
  }

  lemma {:induction false} FlatConcat(a: seq<Entity>, b: seq<Entity>)
    ensures Flat(a + b) == Flat(a) + Flat(b)
  {
    if b == [] {
      assert a + b == a;
    } else {
      var front, last := b[..|b| - 1], b[|b| - 1];
      FlatConcat(a, front);
      assert a + b == (a + front) + [last];
      FlatAppend(a + front, last);
      assert Flat(a) + Flat(front) + last.binds == Flat(a) + (Flat(front) + last.binds);
    }
  }

  lemma {:induction false} ApartFlat(bs: seq<Bound>, es: seq<Entity>)
    ensures Apart(bs, Flat(es)) <==> forall i :: 0 <= i < |es| ==> Apart(bs, es[i].binds)
  {
    if es != [] {
      var front := es[..|es| - 1];
      ApartFlat(bs, front);
      assert forall i :: 0 <= i < |front| ==> front[i] == es[i];
      assert Apart(bs, Flat(es)) <==> Apart(bs, Flat(front)) && Apart(bs, es[|es| - 1].binds);
    }
  }

  lemma ApartBothWays(a: seq<Bound>, b: seq<Bound>)
    ensures Apart(a, b) <==> Apart(b, a)
  {
    forall x: Bound, y: Bound ensures Clash(x, y) <==> Clash(y, x) { ClashBothWays(x, y); }
  }

  lemma ClashBothWays(x: Bound, y: Bound)
    ensures Clash(x, y) <==> Clash(y, x)
  {
    ConflictIsClash(x, y);
    ConflictIsClash(y, x);
  }

  lemma ApartEach(es: seq<Entity>, bs: seq<Bound>)
    ensures Apart(Flat(es), bs) <==> forall i :: 0 <= i < |es| ==> Apart(es[i].binds, bs)
  {
    ApartBothWays(Flat(es), bs);
    ApartFlat(bs, es);
    forall i | 0 <= i < |es| ensures Apart(bs, es[i].binds) <==> Apart(es[i].binds, bs) {
      ApartBothWays(bs, es[i].binds);
    }
  }

  ghost predicate PairwiseApart(es: seq<Entity>) {
    && (forall i :: 0 <= i < |es| ==> NoClash(es[i].binds))
    && (forall i, j :: 0 <= i < j < |es| ==> Apart(es[i].binds, es[j].binds))
  }

  lemma PairwiseLast(front: seq<Entity>, last: Entity)
    ensures PairwiseApart(front + [last]) <==>
            && PairwiseApart(front) && NoClash(last.binds)
            && forall i :: 0 <= i < |front| ==> Apart(front[i].binds, last.binds)
  {
    var es := front + [last];
    assert es[|front|] == last && forall i :: 0 <= i < |front| ==> es[i] == front[i];
    if PairwiseApart(es) {
      forall i | 0 <= i < |front| ensures Apart(front[i].binds, last.binds) {
        assert Apart(es[i].binds, es[|front|].binds);
      }
    }
  }

  lemma {:induction false} NoClashFlat(es: seq<Entity>)
    ensures NoClash(Flat(es)) <==> PairwiseApart(es)
  {
    if es != [] {
      var front, last := es[..|es| - 1], es[|es| - 1];
      assert es == front + [last];
      NoClashFlat(front);
      NoClashConcat(Flat(front), last.binds);
      ApartEach(front, last.binds);
      PairwiseLast(front, last);
    }
  }

  lemma AllBindsSplit(c: Config)
    ensures AllBinds(c) == c.server + Flat(c.tunnels + c.inputs + c.outputs)
  {
    FlatConcat(c.tunnels, c.inputs);
    FlatConcat(c.tunnels + c.inputs, c.outputs);
  }

  lemma NoClashServed(server: seq<Bound>, all: seq<Entity>)
    ensures NoClash(server + Flat(all)) <==>
            && NoClash(server)
            && (forall i :: 0 <= i < |all| ==> NoClash(all[i].binds) && Apart(server, all[i].binds))
            && (forall i, j :: 0 <= i < j < |all| ==> Apart(all[i].binds, all[j].binds))
  {
    NoClashConcat(server, Flat(all));
    NoClashFlat(all);
    ApartFlat(server, all);
  }

  /** What the check over all binds decides, said of the entities themselves. */
  lemma BindsAreFreeIff(c: Config)
    ensures ConflictFree(AllBinds(c)) <==> SharesNoPort(c)
  {
    AllBindsSplit(c);
    FreeIsNoClash(AllBinds(c));
    NoClashServed(c.server, c.tunnels + c.inputs + c.outputs);
  }

  lemma {:induction false} WithoutMembers(es: seq<Entity>, id: string)
    ensures forall e :: e in Without(es, id) <==> e in es && e.id != id
  {
    if es != [] {
      WithoutMembers(es[..|es| - 1], id);
      assert es == es[..|es| - 1] + [es[|es| - 1]];
    }
  }

  lemma ApartMembers(bs: seq<Bound>, es: seq<Entity>)
    ensures Apart(bs, Flat(es)) <==> forall e <- es :: Apart(bs, e.binds)
  {
    ApartFlat(bs, es);
  }

  lemma ApartConcat(bs: seq<Bound>, a: seq<Bound>, b: seq<Bound>)
    ensures Apart(bs, a + b) <==> Apart(bs, a) && Apart(bs, b)
  {}

  lemma InsertedNoClash(pre: seq<Bound>, mid: seq<Bound>, post: seq<Bound>)
    requires NoClash(pre + post)
    ensures NoClash(pre + mid + post) <==> NoClash(mid) && Apart(mid, pre) && Apart(mid, post)
  {
    NoClashConcat(pre, post);
    NoClashConcat(pre, mid);
    NoClashConcat(pre + mid, post);
    ApartBothWays(mid, pre);
    assert Apart(pre + mid, post) <==> Apart(pre, post) && Apart(mid, post);
  }

  /** The binds of one entity put in among others that do not conflict. */
  lemma InsertedFree(pre: seq<Bound>, mid: seq<Bound>, post: seq<Bound>)
    requires ConflictFree(pre + post)
    ensures ConflictFree(pre + mid + post) <==> NoClash(mid) && Apart(mid, pre) && Apart(mid, post)
  {
    FreeIsNoClash(pre + post);
    FreeIsNoClash(pre + mid + post);
    InsertedNoClash(pre, mid, post);
  }

  lemma UpsertedBinds(c: Config, t: Entity)
    requires Bootable(c)
    ensures var pre, post := c.server + Flat(Without(c.tunnels, t.id)), Flat(c.inputs) + Flat(c.outputs);
            ConflictFree(pre + post) && AllBinds(Upserted(c, t)) == pre + t.binds + post
  {
    var kept, post := Without(c.tunnels, t.id), Flat(c.inputs) + Flat(c.outputs);
    Regroup(c.server, Flat(c.tunnels), Flat(c.inputs), Flat(c.outputs));
    RemovalKeepsConflictFree(c.server, c.tunnels, post, t.id);
    FlatAppend(kept, t);
    Regroup(c.server, Flat(kept) + t.binds, Flat(c.inputs), Flat(c.outputs));
    assert c.server + (Flat(kept) + t.binds) == c.server + Flat(kept) + t.binds;
  }

  lemma Regroup(a: seq<Bound>, b: seq<Bound>, c: seq<Bound>, d: seq<Bound>)
    ensures a + b + c + d == a + b + (c + d)
  {}

  lemma ApartKept(bs: seq<Bound>, server: seq<Bound>, tunnels: seq<Entity>, id: string)
    ensures Apart(bs, server + Flat(Without(tunnels, id))) <==>
            Apart(bs, server) && forall e <- tunnels :: e.id != id ==> Apart(bs, e.binds)
  {
    ApartConcat(bs, server, Flat(Without(tunnels, id)));
    ApartMembers(bs, Without(tunnels, id));
    WithoutMembers(tunnels, id);
  }

  lemma ApartTwo(bs: seq<Bound>, a: seq<Entity>, b: seq<Entity>)
    ensures Apart(bs, Flat(a) + Flat(b)) <==>
            (forall e <- a :: Apart(bs, e.binds)) && (forall e <- b :: Apart(bs, e.binds))
  {
    ApartConcat(bs, Flat(a), Flat(b));
    ApartMembers(bs, a);
    ApartMembers(bs, b);
  }

  /** A tunnel fits exactly when its binds clash neither with each other nor with the server's, those of
      a tunnel of another id, of an input or of an output. */
  lemma FitsIff(c: Config, t: Entity)
    requires Bootable(c)
    ensures Fits(c, t) <==>
            && NoClash(t.binds) && Apart(t.binds, c.server)
            && (forall e <- c.tunnels :: e.id != t.id ==> Apart(t.binds, e.binds))
            && (forall e <- c.inputs :: Apart(t.binds, e.binds))
            && (forall e <- c.outputs :: Apart(t.binds, e.binds))
  {
    UpsertedBinds(c, t);
    InsertedFree(c.server + Flat(Without(c.tunnels, t.id)), t.binds, Flat(c.inputs) + Flat(c.outputs));
    ApartKept(t.binds, c.server, c.tunnels, t.id);
    ApartTwo(t.binds, c.inputs, c.outputs);
  }

  lemma FlatAppend(es: seq<Entity>, e: Entity)
    ensures Flat(es + [e]) == Flat(es) + e.binds
  {
    assert (es + [e])[..|es|] == es;
  }

  lemma InputBinds(c: Config, e: Entity, pre: seq<Bound>)
    requires pre == c.server + Flat(c.tunnels) + Flat(c.inputs)
    ensures AllBinds(c) == pre + Flat(c.outputs)
    ensures AllBinds(c.(inputs := c.inputs + [e])) == pre + e.binds + Flat(c.outputs)
  {
    var head := c.server + Flat(c.tunnels);
    FlatAppend(c.inputs, e);
    assert head + (Flat(c.inputs) + e.binds) == head + Flat(c.inputs) + e.binds;
  }

  lemma OutputBinds(c: Config, e: Entity)
    ensures AllBinds(c.(outputs := c.outputs + [e])) == AllBinds(c) + e.binds
  {
    var head := c.server + Flat(c.tunnels) + Flat(c.inputs);
    FlatAppend(c.outputs, e);
    assert head + (Flat(c.outputs) + e.binds) == head + Flat(c.outputs) + e.binds;
  }

  lemma AddedFree(c: Config, d: Config, e: Entity)
    requires Bootable(c)
    requires d == c.(inputs := c.inputs + [e]) || d == c.(outputs := c.outputs + [e])
    ensures ConflictFree(AllBinds(d)) <==> NoClash(e.binds) && Apart(e.binds, AllBinds(c))
  {
    if d == c.(inputs := c.inputs + [e]) {
      var pre := c.server + Flat(c.tunnels) + Flat(c.inputs);
      InputBinds(c, e, pre);
      InsertedFree(pre, e.binds, Flat(c.outputs));
      ApartConcat(e.binds, pre, Flat(c.outputs));
    } else {
      OutputBinds(c, e);
      assert AllBinds(c) + [] == AllBinds(c) && AllBinds(c) + e.binds + [] == AllBinds(c) + e.binds;
      InsertedFree(AllBinds(c), e.binds, []);
    }
  }

  /** No input or output has the id, and the binds clash with nothing. */
  ghost predicate Addable(c: Config, e: Entity) {
    && (forall x <- c.inputs + c.outputs :: x.id != e.id)
    && NoClash(e.binds) && Apart(e.binds, c.server)
    && forall x <- c.tunnels + c.inputs + c.outputs :: Apart(e.binds, x.binds)
  }

  lemma ApartFromAll(c: Config, bs: seq<Bound>)
    ensures Apart(bs, AllBinds(c)) <==>
            Apart(bs, c.server) && forall x <- c.tunnels + c.inputs + c.outputs :: Apart(bs, x.binds)
  {
    AllBindsSplit(c);
    ApartConcat(bs, c.server, Flat(c.tunnels + c.inputs + c.outputs));
    ApartMembers(bs, c.tunnels + c.inputs + c.outputs);
  }

  lemma IdUsedIff(c: Config, id: string)
    ensures IdUsed(c, id) <==> exists x <- c.inputs + c.outputs :: x.id == id
  {
    FindMember(c.inputs, id);
    FindMember(c.outputs, id);
    assert forall x :: x in c.inputs + c.outputs <==> x in c.inputs || x in c.outputs;
  }

  lemma AddableIff(c: Config, d: Config, e: Entity)
    requires Bootable(c)
    requires d == c.(inputs := c.inputs + [e]) || d == c.(outputs := c.outputs + [e])
    ensures Addable(c, e) <==> !IdUsed(c, e.id) && ConflictFree(AllBinds(d))
  {
    AddedFree(c, d, e);
    ApartFromAll(c, e.binds);
    IdUsedIff(c, e.id);
  }

  /** An input is added exactly when it can be; it is then the last of them, and all else is as it was. */
  lemma AddsInputIff(s: System, e: Entity)
    requires Bootable(s.cfg)
    ensures Next(s, AddInput(e)) ==
              if Addable(s.cfg, e) then s.(cfg := s.cfg.(inputs := s.cfg.inputs + [e])) else s
  {
    AddableIff(s.cfg, s.cfg.(inputs := s.cfg.inputs + [e]), e);
  }

  lemma AddsOutputIff(s: System, e: Entity)
    requires Bootable(s.cfg)
    ensures Next(s, AddOutput(e)) ==
              if Addable(s.cfg, e) then s.(cfg := s.cfg.(outputs := s.cfg.outputs + [e])) else s
  {
    AddableIff(s.cfg, s.cfg.(outputs := s.cfg.outputs + [e]), e);
  }

  lemma {:induction false} FindMember(es: seq<Entity>, id: string)
    ensures Find(es, id).Some? <==> exists e :: e in es && e.id == id
  {
    if es != [] {
      FindMember(es[1..], id);
      assert es == [es[0]] + es[1..];
    }
  }

  predicate Run(s: System, as_: seq<Action>)
    decreases |as_|
  {
    as_ == [] || (Possible(s, as_[0]) && Run(Next(s, as_[0]), as_[1..]))
  }

  function After(s: System, as_: seq<Action>): System
    requires Run(s, as_)
    decreases |as_|
  {
    if as_ == [] then s else After(Next(s, as_[0]), as_[1..])
  }

  lemma {:induction false} RunKeepsBootable(s: System, as_: seq<Action>)
    requires Bootable(s.cfg) && Run(s, as_)
    ensures Bootable(After(s, as_).cfg)
    decreases |as_|
  {
    if as_ != [] {
      StepKeepsBootable(s, as_[0]);
      RunKeepsBootable(Next(s, as_[0]), as_[1..]);
    }
  }

  /** In every interleaving of any number of requests, same-id ones included, with runtime calls
      failing and tunnels evicting themselves: tunnel ids stay unique, and the server, the tunnels, the
      inputs and the outputs bind no port twice. */
  lemma EveryInterleavingKeepsBootable(s: System, as_: seq<Action>)
    requires DistinctIds(s.cfg.tunnels) && SharesNoPort(s.cfg) && Run(s, as_)
    ensures DistinctIds(After(s, as_).cfg.tunnels) && SharesNoPort(After(s, as_).cfg)
  {
    BindsAreFreeIff(s.cfg);
    RunKeepsBootable(s, as_);
    BindsAreFreeIff(After(s, as_).cfg);
  }

  // ---- Runtime and configuration agree again once requests have ended ----

  /** The tunnel a request is about, at each of its phases. */
  predicate PhaseAgrees(s: System, p: Phase) {
    var stored := Find(s.cfg.tunnels, IdOf(p));
    var live := Live(s.runtime, IdOf(p));
    match p
    case Prechecked(t, replaced) => stored == replaced && live == replaced
    case Started(t, replaced) => stored == replaced && live == Some(t)
    case Losing(t, replaced) => stored == replaced && live == Some(t)
    case TornDown(t, replaced) => stored == replaced && live == None
    case Destroyed(_) => live == None
  }

  predicate InFlight(s: System, id: string) { exists r :: r in s.requests && IdOf(s.requests[r]) == id }

  ghost predicate Agrees(s: System) {
    && (forall r :: r in s.requests ==> PhaseAgrees(s, s.requests[r]))
    && (forall r, q :: r in s.requests && q in s.requests && r != q ==> IdOf(s.requests[r]) != IdOf(s.requests[q]))
    && (forall id :: !InFlight(s, id) ==> Live(s.runtime, id) == Find(s.cfg.tunnels, id))
    && DistinctIds(s.cfg.tunnels)
  }

  /** No two requests for one id at a time, runtime calls succeed, no tunnel evicts itself. */
  predicate Undisturbed(s: System, a: Action) {
    match a
    case BeginCreate(_, t) => !InFlight(s, t.id)
    case BeginDelete(_, id) => !InFlight(s, id)
    case RuntimeCreate(_, ok) => ok
    case Restore(_, ok) => ok
    case SelfEvict(_) => false
    case _ => true
  }

  lemma {:induction false} FindHasId(es: seq<Entity>, id: string)
    ensures Find(es, id).Some? ==> Find(es, id).value.id == id
    decreases |es|
  {
    if es != [] { FindHasId(es[1..], id); }
  }

  lemma {:induction false} FindAppend(es: seq<Entity>, e: Entity, id: string)
    ensures Find(es + [e], id) == if Find(es, id).Some? then Find(es, id) else if e.id == id then Some(e) else None
    decreases |es|
  {
    if es == [] {
      assert es + [e] == [e];
      assert Find([e][1..], id) == None;
    } else {
      assert (es + [e])[1..] == es[1..] + [e];
      FindAppend(es[1..], e, id);
    }
  }

  lemma {:induction false} FindWithout(es: seq<Entity>, id: string, other: string)
    ensures Find(Without(es, id), other) == if other == id then None else Find(es, other)
  {
    if es != [] {
      var front := es[..|es| - 1];
      FindWithout(front, id, other);
      FindAppend(front, es[|es| - 1], other);
      assert front + [es[|es| - 1]] == es;
      FindAppend(Without(front, id), es[|es| - 1], other);
    }
  }

  lemma FindUpserted(c: Config, t: Entity, id: string)
    ensures Find(Upserted(c, t).tunnels, id) == if id == t.id then Some(t) else Find(c.tunnels, id)
  {
    FindWithout(c.tunnels, t.id, id);
    FindAppend(Without(c.tunnels, t.id), t, id);
  }

  /** The tunnel a step is about. */
  function Subject(s: System, a: Action): string
    requires Possible(s, a)
  {
    match a
    case BeginCreate(_, t) => t.id
    case BeginDelete(_, id) => id
    case AddInput(e) => e.id
    case AddOutput(e) => e.id
    case SelfEvict(id) => id
    case _ => IdOf(s.requests[a.r])
  }

  /** What a losing create is to put back is a tunnel of its own id. */
  predicate Tidy(s: System) {
    forall r <- s.requests :: var p := s.requests[r]; !p.Destroyed? && p.replaced.Some? ==>
        p.replaced.value.id == p.t.id
  }

  lemma StepKeepsTidy(s: System, a: Action)
    requires Tidy(s) && Possible(s, a)
    ensures Tidy(Next(s, a))
  {
    if a.BeginCreate? { FindHasId(s.cfg.tunnels, a.t.id); }
  }

  lemma AgreesIsTidy(s: System)
    requires Agrees(s)
    ensures Tidy(s)
  {
    forall r | r in s.requests
      ensures var p := s.requests[r]; !p.Destroyed? && p.replaced.Some? ==> p.replaced.value.id == p.t.id
    {
      assert PhaseAgrees(s, s.requests[r]);
      FindHasId(s.cfg.tunnels, IdOf(s.requests[r]));
    }
  }

  /** Every other tunnel is as it was. */
  lemma StepIsLocal(s: System, a: Action, id: string)
    requires Tidy(s) && Possible(s, a) && id != Subject(s, a)
    ensures Live(Next(s, a).runtime, id) == Live(s.runtime, id)
    ensures Find(Next(s, a).cfg.tunnels, id) == Find(s.cfg.tunnels, id)
  {
    if a.Commit? { FindUpserted(s.cfg, s.requests[a.r].t, id); }
    if a.EndDelete? { FindWithout(s.cfg.tunnels, s.requests[a.r].id, id); }
  }

  /** Agreement is put together again from the one tunnel a step is about and all the others. */
  lemma Reassemble(s: System, s': System, w: string, r: nat)
    requires Agrees(s) && DistinctIds(s'.cfg.tunnels)
    requires forall id :: id != w ==>
            Live(s'.runtime, id) == Live(s.runtime, id) && Find(s'.cfg.tunnels, id) == Find(s.cfg.tunnels, id)
    requires forall q :: q != r ==> (q in s'.requests <==> q in s.requests)
    requires forall q :: q != r && q in s.requests ==> s'.requests[q] == s.requests[q]
    requires if r in s.requests then IdOf(s.requests[r]) == w else !InFlight(s, w)
    requires if r in s'.requests then IdOf(s'.requests[r]) == w && PhaseAgrees(s', s'.requests[r])
             else Live(s'.runtime, w) == Find(s'.cfg.tunnels, w)
    ensures Agrees(s')
  {
    forall q | q in s'.requests && q != r
      ensures IdOf(s'.requests[q]) != w && PhaseAgrees(s', s'.requests[q])
    { assert q in s.requests && PhaseAgrees(s, s.requests[q]); }
    forall id | !InFlight(s', id) ensures Live(s'.runtime, id) == Find(s'.cfg.tunnels, id) {
      if id != w { assert !InFlight(s, id); }
    }
  }

  lemma SameTunnels(s: System, s': System)
    requires Agrees(s) && s'.runtime == s.runtime && s'.requests == s.requests && s'.cfg.tunnels == s.cfg.tunnels
    ensures Agrees(s')
  {
    forall id | !InFlight(s', id) ensures !InFlight(s, id) {}
  }

  lemma OthersStay(s: System, a: Action)
    requires Agrees(s) && Possible(s, a)
    ensures var s', w := Next(s, a), Subject(s, a);
            forall id :: id != w ==>
                Live(s'.runtime, id) == Live(s.runtime, id) && Find(s'.cfg.tunnels, id) == Find(s.cfg.tunnels, id)
  {
    AgreesIsTidy(s);
    var s', w := Next(s, a), Subject(s, a);
    forall id | id != w
      ensures Live(s'.runtime, id) == Live(s.runtime, id) && Find(s'.cfg.tunnels, id) == Find(s.cfg.tunnels, id)
    { StepIsLocal(s, a, id); }
  }

  lemma BeginKeepsAgreement(s: System, a: Action)
    requires Agrees(s) && Possible(s, a) && Undisturbed(s, a) && (a.BeginCreate? || a.RuntimeCreate?)
    ensures Agrees(Next(s, a))
  {
    OthersStay(s, a);
    if a.RuntimeCreate? { assert PhaseAgrees(s, s.requests[a.r]); }
    if Next(s, a) != s { Reassemble(s, Next(s, a), Subject(s, a), a.r); }
  }

  lemma CommitKeepsAgreement(s: System, a: Action)
    requires Agrees(s) && Possible(s, a) && a.Commit?
    ensures Agrees(Next(s, a))
  {
    OthersStay(s, a);
    assert PhaseAgrees(s, s.requests[a.r]);
    WithoutKeepsDistinct(s.cfg.tunnels, Subject(s, a));
    FindUpserted(s.cfg, s.requests[a.r].t, Subject(s, a));
    Reassemble(s, Next(s, a), Subject(s, a), a.r);
  }

  lemma RollbackKeepsAgreement(s: System, a: Action)
    requires Agrees(s) && Possible(s, a) && Undisturbed(s, a) && (a.TearDown? || a.Restore?)
    ensures Agrees(Next(s, a))
  {
    OthersStay(s, a);
    assert PhaseAgrees(s, s.requests[a.r]);
    FindHasId(s.cfg.tunnels, Subject(s, a));
    Reassemble(s, Next(s, a), Subject(s, a), a.r);
  }

  lemma DeleteKeepsAgreement(s: System, a: Action)
    requires Agrees(s) && Possible(s, a) && Undisturbed(s, a) && (a.BeginDelete? || a.EndDelete?)
    ensures Agrees(Next(s, a))
  {
    OthersStay(s, a);
    if a.EndDelete? {
      assert PhaseAgrees(s, s.requests[a.r]);
      WithoutKeepsDistinct(s.cfg.tunnels, Subject(s, a));
      FindWithout(s.cfg.tunnels, Subject(s, a), Subject(s, a));
    }
    Reassemble(s, Next(s, a), Subject(s, a), a.r);
  }

  lemma StepKeepsAgreement(s: System, a: Action)
    requires Agrees(s) && Possible(s, a) && Undisturbed(s, a)
    ensures Agrees(Next(s, a))
  {
    match a
    case BeginCreate(_, _) | RuntimeCreate(_, _) => BeginKeepsAgreement(s, a);
    case Commit(_) => CommitKeepsAgreement(s, a);
    case TearDown(_) | Restore(_, _) => RollbackKeepsAgreement(s, a);
    case BeginDelete(_, _) | EndDelete(_) => DeleteKeepsAgreement(s, a);
    case AddInput(_) | AddOutput(_) => SameTunnels(s, Next(s, a));
  }

  predicate UndisturbedRun(s: System, as_: seq<Action>)
    decreases |as_|
  {
    as_ == [] || (Possible(s, as_[0]) && Undisturbed(s, as_[0]) && UndisturbedRun(Next(s, as_[0]), as_[1..]))
  }

  lemma {:induction false} UndisturbedIsRun(s: System, as_: seq<Action>)
    requires UndisturbedRun(s, as_)
    ensures Run(s, as_)
    decreases |as_|
  {
    if as_ != [] { UndisturbedIsRun(Next(s, as_[0]), as_[1..]); }
  }

  lemma {:induction false} RunKeepsAgreement(s: System, as_: seq<Action>)
    requires Agrees(s) && UndisturbedRun(s, as_) && Run(s, as_)
    ensures Agrees(After(s, as_))
    decreases |as_|
  {
    if as_ != [] {
      StepKeepsAgreement(s, as_[0]);
      RunKeepsAgreement(Next(s, as_[0]), as_[1..]);
    }
  }

  /** Whenever no request for a tunnel is in flight, the runtime runs exactly what the
      configuration holds for it: a create that lost the port race, in any interleaving with
      requests for other tunnels, leaves the runtime as it found it. */
  lemma RuntimeMatchesConfig(s: System, as_: seq<Action>, id: string)
    requires Agrees(s) && UndisturbedRun(s, as_)
    ensures Run(s, as_)
    ensures !InFlight(After(s, as_), id) ==> Live(After(s, as_).runtime, id) == Find(After(s, as_).cfg.tunnels, id)
  {
    UndisturbedIsRun(s, as_);
    RunKeepsAgreement(s, as_);
  }

  /** A losing create's own steps, run from any runtime: it is left as found exactly when it was
      running what the configuration holds. A tunnel that had evicted itself is started again. */
  lemma LosingCreateRestores(c: Config, rt: Runtime, t: Entity)
    ensures var replaced := Find(c.tunnels, t.id);
            var torn := RuntimeCreated(rt, t, true) - {t.id};
            var restored := if replaced.Some? then RuntimeCreated(torn, replaced.value, true) else torn;
            restored == rt <==> Live(rt, t.id) == replaced
  {
    FindHasId(c.tunnels, t.id);
    var replaced := Find(c.tunnels, t.id);
    var torn := RuntimeCreated(rt, t, true) - {t.id};
    var restored := if replaced.Some? then RuntimeCreated(torn, replaced.value, true) else torn;
    assert forall id :: id != t.id ==> Live(restored, id) == Live(rt, id);
    assert Live(restored, t.id) == replaced;
    if Live(rt, t.id) == replaced {
      assert forall id :: id in restored <==> id in rt by {
        assert forall id :: id in restored <==> Live(restored, id).Some?;
        assert forall id :: id in rt <==> Live(rt, id).Some?;
      }
      assert forall id :: id in rt ==> Some(restored[id]) == Live(restored, id) && Some(rt[id]) == Live(rt, id);
    }
  }

  lemma Extend(s: System, a: Action, rest: seq<Action>)
    requires Possible(s, a) && Run(Next(s, a), rest)
    ensures Run(s, [a] + rest) && After(s, [a] + rest) == After(Next(s, a), rest)
  {
    assert ([a] + rest)[1..] == rest;
  }

  lemma {:induction false} NoBindsFit(c: Config, t: Entity)
    requires c == Config([], c.tunnels, [], []) && t.binds == [] && Flat(Without(c.tunnels, t.id)) == []
    ensures Fits(c, t)
  {
    assert Upserted(c, t).tunnels[..|Upserted(c, t).tunnels| - 1] == Without(c.tunnels, t.id);
  }

  // ---- Overlapping requests ----

  /** Steps that decide what runs under an id, and steps that decide what is stored under it. */
  predicate TouchesRuntime(s: System, a: Action, w: string)
    requires Possible(s, a)
  {
    match a
    case RuntimeCreate(r, _) => s.requests[r].t.id == w
    case TearDown(r) => s.requests[r].t.id == w
    case Restore(r, _) => s.requests[r].t.id == w && s.requests[r].replaced.Some?
    case BeginDelete(_, id) => id == w
    case SelfEvict(id) => id == w
    case _ => false
  }

  predicate TouchesConfig(s: System, a: Action, w: string)
    requires Possible(s, a)
  {
    match a
    case Commit(r) => s.requests[r].t.id == w && Fits(s.cfg, s.requests[r].t)
    case EndDelete(r) => s.requests[r].id == w
    case _ => false
  }

  predicate RuntimeQuiet(s: System, as_: seq<Action>, w: string)
    requires Run(s, as_)
    decreases |as_|
  {
    as_ == [] || (!TouchesRuntime(s, as_[0], w) && RuntimeQuiet(Next(s, as_[0]), as_[1..], w))
  }

  predicate ConfigQuiet(s: System, as_: seq<Action>, w: string)
    requires Run(s, as_)
    decreases |as_|
  {
    as_ == [] || (!TouchesConfig(s, as_[0], w) && ConfigQuiet(Next(s, as_[0]), as_[1..], w))
  }

  lemma UntouchedStays(s: System, a: Action, w: string)
    requires Tidy(s) && Possible(s, a)
    ensures !TouchesRuntime(s, a, w) ==> Live(Next(s, a).runtime, w) == Live(s.runtime, w)
    ensures !TouchesConfig(s, a, w) ==> Find(Next(s, a).cfg.tunnels, w) == Find(s.cfg.tunnels, w)
  {
    if w != Subject(s, a) { StepIsLocal(s, a, w); }
  }

  lemma {:induction false} QuietStays(s: System, as_: seq<Action>, w: string)
    requires Tidy(s) && Run(s, as_)
    ensures RuntimeQuiet(s, as_, w) ==> Live(After(s, as_).runtime, w) == Live(s.runtime, w)
    ensures ConfigQuiet(s, as_, w) ==> Find(After(s, as_).cfg.tunnels, w) == Find(s.cfg.tunnels, w)
    decreases |as_|
  {
    if as_ != [] {
      StepKeepsTidy(s, as_[0]);
      UntouchedStays(s, as_[0], w);
      QuietStays(Next(s, as_[0]), as_[1..], w);
    }
  }

  /** What a step that touches the runtime leaves running under an id. A start or a restore that fails
      has stopped whatever it was to replace, unless that is the very same definition. */
  function RunsAfter(s: System, a: Action, w: string): Option<Entity>
    requires Possible(s, a) && TouchesRuntime(s, a, w)
  {
    match a
    case RuntimeCreate(r, ok) => StartLeaves(Live(s.runtime, w), s.requests[r].t, ok)
    case Restore(r, ok) => StartLeaves(Live(s.runtime, w), s.requests[r].replaced.value, ok)
    case _ => None
  }

  function StartLeaves(live: Option<Entity>, t: Entity, ok: bool): Option<Entity> {
    if ok || live == Some(t) then Some(t) else None
  }

  /** What a step that touches the configuration leaves stored under an id. */
  function StoredAfter(s: System, a: Action, w: string): Option<Entity>
    requires Possible(s, a) && TouchesConfig(s, a, w)
  {
    if a.Commit? then Some(s.requests[a.r].t) else None
  }

  lemma StepLeaves(s: System, a: Action, w: string)
    requires Tidy(s) && Possible(s, a)
    ensures Live(Next(s, a).runtime, w) == if TouchesRuntime(s, a, w) then RunsAfter(s, a, w) else Live(s.runtime, w)
    ensures Find(Next(s, a).cfg.tunnels, w) ==
              if TouchesConfig(s, a, w) then StoredAfter(s, a, w) else Find(s.cfg.tunnels, w)
  {
    UntouchedStays(s, a, w);
    if a.Commit? { FindUpserted(s.cfg, s.requests[a.r].t, w); }
    if a.EndDelete? { FindWithout(s.cfg.tunnels, w, w); }
  }

  /** What the last step of a run to touch the runtime under an id leaves there; what ran before if
      none does. */
  function LastRuns(s: System, as_: seq<Action>, w: string): Option<Entity>
    requires Run(s, as_)
    decreases |as_|
  {
    if RuntimeQuiet(s, as_, w) then Live(s.runtime, w)
    else if RuntimeQuiet(Next(s, as_[0]), as_[1..], w) then RunsAfter(s, as_[0], w)
    else LastRuns(Next(s, as_[0]), as_[1..], w)
  }

  /** The same of what is stored. */
  function LastStored(s: System, as_: seq<Action>, w: string): Option<Entity>
    requires Run(s, as_)
    decreases |as_|
  {
    if ConfigQuiet(s, as_, w) then Find(s.cfg.tunnels, w)
    else if ConfigQuiet(Next(s, as_[0]), as_[1..], w) then StoredAfter(s, as_[0], w)
    else LastStored(Next(s, as_[0]), as_[1..], w)
  }

  lemma {:induction false} LastStepsDecide(s: System, as_: seq<Action>, w: string)
    requires Tidy(s) && Run(s, as_)
    ensures Live(After(s, as_).runtime, w) == LastRuns(s, as_, w)
    ensures Find(After(s, as_).cfg.tunnels, w) == LastStored(s, as_, w)
    decreases |as_|
  {
    QuietStays(s, as_, w);
    if as_ != [] {
      StepKeepsTidy(s, as_[0]);
      StepLeaves(s, as_[0], w);
      QuietStays(Next(s, as_[0]), as_[1..], w);
      LastStepsDecide(Next(s, as_[0]), as_[1..], w);
    }
  }

  /** In any run whatever, with requests for one id overlapping, runtime calls failing, rollbacks,
      deletes and evictions: runtime and configuration agree on an id if and only if the last step to
      touch its runtime and the last to touch what is stored under it leave the same. */
  lemma OverlapAgreesIff(s: System, as_: seq<Action>, w: string)
    requires Tidy(s) && Run(s, as_)
    ensures Live(After(s, as_).runtime, w) == Find(After(s, as_).cfg.tunnels, w)
            <==> LastRuns(s, as_, w) == LastStored(s, as_, w)
  {
    LastStepsDecide(s, as_, w);
  }

  lemma TripleRun(s: System, a: Action, b: Action, c: Action)
    requires Possible(s, a) && Possible(Next(s, a), b) && Possible(Next(Next(s, a), b), c)
    ensures Run(s, [a, b, c]) && After(s, [a, b, c]) == Next(Next(Next(s, a), b), c)
    ensures [a, b, c][1..] == [b, c] && [b, c][1..] == [c] && [c][1..] == []
    ensures Run(Next(s, a), [b, c]) && Run(Next(Next(s, a), b), [c])
  {
    assert [a] + [b, c] == [a, b, c] && [b] + [c] == [b, c] && [c] + [] == [c];
    Extend(Next(Next(s, a), b), c, []);
    Extend(Next(s, a), b, [c]);
    Extend(s, a, [b, c]);
  }

  /** A run of three steps of which only the first touches the runtime, and the last the configuration. */
  lemma TripleDecides(s: System, a: Action, b: Action, c: Action, w: string)
    requires Possible(s, a) && Possible(Next(s, a), b) && Possible(Next(Next(s, a), b), c)
    requires TouchesRuntime(s, a, w) && !TouchesRuntime(Next(s, a), b, w) && !TouchesRuntime(Next(Next(s, a), b), c, w)
    requires TouchesConfig(Next(Next(s, a), b), c, w)
    ensures Run(s, [a, b, c])
    ensures LastRuns(s, [a, b, c], w) == RunsAfter(s, a, w)
    ensures LastStored(s, [a, b, c], w) == StoredAfter(Next(Next(s, a), b), c, w)
  {
    TripleRun(s, a, b, c);
    var s1 := Next(s, a);
    var s2 := Next(s1, b);
    assert RuntimeQuiet(s2, [c], w) && RuntimeQuiet(s1, [b, c], w);
    assert !ConfigQuiet(s2, [c], w) && !ConfigQuiet(s1, [b, c], w) && !ConfigQuiet(s, [a, b, c], w);
    assert LastStored(s2, [c], w) == StoredAfter(s2, c, w);
    assert LastStored(s1, [b, c], w) == StoredAfter(s2, c, w);
  }

  /** Two creates of one id in flight, the second the last to reach the runtime and the first the last
      to commit: with both fitting, they disagree for good. */
  lemma LateCommitDisagrees(s: System, r1: nat, r2: nat)
    requires Tidy(s) && r1 != r2 && r1 in s.requests && r2 in s.requests
    requires s.requests[r1].Started? && s.requests[r2].Prechecked?
    requires s.requests[r1].t.id == s.requests[r2].t.id && s.requests[r1].t != s.requests[r2].t
    requires Fits(s.cfg, s.requests[r2].t) && Fits(Upserted(s.cfg, s.requests[r2].t), s.requests[r1].t)
    ensures var as_, w := [RuntimeCreate(r2, true), Commit(r2), Commit(r1)], s.requests[r1].t.id;
            && Run(s, as_) && After(s, as_).requests == s.requests - {r1, r2}
            && Live(After(s, as_).runtime, w) != Find(After(s, as_).cfg.tunnels, w)
  {
    var t1, t2, w := s.requests[r1].t, s.requests[r2].t, s.requests[r1].t.id;
    var as_ := [RuntimeCreate(r2, true), Commit(r2), Commit(r1)];
    var s1 := Next(s, as_[0]);
    var s2 := Next(s1, as_[1]);
    assert s2.cfg == Upserted(s.cfg, t2) && s2.requests[r1] == s.requests[r1];
    TripleRun(s, as_[0], as_[1], as_[2]);
    assert After(s, as_).requests == s.requests - {r1, r2};
    TripleDecides(s, as_[0], as_[1], as_[2], w);
    OverlapAgreesIff(s, as_, w);
  }

  /** A delete that has stopped its tunnel, and a create of the same id that starts and commits before
      the delete reaches the configuration: the new tunnel runs and is stored nowhere. */
  lemma LateDeleteDisagrees(s: System, r: nat, q: nat)
    requires Tidy(s) && r in s.requests && q in s.requests
    requires s.requests[r].Prechecked? && s.requests[q] == Destroyed(s.requests[r].t.id) && Fits(s.cfg, s.requests[r].t)
    ensures var as_, t := [RuntimeCreate(r, true), Commit(r), EndDelete(q)], s.requests[r].t;
            && Run(s, as_) && After(s, as_).requests == s.requests - {r, q}
            && Live(After(s, as_).runtime, t.id) == Some(t) && Find(After(s, as_).cfg.tunnels, t.id) == None
  {
    var t, w := s.requests[r].t, s.requests[r].t.id;
    var as_ := [RuntimeCreate(r, true), Commit(r), EndDelete(q)];
    var s1 := Next(s, as_[0]);
    var s2 := Next(s1, as_[1]);
    assert s2.requests[q] == s.requests[q];
    TripleRun(s, as_[0], as_[1], as_[2]);
    assert After(s, as_).requests == s.requests - {r, q};
    TripleDecides(s, as_[0], as_[1], as_[2], w);
    LastStepsDecide(s, as_, w);
  }

  const FIRST := Entity("t", [], "first")
  const SECOND := Entity("t", [], "second")
  const EMPTY := Config([], [], [], [])

  /** Two creates of one id overlapping can end with the runtime running one definition and the
      configuration holding the other, from a configuration and a runtime that agree. */
  lemma OverlapCanDisagree() returns (run: seq<Action>)
    ensures var s := System(EMPTY, map[], map[]);
            && Agrees(s) && Run(s, run) && After(s, run).requests == map[]
            && Live(After(s, run).runtime, "t") != Find(After(s, run).cfg.tunnels, "t")
  {
    var s := System(EMPTY, map[], map[]);
    NoBindsFit(EMPTY, FIRST);
    NoBindsFit(EMPTY, SECOND);
    var s1 := Next(s, BeginCreate(0, FIRST));
    var s2 := Next(s1, BeginCreate(1, SECOND));
    var s3 := Next(s2, RuntimeCreate(0, true));
    assert s3 == System(EMPTY, map["t" := FIRST], map[0 := Started(FIRST, None), 1 := Prechecked(SECOND, None)]);
    assert Upserted(EMPTY, SECOND) == EMPTY.(tunnels := [SECOND]);
    assert Without([SECOND], "t") == [];
    NoBindsFit(Upserted(EMPTY, SECOND), FIRST);
    LateCommitDisagrees(s3, 0, 1);
    assert s3.requests - {0, 1} == map[];
    var tail := [RuntimeCreate(1, true), Commit(1), Commit(0)];
    Extend(s2, RuntimeCreate(0, true), tail);
    Extend(s1, BeginCreate(1, SECOND), [RuntimeCreate(0, true)] + tail);
    Extend(s, BeginCreate(0, FIRST), [BeginCreate(1, SECOND)] + ([RuntimeCreate(0, true)] + tail));
    run := [BeginCreate(0, FIRST)] + ([BeginCreate(1, SECOND)] + ([RuntimeCreate(0, true)] + tail));
  }

  /** A delete and a create of one id overlapping can leave a tunnel running that the configuration
      does not hold, though the last definition started is also the last one stored. */
  lemma DeleteCanDisagree() returns (run: seq<Action>)
    ensures var s := System(EMPTY, map[], map[]);
            && Agrees(s) && Run(s, run) && After(s, run).requests == map[]
            && Live(After(s, run).runtime, "t") == Some(FIRST) && Find(After(s, run).cfg.tunnels, "t") == None
  {
    var s := System(EMPTY, map[], map[]);
    NoBindsFit(EMPTY, FIRST);
    var s1 := Next(s, BeginDelete(0, "t"));
    var s2 := Next(s1, BeginCreate(1, FIRST));
    assert s2 == System(EMPTY, map[], map[0 := Destroyed("t"), 1 := Prechecked(FIRST, None)]);
    LateDeleteDisagrees(s2, 1, 0);
    assert s2.requests - {1, 0} == map[];
    var tail := [RuntimeCreate(1, true), Commit(1), EndDelete(0)];
    Extend(s1, BeginCreate(1, FIRST), tail);
    Extend(s, BeginDelete(0, "t"), [BeginCreate(1, FIRST)] + tail);
    run := [BeginDelete(0, "t")] + ([BeginCreate(1, FIRST)] + tail);
  }
}
