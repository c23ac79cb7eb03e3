/** `src/api/nmos_is05.rs`: rewriting the `host:port` strings of an output, taken as a JSON
    object, to the transport parameters an IS-05 activation gives. */
module SenderParams {
  import opened Outcomes
  import opened Decimal

  datatype Json = Text(text: string) | Other

  type Object = map<string, Json>

  datatype Params = Params(
    destinationIp: Option<string>, destinationPort: Option<nat>, sourceIp: Option<string>, sourcePort: Option<nat>)

  const ADDRESS_KEYS: seq<string> := ["dest_addr", "remote_addr", "bind_addr", "local_addr"]

  /** The position of the last colon, or -1. */
  function LastColon(s: string): (i: int)
    ensures -1 <= i < |s|
    ensures i >= 0 ==> s[i] == ':'
    ensures forall j :: i < j < |s| ==> s[j] != ':'
  {
    if s == [] then -1 else if s[|s| - 1] == ':' then |s| - 1 else LastColon(s[..|s| - 1])
  }

  /** `split_addr`: an unreadable port is 0, and so is a missing one. */
  function SplitAddr(s: string): (string, nat) {
    var i := LastColon(s);
    if i < 0 then (s, 0)
    else (s[..i], match ParseU16(s[i + 1..]) case Some(p) => p case None => 0)
  }

  function Join(host: string, port: nat): string { host + ":" + Dec(port) }

  function Or<T>(given: Option<T>, kept: T): T { if given.Some? then given.value else kept }

  /** One address with the given parts replaced. */
  function Rewritten(addr: string, ip: Option<string>, port: Option<nat>): string {
    Join(Or(ip, SplitAddr(addr).0), Or(port, SplitAddr(addr).1))
  }

  function GivenIp(p: Params, key: string): Option<string> {
    if key == "dest_addr" || key == "remote_addr" then p.destinationIp else p.sourceIp
  }

  function GivenPort(p: Params, key: string): Option<nat> {
    if key == "dest_addr" || key == "remote_addr" then p.destinationPort else p.sourcePort
  }

  predicate IsAddress(obj: Object, key: string) { key in ADDRESS_KEYS && key in obj && obj[key].Text? }

  /** What an activation asks for under one key. */
  function Wanted(obj: Object, p: Params, key: string): Json
    requires key in obj
  {
    if IsAddress(obj, key) then Text(Rewritten(obj[key].text, GivenIp(p, key), GivenPort(p, key))) else obj[key]
  }

  /** The object an activation asks for. */
  function Applied(obj: Object, p: Params): Object {
    map key | key in obj :: Wanted(obj, p, key)
  }

  /** One address key: rewritten if it holds text, and reported if that changed it. */
  method RewriteKey(obj: Object, p: Params, key: string) returns (r: Object, changed: bool)
    requires key in ADDRESS_KEYS
    ensures r == if key in obj then obj[key := Wanted(obj, p, key)] else obj
    ensures changed <==> r != obj
  {
    r, changed := obj, false;
    if key in obj && obj[key].Text? {
      var (host, port) := SplitAddr(obj[key].text);
      var combined := Join(Or(GivenIp(p, key), host), Or(GivenPort(p, key), port));
      if combined != obj[key].text {
        r, changed := obj[key := Text(combined)], true;
        assert r[key] != obj[key];
      }
    }
  }

  /** `apply_sender_params_to_output`: `None` when no address changed. */
  method ApplySenderParams(obj: Object, p: Params) returns (r: Option<Object>)
    ensures r == if Applied(obj, p) == obj then None else Some(Applied(obj, p))
  {
    var v, changed := obj, false;
    for i := 0 to |ADDRESS_KEYS|
      invariant v.Keys == obj.Keys
      invariant forall k <- obj :: v[k] == if k in ADDRESS_KEYS[..i] then Wanted(obj, p, k) else obj[k]
      invariant changed <==> v != obj
    {
      var key := ADDRESS_KEYS[i];
      assert key !in ADDRESS_KEYS[..i];
      assert ADDRESS_KEYS[..i + 1] == ADDRESS_KEYS[..i] + [key];
      ghost var before := v;
      var rewritten: bool;
      v, rewritten := RewriteKey(v, p, key);
      if key in obj { assert before[key] == obj[key] && v[key] == Wanted(obj, p, key); }
      changed := changed || rewritten;
    }
    assert forall k <- obj :: v[k] == Applied(obj, p)[k];
    assert v == Applied(obj, p);
    r := if changed then Some(v) else None;
  }

  // ---- What it does ----

  lemma LastColonOfJoin(host: string, port: nat)
    ensures LastColon(Join(host, port)) == |host|
  {
    DecReadsBack(port);
    var s := Join(host, port);
    assert s[|host|] == ':';
    assert forall j :: |host| < j < |s| ==> s[j] == Dec(port)[j - |host| - 1];
  }

  /** Splitting a printed address gives its parts back, whatever the host is: an IPv6 literal, a
      name with colons, nothing at all. */
  lemma SplitOfJoin(host: string, port: nat)
    requires port < 65536
    ensures SplitAddr(Join(host, port)) == (host, port)
  {
    LastColonOfJoin(host, port);
    ParseOfDec(port);
    assert Join(host, port)[..|host|] == host;
    assert Join(host, port)[|host| + 1..] == Dec(port);
  }

  predicate PortsInRange(p: Params) {
    (p.destinationPort.Some? ==> p.destinationPort.value < 65536) && (p.sourcePort.Some? ==> p.sourcePort.value < 65536)
  }

  /** Every address of the result carries the given host and port and keeps the part not given;
      everything else is as it was. */
  lemma AppliedCarriesParams(obj: Object, p: Params, key: string)
    requires PortsInRange(p) && key in obj
    ensures Applied(obj, p).Keys == obj.Keys
    ensures !IsAddress(obj, key) ==> Applied(obj, p)[key] == obj[key]
    ensures IsAddress(obj, key) ==>
              && Applied(obj, p)[key].Text?
              && SplitAddr(Applied(obj, p)[key].text) ==
                   (Or(GivenIp(p, key), SplitAddr(obj[key].text).0), Or(GivenPort(p, key), SplitAddr(obj[key].text).1))
  {
    if IsAddress(obj, key) {
      SplitOfJoin(Or(GivenIp(p, key), SplitAddr(obj[key].text).0), Or(GivenPort(p, key), SplitAddr(obj[key].text).1));
    }
  }

  /** Which parameters go where: `dest_addr` and `remote_addr` take the destination, `bind_addr` and
      `local_addr` the source, and no other field is touched. */
  lemma AppliedByKey(obj: Object, p: Params, key: string)
    requires PortsInRange(p) && key in obj && obj[key].Text?
    ensures Applied(obj, p)[key].Text?
    ensures var before, after := SplitAddr(obj[key].text), SplitAddr(Applied(obj, p)[key].text);
            && (key == "dest_addr" || key == "remote_addr" ==>
                  && (p.destinationIp.Some? ==> after.0 == p.destinationIp.value)
                  && (p.destinationIp.None? ==> after.0 == before.0)
                  && (p.destinationPort.Some? ==> after.1 == p.destinationPort.value)
                  && (p.destinationPort.None? ==> after.1 == before.1))
            && (key == "bind_addr" || key == "local_addr" ==>
                  && (p.sourceIp.Some? ==> after.0 == p.sourceIp.value)
                  && (p.sourceIp.None? ==> after.0 == before.0)
                  && (p.sourcePort.Some? ==> after.1 == p.sourcePort.value)
                  && (p.sourcePort.None? ==> after.1 == before.1))
    ensures key !in {"dest_addr", "remote_addr", "bind_addr", "local_addr"} ==> Applied(obj, p)[key] == obj[key]
  {
    assert key in ADDRESS_KEYS <==> key in {"dest_addr", "remote_addr", "bind_addr", "local_addr"};
    AppliedCarriesParams(obj, p, key);
  }

  /** The port of an address is what follows its last colon, if that reads as a `u16`; it is 0 if it does
      not, or if there is no colon. */
  lemma SplitOfAny(host: string, port: string)
    requires ':' !in port
    ensures SplitAddr(host + ":" + port).0 == host
    ensures SplitAddr(host + ":" + port).1 == match ParseU16(port) case Some(n) => n case None => 0
    ensures SplitAddr(port) == (port, 0)
  {
    var s := host + ":" + port;
    assert s[|host|] == ':';
    assert forall j :: |host| < j < |s| ==> s[j] == port[j - |host| - 1] && s[j] in port;
    assert LastColon(s) == |host|;
    assert s[..|host|] == host && s[|host| + 1..] == port;
    assert forall j :: 0 <= j < |port| ==> port[j] in port;
  }

  /** Applying the same parameters again changes nothing, for every output and any host string. */
  lemma ApplyingTwiceChangesNothing(obj: Object, p: Params)
    requires PortsInRange(p)
    ensures Applied(Applied(obj, p), p) == Applied(obj, p)
  {
    forall key | key in obj
      ensures Applied(Applied(obj, p), p)[key] == Applied(obj, p)[key]
    { AppliedCarriesParams(obj, p, key); }
  }

  /** An address that is exactly a host, a colon and the port as it is printed. */
  ghost predicate Canonical(addr: string) {
    exists host, port :: port < 65536 && addr == Join(host, port)
  }

  /** With nothing given, an address is left alone exactly when it is canonical: `"h"`, `"h:080"`
      and `"h:99999"` are all rewritten by an empty patch. */
  lemma EmptyPatchKeepsCanonical(addr: string)
    ensures Rewritten(addr, None, None) == addr <==> Canonical(addr)
  {
    if Canonical(addr) {
      var host, port :| port < 65536 && addr == Join(host, port);
      SplitOfJoin(host, port);
    }
  }
}
