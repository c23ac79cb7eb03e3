/** `src/config/pid_map_serde.rs`: a map from PID to PID, written with string keys.

    A `BTreeMap` is read in the order of its keys, which for the string keys is not the order of
    the PIDs. `Enumerates` leaves that order open. */
module PidMapCodec {
  import opened Outcomes
  import opened Decimal

  function Serialize(m: map<nat, nat>): map<string, nat> {
    DecIsInjective();
    map k | k in m :: Dec(k) := m[k]
  }

  /** `entries` lists every entry of `m` once. */
  predicate Enumerates(entries: seq<(string, nat)>, m: map<string, nat>) {
    && (forall i, j :: 0 <= i < j < |entries| ==> entries[i].0 != entries[j].0)
    && (forall i :: 0 <= i < |entries| ==> entries[i].0 in m && m[entries[i].0] == entries[i].1)
    && (forall k :: k in m ==> exists i :: 0 <= i < |entries| && entries[i].0 == k)
  }

  predicate KeysParse(entries: seq<(string, nat)>) {
    forall i :: 0 <= i < |entries| ==> ParseU16(entries[i].0).Some?
  }

  function Parsed(entries: seq<(string, nat)>): seq<(nat, nat)>
    requires KeysParse(entries)
  {
    seq(|entries|, i requires 0 <= i < |entries| => (ParseU16(entries[i].0).value, entries[i].1))
  }

  /** Pairs put in one after the other; a later one of the same key overwrites. */
  function Collected(pairs: seq<(nat, nat)>): map<nat, nat> {
    if pairs == [] then map[] else Collected(pairs[..|pairs| - 1])[pairs[|pairs| - 1].0 := pairs[|pairs| - 1].1]
  }

  predicate ReadsAs(entry: (string, nat), pair: (nat, nat)) { ParseU16(entry.0) == Some(pair.0) && entry.1 == pair.1 }

  lemma AllReadIsParsed(entries: seq<(string, nat)>, pairs: seq<(nat, nat)>)
    requires |pairs| == |entries| && forall i :: 0 <= i < |entries| ==> ReadsAs(entries[i], pairs[i])
    ensures KeysParse(entries) && Parsed(entries) == pairs
  {}

  lemma CollectedNext(pairs: seq<(nat, nat)>, pair: (nat, nat))
    ensures Collected(pairs + [pair]) == Collected(pairs)[pair.0 := pair.1]
  {
    assert (pairs + [pair])[..|pairs|] == pairs;
  }

  method Deserialize(entries: seq<(string, nat)>) returns (r: Result<map<nat, nat>, string>)
    ensures r.Ok? <==> KeysParse(entries)
    ensures r.Ok? ==> r.value == Collected(Parsed(entries))
  {
    var out: map<nat, nat> := map[];
    ghost var pairs: seq<(nat, nat)> := [];
    for i := 0 to |entries|
      invariant out == Collected(pairs) && |pairs| == i
      invariant forall j :: 0 <= j < i ==> ReadsAs(entries[j], pairs[j])
    {
      var pid := ReadU16(entries[i].0);
      if pid.None? { return Err("pid_map key must be a u16 (0-65535)"); }
      CollectedNext(pairs, (pid.value, entries[i].1));
      out := out[pid.value := entries[i].1];
      pairs := pairs + [(pid.value, entries[i].1)];
    }
    AllReadIsParsed(entries, pairs);
    return Ok(out);
  }

  /** The value under a key is that of the last pair with it. */
  lemma {:induction false} CollectedAt(pairs: seq<(nat, nat)>, k: nat)
    ensures k in Collected(pairs) <==> exists i :: 0 <= i < |pairs| && pairs[i].0 == k
    ensures k in Collected(pairs) ==>
            exists i :: 0 <= i < |pairs| && pairs[i].0 == k && pairs[i].1 == Collected(pairs)[k]
                                                  && forall j :: i < j < |pairs| ==> pairs[j].0 != k
  {
    if pairs != [] {
      var front := pairs[..|pairs| - 1];
      CollectedAt(front, k);
      assert forall i :: 0 <= i < |front| ==> front[i] == pairs[i];
    }
  }

  lemma EntryOfWritten(m: map<nat, nat>, key: string)
    requires forall k :: k in m ==> k < 65536
    requires key in Serialize(m)
    ensures ParseU16(key).Some? && ParseU16(key).value in m
    ensures key == Dec(ParseU16(key).value) && Serialize(m)[key] == m[ParseU16(key).value]
  {
    var k :| k in m && Dec(k) == key;
    ParseOfDec(k);
    DecIsInjective();
  }

  /** Pairs drawn from a map that reach all of its keys collect to that map. */
  lemma CollectedIs(pairs: seq<(nat, nat)>, m: map<nat, nat>)
    requires forall i :: 0 <= i < |pairs| ==> pairs[i].0 in m && pairs[i].1 == m[pairs[i].0]
    requires forall k :: k in m ==> exists i :: 0 <= i < |pairs| && pairs[i].0 == k
    ensures Collected(pairs) == m
  {
    forall k
      ensures k in Collected(pairs) <==> k in m
      ensures k in m ==> k in Collected(pairs) && Collected(pairs)[k] == m[k]
    { CollectedAt(pairs, k); }
  }

  lemma WrittenIsRead(m: map<nat, nat>, entries: seq<(string, nat)>, k: nat)
    requires k in m && k < 65536 && KeysParse(entries) && Enumerates(entries, Serialize(m))
    ensures exists i :: 0 <= i < |entries| && Parsed(entries)[i].0 == k
  {
    ParseOfDec(k);
    assert Dec(k) in Serialize(m);
    var i :| 0 <= i < |entries| && entries[i].0 == Dec(k);
    assert Parsed(entries)[i].0 == k;
  }

  /** Reading a written map gives it back, in whatever order its string keys come. */
  lemma RoundTrip(m: map<nat, nat>, entries: seq<(string, nat)>)
    requires forall k :: k in m ==> k < 65536
    requires Enumerates(entries, Serialize(m))
    ensures KeysParse(entries) && Collected(Parsed(entries)) == m
  {
    forall i | 0 <= i < |entries| ensures ParseU16(entries[i].0).Some? { EntryOfWritten(m, entries[i].0); }
    var pairs := Parsed(entries);
    forall i | 0 <= i < |pairs|
      ensures pairs[i].0 in m && pairs[i].1 == m[pairs[i].0]
    {
      EntryOfWritten(m, entries[i].0);
    }
    forall k | k in m ensures exists i :: 0 <= i < |pairs| && pairs[i].0 == k { WrittenIsRead(m, entries, k); }
    CollectedIs(pairs, m);
  }

  /** A hand-written map loses an entry exactly when two of its keys read as the same PID, as
      `"5"`, `"05"` and `"+5"` do. */
  lemma {:induction false} LosesExactlyCollisions(pairs: seq<(nat, nat)>)
    ensures |Collected(pairs)| == |pairs| <==> forall i, j :: 0 <= i < j < |pairs| ==> pairs[i].0 != pairs[j].0
    ensures |Collected(pairs)| <= |pairs|
  {
    if pairs != [] {
      var front := pairs[..|pairs| - 1];
      LosesExactlyCollisions(front);
      assert forall i :: 0 <= i < |front| ==> front[i] == pairs[i];
      var k := pairs[|pairs| - 1].0;
      CollectedAt(front, k);
      assert Collected(pairs).Keys == Collected(front).Keys + {k};
      assert |Collected(pairs).Keys| == |Collected(front).Keys| + (if k in Collected(front) then 0 else 1);
    }
  }
}
