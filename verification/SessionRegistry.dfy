/** The WebRTC session registry of `src/api/webrtc.rs`: every interleaving of offers, DELETEs, flow
    unregistration, viewer exits and the reaper tasks. */
module SessionRegistry {
  type Token = nat

  datatype Handle = Handle(token: Token, whep: bool)

  /** `starting` holds WHEP sessions inserted whose reaper is not spawned yet, `reapers` the spawned
      ones, `removed` the tokens a DELETE has taken out and not yet cancelled; `used` the session IDs
      the engine has issued. */
  datatype Registry = Registry(
    sessions: map<string, Handle>, starting: set<(string, Token)>, reapers: set<(string, Token)>,
    removed: set<Token>, cancelled: set<Token>, used: set<string>)

  const NEW := Registry(map[], {}, {}, {}, {}, {})

  function Key(flow: string, session: string): string { flow + "/" + session }

  /** Session IDs are UUIDs: they hold no slash. */
  predicate IsSessionId(session: string) { '/' !in session }

  datatype Action =
    | InsertWhip(flow: string, session: string, token: Token)
    | InsertWhep(flow: string, session: string, token: Token)
    | Spawn(entry: (string, Token))
    | ViewerEnds(token: Token)
    | Reap(entry: (string, Token))
    | Delete(flow: string, session: string)
    | CancelRemoved(token: Token)
    | UnregisterFlow(flow: string)

  predicate Enabled(r: Registry, a: Action) {
    match a
    case InsertWhip(_, session, _) => IsSessionId(session) && session !in r.used
    case InsertWhep(_, session, _) => IsSessionId(session) && session !in r.used
    case Spawn(entry) => entry in r.starting
    case Reap(entry) => entry in r.reapers && entry.1 in r.cancelled
    case CancelRemoved(token) => token in r.removed
    case _ => true
  }

  /** The entries a flow's prefix does not match. */
  function Retained(sessions: map<string, Handle>, flow: string): map<string, Handle> {
    map k | k in sessions && !(flow + "/" <= k) :: sessions[k]
  }

  function Do(r: Registry, a: Action): Registry {
    match a
    case InsertWhip(flow, session, token) =>
      r.(sessions := r.sessions[Key(flow, session) := Handle(token, false)], used := r.used + {session})
    case InsertWhep(flow, session, token) =>
      r.(sessions := r.sessions[Key(flow, session) := Handle(token, true)], used := r.used + {session},
         starting := r.starting + {(Key(flow, session), token)})
    case Spawn(entry) => r.(starting := r.starting - {entry}, reapers := r.reapers + {entry})
    case ViewerEnds(token) => r.(cancelled := r.cancelled + {token})
    case Reap(entry) => r.(sessions := r.sessions - {entry.0}, reapers := r.reapers - {entry})
    case Delete(flow, session) =>
      if Key(flow, session) in r.sessions
      then r.(sessions := r.sessions - {Key(flow, session)},
          removed := r.removed + {r.sessions[Key(flow, session)].token})
      else r
    case CancelRemoved(token) => r.(removed := r.removed - {token}, cancelled := r.cancelled + {token})
    case UnregisterFlow(flow) => r.(sessions := Retained(r.sessions, flow))
  }

  predicate Runs(r: Registry, actions: seq<Action>) {
    actions == [] ||
    (Runs(r, actions[..|actions| - 1]) && Enabled(Done(r, actions[..|actions| - 1]), actions[|actions| - 1]))
  }

  function Done(r: Registry, actions: seq<Action>): Registry {
    if actions == [] then r else Do(Done(r, actions[..|actions| - 1]), actions[|actions| - 1])
  }

  // ---- Keys ----

  /** The part of a key after its last slash. */
  function LastPart(key: string): string {
    if key == [] || key[|key| - 1] == '/' then [] else LastPart(key[..|key| - 1]) + [key[|key| - 1]]
  }

  lemma {:induction false} LastPartOfKey(flow: string, session: string)
    requires IsSessionId(session)
    ensures LastPart(Key(flow, session)) == session
    decreases |session|
  {
    var key := Key(flow, session);
    if session == [] {
      assert key[|key| - 1] == '/';
    } else {
      var front := session[..|session| - 1];
      LastPartOfKey(flow, front);
      assert key[..|key| - 1] == Key(flow, front);
      assert session[|session| - 1] in session;
    }
  }

  /** A flow's prefix matches a session's key exactly when the session is that flow's own, or its
      flow's ID continues the prefix. */
  lemma PrefixMatches(flow: string, other: string, session: string)
    requires IsSessionId(session)
    ensures flow + "/" <= Key(other, session) <==> other == flow || flow + "/" <= other
  {
    var prefix, key := flow + "/", Key(other, session);
    if prefix <= key {
      assert key[|prefix| - 1] == '/';
      assert |prefix| <= |other| + 1;
      if |prefix| == |other| + 1 {
        assert flow == key[..|flow|] == other;
      } else {
        assert prefix == key[..|prefix|] == other[..|prefix|];
      }
    }
  }

  /** Unregistering a flow removes the sessions of just those flows whose ID it equals or leads, so
      only its own exactly when no other flow with a session has an ID under it. */
  lemma UnregisterRemoves(r: Registry, flow: string, other: string, session: string)
    requires IsSessionId(session) && Key(other, session) in r.sessions
    ensures Key(other, session) in Do(r, UnregisterFlow(flow)).sessions <==> other != flow && !(flow + "/" <= other)
  {
    PrefixMatches(flow, other, session);
  }

  /** Flow IDs may hold slashes, so one flow's stop can drop another's session. */
  lemma UnregisterCanHitAnotherFlow()
    ensures var r := Done(NEW, [InsertWhip("a/b", "s", 0), UnregisterFlow("a")]);
            Runs(NEW, [InsertWhip("a/b", "s", 0), UnregisterFlow("a")]) && Key("a/b", "s") !in r.sessions
  {
    var one := [InsertWhip("a/b", "s", 0)];
    var two := [InsertWhip("a/b", "s", 0), UnregisterFlow("a")];
    assert two[..1] == one;
    assert one[..0] == [];
    assert IsSessionId("s");
    assert Done(NEW, one) == Do(NEW, one[0]);
    assert Runs(NEW, one);
    UnregisterRemoves(Done(NEW, one), "a", "a/b", "s");
  }

  // ---- Reaping ----

  predicate Tracked(r: Registry, key: string, token: Token) { (key, token) in r.starting || (key, token) in r.reapers }

  ghost predicate Inv(r: Registry) {
    && (forall k <- r.sessions :: r.sessions[k].whep ==> Tracked(r, k, r.sessions[k].token))
    && (forall k, t :: Tracked(r, k, t) && k in r.sessions ==> r.sessions[k] == Handle(t, true))
    && (forall k <- r.sessions :: LastPart(k) in r.used)
    && (forall k, t :: Tracked(r, k, t) ==> LastPart(k) in r.used)
  }

  lemma InsertKeepsInv(r: Registry, a: Action)
    requires Inv(r) && Enabled(r, a) && (a.InsertWhip? || a.InsertWhep?)
    ensures Inv(Do(r, a))
  {
    LastPartOfKey(a.flow, a.session);
    var key := Key(a.flow, a.session);
    assert key !in r.sessions && forall t :: !Tracked(r, key, t);
    var d := Do(r, a);
    assert forall k, t :: Tracked(d, k, t) ==> Tracked(r, k, t) || (a.InsertWhep? && k == key && t == a.token);
  }

  lemma StepKeepsInv(r: Registry, a: Action)
    requires Inv(r) && Enabled(r, a)
    ensures Inv(Do(r, a))
  {
    if a.InsertWhip? || a.InsertWhep? {
      InsertKeepsInv(r, a);
    } else {
      var d := Do(r, a);
      assert forall k, t :: Tracked(d, k, t) ==> Tracked(r, k, t);
      assert forall k <- d.sessions :: k in r.sessions && d.sessions[k] == r.sessions[k];
    }
  }

  lemma {:induction false} RunKeepsInv(r: Registry, actions: seq<Action>)
    requires Inv(r) && Runs(r, actions)
    ensures Inv(Done(r, actions))
  {
    if actions != [] {
      RunKeepsInv(r, actions[..|actions| - 1]);
      StepKeepsInv(Done(r, actions[..|actions| - 1]), actions[|actions| - 1]);
    }
  }

  /** No reaper is left to spawn, and none of the spawned ones can run. */
  predicate Settled(r: Registry) {
    r.starting == {} && forall e <- r.reapers :: e.1 !in r.cancelled
  }

  /** In every run a WHEP entry has its reaper pending, so once the reapers have run no WHEP entry has
      a cancelled token. */
  lemma SettledHoldsNoEndedViewer(actions: seq<Action>, key: string)
    requires Runs(NEW, actions) && key in Done(NEW, actions).sessions && Done(NEW, actions).sessions[key].whep
    ensures var r := Done(NEW, actions);
            && Tracked(r, key, r.sessions[key].token)
            && (Settled(r) ==> r.sessions[key].token !in r.cancelled)
  {
    RunKeepsInv(NEW, actions);
    var r := Done(NEW, actions);
    assert Tracked(r, key, r.sessions[key].token);
  }

  /** A reaper never takes an entry that is not its own viewer's. */
  lemma ReaperTakesItsOwn(actions: seq<Action>, entry: (string, Token))
    requires Runs(NEW, actions) && Enabled(Done(NEW, actions), Reap(entry)) && entry.0 in Done(NEW, actions).sessions
    ensures Done(NEW, actions).sessions[entry.0] == Handle(entry.1, true) && entry.1 in Done(NEW, actions).cancelled
  {
    RunKeepsInv(NEW, actions);
    assert Tracked(Done(NEW, actions), entry.0, entry.1);
  }

  /** An offer's session is tracked under its flow and ID with its own token, and nothing else moves. */
  lemma OfferIsTracked(r: Registry, a: Action)
    requires Inv(r) && Enabled(r, a) && (a.InsertWhip? || a.InsertWhep?)
    ensures var d, key := Do(r, a), Key(a.flow, a.session);
            && key !in r.sessions && d.sessions == r.sessions[key := Handle(a.token, a.InsertWhep?)]
            && d.cancelled == r.cancelled && d.reapers == r.reapers
            && (a.InsertWhep? ==> (key, a.token) in d.starting)
  {
    LastPartOfKey(a.flow, a.session);
  }

  /** A DELETE takes exactly its own session and leaves its token cancelled, so that the session's task
      ends and a viewer's reaper can run; for an unknown session it does nothing. */
  lemma DeleteCancels(r: Registry, flow: string, session: string, key: string)
    requires Inv(r)
    ensures var own := Key(flow, session);
            && (own !in r.sessions ==> Do(r, Delete(flow, session)) == r)
            && (own in r.sessions ==>
                  var token := r.sessions[own].token;
                  var d := Do(Do(r, Delete(flow, session)), CancelRemoved(token));
                  && Enabled(Do(r, Delete(flow, session)), CancelRemoved(token))
                  && token in d.cancelled && own !in d.sessions
                  && (key != own ==> (key in d.sessions <==> key in r.sessions))
                  && (key != own && key in r.sessions ==> d.sessions[key] == r.sessions[key])
                  && ((own, token) in r.reapers ==> Enabled(d, Reap((own, token)))))
  {}

  /** However a viewer ends, its token is cancelled and its reaper, once spawned, takes its entry. */
  lemma EndedViewerIsReaped(r: Registry, key: string, token: Token)
    requires (key, token) in r.reapers
    ensures var ended := Do(r, ViewerEnds(token));
            && ended.sessions == r.sessions && Enabled(ended, Reap((key, token)))
            && key !in Do(ended, Reap((key, token))).sessions
  {}

  /** WHIP entries have no reaper: one whose publisher has gone stays, however settled the registry. */
  lemma EndedPublisherStays(flow: string, session: string, token: Token)
    requires IsSessionId(session)
    ensures var actions := [InsertWhip(flow, session, token), ViewerEnds(token)];
            var r := Done(NEW, actions);
            Runs(NEW, actions) && Settled(r) && Key(flow, session) in r.sessions
                && r.sessions[Key(flow, session)].token in r.cancelled
  {
    var one := [InsertWhip(flow, session, token)];
    var two := [InsertWhip(flow, session, token), ViewerEnds(token)];
    assert two[..1] == one;
    assert one[..0] == [];
    assert Done(NEW, one) == Do(NEW, one[0]);
    assert Runs(NEW, one);
  }

  // ---- The registry ----

  class WebrtcSessionRegistry {
    var sessions: map<string, Handle>
    var starting: set<(string, Token)>
    var reapers: set<(string, Token)>
    var cancelled: set<Token>
    ghost var used: set<string>

    ghost function Value(): Registry
      reads this
    {
      Registry(sessions, starting, reapers, {}, cancelled, used)
    }

    constructor ()
      ensures Value() == NEW
    {
      sessions, starting, reapers, cancelled, used := map[], {}, {}, {}, {};
    }

    method TrackWhip(flow: string, session: string, token: Token)
      modifies this
      ensures Value() == Do(old(Value()), InsertWhip(flow, session, token))
    {
      sessions := sessions[Key(flow, session) := Handle(token, false)];
      used := used + {session};
    }

    /** The tail of `handle_whep_offer` when nothing runs between the insert and the spawn. */
    method TrackWhep(flow: string, session: string, token: Token)
      requires (Key(flow, session), token) !in starting
      modifies this
      ensures Value() == Do(Do(old(Value()), InsertWhep(flow, session, token)), Spawn((Key(flow, session), token)))
    {
      sessions := sessions[Key(flow, session) := Handle(token, true)];
      reapers := reapers + {(Key(flow, session), token)};
      used := used + {session};
      assert (starting + {(Key(flow, session), token)}) - {(Key(flow, session), token)} == starting;
    }

    method RunReaper(entry: (string, Token))
      modifies this
      ensures Value() == if Enabled(old(Value()), Reap(entry)) then Do(old(Value()), Reap(entry)) else old(Value())
    {
      if entry in reapers && entry.1 in cancelled {
        sessions, reapers := sessions - {entry.0}, reapers - {entry};
      }
    }

    method RemoveSession(flow: string, session: string)
      modifies this
      ensures Key(flow, session) in old(sessions) ==>
                Value() == Do(Do(old(Value()), Delete(flow, session)),
                    CancelRemoved(old(sessions)[Key(flow, session)].token))
      ensures Key(flow, session) !in old(sessions) ==> Value() == old(Value())
    {
      var key := Key(flow, session);
      if key in sessions {
        cancelled := cancelled + {sessions[key].token};
        assert ({} + {sessions[key].token}) - {sessions[key].token} == {};
        sessions := sessions - {key};
      }
    }

    method Unregister(flow: string)
      modifies this
      ensures Value() == Do(old(Value()), UnregisterFlow(flow))
      ensures forall other, session :: IsSessionId(session) ==>
                (Key(other, session) in sessions <==>
                   Key(other, session) in old(sessions) && other != flow && !(flow + "/" <= other))
    {
      forall other, session | IsSessionId(session)
        ensures flow + "/" <= Key(other, session) <==> other == flow || flow + "/" <= other
      {
        PrefixMatches(flow, other, session);
      }
      sessions := map k | k in sessions && !(flow + "/" <= k) :: sessions[k];
    }
  }
}
