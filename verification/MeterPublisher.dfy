/** The lock-free hand-off of meter snapshots (`MeterPublisher` in `src/display/audio_bars.rs`):
    every interleaving of the publisher's steps with readers taking and dropping guards. */
module MeterPublisher {
  import opened Outcomes
  import opened M = MeterState

  type Buffer = nat
  type Reader = nat

  /** Where the publisher stands: in step with `shared`; holding an unpublished change; owning a
      reclaimed buffer it is overwriting; about to swap a finished one in. */
  datatype Phase = Idle | Dirty | Owning(buffer: Buffer) | Ready(buffer: Buffer)

  datatype Cell = Cell(
    memory: map<Buffer, Snapshot>, shared: Buffer, spare: Option<Buffer>, local: Snapshot,
    phase: Phase, guards: map<Reader, Buffer>)

  datatype Action =
    | Mutate(next: Snapshot)
    | Take(unused: Buffer)
    | Scribble(partial: Snapshot)
    | Fill
    | Swap
    | Load(reader: Reader)
    | Drop(reader: Reader)

  predicate Guarded(c: Cell, b: Buffer) { b in c.guards.Values }

  /** What a new allocation may be: anything nobody refers to, so memory is reused after it is freed. */
  predicate Unused(c: Cell, b: Buffer) { b != c.shared && c.spare != Some(b) && !Guarded(c, b) }

  predicate Enabled(c: Cell, a: Action) {
    match a
    case Mutate(_) => c.phase.Idle?
    case Take(unused) => c.phase.Dirty? && Unused(c, unused)
    case Scribble(_) => c.phase.Owning?
    case Fill => c.phase.Owning?
    case Swap => c.phase.Ready?
    case Load(r) => r !in c.guards
    case Drop(r) => r in c.guards
  }

  /** `Take` is `try_unwrap` on the spare: it succeeds when no guard refers to it; otherwise, or with
      no spare, a fresh copy is made. `Scribble` is any intermediate state of the overwrite. */
  function Do(c: Cell, a: Action): Cell {
    match a
    case Mutate(next) => c.(local := next, phase := Dirty)
    case Take(unused) =>
      if c.spare.Some? && !Guarded(c, c.spare.value)
      then c.(spare := None, phase := Owning(c.spare.value))
      else c.(spare := None, memory := c.memory[unused := c.local], phase := Ready(unused))
    case Scribble(partial) =>
      if c.phase.Owning? then c.(memory := c.memory[c.phase.buffer := partial]) else c
    case Fill =>
      if c.phase.Owning? then c.(memory := c.memory[c.phase.buffer := c.local], phase := Ready(c.phase.buffer)) else c
    case Swap =>
      if c.phase.Ready? then c.(shared := c.phase.buffer, spare := Some(c.shared), phase := Idle) else c
    case Load(r) => c.(guards := c.guards[r := c.shared])
    case Drop(r) => c.(guards := c.guards - {r})
  }

  predicate Inv(c: Cell) {
    && c.shared in c.memory
    && (forall r <- c.guards :: c.guards[r] in c.memory)
    && (c.spare.Some? ==> c.spare.value in c.memory && c.spare.value != c.shared)
    && (c.phase.Owning? || c.phase.Ready? ==>
          c.phase.buffer in c.memory && c.phase.buffer != c.shared && c.spare.None? && !Guarded(c, c.phase.buffer))
    && (c.phase.Ready? ==> c.memory[c.phase.buffer] == c.local)
    && (c.phase.Idle? ==> c.memory[c.shared] == c.local)
  }

  const NEW := Cell(map[0 := Snapshot([], 0)], 0, None, Snapshot([], 0), Idle, map[])

  predicate Runs(c: Cell, actions: seq<Action>) {
    actions == [] ||
    (Runs(c, actions[..|actions| - 1]) && Enabled(Done(c, actions[..|actions| - 1]), actions[|actions| - 1]))
  }

  function Done(c: Cell, actions: seq<Action>): Cell {
    if actions == [] then c else Do(Done(c, actions[..|actions| - 1]), actions[|actions| - 1])
  }

  // ---- The reference: clone and store ----

  /** Publishing stores a copy; a reader keeps the value it loaded. */
  datatype Store = Store(local: Snapshot, published: Snapshot, views: map<Reader, Snapshot>)

  function StoreStep(s: Store, a: Action): Store {
    match a
    case Mutate(next) => s.(local := next)
    case Swap => s.(published := s.local)
    case Load(r) => s.(views := s.views[r := s.published])
    case Drop(r) => s.(views := s.views - {r})
    case _ => s
  }

  function StoreRun(s: Store, actions: seq<Action>): Store {
    if actions == [] then s else StoreStep(StoreRun(s, actions[..|actions| - 1]), actions[|actions| - 1])
  }

  function Seen(c: Cell): Store
    requires Inv(c)
  {
    Store(c.local, c.memory[c.shared], map r | r in c.guards :: c.memory[c.guards[r]])
  }

  lemma StepKeepsInv(c: Cell, a: Action)
    requires Inv(c) && Enabled(c, a)
    ensures Inv(Do(c, a))
  {
    match a
    case Take(unused) =>
      if c.spare.Some? && !Guarded(c, c.spare.value) {} else {
        assert forall r <- c.guards :: c.guards[r] in c.guards.Values;
      }
    case Load(r) =>
      assert Do(c, a).guards.Values <= c.guards.Values + {c.shared};
    case Drop(r) =>
      assert Do(c, a).guards.Values <= c.guards.Values;
    case _ =>
  }

  /** Reusing buffers shows readers exactly what storing copies would. */
  lemma StepRefines(c: Cell, a: Action)
    requires Inv(c) && Enabled(c, a)
    ensures Inv(Do(c, a)) && Seen(Do(c, a)) == StoreStep(Seen(c), a)
  {
    StepKeepsInv(c, a);
    assert forall r <- c.guards :: c.guards[r] in c.guards.Values;
    assert Seen(Do(c, a)).views == StoreStep(Seen(c), a).views;
  }

  lemma {:induction false} ReclaimRefinesCloneAndStore(c: Cell, actions: seq<Action>)
    requires Inv(c) && Runs(c, actions)
    ensures Inv(Done(c, actions)) && Seen(Done(c, actions)) == StoreRun(Seen(c), actions)
  {
    if actions != [] {
      ReclaimRefinesCloneAndStore(c, actions[..|actions| - 1]);
      StepRefines(Done(c, actions[..|actions| - 1]), actions[|actions| - 1]);
    }
  }

  predicate Keeps(r: Reader, actions: seq<Action>) {
    forall i :: 0 <= i < |actions| ==> actions[i] != Load(r) && actions[i] != Drop(r)
  }

  lemma {:induction false} StoredViewStays(s: Store, actions: seq<Action>, r: Reader)
    requires r in s.views && Keeps(r, actions)
    ensures r in StoreRun(s, actions).views && StoreRun(s, actions).views[r] == s.views[r]
  {
    if actions != [] {
      StoredViewStays(s, actions[..|actions| - 1], r);
    }
  }

  /** While a reader keeps its guard, what it reads never changes, whatever else happens. */
  lemma ViewNeverChanges(c: Cell, actions: seq<Action>, r: Reader)
    requires Inv(c) && Runs(c, actions) && r in c.guards && Keeps(r, actions)
    ensures var d := Done(c, actions);
            r in d.guards && d.guards[r] in d.memory && d.memory[d.guards[r]] == c.memory[c.guards[r]]
  {
    ReclaimRefinesCloneAndStore(c, actions);
    StoredViewStays(Seen(c), actions, r);
    assert r in Seen(Done(c, actions)).views;
  }

  /** In every run a buffer being overwritten is one no reader holds and `shared` does not point to;
      and whenever the publisher rests, a reader arriving sees its working snapshot. */
  lemma OverwritesNobody(actions: seq<Action>)
    requires Runs(NEW, actions)
    ensures var d := Done(NEW, actions);
            && (d.phase.Owning? ==> !Guarded(d, d.phase.buffer) && d.phase.buffer != d.shared)
            && (d.phase.Idle? ==> d.shared in d.memory && d.memory[d.shared] == d.local)
  {
    ReclaimRefinesCloneAndStore(NEW, actions);
  }

  lemma {:induction false} StoredViewsWerePublished(s: Store, actions: seq<Action>, r: Reader)
    requires s.views == map[] && r in StoreRun(s, actions).views
    ensures StoreRun(s, actions).views[r] == s.published
            || exists k :: 0 <= k < |actions| && actions[k].Swap?
                && StoreRun(s, actions[..k]).local == StoreRun(s, actions).views[r]
    decreases |actions|
  {
    var n := |actions| - 1;
    assert actions != [];
    var before := StoreRun(s, actions[..n]);
    if actions[n] == Load(r) {
      PublishedWasLocal(s, actions[..n]);
      if before.published != s.published {
        var k :| 0 <= k < n && actions[..n][k].Swap? && StoreRun(s, actions[..n][..k]).local == before.published;
        assert actions[..n][..k] == actions[..k];
      }
    } else {
      StoredViewsWerePublished(s, actions[..n], r);
      if before.views[r] != s.published {
        var k :| 0 <= k < n && actions[..n][k].Swap? && StoreRun(s, actions[..n][..k]).local == before.views[r];
        assert actions[..n][..k] == actions[..k];
      }
    }
  }

  lemma {:induction false} PublishedWasLocal(s: Store, actions: seq<Action>)
    ensures StoreRun(s, actions).published == s.published
            || exists k :: 0 <= k < |actions| && actions[k].Swap?
                && StoreRun(s, actions[..k]).local == StoreRun(s, actions).published
  {
    if actions != [] {
      var n := |actions| - 1;
      var before := StoreRun(s, actions[..n]);
      if actions[n].Swap? {
        assert StoreRun(s, actions[..n]).local == StoreRun(s, actions).published;
      } else {
        PublishedWasLocal(s, actions[..n]);
        if before.published != s.published {
          var k :| 0 <= k < n && actions[..n][k].Swap? && StoreRun(s, actions[..n][..k]).local == before.published;
          assert actions[..n][..k] == actions[..k];
        }
      }
    }
  }

  lemma {:induction false} PrefixRuns(c: Cell, actions: seq<Action>, k: nat)
    requires Runs(c, actions) && k <= |actions|
    ensures Runs(c, actions[..k])
  {
    if k < |actions| {
      PrefixRuns(c, actions[..|actions| - 1], k);
      assert actions[..|actions| - 1][..k] == actions[..k];
    } else {
      assert actions[..k] == actions;
    }
  }

  /** A reader sees whole snapshots only: the buffer it holds reads the first snapshot, or what the
      publisher's working snapshot was at some swap, never a buffer half overwritten. */
  lemma ViewsWerePublished(actions: seq<Action>, r: Reader)
    requires Runs(NEW, actions) && r in Done(NEW, actions).guards
    ensures var d := Done(NEW, actions);
            && d.guards[r] in d.memory
            && (|| d.memory[d.guards[r]] == Snapshot([], 0)
                || exists k :: 0 <= k < |actions| && actions[k].Swap?
                     && Done(NEW, actions[..k]).local == d.memory[d.guards[r]])
  {
    ReclaimRefinesCloneAndStore(NEW, actions);
    var d, view := Done(NEW, actions), StoreRun(Seen(NEW), actions).views;
    assert r in Seen(d).views && d.memory[d.guards[r]] == view[r];
    StoredViewsWerePublished(Seen(NEW), actions, r);
    if view[r] != Snapshot([], 0) {
      var k :| 0 <= k < |actions| && actions[k].Swap? && StoreRun(Seen(NEW), actions[..k]).local == view[r];
      PrefixRuns(NEW, actions, k);
      ReclaimRefinesCloneAndStore(NEW, actions[..k]);
    }
  }

  // ---- The publisher ----

  /** One uninterrupted publish. */
  function Published(c: Cell, unused: Buffer): Cell {
    var taken := Do(c, Take(unused));
    Do(if taken.phase.Owning? then Do(taken, Fill) else taken, Swap)
  }

  lemma PublishShowsLocal(c: Cell, unused: Buffer)
    requires Inv(c) && c.phase.Dirty? && Unused(c, unused)
    ensures var d := Published(c, unused);
            && Inv(d) && d.phase.Idle? && d.local == c.local && d.guards == c.guards
            && d.memory[d.shared] == c.local
            && forall b <- c.guards.Values :: b in d.memory && d.memory[b] == c.memory[b]
  {
    StepKeepsInv(c, Take(unused));
    var taken := Do(c, Take(unused));
    if taken.phase.Owning? { StepKeepsInv(taken, Fill); }
    StepKeepsInv(if taken.phase.Owning? then Do(taken, Fill) else taken, Swap);
  }

  /** A publish reuses the buffer last swapped out whenever no reader holds it, and allocates otherwise;
      the one it swaps out is the next to be reused. */
  lemma PublishReusesIdleBuffer(c: Cell, unused: Buffer)
    requires Inv(c) && c.phase.Dirty? && Unused(c, unused)
    ensures var d := Published(c, unused);
            && d.spare == Some(c.shared)
            && (c.spare.Some? && (forall r <- c.guards :: c.guards[r] != c.spare.value) ==>
                  d.shared == c.spare.value && d.memory.Keys == c.memory.Keys)
            && (c.spare.None? || (exists r <- c.guards :: c.guards[r] == c.spare.value) ==> d.shared == unused)
  {
    if c.spare.Some? && Guarded(c, c.spare.value) {
      assert exists r <- c.guards :: c.guards[r] == c.spare.value;
    }
    assert forall r <- c.guards :: c.guards[r] in c.guards.Values;
  }

  method FindPid(ps: seq<PidMeter>, pid: nat) returns (i: nat)
    ensures i == IndexOf(ps, pid)
  {
    i := 0;
    while i < |ps| && ps[i].pid != pid
      invariant i <= |ps| && forall j :: 0 <= j < i ==> ps[j].pid != pid
    {
      i := i + 1;
    }
  }

  method FeedChannels(m: Scale, chs: seq<Level>, planar: seq<seq<real>>, now: int) returns (r: seq<Level>)
    requires |chs| == |planar|
    ensures |r| == |planar| && forall i :: 0 <= i < |planar| ==> r[i] == Fed(m, chs[i], planar[i], now)
  {
    r := chs;
    for i := 0 to |planar|
      invariant |r| == |planar|
      invariant forall j :: 0 <= j < i ==> r[j] == Fed(m, chs[j], planar[j], now)
      invariant forall j :: i <= j < |planar| ==> r[j] == chs[j]
    {
      var peak, rms := Measure(m, planar[i]);
      var ch := r[i].(peak := peak, rms := rms);
      if peak >= ch.hold || now >= ch.holdUntil {
        ch := ch.(hold := peak, holdUntil := now + PEAK_HOLD_MS);
      }
      r := r[i := ch];
    }
  }

  method SilenceChannels(chs: seq<Level>) returns (r: seq<Level>, changed: bool)
    ensures r == seq(|chs|, i requires 0 <= i < |chs| => Quiet(chs[i]))
    ensures changed <==> r != chs
  {
    r, changed := chs, false;
    for i := 0 to |chs|
      invariant |r| == |chs|
      invariant forall j :: 0 <= j < i ==> r[j] == Quiet(chs[j])
      invariant forall j :: i <= j < |chs| ==> r[j] == chs[j]
      invariant changed <==> exists j :: 0 <= j < i && r[j] != chs[j]
    {
      if r[i].rms != FLOOR || r[i].peak != FLOOR || r[i].hold != FLOOR {
        r, changed := r[i := Quiet(r[i])], true;
      }
    }
  }

  lemma InsertPast(ps: seq<PidMeter>, p: PidMeter, i: nat)
    requires i < |ps| && ps[i].pid <= p.pid
    ensures ps[..i] + Insert(ps[i..], p) == ps[..i + 1] + Insert(ps[i + 1..], p)
  {
    var rest := Insert(ps[i + 1..], p);
    assert ps[i..][0] == ps[i] && ps[i..][1..] == ps[i + 1..];
    Regroup(ps[..i], [ps[i]], rest);
    assert ps[..i] + [ps[i]] == ps[..i + 1];
  }

  lemma Regroup(a: seq<PidMeter>, b: seq<PidMeter>, c: seq<PidMeter>)
    ensures a + (b + c) == a + b + c
  {}

  /** The sort after a push: one entry moved down to its place. */
  method SortIn(ps: seq<PidMeter>, p: PidMeter) returns (r: seq<PidMeter>)
    ensures r == Insert(ps, p)
  {
    var i := 0;
    while i < |ps| && ps[i].pid <= p.pid
      invariant i <= |ps|
      invariant Insert(ps, p) == ps[..i] + Insert(ps[i..], p)
    {
      InsertPast(ps, p, i);
      i := i + 1;
    }
    r := ps[..i] + [p] + ps[i..];
    assert Insert(ps[i..], p) == [p] + ps[i..];
  }

  class Publisher {
    var perPid: seq<PidMeter>
    var generation: nat
    var memory: map<Buffer, Snapshot>
    var shared: Buffer
    var spare: Option<Buffer>
    var publishCount: nat

    function Local(): Snapshot
      reads this
    {
      Snapshot(perPid, generation)
    }

    ghost function Value(guards: map<Reader, Buffer>, phase: Phase): Cell
      reads this
    {
      Cell(memory, shared, spare, Local(), phase, guards)
    }

    /** Readers holding `guards` may be there throughout; `unused` is what an allocation would return. */
    ghost predicate Valid(guards: map<Reader, Buffer>, unused: Buffer)
      reads this
    {
      Inv(Value(guards, Idle)) && Unused(Value(guards, Idle), unused)
    }

    constructor ()
      ensures Value(map[], Idle) == NEW && publishCount == 0
    {
      perPid, generation, memory, shared, spare, publishCount := [], 0, map[0 := Snapshot([], 0)], 0, None, 0;
    }

    method Publish(guards: map<Reader, Buffer>, unused: Buffer)
      requires Inv(Value(guards, Dirty)) && Unused(Value(guards, Dirty), unused)
      modifies this
      ensures Value(guards, Idle) == Published(old(Value(guards, Dirty)), unused)
      ensures publishCount == Next(old(publishCount))
    {
      var ready := unused;
      if spare.Some? && spare.value !in guards.Values { ready := spare.value; }
      memory := memory[ready := Local()];
      shared, spare := ready, Some(shared);
      publishCount := Next(publishCount);
    }

    /** What every operation promises: the working snapshot steps, and readers see it and nothing
        they hold changes. */
    twostate predicate Stepped(m: Scale, op: Op, guards: map<Reader, Buffer>)
      reads this
    {
      && Local() == Step(m, old(Local()), op)
      && Inv(Value(guards, Idle))
      && shared in memory && memory[shared] == Local()
      && (forall b <- guards.Values :: b in memory && b in old(memory) && memory[b] == old(memory[b]))
      && publishCount == (if Publishes(old(perPid), perPid, op) then Next(old(publishCount)) else old(publishCount))
    }

    method UpdateLevels(m: Scale, planar: seq<seq<real>>, pid: nat, codec: string, now: int,
            guards: map<Reader, Buffer>, unused: Buffer)
      requires Valid(guards, unused)
      modifies this
      ensures Stepped(m, Update(planar, pid, codec, now), guards)
    {
      if |planar| == 0 { return; }
      generation := Next(generation);
      var i := FindPid(perPid, pid);
      var p := if i < |perPid| then perPid[i] else NewMeter(pid, codec, |planar|, now);
      var relabel := |p.channels| != |planar| || p.codec != codec;
      var resized := seq(|planar|, j requires 0 <= j < |planar| => Channel(p, j, now));
      var fed := FeedChannels(m, resized, planar, now);
      var meter := PidMeter(pid, codec, fed, now, if relabel then Compose(pid, codec, |planar|) else p.cachedLabel);
      assert meter == Metered(m, p, planar, codec, now);
      if i < |perPid| {
        perPid := perPid[i := meter];
      } else {
        perPid := SortIn(perPid, meter);
      }
      PublishShowsLocal(Value(guards, Dirty), unused);
      Publish(guards, unused);
    }

    method SilenceStaleLevels(m: Scale, now: int, staleAfter: nat, guards: map<Reader, Buffer>, unused: Buffer)
      requires Valid(guards, unused)
      modifies this
      ensures Stepped(m, SilenceStale(now, staleAfter), guards)
    {
      var ps, changed := perPid, false;
      for i := 0 to |perPid|
        invariant |ps| == |perPid| && Value(guards, Idle) == old(Value(guards, Idle))
                && publishCount == old(publishCount)
        invariant forall j :: 0 <= j < i ==> ps[j] == Silenced(perPid[j], now, staleAfter)
        invariant forall j :: i <= j < |perPid| ==> ps[j] == perPid[j]
        invariant changed <==> exists j :: 0 <= j < i && ps[j] != perPid[j]
      {
        if !IsStale(ps[i], now, staleAfter) { continue; }
        var chs, silenced := SilenceChannels(ps[i].channels);
        ps := ps[i := ps[i].(channels := chs)];
        changed := changed || silenced;
      }
      assert ps == SilencedPids(perPid, now, staleAfter);
      perPid := ps;
      if changed {
        generation := Next(generation);
        PublishShowsLocal(Value(guards, Dirty), unused);
        Publish(guards, unused);
      }
    }

    method RemovePid(m: Scale, pid: nat, guards: map<Reader, Buffer>, unused: Buffer)
      requires Valid(guards, unused)
      modifies this
      ensures Stepped(m, Remove(pid), guards)
    {
      var kept := Retain(perPid, pid);
      ShorterIffGone(perPid, pid);
      var changed := |kept| != |perPid|;
      perPid := kept;
      if changed {
        generation := Next(generation);
        PublishShowsLocal(Value(guards, Dirty), unused);
        Publish(guards, unused);
      }
    }

    method ClearAllPids(m: Scale, guards: map<Reader, Buffer>, unused: Buffer)
      requires Valid(guards, unused)
      modifies this
      ensures Stepped(m, ClearAll, guards)
    {
      if |perPid| == 0 { return; }
      perPid := [];
      generation := Next(generation);
      PublishShowsLocal(Value(guards, Dirty), unused);
      Publish(guards, unused);
    }
  }

  method Retain(ps: seq<PidMeter>, pid: nat) returns (r: seq<PidMeter>)
    ensures r == Without(ps, pid)
  {
    r := [];
    for i := 0 to |ps|
      invariant Without(ps, pid) == r + Without(ps[i..], pid)
    {
      assert ps[i..][1..] == ps[i + 1..];
      if ps[i].pid != pid { r := r + [ps[i]]; }
    }
  }

  lemma {:induction false} ShorterIffGone(ps: seq<PidMeter>, pid: nat)
    ensures |Without(ps, pid)| <= |ps|
    ensures |Without(ps, pid)| == |ps| <==> Without(ps, pid) == ps
  {
    if ps != [] {
      ShorterIffGone(ps[1..], pid);
      assert ps == [ps[0]] + ps[1..];
    }
  }
}
