/** What the meter task computes (`src/display/audio_bars.rs`): per-PID channel levels, labels and
    peak hold, as values. Amplitudes and decibels are real numbers; the square root and the
    decibel scale are parameters with the properties the code relies on. */
module MeterState {
  import opened Outcomes
  import Decimal

  const FLOOR := -120.0
  const PEAK_HOLD_MS: int := 1500
  const WRAP: nat := 0x1_0000_0000_0000_0000

  datatype Scale = Scale(sqrt: real -> real, db: real -> real)

  ghost predicate Measures(m: Scale) {
    && (forall x: real :: x >= 0.0 ==> m.sqrt(x) >= 0.0 && m.sqrt(x) * m.sqrt(x) == x)
    && (forall a: real, b: real :: 0.0 < a <= b ==> m.db(a) <= m.db(b))
  }

  datatype Level = Level(rms: real, peak: real, hold: real, holdUntil: int)
  datatype PidMeter = PidMeter(pid: nat, codec: string, channels: seq<Level>, lastUpdate: int, cachedLabel: string)
  datatype Snapshot = Snapshot(perPid: seq<PidMeter>, generation: nat)

  function Silence(now: int): Level { Level(FLOOR, FLOOR, FLOOR, now) }

  // ---- One channel ----

  /** `amp_to_dbfs`. */
  function AmpToDbfs(m: Scale, amp: real): (r: real)
    ensures FLOOR <= r <= 0.0
  {
    if amp <= 0.0 then FLOOR
    else if m.db(amp) < FLOOR then FLOOR
    else if m.db(amp) > 0.0 then 0.0
    else m.db(amp)
  }

  function Magnitude(x: real): real { if x < 0.0 then -x else x }

  function Peak(plane: seq<real>): real {
    if plane == [] then 0.0
    else
      var a := Magnitude(plane[|plane| - 1]);
      if a > Peak(plane[..|plane| - 1]) then a else Peak(plane[..|plane| - 1])
  }

  function SumOfSquares(plane: seq<real>): real {
    if plane == [] then 0.0
    else SumOfSquares(plane[..|plane| - 1]) + plane[|plane| - 1] * plane[|plane| - 1]
  }

  function PeakDbfs(m: Scale, plane: seq<real>): real {
    if plane == [] then FLOOR else AmpToDbfs(m, Peak(plane))
  }

  function RmsDbfs(m: Scale, plane: seq<real>): real {
    if plane == [] then FLOOR else AmpToDbfs(m, m.sqrt(SumOfSquares(plane) / |plane| as real))
  }

  method Measure(m: Scale, plane: seq<real>) returns (peakDbfs: real, rmsDbfs: real)
    ensures peakDbfs == PeakDbfs(m, plane) && rmsDbfs == RmsDbfs(m, plane)
  {
    if |plane| == 0 { return FLOOR, FLOOR; }
    var peak, sumSq := 0.0, 0.0;
    for i := 0 to |plane|
      invariant peak == Peak(plane[..i]) && sumSq == SumOfSquares(plane[..i])
    {
      assert plane[..i + 1][..i] == plane[..i];
      var a := Magnitude(plane[i]);
      if a > peak { peak := a; }
      sumSq := sumSq + plane[i] * plane[i];
    }
    assert plane[..|plane|] == plane;
    return AmpToDbfs(m, peak), AmpToDbfs(m, m.sqrt(sumSq / |plane| as real));
  }

  lemma {:induction false} PeakBounds(plane: seq<real>)
    ensures Peak(plane) >= 0.0
    ensures forall i :: 0 <= i < |plane| ==> Magnitude(plane[i]) <= Peak(plane)
  {
    if plane != [] {
      var front := plane[..|plane| - 1];
      PeakBounds(front);
      assert forall i :: 0 <= i < |front| ==> front[i] == plane[i];
    }
  }

  /** The peak is the greatest magnitude in the block, and the magnitude of one of its samples. */
  lemma {:induction false} PeakIsMaximum(plane: seq<real>) returns (at: nat)
    requires plane != []
    ensures at < |plane| && Magnitude(plane[at]) == Peak(plane)
    ensures forall i :: 0 <= i < |plane| ==> Magnitude(plane[i]) <= Peak(plane)
  {
    PeakBounds(plane);
    var front := plane[..|plane| - 1];
    at := |plane| - 1;
    if front != [] && Peak(plane) != Magnitude(plane[at]) { at := PeakIsMaximum(front); }
  }

  lemma SquareAtMost(x: real, p: real)
    requires -p <= x <= p
    ensures 0.0 <= x * x <= p * p
  {
    if x < 0.0 { assert (-x) * (-x) <= p * (-x) <= p * p; } else { assert x * x <= p * x <= p * p; }
  }

  lemma {:induction false} SumAtMost(plane: seq<real>, p: real)
    requires forall i :: 0 <= i < |plane| ==> Magnitude(plane[i]) <= p
    ensures 0.0 <= SumOfSquares(plane) <= |plane| as real * (p * p)
  {
    if plane != [] {
      var front, last := plane[..|plane| - 1], plane[|plane| - 1];
      SumAtMost(front, p);
      SquareAtMost(last, p);
      assert |plane| as real == |front| as real + 1.0;
      assert (|front| as real + 1.0) * (p * p) == |front| as real * (p * p) + p * p;
    }
  }

  lemma PositiveProduct(a: real, b: real)
    requires a > 0.0 && b > 0.0
    ensures a * b > 0.0
  {}

  lemma RootAtMost(r: real, p: real)
    requires r >= 0.0 && p >= 0.0 && r * r <= p * p
    ensures r <= p
  {
    if r > p {
      PositiveProduct(r - p, r + p);
    }
  }

  lemma MeanAtMost(sum: real, n: real, bound: real)
    requires n > 0.0 && 0.0 <= sum <= n * bound
    ensures 0.0 <= sum / n <= bound
  {
    assert sum == (sum / n) * n;
  }

  lemma DbfsIsMonotone(m: Scale, a: real, b: real)
    requires Measures(m) && a <= b
    ensures AmpToDbfs(m, a) <= AmpToDbfs(m, b)
  {}

  /** The root mean square never reads above the peak. */
  lemma RmsAtMostPeak(m: Scale, plane: seq<real>)
    requires Measures(m)
    ensures FLOOR <= RmsDbfs(m, plane) <= PeakDbfs(m, plane) <= 0.0
  {
    if plane != [] {
      PeakBounds(plane);
      var p := Peak(plane);
      SumAtMost(plane, p);
      MeanAtMost(SumOfSquares(plane), |plane| as real, p * p);
      var r := m.sqrt(SumOfSquares(plane) / |plane| as real);
      RootAtMost(r, p);
      DbfsIsMonotone(m, r, p);
    }
  }

  // ---- What a level reads ----

  lemma {:induction false} SumOfSquaresConcat(a: seq<real>, b: seq<real>)
    ensures SumOfSquares(a + b) == SumOfSquares(a) + SumOfSquares(b)
  {
    if b == [] {
      assert a + b == a;
    } else {
      var front := b[..|b| - 1];
      SumOfSquaresConcat(a, front);
      assert (a + b)[..|a + b| - 1] == a + front;
    }
  }

  lemma SumOfOneSquare(x: real)
    ensures SumOfSquares([x]) == x * x && SumOfSquares([]) == 0.0
  {
    assert [x][..0] == [];
  }

  lemma {:induction false} SumOfEqual(plane: seq<real>, p: real)
    requires forall i :: 0 <= i < |plane| ==> Magnitude(plane[i]) == p
    ensures SumOfSquares(plane) == |plane| as real * (p * p)
  {
    if plane != [] {
      var front, last := plane[..|plane| - 1], plane[|plane| - 1];
      SumOfEqual(front, p);
      assert last * last == p * p;
      assert |plane| as real == |front| as real + 1.0;
      assert (|front| as real + 1.0) * (p * p) == |front| as real * (p * p) + p * p;
    }
  }

  lemma RootOfSquare(m: Scale, p: real)
    requires Measures(m) && p >= 0.0
    ensures m.sqrt(p * p) == p
  {
    var r := m.sqrt(p * p);
    assert r >= 0.0 && r * r == p * p;
    RootAtMost(r, p);
    RootAtMost(p, r);
  }

  lemma Quotient(n: real, x: real)
    requires n > 0.0
    ensures (n * x) / n == x
  {}

  /** A level in range reads the decibels of its amplitude, one above full scale 0, and one below the
      floor, or of silence, -120. */
  lemma DbfsIsExact(m: Scale, amp: real)
    ensures amp > 0.0 && -120.0 <= m.db(amp) <= 0.0 ==> AmpToDbfs(m, amp) == m.db(amp)
    ensures amp > 0.0 && m.db(amp) > 0.0 ==> AmpToDbfs(m, amp) == 0.0
    ensures amp <= 0.0 || m.db(amp) < -120.0 ==> AmpToDbfs(m, amp) == -120.0
  {}

  predicate LogLaw(m: Scale, a: real, b: real) { a > 0.0 && b > 0.0 ==> m.db(a * b) == m.db(a) + m.db(b) }

  /** Twenty times the common logarithm. */
  ghost predicate IsDecibels(m: Scale) {
    Measures(m) && m.db(10.0) == 20.0 && forall a: real, b: real :: LogLaw(m, a, b)
  }

  lemma SumLast(front: seq<real>, x: real)
    ensures SumOfSquares(front + [x]) == SumOfSquares(front) + x * x
  {
    assert (front + [x])[..|front|] == front;
  }

  /** Silent samples add nothing to the sum. */
  lemma {:induction false} SilenceAddsNothing(plane: seq<real>, silence: seq<real>)
    requires forall i :: 0 <= i < |silence| ==> silence[i] == 0.0
    ensures SumOfSquares(plane + silence) == SumOfSquares(plane)
  {
    if silence == [] {
      assert plane + silence == plane;
    } else {
      var front := silence[..|silence| - 1];
      SilenceAddsNothing(plane, front);
      SumLast(plane + front, 0.0);
      assert plane + silence == plane + front + [0.0];
    }
  }

  /** What a block reads is settled by its mean square alone: the root mean square is the amplitude of a
      flat block of the same length that has it. */
  lemma RmsOfMeanSquare(m: Scale, plane: seq<real>, p: real)
    requires Measures(m) && plane != [] && p >= 0.0 && SumOfSquares(plane) == |plane| as real * (p * p)
    ensures RmsDbfs(m, plane) == AmpToDbfs(m, p)
  {
    Quotient(|plane| as real, p * p);
    assert SumOfSquares(plane) / |plane| as real == p * p;
    RootOfSquare(m, p);
  }

  /** A block whose samples all have one magnitude has its root mean square at its peak. */
  lemma FlatBlockReadsItsPeak(m: Scale, plane: seq<real>, p: real)
    requires Measures(m) && plane != [] && forall i :: 0 <= i < |plane| ==> Magnitude(plane[i]) == p
    ensures Peak(plane) == p && RmsDbfs(m, plane) == PeakDbfs(m, plane) == AmpToDbfs(m, p)
  {
    var at := PeakIsMaximum(plane);
    SumOfEqual(plane, p);
    RmsOfMeanSquare(m, plane, p);
  }

  /** Full scale reads 0 dBFS, and a tenth of it -20. */
  lemma FullScaleReadsZero(m: Scale, plane: seq<real>)
    requires IsDecibels(m) && plane != []
    ensures Peak(plane) >= 1.0 ==> PeakDbfs(m, plane) == 0.0
    ensures Peak(plane) == 0.1 ==> PeakDbfs(m, plane) == -20.0
  {
    assert LogLaw(m, 1.0, 1.0) && LogLaw(m, 0.1, 10.0);
    assert m.db(1.0) == 0.0 && m.db(0.1) == -20.0;
  }

  predicate SetsHold(ch: Level, peak: real, now: int) { peak >= ch.hold || now >= ch.holdUntil }

  function Fed(m: Scale, ch: Level, plane: seq<real>, now: int): Level {
    var peak := PeakDbfs(m, plane);
    if SetsHold(ch, peak, now) then Level(RmsDbfs(m, plane), peak, peak, now + PEAK_HOLD_MS)
    else Level(RmsDbfs(m, plane), peak, ch.hold, ch.holdUntil)
  }

  // ---- Labels ----

  function HexDigit(d: nat): char
    requires d < 16
  {
    "0123456789ABCDEF"[d]
  }

  function Hex(n: nat): string {
    if n < 16 then [HexDigit(n)] else Hex(n / 16) + [HexDigit(n % 16)]
  }

  /** `compose_pid_label_into`. */
  function Compose(pid: nat, codec: string, channels: nat): string {
    "0x" + Hex(pid) + " " + codec + " " +
    (match channels
     case 1 => "1.0"
     case 2 => "2.0"
     case 6 => "5.1"
     case 8 => "7.1"
     case n => Decimal.Dec(n) + "CH")
  }

  function HexValueOf(c: char): nat {
    if '0' <= c <= '9' then c as nat - '0' as nat else if 'A' <= c then c as nat - 'A' as nat + 10 else 0
  }

  function HexValue(s: string): nat { if s == [] then 0 else HexValue(s[..|s| - 1]) * 16 + HexValueOf(s[|s| - 1]) }

  predicate IsHex(s: string) { forall c <- s :: '0' <= c <= '9' || 'A' <= c <= 'F' }

  lemma HexDigitReadsBack(d: nat)
    requires d < 16
    ensures HexValueOf(HexDigit(d)) == d && IsHex([HexDigit(d)])
  {}

  /** The PID in a label is its hexadecimal text. */
  lemma {:induction false} HexReadsBack(n: nat)
    ensures HexValue(Hex(n)) == n && IsHex(Hex(n)) && Hex(n) != []
  {
    if n < 16 {
      HexDigitReadsBack(n);
      assert [HexDigit(n)][..0] == [];
    } else {
      HexReadsBack(n / 16);
      HexDigitReadsBack(n % 16);
      assert Hex(n)[..|Hex(n)| - 1] == Hex(n / 16);
    }
  }

  /** A label reads `0x`, the PID, the codec and the channel layout: mono, stereo, 5.1 and 7.1 by name,
      any other count as a number of channels. */
  lemma LabelReads(pid: nat, codec: string)
    ensures Compose(pid, codec, 1) == "0x" + Hex(pid) + " " + codec + " " + "1.0"
    ensures Compose(pid, codec, 2) == "0x" + Hex(pid) + " " + codec + " " + "2.0"
    ensures Compose(pid, codec, 6) == "0x" + Hex(pid) + " " + codec + " " + "5.1"
    ensures Compose(pid, codec, 8) == "0x" + Hex(pid) + " " + codec + " " + "7.1"
    ensures forall n :: n !in {1, 2, 6, 8} ==>
              Compose(pid, codec, n) == "0x" + Hex(pid) + " " + codec + " " + (Decimal.Dec(n) + "CH")
  {}

  lemma SplitAtSpace(a: string, b: string, x: string, y: string)
    requires ' ' !in a && ' ' !in b && a + " " + x == b + " " + y
    ensures a == b && x == y
  {
    var s := a + " " + x;
    assert s[|a|] == ' ' && s[|b|] == ' ';
    assert |a| == |b|;
    assert s[..|a|] == a && s[..|b|] == b && s[|a| + 1..] == x && s[|b| + 1..] == y;
  }

  lemma ComposeSplits(pid: nat, codec: string, channels: nat)
    ensures Compose(pid, codec, channels) == ("0x" + Hex(pid)) + " " + TailOf(codec, channels)
  {}

  lemma PrefixTellsPid(p: nat, q: nat)
    requires "0x" + Hex(p) == "0x" + Hex(q)
    ensures p == q
  {
    assert ("0x" + Hex(p))[2..] == Hex(p) && ("0x" + Hex(q))[2..] == Hex(q);
    HexReadsBack(p);
    HexReadsBack(q);
  }

  /** No two PIDs share a label. */
  lemma LabelTellsPid(p: nat, q: nat, codec: string, codec': string, n: nat, n': nat)
    requires Compose(p, codec, n) == Compose(q, codec', n')
    ensures p == q
  {
    ComposeSplits(p, codec, n);
    ComposeSplits(q, codec', n');
    HexReadsBack(p);
    HexReadsBack(q);
    SplitAtSpace("0x" + Hex(p), "0x" + Hex(q), TailOf(codec, n), TailOf(codec', n'));
    PrefixTellsPid(p, q);
  }

  function TailOf(codec: string, channels: nat): string {
    codec + " " +
    (match channels
     case 1 => "1.0"
     case 2 => "2.0"
     case 6 => "5.1"
     case 8 => "7.1"
     case n => Decimal.Dec(n) + "CH")
  }

  // ---- The operations ----

  function IndexOf(ps: seq<PidMeter>, pid: nat): (i: nat)
    ensures i <= |ps|
    ensures i < |ps| ==> ps[i].pid == pid
    ensures forall j :: 0 <= j < i ==> ps[j].pid != pid
  {
    if ps == [] then 0 else if ps[0].pid == pid then 0 else 1 + IndexOf(ps[1..], pid)
  }

  function Channel(p: PidMeter, i: nat, now: int): Level {
    if i < |p.channels| then p.channels[i] else Silence(now)
  }

  function Metered(m: Scale, p: PidMeter, planar: seq<seq<real>>, codec: string, now: int): PidMeter {
    PidMeter(
      p.pid, codec,
      seq(|planar|, i requires 0 <= i < |planar| => Fed(m, Channel(p, i, now), planar[i], now)),
      now,
      if |p.channels| != |planar| || p.codec != codec then Compose(p.pid, codec, |planar|) else p.cachedLabel)
  }

  function NewMeter(pid: nat, codec: string, channels: nat, now: int): PidMeter {
    PidMeter(pid, codec, seq(channels, _ => Silence(now)), now, Compose(pid, codec, channels))
  }

  /** Appending and sorting by PID. */
  function Insert(ps: seq<PidMeter>, p: PidMeter): seq<PidMeter> {
    if ps == [] then [p] else if ps[0].pid > p.pid then [p] + ps else [ps[0]] + Insert(ps[1..], p)
  }

  function Next(generation: nat): nat { (generation + 1) % WRAP }

  function UpdatedPids(m: Scale, ps: seq<PidMeter>, planar: seq<seq<real>>, pid: nat, codec: string,
          now: int): seq<PidMeter> {
    var i := IndexOf(ps, pid);
    if i < |ps| then ps[i := Metered(m, ps[i], planar, codec, now)]
    else Insert(ps, Metered(m, NewMeter(pid, codec, |planar|, now), planar, codec, now))
  }

  function Quiet(ch: Level): Level { ch.(rms := FLOOR, peak := FLOOR, hold := FLOOR) }

  predicate IsStale(p: PidMeter, now: int, staleAfter: nat) {
    (if now < p.lastUpdate then 0 else now - p.lastUpdate) >= staleAfter
  }

  function Silenced(p: PidMeter, now: int, staleAfter: nat): PidMeter {
    if IsStale(p, now, staleAfter)
    then p.(channels := seq(|p.channels|, i requires 0 <= i < |p.channels| => Quiet(p.channels[i])))
    else p
  }

  function SilencedPids(ps: seq<PidMeter>, now: int, staleAfter: nat): seq<PidMeter> {
    seq(|ps|, i requires 0 <= i < |ps| => Silenced(ps[i], now, staleAfter))
  }

  function Without(ps: seq<PidMeter>, pid: nat): seq<PidMeter> {
    if ps == [] then [] else if ps[0].pid == pid then Without(ps[1..], pid) else [ps[0]] + Without(ps[1..], pid)
  }

  datatype Op =
    | Update(planar: seq<seq<real>>, pid: nat, codec: string, now: int)
    | SilenceStale(at: int, staleAfter: nat)
    | Remove(gone: nat)
    | ClearAll

  /** The entries an operation leaves. */
  function Entries(m: Scale, ps: seq<PidMeter>, op: Op): seq<PidMeter> {
    match op
    case Update(planar, pid, codec, now) => if planar == [] then ps else UpdatedPids(m, ps, planar, pid, codec, now)
    case SilenceStale(now, staleAfter) => SilencedPids(ps, now, staleAfter)
    case Remove(pid) => Without(ps, pid)
    case ClearAll => []
  }

  /** Whether the operation publishes: an update always does, the others when something changed. */
  predicate Publishes(ps: seq<PidMeter>, after: seq<PidMeter>, op: Op) {
    if op.Update? then op.planar != [] else after != ps
  }

  function Step(m: Scale, s: Snapshot, op: Op): Snapshot {
    var after := Entries(m, s.perPid, op);
    Snapshot(after, if Publishes(s.perPid, after, op) then Next(s.generation) else s.generation)
  }

  function After(m: Scale, ops: seq<Op>): Snapshot {
    if ops == [] then Snapshot([], 0) else Step(m, After(m, ops[..|ops| - 1]), ops[|ops| - 1])
  }

  // ---- The invariant ----

  predicate LevelOk(ch: Level) { FLOOR <= ch.rms <= ch.peak <= ch.hold <= 0.0 }

  predicate MeterOk(p: PidMeter) {
    p.cachedLabel == Compose(p.pid, p.codec, |p.channels|) && forall ch <- p.channels :: LevelOk(ch)
  }

  predicate Ordered(ps: seq<PidMeter>) { forall i, j :: 0 <= i < j < |ps| ==> ps[i].pid < ps[j].pid }

  predicate WellFormed(ps: seq<PidMeter>) { Ordered(ps) && forall p <- ps :: MeterOk(p) }

  lemma FedIsOk(m: Scale, ch: Level, plane: seq<real>, now: int)
    requires Measures(m) && LevelOk(ch)
    ensures LevelOk(Fed(m, ch, plane, now))
  {
    RmsAtMostPeak(m, plane);
  }

  lemma MeteredIsOk(m: Scale, p: PidMeter, planar: seq<seq<real>>, codec: string, now: int)
    requires Measures(m) && MeterOk(p)
    ensures MeterOk(Metered(m, p, planar, codec, now))
  {
    forall i | 0 <= i < |planar| ensures LevelOk(Fed(m, Channel(p, i, now), planar[i], now)) {
      FedIsOk(m, Channel(p, i, now), planar[i], now);
    }
  }

  lemma {:induction false} InsertPermutes(ps: seq<PidMeter>, p: PidMeter)
    ensures multiset(Insert(ps, p)) == multiset(ps) + multiset{p}
  {
    if ps != [] {
      assert ps == [ps[0]] + ps[1..];
      InsertPermutes(ps[1..], p);
    }
  }

  lemma {:induction false} InsertMembers(ps: seq<PidMeter>, p: PidMeter)
    ensures forall q :: q in Insert(ps, p) <==> q in ps || q == p
  {
    if ps != [] {
      assert ps == [ps[0]] + ps[1..];
      InsertMembers(ps[1..], p);
    }
  }

  /** An entry before all others in an ordered list. */
  lemma Prepend(first: PidMeter, rest: seq<PidMeter>)
    requires Ordered(rest) && forall q <- rest :: first.pid < q.pid
    ensures Ordered([first] + rest)
  {}

  /** Appending a new PID and sorting: the entries come out in order, and are the old ones and it. */
  lemma {:induction false} InsertSorts(ps: seq<PidMeter>, p: PidMeter)
    requires Ordered(ps) && forall q <- ps :: q.pid != p.pid
    ensures Ordered(Insert(ps, p))
    ensures multiset(Insert(ps, p)) == multiset(ps) + multiset{p}
  {
    if ps != [] {
      if ps[0].pid > p.pid {
        assert forall i :: 0 < i < |ps| ==> ps[0].pid < ps[i].pid;
        Prepend(p, ps);
      } else {
        assert ps[0] in ps && forall q <- ps[1..] :: q in ps;
        InsertSorts(ps[1..], p);
        InsertMembers(ps[1..], p);
        Prepend(ps[0], Insert(ps[1..], p));
      }
    }
    InsertPermutes(ps, p);
  }

  lemma {:induction false} WithoutKeeps(ps: seq<PidMeter>, pid: nat)
    requires Ordered(ps)
    ensures Ordered(Without(ps, pid))
    ensures forall q :: q in Without(ps, pid) <==> q in ps && q.pid != pid
  {
    if ps != [] {
      assert ps == [ps[0]] + ps[1..];
      WithoutKeeps(ps[1..], pid);
      if ps[0].pid != pid { Prepend(ps[0], Without(ps[1..], pid)); }
    }
  }

  lemma SilencedIsOk(p: PidMeter, now: int, staleAfter: nat)
    requires MeterOk(p)
    ensures MeterOk(Silenced(p, now, staleAfter)) && Silenced(p, now, staleAfter).pid == p.pid
  {}

  lemma StepKeepsWellFormed(m: Scale, ps: seq<PidMeter>, op: Op)
    requires Measures(m) && WellFormed(ps)
    ensures WellFormed(Entries(m, ps, op))
  {
    match op
    case Update(planar, pid, codec, now) =>
      var i := IndexOf(ps, pid);
      if i < |ps| {
        MeteredIsOk(m, ps[i], planar, codec, now);
      } else {
        MeteredIsOk(m, NewMeter(pid, codec, |planar|, now), planar, codec, now);
        InsertSorts(ps, Metered(m, NewMeter(pid, codec, |planar|, now), planar, codec, now));
        InsertMembers(ps, Metered(m, NewMeter(pid, codec, |planar|, now), planar, codec, now));
      }
    case SilenceStale(now, staleAfter) =>
      forall p | p in ps
        ensures MeterOk(Silenced(p, now, staleAfter)) && Silenced(p, now, staleAfter).pid == p.pid
      {
        SilencedIsOk(p, now, staleAfter);
      }
    case Remove(pid) => WithoutKeeps(ps, pid);
    case ClearAll =>
  }

  /** After any run: entries strictly sorted by PID, every label the one its PID, codec and channel
      count compose, every level within [-120, 0] with rms at most peak at most hold. */
  lemma {:induction false} RunKeepsWellFormed(m: Scale, ops: seq<Op>)
    requires Measures(m)
    ensures WellFormed(After(m, ops).perPid)
  {
    if ops != [] {
      RunKeepsWellFormed(m, ops[..|ops| - 1]);
      StepKeepsWellFormed(m, After(m, ops[..|ops| - 1]).perPid, ops[|ops| - 1]);
    }
  }

  /** An update touches the entry of its own PID only, and leaves there what the block measures. */
  lemma UpdateIsLocal(m: Scale, ps: seq<PidMeter>, planar: seq<seq<real>>, pid: nat, codec: string, now: int)
    requires Ordered(ps)
    ensures var after := UpdatedPids(m, ps, planar, pid, codec, now);
            && (forall q: PidMeter :: q.pid != pid ==> (q in after <==> q in ps))
            && (exists q <- after :: q.pid == pid && q.codec == codec && |q.channels| == |planar| && q.lastUpdate == now
                  && forall i :: 0 <= i < |planar| ==>
                       q.channels[i].peak == PeakDbfs(m, planar[i]) && q.channels[i].rms == RmsDbfs(m, planar[i]))
  {
    var i := IndexOf(ps, pid);
    var after := UpdatedPids(m, ps, planar, pid, codec, now);
    if i < |ps| {
      assert after[i] in after;
      assert forall j :: 0 <= j < |ps| && j != i ==> after[j] == ps[j] && ps[j].pid != pid;
    } else {
      InsertMembers(ps, Metered(m, NewMeter(pid, codec, |planar|, now), planar, codec, now));
      assert Metered(m, NewMeter(pid, codec, |planar|, now), planar, codec, now) in after;
    }
  }

  /** Silencing puts exactly the channels of entries without a block for `staleAfter` at the floor, and
      keeps everything else of them; all other entries stay. */
  lemma SilenceIsExact(m: Scale, ps: seq<PidMeter>, now: int, staleAfter: nat, i: nat)
    requires i < |ps|
    ensures var after := Entries(m, ps, SilenceStale(now, staleAfter));
            && |after| == |ps|
            && (staleAfter > 0 && now < ps[i].lastUpdate + staleAfter ==> after[i] == ps[i])
            && (staleAfter == 0 || now >= ps[i].lastUpdate + staleAfter ==>
                  && after[i].pid == ps[i].pid && after[i].codec == ps[i].codec
                  && after[i].cachedLabel == ps[i].cachedLabel && after[i].lastUpdate == ps[i].lastUpdate
                  && |after[i].channels| == |ps[i].channels|
                  && forall j :: 0 <= j < |ps[i].channels| ==>
                       after[i].channels[j] == Level(-120.0, -120.0, -120.0, ps[i].channels[j].holdUntil))
  {}

  /** Removing takes exactly the entries of the PID; clearing takes all; a block of no channels nothing. */
  lemma RemoveIsExact(m: Scale, ps: seq<PidMeter>, pid: nat)
    requires Ordered(ps)
    ensures forall q :: q in Entries(m, ps, Remove(pid)) <==> q in ps && q.pid != pid
    ensures Entries(m, ps, ClearAll) == []
    ensures forall codec, now :: Entries(m, ps, Update([], pid, codec, now)) == ps
  {
    WithoutKeeps(ps, pid);
  }

  /** The generation moves on exactly when a block was fed or an entry changed. */
  lemma GenerationMovesIff(m: Scale, s: Snapshot, op: Op)
    requires s.generation < WRAP
    ensures Step(m, s, op).generation != s.generation <==>
            (op.Update? && op.planar != []) || (!op.Update? && Step(m, s, op).perPid != s.perPid)
    ensures Step(m, s, op).generation < WRAP
  {}

  // ---- Peak hold ----

  function ChannelsOf(ps: seq<PidMeter>, pid: nat): seq<Level> {
    var k := IndexOf(ps, pid);
    if k < |ps| then ps[k].channels else []
  }

  /** The peaks an operation leaves on record for channel `i` of a PID: those since its hold was
      last set, silenced or started. */
  function PeaksAfter(m: Scale, ps: seq<PidMeter>, op: Op, pid: nat, i: nat, peaks: seq<real>): seq<real> {
    match op
    case Update(planar, p, codec, now) =>
      if p != pid || i >= |planar| then peaks
      else
        var peak := PeakDbfs(m, planar[i]);
        var chs := ChannelsOf(ps, pid);
        if i >= |chs| || SetsHold(chs[i], peak, now) then [peak] else peaks + [peak]
    case SilenceStale(now, staleAfter) =>
      var k := IndexOf(ps, pid);
      if k < |ps| && IsStale(ps[k], now, staleAfter) then [] else peaks
    case _ => peaks
  }

  function PeaksSinceSet(m: Scale, ops: seq<Op>, pid: nat, i: nat): seq<real> {
    if ops == [] then []
    else
      var before := ops[..|ops| - 1];
      PeaksAfter(m, After(m, before).perPid, ops[|ops| - 1], pid, i, PeaksSinceSet(m, before, pid, i))
  }

  lemma ChannelsOfFirst(ps: seq<PidMeter>, pid: nat)
    requires ps != []
    ensures ChannelsOf(ps, pid) == if ps[0].pid == pid then ps[0].channels else ChannelsOf(ps[1..], pid)
  {}

  lemma {:induction false} ChannelsAfterInsert(ps: seq<PidMeter>, p: PidMeter, pid: nat)
    requires forall q <- ps :: q.pid != p.pid
    ensures ChannelsOf(Insert(ps, p), pid) == if pid == p.pid then p.channels else ChannelsOf(ps, pid)
  {
    if ps != [] && ps[0].pid <= p.pid {
      var rest := Insert(ps[1..], p);
      assert ps[0] in ps && forall q <- ps[1..] :: q in ps;
      ChannelsAfterInsert(ps[1..], p, pid);
      assert ([ps[0]] + rest)[1..] == rest;
      ChannelsOfFirst(ps, pid);
      ChannelsOfFirst([ps[0]] + rest, pid);
    } else {
      assert ([p] + ps)[1..] == ps;
      ChannelsOfFirst([p] + ps, pid);
    }
  }

  lemma {:induction false} ChannelsWithout(ps: seq<PidMeter>, gone: nat, pid: nat)
    ensures ChannelsOf(Without(ps, gone), pid) == if pid == gone then [] else ChannelsOf(ps, pid)
  {
    if ps != [] {
      var rest := Without(ps[1..], gone);
      ChannelsWithout(ps[1..], gone, pid);
      ChannelsOfFirst(ps, pid);
      if ps[0].pid != gone {
        assert ([ps[0]] + rest)[1..] == rest;
        ChannelsOfFirst([ps[0]] + rest, pid);
      }
    }
  }

  lemma SamePidsSameIndex(ps: seq<PidMeter>, qs: seq<PidMeter>, pid: nat)
    requires |ps| == |qs| && forall j :: 0 <= j < |ps| ==> ps[j].pid == qs[j].pid
    ensures IndexOf(ps, pid) == IndexOf(qs, pid)
  {}

  /** The channels of a PID after an update: fed if it is the PID of the block, else as they were. */
  lemma ChannelsAfterUpdate(m: Scale, ps: seq<PidMeter>, planar: seq<seq<real>>, p: nat, codec: string, now: int,
          pid: nat)
    ensures var chs, after := ChannelsOf(ps, pid), ChannelsOf(UpdatedPids(m, ps, planar, p, codec, now), pid);
            if pid != p then after == chs
            else |after| == |planar| && forall i :: 0 <= i < |planar| ==>
                   after[i] == Fed(m, if i < |chs| then chs[i] else Silence(now), planar[i], now)
  {
    var k := IndexOf(ps, p);
    if k < |ps| {
      SamePidsSameIndex(ps, UpdatedPids(m, ps, planar, p, codec, now), pid);
    } else {
      assert forall q <- ps :: q.pid != p;
      ChannelsAfterInsert(ps, Metered(m, NewMeter(p, codec, |planar|, now), planar, codec, now), pid);
    }
  }

  predicate HoldBounds(hold: real, peaks: seq<real>) {
    (forall x <- peaks :: x <= hold) && hold == if peaks == [] then FLOOR else peaks[0]
  }

  lemma FeedKeepsHold(m: Scale, ch: Level, plane: seq<real>, now: int, peaks: seq<real>)
    requires HoldBounds(ch.hold, peaks)
    ensures var peak := PeakDbfs(m, plane);
            HoldBounds(Fed(m, ch, plane, now).hold, if SetsHold(ch, peak, now) then [peak] else peaks + [peak])
  {
    if peaks != [] { assert (peaks + [PeakDbfs(m, plane)])[0] == peaks[0]; }
  }

  lemma UpdateKeepsHold(m: Scale, ps: seq<PidMeter>, op: Op, pid: nat, i: nat, peaks: seq<real>)
    requires op.Update? && op.pid == pid && i < |op.planar|
    requires i < |ChannelsOf(ps, pid)| ==> HoldBounds(ChannelsOf(ps, pid)[i].hold, peaks)
    ensures i < |ChannelsOf(Entries(m, ps, op), pid)|
    ensures HoldBounds(ChannelsOf(Entries(m, ps, op), pid)[i].hold, PeaksAfter(m, ps, op, pid, i, peaks))
  {
    var chs := ChannelsOf(ps, pid);
    ChannelsAfterUpdate(m, ps, op.planar, pid, op.codec, op.now, pid);
    if i < |chs| { FeedKeepsHold(m, chs[i], op.planar[i], op.now, peaks); }
  }

  lemma SilenceKeepsHold(m: Scale, ps: seq<PidMeter>, op: Op, pid: nat, i: nat, peaks: seq<real>)
    requires op.SilenceStale? && i < |ChannelsOf(ps, pid)| && HoldBounds(ChannelsOf(ps, pid)[i].hold, peaks)
    ensures |ChannelsOf(Entries(m, ps, op), pid)| == |ChannelsOf(ps, pid)|
    ensures HoldBounds(ChannelsOf(Entries(m, ps, op), pid)[i].hold, PeaksAfter(m, ps, op, pid, i, peaks))
  {
    SamePidsSameIndex(ps, SilencedPids(ps, op.at, op.staleAfter), pid);
  }

  lemma StepKeepsHold(m: Scale, ps: seq<PidMeter>, op: Op, pid: nat, i: nat, peaks: seq<real>)
    requires i < |ChannelsOf(ps, pid)| ==> HoldBounds(ChannelsOf(ps, pid)[i].hold, peaks)
    requires i < |ChannelsOf(Entries(m, ps, op), pid)|
    ensures HoldBounds(ChannelsOf(Entries(m, ps, op), pid)[i].hold, PeaksAfter(m, ps, op, pid, i, peaks))
  {
    match op
    case Update(planar, p, codec, now) =>
      ChannelsAfterUpdate(m, ps, planar, p, codec, now, pid);
      if p == pid && planar != [] { UpdateKeepsHold(m, ps, op, pid, i, peaks); }
    case SilenceStale(now, staleAfter) =>
      SamePidsSameIndex(ps, SilencedPids(ps, now, staleAfter), pid);
      SilenceKeepsHold(m, ps, op, pid, i, peaks);
    case Remove(gone) => ChannelsWithout(ps, gone, pid);
    case ClearAll =>
  }

  /** In every run, the hold shown for a channel is the peak that last set it, and no peak the
      channel has shown since exceeds it. */
  lemma {:induction false} HoldBoundsPeaks(m: Scale, ops: seq<Op>, pid: nat, i: nat)
    requires i < |ChannelsOf(After(m, ops).perPid, pid)|
    ensures HoldBounds(ChannelsOf(After(m, ops).perPid, pid)[i].hold, PeaksSinceSet(m, ops, pid, i))
  {
    if ops != [] {
      var before := ops[..|ops| - 1];
      var ps := After(m, before).perPid;
      if i < |ChannelsOf(ps, pid)| { HoldBoundsPeaks(m, before, pid, i); }
      StepKeepsHold(m, ps, ops[|ops| - 1], pid, i, PeaksSinceSet(m, before, pid, i));
    }
  }

  /** A level fed a run of blocks. */
  function FedAll(m: Scale, ch: Level, planes: seq<(seq<real>, int)>): Level {
    if planes == [] then ch
    else
      var last := planes[|planes| - 1];
      Fed(m, FedAll(m, ch, planes[..|planes| - 1]), last.0, last.1)
  }

  /** The blocks of the 1.5 s from `now` on. */
  predicate InWindow(rest: seq<(seq<real>, int)>, now: int) {
    forall i :: 0 <= i < |rest| ==> now <= rest[i].1 < now + 1500
  }

  /** While a hold runs past the window, nothing in the window lowers it. */
  lemma {:induction false} HoldOutlivesWindow(m: Scale, ch: Level, now: int, rest: seq<(seq<real>, int)>)
    requires now + PEAK_HOLD_MS <= ch.holdUntil && InWindow(rest, now)
    ensures FedAll(m, ch, rest).hold >= ch.hold && FedAll(m, ch, rest).holdUntil >= now + PEAK_HOLD_MS
  {
    if rest != [] { HoldOutlivesWindow(m, ch, now, rest[..|rest| - 1]); }
  }

  lemma {:induction false} HoldStaysAboveFloor(m: Scale, ch: Level, rest: seq<(seq<real>, int)>)
    requires ch.hold >= FLOOR
    ensures FedAll(m, ch, rest).hold >= FLOOR
  {
    if rest != [] { HoldStaysAboveFloor(m, ch, rest[..|rest| - 1]); }
  }

  /** A peak set no hold and an earlier hold runs out within its window: an empty block then forgets it. */
  lemma MaskedPeakIsForgotten(m: Scale, ch: Level, plane: seq<real>, now: int)
    requires FLOOR < PeakDbfs(m, plane) && !SetsHold(ch, PeakDbfs(m, plane), now) && ch.holdUntil < now + PEAK_HOLD_MS
    ensures InWindow([([], ch.holdUntil)], now)
    ensures FedAll(m, Fed(m, ch, plane, now), [([], ch.holdUntil)]).hold < PeakDbfs(m, plane)
  {
    var fed, rest: seq<(seq<real>, int)> := Fed(m, ch, plane, now), [([], ch.holdUntil)];
    assert rest[..0] == [];
    assert FedAll(m, fed, rest) == Fed(m, fed, [], ch.holdUntil);
  }

  /** Exactly when a peak is held: whatever blocks follow within 1.5 s, the hold reads it or a greater
      one, if and only if it set the hold, or the hold it did not set runs that long, or it is the floor. */
  lemma PeakIsHeldIff(m: Scale, ch: Level, plane: seq<real>, now: int)
    requires ch.hold >= FLOOR
    ensures (forall rest :: InWindow(rest, now) ==> FedAll(m, Fed(m, ch, plane, now), rest).hold >= PeakDbfs(m, plane))
            <==> (|| PeakDbfs(m, plane) >= ch.hold || now >= ch.holdUntil
                  || now + 1500 <= ch.holdUntil
                  || PeakDbfs(m, plane) == -120.0)
  {
    var peak, fed := PeakDbfs(m, plane), Fed(m, ch, plane, now);
    if SetsHold(ch, peak, now) || now + PEAK_HOLD_MS <= ch.holdUntil {
      forall rest | InWindow(rest, now)
        ensures FedAll(m, fed, rest).hold >= peak
      {
        HoldOutlivesWindow(m, fed, now, rest);
      }
    } else if peak == FLOOR {
      forall rest | InWindow(rest, now) ensures FedAll(m, fed, rest).hold >= peak { HoldStaysAboveFloor(m, fed, rest); }
    } else {
      MaskedPeakIsForgotten(m, ch, plane, now);
    }
  }
}
