/** The adaptive resampling loop of `src/display/audio.rs`: the smoothed buffer fill, the
    slew-limited ratio offset and the genlock anchor, over any sequence of writes. Device calls
    are inputs of a write; `f64` is a real number. */
module Resampler {
  import opened Outcomes

  const SETTLE_WRITES: nat := 24
  const EMA_ALPHA := 0.02
  const BUF_GAIN := 3000.0
  const GENLOCK_GAIN := 20.0
  const SLEW := 3.0
  const MAX_PPM := 8000.0

  datatype Servo = Servo(
    open: bool, rate: nat, channels: nat, delayEma: real, ratioPpm: real, target: int,
    anchor: Option<(int, int)>, settle: nat)

  const NEW := Servo(false, 0, 0, 0.0, 0.0, 0, None, 0)

  /** How the rest of a write goes: no resampler can be built, the ring underran, the device or the
      resampler refuses the samples, or none of these. */
  datatype Outcome = Clean | NoResampler | Xrun | Fails

  /** One non-empty block: its format and PTS, and what the device and the clocks answer.
      `buffer` is the ring an open configures, none if the open fails. */
  datatype Block = Block(
    rate: nat, channels: nat, pts: int, buffer: Option<nat>, clock: Option<int>,
    delay: Option<int>, master: Option<int>, playout: Option<int>, outcome: Outcome)

  datatype Event = Write(block: Block) | Reset

  function Clamp(x: real, bound: real): real
    requires bound >= 0.0
  {
    if x < -bound then -bound else if x > bound then bound else x
  }

  function Opened(s: Servo, rate: nat, channels: nat, buffer: nat): Servo {
    var target := if buffer / 2 < 1 then 1 else buffer / 2;
    s.(open := true, rate := rate, channels := channels, target := target,
       delayEma := target as real, ratioPpm := 0.0, anchor := None, settle := SETTLE_WRITES)
  }

  /** A jump of the source PTS by more than half a second. */
  predicate Jumps(b: Block) {
    b.clock.Some? && (b.pts - b.clock.value > 45000 || b.clock.value - b.pts > 45000)
  }

  function Fill(s: Servo, b: Block): real {
    var d := if b.delay.Some? then b.delay.value else s.target;
    (if d < 0 then 0 else d) as real
  }

  function Smoothed(s: Servo, b: Block): real { s.delayEma + (Fill(s, b) - s.delayEma) * EMA_ALPHA }

  function BufferError(s: Servo, b: Block): real
    requires s.target > 0
  {
    (s.target as real - Smoothed(s, b)) / s.target as real
  }

  predicate Locks(s: Servo, b: Block) { b.master.Some? && s.settle == 0 && b.playout.Some? }

  function AnchorOf(s: Servo, b: Block): (int, int)
    requires Locks(s, b)
  {
    if s.anchor.Some? then s.anchor.value else (b.playout.value, b.master.value)
  }

  /** The offset the loop steers to: drift since the anchor when locked, else the buffer fill. */
  function TargetPpm(s: Servo, b: Block): real
    requires s.target > 0
  {
    if Locks(s, b) then
      var (pa, ma) := AnchorOf(s, b);
      var phaseMs := ((b.playout.value - pa) - (b.master.value - ma)) as real / 90.0;
      GENLOCK_GAIN * phaseMs + BUF_GAIN * 0.3 * BufferError(s, b)
    else BUF_GAIN * BufferError(s, b)
  }

  function Slewed(ppm: real, target: real): real { ppm + Clamp(target - ppm, SLEW) }

  /** `compute_ratio`. */
  function Steered(s: Servo, b: Block): Servo {
    if !s.open || s.target <= 0 then s
    else
      s.(delayEma := Smoothed(s, b),
         ratioPpm := Clamp(Slewed(s.ratioPpm, Clamp(TargetPpm(s, b), MAX_PPM)), MAX_PPM),
         anchor := if Locks(s, b) then Some(AnchorOf(s, b)) else s.anchor,
         settle := if b.master.Some? && s.settle > 0 then s.settle - 1 else s.settle)
  }

  predicate Reopens(s: Servo, b: Block) { !s.open || s.rate != b.rate || s.channels != b.channels }

  function OpenFor(s: Servo, b: Block): Servo
    requires Reopens(s, b) ==> b.buffer.Some?
  {
    if Reopens(s, b) then Opened(s, b.rate, b.channels, b.buffer.value) else s
  }

  /** The servo once the block's format and PTS have been seen, before the ratio is computed. */
  function Prepared(s: Servo, b: Block): Servo
    requires Reopens(s, b) ==> b.buffer.Some?
  {
    var s1 := OpenFor(s, b);
    if Jumps(b) then s1.(anchor := None, settle := SETTLE_WRITES) else s1
  }

  /** `write` and `reset`. A failed open leaves everything as it was. */
  function Step(s: Servo, e: Event): Servo {
    match e
    case Reset => Servo(false, 0, 0, 0.0, 0.0, s.target, None, 0)
    case Write(b) =>
      if Reopens(s, b) && b.buffer.None? then s
      else if b.outcome.NoResampler? then OpenFor(s, b)
      else
        var s1 := Steered(Prepared(s, b), b);
        if b.outcome.Xrun? then s1.(delayEma := s1.target as real, anchor := None) else s1
  }

  class AudioBackend {
    var open: bool
    var sampleRate: nat
    var channels: nat
    var delayEma: real
    var ratioPpm: real
    var targetDelayFrames: int
    var genlockAnchor: Option<(int, int)>
    var genlockSettle: nat

    ghost function Value(): Servo
      reads this
    {
      Servo(open, sampleRate, channels, delayEma, ratioPpm, targetDelayFrames, genlockAnchor, genlockSettle)
    }

    constructor ()
      ensures Value() == NEW
    {
      open, sampleRate, channels, delayEma, ratioPpm, targetDelayFrames := false, 0, 0, 0.0, 0.0, 0;
      genlockAnchor, genlockSettle := None, 0;
    }

    method ResetBackend()
      modifies this
      ensures Value() == Step(old(Value()), Reset)
      ensures forall b :: Reopens(Value(), b)
    {
      open, sampleRate, channels, delayEma, ratioPpm := false, 0, 0, 0.0, 0.0;
      genlockAnchor, genlockSettle := None, 0;
    }

    method OpenPcm(rate: nat, ch: nat, bufferFrames: nat)
      modifies this
      ensures Value() == Opened(old(Value()), rate, ch, bufferFrames)
      ensures InRange(Value())
      ensures forall b: Block :: b.delay == Some(targetDelayFrames) ==> Steered(Value(), b).ratioPpm == 0.0
      ensures forall b :: !Locks(Value(), b)
    {
      open, sampleRate, channels := true, rate, ch;
      targetDelayFrames := if bufferFrames / 2 < 1 then 1 else bufferFrames / 2;
      delayEma, ratioPpm := targetDelayFrames as real, 0.0;
      genlockAnchor, genlockSettle := None, SETTLE_WRITES;
    }

    method ComputeRatio(b: Block) returns (ratio: real)
      modifies this
      ensures Value() == Steered(old(Value()), b)
      ensures old(open) && old(targetDelayFrames) > 0 ==> ratio == 1.0 + ratioPpm * 0.000001
      ensures !(old(open) && old(targetDelayFrames) > 0) ==> ratio == 1.0
    {
      if !open || targetDelayFrames <= 0 { return 1.0; }
      var frames := if b.delay.Some? then b.delay.value else targetDelayFrames;
      if frames < 0 { frames := 0; }
      delayEma := delayEma + (frames as real - delayEma) * EMA_ALPHA;
      var bufErr := (targetDelayFrames as real - delayEma) / targetDelayFrames as real;
      var targetPpm := BUF_GAIN * bufErr;
      if b.master.Some? {
        if genlockSettle == 0 {
          if b.playout.Some? {
            if genlockAnchor.None? { genlockAnchor := Some((b.playout.value, b.master.value)); }
            var (pa, ma) := genlockAnchor.value;
            var phaseMs := ((b.playout.value - pa) - (b.master.value - ma)) as real / 90.0;
            targetPpm := GENLOCK_GAIN * phaseMs + BUF_GAIN * 0.3 * bufErr;
          }
        } else {
          genlockSettle := genlockSettle - 1;
        }
      }
      targetPpm := Clamp(targetPpm, MAX_PPM);
      var step := Clamp(targetPpm - ratioPpm, SLEW);
      ratioPpm := Clamp(ratioPpm + step, MAX_PPM);
      return 1.0 + ratioPpm * 0.000001;
    }

    method WriteBlock(b: Block)
      modifies this
      ensures Value() == Step(old(Value()), Write(b))
    {
      if !open || sampleRate != b.rate || channels != b.channels {
        if b.buffer.None? { return; }
        OpenPcm(b.rate, b.channels, b.buffer.value);
      }
      if b.outcome.NoResampler? { return; }
      if b.clock.Some? && (b.pts - b.clock.value > 45000 || b.clock.value - b.pts > 45000) {
        genlockAnchor, genlockSettle := None, SETTLE_WRITES;
      }
      var _ := ComputeRatio(b);
      if b.outcome.Xrun? {
        delayEma := targetDelayFrames as real;
        genlockAnchor := None;
      }
    }
  }

  function After(s: Servo, es: seq<Event>): Servo {
    if es == [] then s else Step(After(s, es[..|es| - 1]), es[|es| - 1])
  }

  // ---- The ratio glides ----

  predicate InRange(s: Servo) { -8000.0 <= s.ratioPpm <= 8000.0 && (s.open ==> s.target >= 1) }

  /** Within one write the offset moves by at most 3 ppm, from zero if the device was reopened. */
  lemma WriteGlides(s: Servo, b: Block)
    requires InRange(s)
    ensures InRange(Step(s, Write(b)))
    ensures !Reopens(s, b) ==> -3.0 <= Step(s, Write(b)).ratioPpm - s.ratioPpm <= 3.0
    ensures Reopens(s, b) && b.buffer.Some? ==> -3.0 <= Step(s, Write(b)).ratioPpm <= 3.0
  {}

  /** Over every run from a new backend the offset stays within 8000 ppm. */
  lemma {:induction false} RatioStaysBounded(es: seq<Event>)
    ensures InRange(After(NEW, es))
  {
    if es != [] {
      RatioStaysBounded(es[..|es| - 1]);
      var s := After(NEW, es[..|es| - 1]);
      match es[|es| - 1]
      case Write(b) => WriteGlides(s, b);
      case Reset =>
    }
  }

  function SlewedBy(ppm: real, target: real, n: nat): real {
    if n == 0 then ppm else Slewed(SlewedBy(ppm, target, n - 1), target)
  }

  function Distance(a: real, b: real): real { if a < b then b - a else a - b }

  /** Towards a constant target the distance shrinks by 3 ppm a write, to zero and no further: the
      target is reached after `n` writes exactly when `3 n` covers the distance. */
  lemma {:induction false} ReachesTarget(ppm: real, target: real, n: nat)
    ensures Distance(SlewedBy(ppm, target, n), target) ==
              (if Distance(ppm, target) <= SLEW * (n as real) then 0.0 else Distance(ppm, target) - SLEW * (n as real))
    ensures SlewedBy(ppm, target, n) == target <==> Distance(ppm, target) <= SLEW * (n as real)
  {
    if n > 0 {
      ReachesTarget(ppm, target, n - 1);
      assert SLEW * (n as real) == SLEW * ((n - 1) as real) + SLEW;
    }
  }

  /** The loop itself takes that step, towards its clamped target. */
  lemma SteeringIsSlewing(s: Servo, b: Block)
    requires InRange(s) && s.open
    ensures Steered(s, b).ratioPpm == Slewed(s.ratioPpm, Clamp(TargetPpm(s, b), MAX_PPM))
  {}

  predicate SteersTo(s: Servo, e: Event, ppm: real) {
    e.Write? && !Reopens(s, e.block) && !e.block.outcome.NoResampler?
    && Clamp(TargetPpmOr(Prepared(s, e.block), e.block), MAX_PPM) == ppm
  }

  function TargetPpmOr(s: Servo, b: Block): real { if s.target > 0 then TargetPpm(s, b) else 0.0 }

  predicate AllSteerTo(s: Servo, es: seq<Event>, ppm: real) {
    es == [] || (AllSteerTo(s, es[..|es| - 1], ppm) && SteersTo(After(s, es[..|es| - 1]), es[|es| - 1], ppm))
  }

  /** A run of writes that all ask for the same offset has it after `ceil(distance / 3)` of them. */
  lemma {:induction false} RunReachesTarget(s: Servo, es: seq<Event>, ppm: real)
    requires InRange(s) && s.open && AllSteerTo(s, es, ppm)
    ensures After(s, es).open && InRange(After(s, es))
    ensures After(s, es).ratioPpm == SlewedBy(s.ratioPpm, ppm, |es|)
    ensures After(s, es).ratioPpm == ppm <==> Distance(s.ratioPpm, ppm) <= 3.0 * (|es| as real)
  {
    if es != [] {
      var before := After(s, es[..|es| - 1]);
      var b := es[|es| - 1].block;
      RunReachesTarget(s, es[..|es| - 1], ppm);
      WriteGlides(before, b);
      SteeringIsSlewing(Prepared(before, b), b);
    }
    ReachesTarget(s.ratioPpm, ppm, |es|);
  }

  // ---- Which way, and how far ----

  /** The fill a write measures: the device's delay, not below zero, or the target if it has none. */
  function MeasuredFill(s: Servo, b: Block): real {
    match b.delay
    case Some(d) => if d >= 0 then d as real else 0.0
    case None => if s.target >= 0 then s.target as real else 0.0
  }

  /** The smoothed fill moves a fiftieth of the way to the measured one. */
  lemma FillMovesAFiftieth(s: Servo, b: Block)
    requires s.open && s.target >= 1
    ensures Steered(s, b).delayEma == 0.98 * s.delayEma + 0.02 * MeasuredFill(s, b)
  {}

  /** A step of at most 3 ppm towards `want`. */
  predicate StepsTo(before: real, after: real, want: real) {
    && (before - 3.0 <= want <= before + 3.0 ==> after == want)
    && (want > before + 3.0 ==> after == before + 3.0)
    && (want < before - 3.0 ==> after == before - 3.0)
  }

  /** Without a lock the offset steps towards 3000 ppm times the share of the target the ring is short
      by, limited to 8000. */
  lemma HoldsFill(s: Servo, b: Block)
    requires InRange(s) && s.open && (b.master.None? || s.settle > 0 || b.playout.None?)
    ensures var after := Steered(s, b);
            var want := 3000.0 * ((s.target as real - after.delayEma) / s.target as real);
            && (-8000.0 <= want <= 8000.0 ==> StepsTo(s.ratioPpm, after.ratioPpm, want))
            && (want > 8000.0 ==> StepsTo(s.ratioPpm, after.ratioPpm, 8000.0))
            && (want < -8000.0 ==> StepsTo(s.ratioPpm, after.ratioPpm, -8000.0))
  {}

  /** Locked, it steps towards 20 ppm for each millisecond playout has gained on the master since the
      anchor, and 900 times the share the ring is short by. */
  lemma FollowsMaster(s: Servo, b: Block, pa: int, ma: int)
    requires InRange(s) && s.open && s.settle == 0 && b.master.Some? && b.playout.Some?
    requires (pa, ma) == if s.anchor.Some? then s.anchor.value else (b.playout.value, b.master.value)
    ensures var after := Steered(s, b);
            var gained := ((b.playout.value - pa) - (b.master.value - ma)) as real / 90.0;
            var want := 20.0 * gained + 900.0 * ((s.target as real - after.delayEma) / s.target as real);
            && after.anchor == Some((pa, ma))
            && (-8000.0 <= want <= 8000.0 ==> StepsTo(s.ratioPpm, after.ratioPpm, want))
            && (want > 8000.0 ==> StepsTo(s.ratioPpm, after.ratioPpm, 8000.0))
            && (want < -8000.0 ==> StepsTo(s.ratioPpm, after.ratioPpm, -8000.0))
  {}

  lemma ShareSign(target: real, fill: real)
    requires target > 0.0
    ensures fill > target ==> (target - fill) / target < 0.0
    ensures fill < target ==> (target - fill) / target > 0.0
    ensures fill == target ==> (target - fill) / target == 0.0
  {
    var share := (target - fill) / target;
    assert share * target == target - fill;
  }

  /** From a flat ratio a ring too full is played out faster and one too empty refilled; and, locked with
      the ring at its target, playout ahead of the master is stretched and playout behind it caught up. */
  lemma SteersTheRightWay(s: Servo, b: Block)
    requires InRange(s) && s.open && s.ratioPpm == 0.0
    ensures b.master.None? ==>
              && (Steered(s, b).delayEma > s.target as real ==> Steered(s, b).ratioPpm < 0.0)
              && (Steered(s, b).delayEma < s.target as real ==> Steered(s, b).ratioPpm > 0.0)
              && (Steered(s, b).delayEma == s.target as real ==> Steered(s, b).ratioPpm == 0.0)
    ensures b.master.Some? && b.playout.Some? && s.settle == 0 && s.anchor.Some?
            && Steered(s, b).delayEma == s.target as real ==>
              var gained := (b.playout.value - s.anchor.value.0) - (b.master.value - s.anchor.value.1);
              && (gained > 0 ==> Steered(s, b).ratioPpm > 0.0)
              && (gained < 0 ==> Steered(s, b).ratioPpm < 0.0)
              && (gained == 0 ==> Steered(s, b).ratioPpm == 0.0)
  {
    ShareSign(s.target as real, Steered(s, b).delayEma);
    if b.master.None? { HoldsFill(s, b); }
    if b.master.Some? && b.playout.Some? && s.settle == 0 && s.anchor.Some? {
      FollowsMaster(s, b, s.anchor.value.0, s.anchor.value.1);
    }
  }

  /** A PTS more than half a second from the clock drops the anchor and starts the settle window again;
      any nearer one keeps both going. */
  lemma JumpRestartsSettling(s: Servo, b: Block)
    requires InRange(s) && s.open && !Reopens(s, b) && b.outcome.Clean?
    ensures var after := Step(s, Write(b));
            var far := b.clock.Some? && (b.pts > b.clock.value + 45000 || b.pts < b.clock.value - 45000);
            && (far ==> after.anchor.None? && after.settle == if b.master.Some? then 23 else 24)
            && (!far ==> after.settle == if b.master.Some? && s.settle > 0 then s.settle - 1 else s.settle)
            && (!far && s.anchor.Some? ==> after.anchor == s.anchor)
  {}

  /** An open holds the ring at half its size, from a flat ratio. */
  lemma OpenHoldsHalf(s: Servo, rate: nat, channels: nat, buffer: nat)
    ensures var t := Opened(s, rate, channels, buffer);
            && t.open && t.rate == rate && t.channels == channels && t.ratioPpm == 0.0
            && t.delayEma == t.target as real
            && t.anchor.None? && t.settle == 24
            && (buffer < 2 ==> t.target == 1)
            && (buffer >= 2 ==> 2 * t.target <= buffer < 2 * t.target + 2)
  {}

  function Remaining(n: nat): real { if n == 0 then 1.0 else 0.98 * Remaining(n - 1) }

  /** Writes on an open device that all measure one fill, and none underruns. */
  predicate AllMeasure(s: Servo, es: seq<Event>, fill: nat) {
    es == [] ||
    (&& AllMeasure(s, es[..|es| - 1], fill)
     && var e := es[|es| - 1];
        && e.Write? && !Reopens(After(s, es[..|es| - 1]), e.block) && e.block.delay == Some(fill)
        && (e.block.outcome.Clean? || e.block.outcome.Fails?))
  }

  /** The smoothed fill closes on a steady one by a fiftieth of what is left, a write. */
  lemma {:induction false} FillConverges(s: Servo, es: seq<Event>, fill: nat)
    requires InRange(s) && s.open && AllMeasure(s, es, fill)
    ensures After(s, es).open && After(s, es).target == s.target && InRange(After(s, es))
    ensures After(s, es).delayEma - fill as real == Remaining(|es|) * (s.delayEma - fill as real)
  {
    if es != [] {
      var before, b := After(s, es[..|es| - 1]), es[|es| - 1].block;
      FillConverges(s, es[..|es| - 1], fill);
      WriteGlides(before, b);
      FiftiethCloser(before, b, fill);
      OneMoreFactor(Remaining(|es| - 1), s.delayEma - fill as real);
    }
  }

  lemma FiftiethCloser(s: Servo, b: Block, fill: nat)
    requires InRange(s) && s.open && !Reopens(s, b) && b.delay == Some(fill) && (b.outcome.Clean? || b.outcome.Fails?)
    ensures var after := Step(s, Write(b));
            && after.open && after.target == s.target
            && after.delayEma - fill as real == 0.98 * (s.delayEma - fill as real)
  {
    FillMovesAFiftieth(Prepared(s, b), b);
  }

  lemma OneMoreFactor(a: real, x: real)
    ensures 0.98 * (a * x) == (0.98 * a) * x
  {}

  // ---- The smoothed fill ----

  function AtLeast(x: int, least: int): real { (if x < least then least else x) as real }

  predicate MeasuresWithin(e: Event, lo: real, hi: real) {
    e.Write? ==>
      && (e.block.delay.Some? ==> lo <= AtLeast(e.block.delay.value, 0) <= hi)
      && (e.block.buffer.Some? ==> lo <= AtLeast(e.block.buffer.value / 2, 1) <= hi)
  }

  /** The smoothed fill stays between the least and the greatest of what seeded and fed it. */
  lemma {:induction false} FillStaysInHull(es: seq<Event>, lo: real, hi: real)
    requires forall i :: 0 <= i < |es| ==> MeasuresWithin(es[i], lo, hi)
    ensures After(NEW, es).open ==> lo <= After(NEW, es).delayEma <= hi && lo <= After(NEW, es).target as real <= hi
  {
    if es != [] {
      FillStaysInHull(es[..|es| - 1], lo, hi);
      RatioStaysBounded(es[..|es| - 1]);
      var s := After(NEW, es[..|es| - 1]);
      var e := es[|es| - 1];
      if e.Write? && !(Reopens(s, e.block) && e.block.buffer.None?) && !e.block.outcome.NoResampler? {
        var p := Prepared(s, e.block);
        assert lo <= p.delayEma <= hi && lo <= Fill(p, e.block) <= hi;
        assert Smoothed(p, e.block) == 0.98 * p.delayEma + 0.02 * Fill(p, e.block);
      }
    }
  }

  // ---- The genlock anchor ----

  /** Writes with a master attached since the last open or PTS jump, that write included. */
  function MasterWrites(s: Servo, es: seq<Event>): nat {
    if es == [] then 0
    else
      var s1, n := After(s, es[..|es| - 1]), MasterWrites(s, es[..|es| - 1]);
      match es[|es| - 1]
      case Reset => 0
      case Write(b) =>
        if Reopens(s1, b) && b.buffer.None? then n
        else if b.outcome.NoResampler? then if Reopens(s1, b) then 0 else n
        else
          var since := if Reopens(s1, b) || Jumps(b) then 0 else n;
          if b.master.Some? then since + 1 else since
  }

  /** In every run the settle count is what is left of 24 such writes, and an anchor in use was taken
      by a later one. */
  lemma {:induction false} SettleCountsDown(es: seq<Event>)
    ensures var s, n := After(NEW, es), MasterWrites(NEW, es);
            && (s.open ==> s.target >= 1 && s.settle == if n < SETTLE_WRITES then SETTLE_WRITES - n else 0)
            && (s.anchor.Some? ==> s.open && n > SETTLE_WRITES)
  {
    if es != [] { SettleCountsDown(es[..|es| - 1]); }
  }

  /** So 24 hold-fill writes separate an open or a PTS jump from the next capture: an anchor never
      catches the previous stream draining. */
  lemma AnchorWaitsToSettle(es: seq<Event>)
    ensures After(NEW, es).anchor.Some? ==> MasterWrites(NEW, es) > SETTLE_WRITES
    ensures After(NEW, es).open && MasterWrites(NEW, es) < SETTLE_WRITES ==>
              After(NEW, es).anchor.None? && forall b :: !Locks(After(NEW, es), b)
  {
    SettleCountsDown(es);
  }

  /** An underrun drops the anchor without settling again: the next locked write takes a new one. */
  lemma XrunRecapturesAtOnce(s: Servo, b1: Block, b2: Block)
    requires InRange(s) && s.open && s.settle == 0 && !Reopens(s, b1) && !Jumps(b1) && b1.outcome.Xrun?
    requires !Reopens(s, b2) && !Jumps(b2) && b2.master.Some? && b2.playout.Some?
    requires b2.outcome.Clean? || b2.outcome.Fails?
    ensures Step(s, Write(b1)).anchor.None? && Step(s, Write(b1)).settle == 0
    ensures Step(s, Write(b1)).delayEma == s.target as real && Step(s, Write(b1)).ratioPpm == Steered(s, b1).ratioPpm
    ensures Step(Step(s, Write(b1)), Write(b2)).anchor == Some((b2.playout.value, b2.master.value))
  {}

  /** A device that does not open leaves everything as it was. */
  lemma FailedOpenChangesNothing(s: Servo, b: Block)
    requires (!s.open || s.rate != b.rate || s.channels != b.channels) && b.buffer.None?
    ensures Step(s, Write(b)) == s
  {}
}
