/** The token-bucket limiter of the `/oauth/token` endpoint (`src/api/auth.rs`). Instants are
    seconds on a clock that does not go back, and tokens are real numbers.

    Refilling is written with `supply(t)`, the tokens handed out by time `t`: a bucket gains
    `supply(now) - supply(last)`. The limiter's own supply is `SupplyOf`. */
module RateLimiter {
  import opened Outcomes

  type Ip = string

  datatype Bucket = Bucket(tokens: real, last: real)

  type Buckets = map<Ip, Bucket>

  datatype Request = Request(ip: Ip, at: real)

  datatype Limit = Limit(max: real, supply: real -> real)

  /** `max` tokens a minute, refilled linearly. */
  function SupplyOf(max: nat): real -> real { t => t * (max as real / 60.0) }

  function LimitOf(max: nat): Limit { Limit(max as real, SupplyOf(max)) }

  function Gained(l: Limit, from: real, to: real): real { if to < from then 0.0 else l.supply(to) - l.supply(from) }

  function Elapsed(from: real, to: real): real { if to < from then 0.0 else to - from }

  function Refilled(b: Bucket, now: real, l: Limit): real {
    var t := b.tokens + Gained(l, b.last, now);
    if t < l.max then t else l.max
  }

  /** One request against a bucket; a missing bucket starts full. */
  function Charge(b: Option<Bucket>, now: real, l: Limit): (Bucket, bool) {
    var t := Refilled(if b.Some? then b.value else Bucket(l.max, now), now, l);
    if t >= 1.0 then (Bucket(t - 1.0, now), true) else (Bucket(t, now), false)
  }

  function Get(bs: Buckets, ip: Ip): Option<Bucket> { if ip in bs then Some(bs[ip]) else None }

  /** Entries not refilled for 300 whole seconds are dropped. */
  function Evicted(bs: Buckets, now: real): Buckets {
    map ip | ip in bs && Elapsed(bs[ip].last, now).Floor < 300 :: bs[ip]
  }

  function Checked(bs: Buckets, r: Request, l: Limit): (Buckets, bool) {
    var kept := Evicted(bs, r.at);
    var (b, ok) := Charge(Get(kept, r.ip), r.at, l);
    (kept[r.ip := b], ok)
  }

  lemma LinearRefill(max: nat, from: real, to: real)
    ensures Gained(LimitOf(max), from, to) == Elapsed(from, to) * (max as real / 60.0)
  {}

  class TokenEndpointRateLimiter {
    var buckets: Buckets
    const maxPerMinute: nat

    constructor (maxPerMinute: nat)
      ensures buckets == map[] && this.maxPerMinute == maxPerMinute
    {
      buckets := map[];
      this.maxPerMinute := maxPerMinute;
    }

    method Check(ip: Ip, now: real) returns (allowed: bool)
      modifies this
      ensures (buckets, allowed) == Checked(old(buckets), Request(ip, now), LimitOf(maxPerMinute))
    {
      var max := maxPerMinute as real;
      buckets := map k | k in buckets && Elapsed(buckets[k].last, now).Floor < 300 :: buckets[k];
      var entry := if ip in buckets then buckets[ip] else Bucket(max, now);
      var charged;
      charged, allowed := RefillAndCharge(entry, now, maxPerMinute);
      buckets := buckets[ip := charged];
    }
  }

  /** The refill of one entry and its charge. */
  method RefillAndCharge(entry: Bucket, now: real, maxPerMinute: nat) returns (charged: Bucket, allowed: bool)
    ensures (charged, allowed) == Charge(Some(entry), now, LimitOf(maxPerMinute))
  {
    var max := maxPerMinute as real;
    var gained := Elapsed(entry.last, now) * (max / 60.0);
    assert gained == Gained(LimitOf(maxPerMinute), entry.last, now) by { LinearRefill(maxPerMinute, entry.last, now); }
    var tokens := entry.tokens + gained;
    if tokens >= max { tokens := max; }
    allowed := tokens >= 1.0;
    charged := Bucket(if allowed then tokens - 1.0 else tokens, now);
  }

  // ---- Traces ----

  function Verdicts(bs: Buckets, trace: seq<Request>, l: Limit): (v: seq<bool>)
    ensures |v| == |trace|
    decreases |trace|
  {
    if trace == [] then []
    else var (bs', ok) := Checked(bs, trace[0], l); [ok] + Verdicts(bs', trace[1..], l)
  }

  predicate Ordered(trace: seq<Request>, from: real) {
    (forall i :: 0 <= i < |trace| ==> from <= trace[i].at) &&
    (forall i, j :: 0 <= i < j < |trace| ==> trace[i].at <= trace[j].at)
  }

  /** One bucket that is never evicted, seen by the requests of one address alone. */
  function OwnVerdicts(b: Option<Bucket>, times: seq<real>, l: Limit): (v: seq<bool>)
    ensures |v| == |times|
    decreases |times|
  {
    if times == [] then []
    else var (b', ok) := Charge(b, times[0], l); [ok] + OwnVerdicts(Some(b'), times[1..], l)
  }

  function TimesOf(trace: seq<Request>, ip: Ip): seq<real> {
    if trace == [] then []
    else (if trace[0].ip == ip then [trace[0].at] else []) + TimesOf(trace[1..], ip)
  }

  /** The verdicts the requests of one address got, in order. */
  function VerdictsOf(trace: seq<Request>, verdicts: seq<bool>, ip: Ip): seq<bool>
    requires |trace| == |verdicts|
  {
    if trace == [] then []
    else (if trace[0].ip == ip then [verdicts[0]] else []) + VerdictsOf(trace[1..], verdicts[1..], ip)
  }

  /** A supply that never falls and fills any bucket within 300 seconds. */
  ghost predicate Steady(l: Limit) {
    && 0.0 <= l.max
    && (forall x, y :: x <= y ==> l.supply(x) <= l.supply(y))
    && (forall x, y :: y - x >= 300.0 ==> l.supply(y) - l.supply(x) >= l.max)
  }

  lemma SupplySpan(max: nat, x: real, y: real)
    ensures LimitOf(max).supply(y) - LimitOf(max).supply(x) == (y - x) * (max as real / 60.0)
  {}

  lemma ProductGrows(x: real, y: real, k: real)
    requires x <= y && 0.0 <= k
    ensures x * k <= y * k
  {
    assert (y - x) * k >= 0.0;
  }

  lemma SupplyRises(max: nat, x: real, y: real)
    requires x <= y
    ensures SupplyOf(max)(x) <= SupplyOf(max)(y)
  {
    ProductGrows(x, y, max as real / 60.0);
  }

  lemma SupplyFills(max: nat, x: real, y: real)
    requires y - x >= 300.0
    ensures SupplyOf(max)(y) - SupplyOf(max)(x) >= max as real
  {
    SupplySpan(max, x, y);
    ProductGrows(300.0, y - x, max as real / 60.0);
  }

  lemma LinearSupplyIsSteady(max: nat)
    ensures Steady(LimitOf(max))
  {
    forall x: real, y: real | x <= y ensures SupplyOf(max)(x) <= SupplyOf(max)(y) { SupplyRises(max, x, y); }
    forall x: real, y: real | y - x >= 300.0
      ensures SupplyOf(max)(y) - SupplyOf(max)(x) >= max as real
    {
      SupplyFills(max, x, y);
    }
  }

  // ---- Eviction is invisible ----

  /** A bucket idle for 300 seconds has refilled to the full one a new entry starts with. */
  lemma IdleBucketIsFull(b: Bucket, now: real, l: Limit)
    requires Steady(l) && 0.0 <= b.tokens && Elapsed(b.last, now).Floor >= 300
    ensures Charge(Some(b), now, l) == Charge(None, now, l)
  {
    assert now - b.last >= 300.0;
  }

  /** The limiter's bucket for an address, against the one that is never evicted. */
  predicate Tracks(held: Option<Bucket>, own: Option<Bucket>, now: real) {
    && (held.Some? ==> held == own)
    && (own.Some? ==> 0.0 <= own.value.tokens && own.value.last <= now)
    && (held.None? && own.Some? ==> Elapsed(own.value.last, now).Floor >= 300)
  }

  lemma StillTracks(held: Option<Bucket>, own: Option<Bucket>, now: real, later: real)
    requires Tracks(held, own, now) && now <= later
    ensures var kept := if held.Some? && Elapsed(held.value.last, later).Floor >= 300 then None else held;
            Tracks(kept, own, later)
  {}

  lemma ChargeAgrees(held: Option<Bucket>, own: Option<Bucket>, now: real, l: Limit)
    requires Tracks(held, own, now) && Steady(l)
    ensures Charge(held, now, l) == Charge(own, now, l)
    ensures Tracks(Some(Charge(held, now, l).0), Some(Charge(own, now, l).0), now)
  {
    if held.None? && own.Some? { IdleBucketIsFull(own.value, now, l); }
  }

  lemma {:induction false} OwnBucketDecides(bs: Buckets, own: Option<Bucket>, trace: seq<Request>, from: real,
          l: Limit, ip: Ip)
    requires Steady(l) && Ordered(trace, from) && Tracks(Get(bs, ip), own, from)
    ensures VerdictsOf(trace, Verdicts(bs, trace, l), ip) == OwnVerdicts(own, TimesOf(trace, ip), l)
    decreases |trace|
  {
    if trace != [] {
      var r := trace[0];
      var rest := trace[1..];
      var kept := Evicted(bs, r.at);
      var bs' := Checked(bs, r, l).0;
      StillTracks(Get(bs, ip), own, from, r.at);
      assert Tracks(Get(kept, ip), own, r.at);
      assert Verdicts(bs, trace, l)[1..] == Verdicts(bs', rest, l);
      if r.ip == ip {
        ChargeAgrees(Get(kept, ip), own, r.at, l);
        var b' := Charge(own, r.at, l).0;
        assert Get(bs', ip) == Some(b');
        OwnBucketDecides(bs', Some(b'), rest, r.at, l, ip);
        assert TimesOf(trace, ip)[1..] == TimesOf(rest, ip);
      } else {
        assert Get(bs', ip) == Get(kept, ip);
        OwnBucketDecides(bs', own, rest, r.at, l, ip);
        assert TimesOf(trace, ip) == TimesOf(rest, ip);
      }
    }
  }

  /** On every trace, the verdicts each address gets are those of one bucket of its own that is
      never evicted: eviction is invisible and addresses do not affect each other. */
  lemma EvictionIsInvisible(trace: seq<Request>, max: nat, ip: Ip)
    requires Ordered(trace, 0.0)
    ensures VerdictsOf(trace, Verdicts(map[], trace, LimitOf(max)), ip) ==
            OwnVerdicts(None, TimesOf(trace, ip), LimitOf(max))
  {
    LinearSupplyIsSteady(max);
    OwnBucketDecides(map[], None, trace, 0.0, LimitOf(max), ip);
  }

  // ---- The rate ----

  function Count(v: seq<bool>): nat { if v == [] then 0 else (if v[0] then 1 else 0) + Count(v[1..]) }

  predicate Rising(times: seq<real>) { forall i, j :: 0 <= i < j < |times| ==> times[i] <= times[j] }

  function BucketAfter(b: Option<Bucket>, times: seq<real>, l: Limit): Option<Bucket>
    decreases |times|
  {
    if times == [] then b else BucketAfter(Some(Charge(b, times[0], l).0), times[1..], l)
  }

  predicate Bounded(b: Option<Bucket>, t: real, l: Limit) {
    b.Some? ==> 0.0 <= b.value.tokens <= l.max && b.value.last <= t
  }

  lemma ChargeStaysBounded(b: Option<Bucket>, now: real, l: Limit)
    requires Steady(l) && Bounded(b, now, l)
    ensures Bounded(Some(Charge(b, now, l).0), now, l)
  {}

  /** What the bucket holds for a request at `now`, before it is charged. */
  function Available(b: Option<Bucket>, now: real, l: Limit): real {
    if b.Some? then Refilled(b.value, now, l) else l.max
  }

  /** Tokens are conserved: what is admitted was in the bucket at the start or refilled since. */
  lemma {:induction false} AdmittedWasRefilled(b: Option<Bucket>, times: seq<real>, l: Limit)
    requires Steady(l) && times != [] && Rising(times) && Bounded(b, times[0], l)
    ensures Count(OwnVerdicts(b, times, l)) as real <=
              Available(b, times[0], l) + (l.supply(times[|times| - 1]) - l.supply(times[0]))
    decreases |times|
  {
    var rest := times[1..];
    var (b', ok) := Charge(b, times[0], l);
    ChargeStaysBounded(b, times[0], l);
    assert OwnVerdicts(b, times, l)[1..] == OwnVerdicts(Some(b'), rest, l);
    if rest != [] { AdmittedWasRefilled(Some(b'), rest, l); }
  }

  lemma {:induction false} SuffixOfRun(b: Option<Bucket>, times: seq<real>, l: Limit, i: nat)
    requires i <= |times|
    ensures OwnVerdicts(b, times, l)[i..] == OwnVerdicts(BucketAfter(b, times[..i], l), times[i..], l)
    decreases |times|
  {
    if i > 0 {
      var b' := Charge(b, times[0], l).0;
      SuffixOfRun(Some(b'), times[1..], l, i - 1);
      assert times[..i][1..] == times[1..][..i - 1];
      assert times[1..][i - 1..] == times[i..];
      assert OwnVerdicts(b, times, l)[i..] == OwnVerdicts(Some(b'), times[1..], l)[i - 1..];
    } else {
      assert times[..0] == [] && times[0..] == times;
    }
  }

  lemma {:induction false} RunStaysBounded(b: Option<Bucket>, times: seq<real>, l: Limit, i: nat)
    requires Steady(l) && Rising(times) && i < |times| && Bounded(b, times[0], l)
    ensures Bounded(BucketAfter(b, times[..i], l), times[i], l)
    decreases |times|
  {
    if i > 0 {
      ChargeStaysBounded(b, times[0], l);
      RunStaysBounded(Some(Charge(b, times[0], l).0), times[1..], l, i - 1);
      assert times[..i][1..] == times[1..][..i - 1];
    }
  }

  lemma {:induction false} PrefixOfRun(b: Option<Bucket>, times: seq<real>, l: Limit, n: nat)
    requires n <= |times|
    ensures OwnVerdicts(b, times, l)[..n] == OwnVerdicts(b, times[..n], l)
    decreases n
  {
    if n > 0 {
      var b' := Charge(b, times[0], l).0;
      PrefixOfRun(Some(b'), times[1..], l, n - 1);
      assert times[..n][1..] == times[1..][..n - 1];
      assert OwnVerdicts(b, times, l)[..n] ==
          [OwnVerdicts(b, times, l)[0]] + OwnVerdicts(Some(b'), times[1..], l)[..n - 1];
    }
  }

  lemma {:induction false} TimesRise(trace: seq<Request>, from: real, ip: Ip)
    requires Ordered(trace, from)
    ensures Rising(TimesOf(trace, ip)) && forall i :: 0 <= i < |TimesOf(trace, ip)| ==> from <= TimesOf(trace, ip)[i]
    decreases |trace|
  {
    if trace != [] { TimesRise(trace[1..], trace[0].at, ip); }
  }

  lemma WindowIsARun(times: seq<real>, l: Limit, i: nat, j: nat)
    requires i < j <= |times|
    ensures OwnVerdicts(None, times, l)[i..j] == OwnVerdicts(BucketAfter(None, times[..i], l), times[i..j], l)
  {
    var own := OwnVerdicts(None, times, l);
    SuffixOfRun(None, times, l, i);
    PrefixOfRun(BucketAfter(None, times[..i], l), times[i..], l, j - i);
    assert times[i..][..j - i] == times[i..j];
    assert own[i..][..j - i] == own[i..j];
  }

  lemma OwnWindowAtMostTheRate(times: seq<real>, l: Limit, i: nat, j: nat)
    requires Steady(l) && Rising(times) && i < j <= |times|
    ensures Count(OwnVerdicts(None, times, l)[i..j]) as real <= l.max + (l.supply(times[j - 1]) - l.supply(times[i]))
  {
    WindowIsARun(times, l, i, j);
    RunStaysBounded(None, times, l, i);
    AdmittedWasRefilled(BucketAfter(None, times[..i], l), times[i..j], l);
  }

  /** In any window of consecutive requests of one address, on any trace, no more are admitted
      than a full bucket and what is supplied while the window lasts. */
  lemma WindowAtMostTheRate(trace: seq<Request>, l: Limit, ip: Ip, i: nat, j: nat)
    requires Steady(l) && Ordered(trace, 0.0) && i < j <= |TimesOf(trace, ip)|
    ensures var times := TimesOf(trace, ip);
            var verdicts := VerdictsOf(trace, Verdicts(map[], trace, l), ip);
            && |verdicts| == |times|
            && Count(verdicts[i..j]) as real <= l.max + (l.supply(times[j - 1]) - l.supply(times[i]))
  {
    OwnBucketDecides(map[], None, trace, 0.0, l, ip);
    TimesRise(trace, 0.0, ip);
    OwnWindowAtMostTheRate(TimesOf(trace, ip), l, i, j);
  }

  /** A full bucket, and `max` tokens a minute for as long as the span lasts. */
  function Allowance(max: nat, span: real): real { max as real + span * (max as real / 60.0) }

  lemma SpanIsAllowance(max: nat, x: real, y: real)
    ensures LimitOf(max).max + (LimitOf(max).supply(y) - LimitOf(max).supply(x)) == Allowance(max, y - x)
  {
    SupplySpan(max, x, y);
  }

  /** The requests `i` to `j` of an address that a trace admits. */
  function AdmittedIn(trace: seq<Request>, l: Limit, ip: Ip, i: nat, j: nat): nat
    requires i <= j <= |VerdictsOf(trace, Verdicts(map[], trace, l), ip)|
  {
    Count(VerdictsOf(trace, Verdicts(map[], trace, l), ip)[i..j])
  }

  lemma WindowWithin(trace: seq<Request>, l: Limit, ip: Ip, i: nat, j: nat, bound: real)
    requires Steady(l) && Ordered(trace, 0.0) && i < j <= |TimesOf(trace, ip)|
    requires var times := TimesOf(trace, ip); l.max + (l.supply(times[j - 1]) - l.supply(times[i])) == bound
    ensures |VerdictsOf(trace, Verdicts(map[], trace, l), ip)| == |TimesOf(trace, ip)|
    ensures AdmittedIn(trace, l, ip, i, j) as real <= bound
  {
    WindowAtMostTheRate(trace, l, ip, i, j);
  }

  lemma LimiterWindow(trace: seq<Request>, max: nat, ip: Ip, i: nat, j: nat, x: real, y: real, bound: real)
    requires Ordered(trace, 0.0) && i < j <= |TimesOf(trace, ip)|
    requires x == TimesOf(trace, ip)[i] && y == TimesOf(trace, ip)[j - 1]
    requires LimitOf(max).max + (LimitOf(max).supply(y) - LimitOf(max).supply(x)) == bound
    ensures |VerdictsOf(trace, Verdicts(map[], trace, LimitOf(max)), ip)| == |TimesOf(trace, ip)|
    ensures AdmittedIn(trace, LimitOf(max), ip, i, j) as real <= bound
  {
    LinearSupplyIsSteady(max);
    WindowWithin(trace, LimitOf(max), ip, i, j, bound);
  }

  /** For the limiter: at most `max + T * max / 60`, `T` being the seconds the window spans. */
  lemma AtMostTheRate(trace: seq<Request>, max: nat, ip: Ip, i: nat, j: nat)
    requires Ordered(trace, 0.0) && i < j <= |TimesOf(trace, ip)|
    ensures |VerdictsOf(trace, Verdicts(map[], trace, LimitOf(max)), ip)| == |TimesOf(trace, ip)|
    ensures var times := TimesOf(trace, ip);
            AdmittedIn(trace, LimitOf(max), ip, i, j) as real <= Allowance(max, times[j - 1] - times[i])
  {
    var times := TimesOf(trace, ip);
    var allowance := Allowance(max, times[j - 1] - times[i]);
    assert LimitOf(max).max + (LimitOf(max).supply(times[j - 1]) - LimitOf(max).supply(times[i])) == allowance by {
      SpanIsAllowance(max, times[i], times[j - 1]);
    }
    LimiterWindow(trace, max, ip, i, j, times[i], times[j - 1], allowance);
  }

  // ---- What is admitted ----

  /** No request finds its bucket refilled past the cap. */
  predicate Uncapped(b: Bucket, times: seq<real>, l: Limit)
    decreases |times|
  {
    times == [] ||
    (b.tokens + Gained(l, b.last, times[0]) <= l.max && Uncapped(Charge(Some(b), times[0], l).0, times[1..], l))
  }

  /** While the cap is not reached no token is lost: what was admitted and what is left over are together
      exactly what was there and what was supplied. */
  lemma {:induction false} NothingIsLost(b: Bucket, times: seq<real>, l: Limit)
    requires times != [] && Rising(times) && b.last <= times[0] && Uncapped(b, times, l)
    ensures BucketAfter(Some(b), times, l).Some?
    ensures Count(OwnVerdicts(Some(b), times, l)) as real + BucketAfter(Some(b), times, l).value.tokens ==
              b.tokens + (l.supply(times[|times| - 1]) - l.supply(b.last))
    decreases |times|
  {
    var rest := times[1..];
    var (b', ok) := Charge(Some(b), times[0], l);
    assert OwnVerdicts(Some(b), times, l)[1..] == OwnVerdicts(Some(b'), rest, l);
    if rest != [] { NothingIsLost(b', rest, l); }
  }

  predicate AllAt(times: seq<real>, t: real) { forall i :: 0 <= i < |times| ==> times[i] == t }

  lemma {:induction false} BurstEmptiesBucket(b: Bucket, times: seq<real>, max: nat, left: nat, i: nat)
    requires AllAt(times, b.last) && left <= max && b.tokens == left as real && i < |times|
    ensures OwnVerdicts(Some(b), times, LimitOf(max))[i] <==> i < left
    decreases |times|
  {
    var l := LimitOf(max);
    var (b', ok) := Charge(Some(b), times[0], l);
    assert Gained(l, b.last, times[0]) == 0.0;
    if i > 0 {
      assert OwnVerdicts(Some(b), times, l)[i] == OwnVerdicts(Some(b'), times[1..], l)[i - 1];
      BurstEmptiesBucket(b', times[1..], max, if left > 0 then left - 1 else 0, i - 1);
    }
  }

  lemma OwnBurst(times: seq<real>, max: nat, t: real, i: nat)
    requires AllAt(times, t) && i < |times|
    ensures OwnVerdicts(None, times, LimitOf(max))[i] <==> i < max
  {
    var l := LimitOf(max);
    assert Charge(None, times[0], l) == Charge(Some(Bucket(l.max, t)), times[0], l);
    assert OwnVerdicts(None, times, l) == OwnVerdicts(Some(Bucket(l.max, t)), times, l);
    BurstEmptiesBucket(Bucket(l.max, t), times, max, max, i);
  }

  /** Of the requests of a new address at one instant, on any trace, exactly the first `max` are
      admitted. */
  lemma BurstIsAdmitted(trace: seq<Request>, max: nat, ip: Ip, t: real, i: nat)
    requires Ordered(trace, 0.0) && AllAt(TimesOf(trace, ip), t) && i < |TimesOf(trace, ip)|
    ensures |VerdictsOf(trace, Verdicts(map[], trace, LimitOf(max)), ip)| == |TimesOf(trace, ip)|
    ensures VerdictsOf(trace, Verdicts(map[], trace, LimitOf(max)), ip)[i] <==> i < max
  {
    EvictionIsInvisible(trace, max, ip);
    OwnBurst(TimesOf(trace, ip), max, t, i);
  }

  /** Of the other addresses a check forgets exactly those not seen for 300 seconds, and leaves the rest
      alone. */
  lemma CheckForgetsIdle(bs: Buckets, r: Request, l: Limit, ip: Ip)
    requires ip != r.ip
    ensures var after := Checked(bs, r, l).0;
            && (ip in after <==> ip in bs && r.at < bs[ip].last + 300.0)
            && (ip in after ==> after[ip] == bs[ip])
    ensures r.ip in Checked(bs, r, l).0
  {}

  /** An address that has waited `60 / max` seconds since its last request is admitted. */
  lemma PatientRequestIsAdmitted(b: Bucket, now: real, max: nat)
    requires max >= 1 && 0.0 <= b.tokens && now - b.last >= 60.0 / (max as real)
    ensures Charge(Some(b), now, LimitOf(max)).1
  {
    assert LimitOf(max).supply(now) - LimitOf(max).supply(b.last) >= 1.0 by { OneTokenSupplied(max, b.last, now); }
  }

  lemma OneTokenSupplied(max: nat, x: real, y: real)
    requires max >= 1 && y - x >= 60.0 / (max as real)
    ensures LimitOf(max).supply(y) - LimitOf(max).supply(x) >= 1.0
  {
    SupplySpan(max, x, y);
    ProductGrows(60.0 / (max as real), y - x, max as real / 60.0);
    WaitTimesRate(max as real);
  }

  lemma WaitTimesRate(m: real)
    requires m > 0.0
    ensures (60.0 / m) * (m / 60.0) == 1.0
  {
    var w := 60.0 / m;
    assert w * m == 60.0;
    assert w * (m / 60.0) == (w * m) / 60.0;
  }
}
