/**
 The load generator's pacer: a hit curve made of a linear ramp up, a plateau and a linear
 ramp down, and the search that inverts it.  Durations are whole nanoseconds, rates and hit
 counts are reals.
 */
module PhasePacer {
  import opened Arithmetic

  const NANOS_PER_SECOND: real := 1000000000.0
  const MILLISECOND: int := 1_000_000
  const SLACK: real := 0.000000001
  const BISECTIONS: nat := 24

  function Max(a: int, b: int): int { if a < b then b else a }

  function Clamp(x: int, limit: int): int { if x < 0 then 0 else Min(x, limit) }

  function Seconds(d: int): real { d as real / NANOS_PER_SECOND }

  /** The height at `x` of the straight line that runs from `a` at 0 to `b` at `len`. */
  function Line(a: real, b: real, len: int, x: int): real
    requires 0 < len
  {
    a + PerSecond(b - a, len) * Seconds(x)
  }

  /** The area of a trapezium. */
  function Trapezium(width: real, left: real, right: real): real { width * (left + right) / 2.0 }

  /** What a rate that starts at `rate` and changes by `slope` a second yields in `x` seconds. */
  function Ramp(rate: real, slope: real, x: real): real { rate * x + 0.5 * slope * x * x }

  function PerSecond(rise: real, d: int): real
    requires 0 < d
  {
    rise / Seconds(d)
  }

  /** The area under that line from 0 to `x`. */
  function LineArea(a: real, b: real, len: int, x: int): real
    requires 0 <= x <= len
  {
    if len == 0 then 0.0 else Ramp(a, PerSecond(b - a, len), Seconds(x))
  }

  datatype Pacer = Pacer(startRps: real, peakRps: real, rampUp: int, hold: int, rampDown: int, totalStage: int) {

    /** What the configuration is checked for, and what the constructor computes. Stages may have any
        length, also none or a negative one, which the hit curve takes for none. */
    ghost predicate Valid() {
      startRps >= 0.0 && peakRps >= 0.0 && totalStage == rampUp + hold + rampDown
    }

    ghost predicate StagesNonNegative() { rampUp >= 0 && hold >= 0 && rampDown >= 0 }

    ghost function Up(): int { Max(rampUp, 0) }

    ghost function Flat(): int { Max(hold, 0) }

    ghost function Down(): int { Max(rampDown, 0) }

    /** When the hit curve stops growing. */
    ghost function Length(): int { Up() + Flat() + Down() }

    /** The reference hit curve: the area under the three stages up to `elapsed`. */
    ghost function Area(elapsed: int): real {
      LineArea(startRps, peakRps, Up(), Clamp(elapsed, Up()))
      + LineArea(peakRps, peakRps, Flat(), Clamp(elapsed - Up(), Flat()))
      + LineArea(peakRps, 0.0, Down(), Clamp(elapsed - Up() - Flat(), Down()))
    }

    /** The search ends: the schedule has a length, or its hit curve reaches the target. */
    ghost predicate SearchEnds(hits: nat) {
      totalStage > 0 || Area(Length()) >= (hits + 1) as real
    }

    /** How far the doubling can get. */
    ghost function Reach(): int { Max(if totalStage > 0 then totalStage else 2 * Length(), MILLISECOND) }

    /** How far beyond the earliest possible moment the search may settle, in nanoseconds. */
    ghost function Overshoot(): real { Reach() as real / Pow2(BISECTIONS) as real + 1.0 }

    /** The moment that the doubling tries after `high`. */
    ghost function Next(high: int): int {
      var next := if high * 2 <= high then high + MILLISECOND else high * 2;
      if totalStage > 0 && next > totalStage then totalStage else next
    }

    /** The moments that the doubling tries, one after the other, as long as it does not end. */
    ghost function Tried(elapsed: int, n: nat): int {
      if n == 0 then (if elapsed <= 0 then MILLISECOND else elapsed) else Next(Tried(elapsed, n - 1))
    }

    ghost predicate Stops(high: int, hits: nat) {
      Area(high) >= (hits + 1) as real || (totalStage > 0 && high >= totalStage)
    }

    function Rate(elapsed: int): real {
      if totalStage == 0 then peakRps
      else if elapsed <= 0 then if rampUp > 0 then startRps else peakRps
      else if rampUp > 0 && elapsed < rampUp then
        startRps + (peakRps - startRps) * (Seconds(elapsed) / Seconds(rampUp))
      else
        var afterRamp := elapsed - rampUp;
        if hold > 0 && afterRamp < hold then peakRps
        else
          var afterHold := afterRamp - hold;
          if rampDown > 0 && afterHold < rampDown then
            var rate := peakRps * (1.0 - Seconds(afterHold) / Seconds(rampDown));
            if rate < 0.0 then 0.0 else rate
          else if totalStage > 0 && afterHold >= rampDown then 0.0
          else peakRps
    }

    method Hits(elapsed: int) returns (total: real)
      requires Valid()
      ensures total == Area(elapsed)
    {
      StagesStartEmpty(this);
      hide LineArea, Seconds, Ramp, PerSecond;
      if elapsed <= 0 {
        return 0.0;
      }
      total := 0.0;
      var remaining := elapsed;
      if rampUp > 0 {
        var stage := Min(remaining, rampUp);
        var x := Seconds(stage);
        var a := PerSecond(peakRps - startRps, rampUp);
        StageArea(startRps, peakRps, rampUp, stage);
        total := total + Ramp(startRps, a, x);
        remaining := remaining - stage;
        if remaining <= 0 {
          return;
        }
      }
      assert total == LineArea(startRps, peakRps, Up(), Clamp(elapsed, Up()));
      assert remaining == elapsed - Up();
      if hold > 0 {
        var stage := Min(remaining, hold);
        FlatStageArea(peakRps, hold, stage);
        total := total + peakRps * Seconds(stage);
        remaining := remaining - stage;
        if remaining <= 0 {
          return;
        }
      }
      assert total == LineArea(startRps, peakRps, Up(), Clamp(elapsed, Up()))
                      + LineArea(peakRps, peakRps, Flat(), Clamp(elapsed - Up(), Flat()));
      if rampDown > 0 {
        var stage := Min(remaining, rampDown);
        var x := Seconds(stage);
        var a := PerSecond(peakRps, rampDown);
        DownStageArea(peakRps, rampDown, stage);
        total := total + Ramp(peakRps, -a, x);
      }
    }

    /**
     Asked for hit number `hits + 1` at `elapsed`: stop exactly when the schedule has a length and
     cannot hold that hit; otherwise wait until the curve reaches it, and not longer than the
     bisection's resolution beyond the earliest moment at which it does. The search needs the
     condition under which it ends at all.
     */
    method Pace(elapsed: int, hits: nat) returns (wait: int, stop: bool)
      requires Valid() && elapsed >= 0 && SearchEnds(hits)
      ensures stop <==> totalStage > 0 && Area(totalStage) + SLACK < (hits + 1) as real
      ensures stop ==> wait == 0
      ensures !stop ==> wait >= 0 && Area(elapsed + wait) + SLACK >= (hits + 1) as real
      ensures !stop ==> forall t: int :: elapsed <= t && Area(t) >= (hits + 1) as real
                          ==> (elapsed + wait) as real < t as real + Overshoot()
    {
      hide Area, Pow2, Halved, Length;
      var targetHits := (hits + 1) as real;
      var all := Hits(totalStage);
      if totalStage > 0 && all + SLACK < targetHits {
        return 0, true;
      }
      var already := Hits(elapsed);
      if already >= targetHits {
        return 0, false;
      }

      var low := elapsed;
      var high := elapsed;
      if high <= 0 {
        high := MILLISECOND;
      }
      ghost var limit := if totalStage > 0 then totalStage else Length();
      ghost var n: nat := 0;
      while true
        invariant elapsed <= high && 0 < high == Tried(elapsed, n)
        invariant high - elapsed <= Reach()
        invariant high <= Reach() || high == elapsed
        decreases limit - high
      {
        var atHigh := Hits(high);
        if atHigh >= targetHits {
          break;
        }
        if totalStage > 0 && high >= totalStage {
          AreaMonotone(this, totalStage, high);
          if atHigh + SLACK < targetHits {
            return 0, true;
          }
          break;
        }
        StillBelow(this, high, limit, targetHits);
        var next := high * 2;
        if next <= high {
          next := high + MILLISECOND;
        }
        if totalStage > 0 && next > totalStage {
          next := totalStage;
        }
        high, n := next, n + 1;
      }

      ghost var width := high - low;
      NotHalvedYet(width);
      for i := 0 to BISECTIONS
        invariant elapsed <= low <= high
        invariant Area(low) < targetHits <= Area(high) + SLACK
        invariant Halved(high - low, width, i)
      {
        var mid := low + (high - low) / 2;
        var atMid := Hits(mid);
        HalvingStep(high - low, width, i);
        if atMid >= targetHits {
          high := mid;
        } else {
          low := mid;
        }
      }
      if high < elapsed {
        return 0, false;
      }
      wait, stop := high - elapsed, false;
      Resolution(high - low, width, Reach(), BISECTIONS);
      forall t: int | elapsed <= t && Area(t) >= targetHits
        ensures high as real < t as real + Overshoot()
      {
        NotYet(this, low, t);
      }
    }
  }

  function NewPhasePacer(startRps: real, peakRps: real, rampUp: int, hold: int, rampDown: int): (p: Pacer)
    ensures p.Valid() <==> startRps >= 0.0 && peakRps >= 0.0
  {
    Pacer(startRps, peakRps, rampUp, hold, rampDown, rampUp + hold + rampDown)
  }

  function Pow2(n: nat): (p: nat)
    ensures p >= 1
  {
    if n == 0 then 1 else 2 * Pow2(n - 1)
  }

  // ---------- the curve ----------

  /** Area is height times width: the exact trapezoid rule for one stage. */
  lemma Trapezoid(a: real, b: real, len: int, x: int, y: int)
    requires 0 <= x <= y <= len && 0 < len
    ensures LineArea(a, b, len, y) - LineArea(a, b, len, x)
         == Trapezium(Seconds(y) - Seconds(x), Line(a, b, len, x), Line(a, b, len, y))
  {
    TrapezoidAlgebra(a, PerSecond(b - a, len), Seconds(x), Seconds(y));
    hide Ramp, Trapezium, Seconds, PerSecond;
  }

  lemma SlopeForm(a: real, b: real, t: real, p: real)
    requires t > 0.0
    ensures a + (b - a) * (p / t) == a + ((b - a) / t) * p
  {
    var d := b - a;
    assert d * (p / t) == (d * p) / t;
    assert (d / t) * p == (d * p) / t;
  }

  lemma StagesStartEmpty(p: Pacer)
    requires p.Valid()
    ensures LineArea(p.startRps, p.peakRps, p.Up(), 0) == 0.0
    ensures LineArea(p.peakRps, p.peakRps, p.Flat(), 0) == 0.0
    ensures LineArea(p.peakRps, 0.0, p.Down(), 0) == 0.0
  {
    assert Seconds(0) == 0.0;
  }

  lemma StageArea(a: real, b: real, len: int, x: int)
    requires 0 <= x <= len && 0 < len
    ensures Ramp(a, PerSecond(b - a, len), Seconds(x)) == LineArea(a, b, len, x)
  {
  }

  lemma FlatStageArea(a: real, len: int, x: int)
    requires 0 <= x <= len && 0 < len
    ensures a * Seconds(x) == LineArea(a, a, len, x)
  {
    assert (a - a) / Seconds(len) == 0.0;
  }

  lemma DownStageArea(a: real, len: int, x: int)
    requires 0 <= x <= len && 0 < len
    ensures Ramp(a, -PerSecond(a, len), Seconds(x)) == LineArea(a, 0.0, len, x)
  {
    assert (0.0 - a) / Seconds(len) == -(a / Seconds(len));
  }

  lemma TrapezoidAlgebra(a: real, k: real, p: real, q: real)
    ensures Ramp(a, k, q) - Ramp(a, k, p) == Trapezium(q - p, a + k * p, a + k * q)
  {
    assert (q - p) * (a + a) == 2.0 * (a * q) - 2.0 * (a * p);
    assert (q - p) * (k * p + k * q) == k * q * q - k * p * p;
  }

  lemma LineNonNegative(a: real, b: real, len: int, x: int)
    requires a >= 0.0 && b >= 0.0 && 0 <= x <= len && 0 < len
    ensures Line(a, b, len, x) >= 0.0
  {
    SlopeForm(a, b, Seconds(len), Seconds(x));
    QuotientInUnit(Seconds(x), Seconds(len));
    Blend(a, b, Seconds(x) / Seconds(len));
  }

  lemma Blend(a: real, b: real, f: real)
    requires a >= 0.0 && b >= 0.0 && 0.0 <= f <= 1.0
    ensures a + (b - a) * f >= 0.0
  {
    Product(a, 1.0 - f);
    Product(b, f);
    assert a + (b - a) * f == a * (1.0 - f) + b * f;
  }

  lemma Product(a: real, b: real)
    requires a >= 0.0 && b >= 0.0
    ensures a * b >= 0.0
  {
  }

  lemma QuotientInUnit(p: real, t: real)
    requires 0.0 <= p <= t && t > 0.0
    ensures 0.0 <= p / t <= 1.0
  {
  }

  lemma LineAreaMonotone(a: real, b: real, len: int, x: int, y: int)
    requires a >= 0.0 && b >= 0.0 && 0 <= x <= y <= len
    ensures LineArea(a, b, len, x) <= LineArea(a, b, len, y)
  {
    if len > 0 {
      Trapezoid(a, b, len, x, y);
      LineNonNegative(a, b, len, x);
      LineNonNegative(a, b, len, y);
      Product(Seconds(y) - Seconds(x), Line(a, b, len, x) + Line(a, b, len, y));
      hide LineArea, Seconds, Line;
    }
  }

  /** The hit curve never falls. */
  lemma AreaMonotone(p: Pacer, x: int, y: int)
    requires p.Valid() && x <= y
    ensures p.Area(x) <= p.Area(y)
  {
    LineAreaMonotone(p.startRps, p.peakRps, p.Up(), Clamp(x, p.Up()), Clamp(y, p.Up()));
    LineAreaMonotone(p.peakRps, p.peakRps, p.Flat(), Clamp(x - p.Up(), p.Flat()), Clamp(y - p.Up(), p.Flat()));
    LineAreaMonotone(p.peakRps, 0.0, p.Down(),
                     Clamp(x - p.Up() - p.Flat(), p.Down()), Clamp(y - p.Up() - p.Flat(), p.Down()));
  }

  /** Nothing grows after the end. */
  lemma AreaBounded(p: Pacer, x: int)
    requires p.Valid()
    ensures p.Area(x) <= p.Area(p.Length())
  {
    AreaMonotone(p, x, Max(x, p.Length()));
  }

  /** As long as the doubling goes on, it has not reached the end of what it searches. */
  lemma StillBelow(p: Pacer, high: int, limit: int, target: real)
    requires p.Valid() && p.Area(high) < target && !(p.totalStage > 0 && high >= p.totalStage)
    requires limit == if p.totalStage > 0 then p.totalStage else p.Length()
    requires p.totalStage > 0 || p.Area(p.Length()) >= target
    ensures high < limit
  {
    if p.totalStage <= 0 {
      NotYet(p, high, p.Length());
    }
  }

  /** A moment at which the curve has reached a target lies after one at which it has not. */
  lemma NotYet(p: Pacer, low: int, t: int)
    requires p.Valid() && p.Area(low) < p.Area(t)
    ensures low < t
  {
    if t <= low {
      AreaMonotone(p, t, low);
    }
  }

  /** The whole schedule holds the ramps' mean rates times their lengths. */
  lemma TotalArea(p: Pacer)
    requires p.Valid()
    ensures p.Area(p.Length()) == Seconds(p.Up()) * (p.startRps + p.peakRps) / 2.0
                                  + Seconds(p.Flat()) * p.peakRps
                                  + Seconds(p.Down()) * p.peakRps / 2.0
  {
    WholeLine(p.startRps, p.peakRps, p.Up());
    WholeLine(p.peakRps, p.peakRps, p.Flat());
    WholeLine(p.peakRps, 0.0, p.Down());
  }

  lemma WholeLine(a: real, b: real, len: int)
    requires 0 <= len
    ensures LineArea(a, b, len, len) == Seconds(len) * (a + b) / 2.0
  {
    if len > 0 {
      Trapezoid(a, b, len, 0, len);
      SlopeForm(a, b, Seconds(len), Seconds(len));
      SlopeForm(a, b, Seconds(len), Seconds(0));
    }
  }

  /** Both ends of an interval lie in one stage of the schedule, or after its end. */
  ghost predicate SameStage(p: Pacer, x: int, y: int) {
    || (0 <= x <= y < p.rampUp)
    || (p.rampUp <= x <= y < p.rampUp + p.hold)
    || (p.rampUp + p.hold <= x <= y < p.totalStage)
    || (0 < p.totalStage <= x <= y)
  }

  /** `Hits` integrates `Rate`: inside a stage, and after the last, the growth is the mean rate times the
      time. */
  lemma AreaIntegratesRate(p: Pacer, x: int, y: int)
    requires p.Valid() && p.StagesNonNegative() && SameStage(p, x, y)
    ensures p.Area(y) - p.Area(x) == Trapezium(Seconds(y) - Seconds(x), p.Rate(x), p.Rate(y))
  {
    StagesStartEmpty(p);
    var start := p.rampUp + p.hold;
    if y < p.rampUp {
      Trapezoid(p.startRps, p.peakRps, p.rampUp, x, y);
      RateOnRampUp(p, x);
      RateOnRampUp(p, y);
      hide LineArea, Seconds, Line, Trapezium, Pacer.Rate;
    } else if y < start {
      Trapezoid(p.peakRps, p.peakRps, p.hold, x - p.rampUp, y - p.rampUp);
      SecondsDifference(x, y, p.rampUp);
      RateOnHold(p, x);
      RateOnHold(p, y);
      hide LineArea, Seconds, Line, Trapezium, Pacer.Rate;
    } else if x >= p.totalStage {
      RateAfterEnd(p, x);
      RateAfterEnd(p, y);
    } else {
      Trapezoid(p.peakRps, 0.0, p.rampDown, x - start, y - start);
      SecondsDifference(x, y, start);
      RateOnRampDown(p, x);
      RateOnRampDown(p, y);
      hide LineArea, Seconds, Line, Trapezium, Pacer.Rate;
    }
  }

  lemma RateAfterEnd(p: Pacer, x: int)
    requires p.Valid() && p.StagesNonNegative() && 0 < p.totalStage <= x
    ensures p.Rate(x) == 0.0 && p.Area(x) == p.Area(p.totalStage)
  {
    hide LineArea, Seconds;
  }

  /** The reported rate runs straight from the start rate to the peak, stays there, runs straight down to
      zero, and is zero from the end of the schedule on. */
  lemma RateExactly(p: Pacer, x: int)
    requires p.Valid() && p.StagesNonNegative()
    ensures 0 <= x < p.rampUp ==>
              p.Rate(x) * Seconds(p.rampUp) == p.startRps * (Seconds(p.rampUp) - Seconds(x)) + p.peakRps * Seconds(x)
    ensures p.rampUp <= x < p.rampUp + p.hold ==> p.Rate(x) == p.peakRps
    ensures p.rampUp + p.hold <= x < p.totalStage ==>
              p.Rate(x) * Seconds(p.rampDown) == p.peakRps * (Seconds(p.totalStage) - Seconds(x))
    ensures 0 < p.totalStage <= x ==> p.Rate(x) == 0.0
  {
    if 0 <= x < p.rampUp {
      RateOnRampUp(p, x);
      OnLine(p.startRps, p.peakRps, p.rampUp, x);
    } else if p.rampUp <= x < p.rampUp + p.hold {
      RateOnHold(p, x);
      FlatLine(p.peakRps, p.hold, x - p.rampUp);
    } else if p.rampUp + p.hold <= x < p.totalStage {
      RateOnRampDown(p, x);
      OnLine(p.peakRps, 0.0, p.rampDown, x - p.rampUp - p.hold);
      SecondsDifference(x, p.totalStage, p.rampUp + p.hold);
    } else if 0 < p.totalStage <= x {
      RateAfterEnd(p, x);
    }
    hide Line, Seconds, Pacer.Rate, PerSecond;
  }

  lemma FlatLine(a: real, len: int, x: int)
    requires 0 < len
    ensures Line(a, a, len, x) == a
  {
    assert PerSecond(a - a, len) == 0.0;
  }

  lemma OnLine(a: real, b: real, len: int, x: int)
    requires 0 < len
    ensures Line(a, b, len, x) * Seconds(len) == a * (Seconds(len) - Seconds(x)) + b * Seconds(x)
  {
    LineAlgebra(a, b, Seconds(len), Seconds(x));
  }

  lemma LineAlgebra(a: real, b: real, t: real, x: real)
    requires t > 0.0
    ensures (a + ((b - a) / t) * x) * t == a * (t - x) + b * x
  {
    var k := (b - a) / t;
    assert k * t == b - a;
    assert (a + k * x) * t == a * t + (k * t) * x;
  }

  lemma SecondsDifference(x: int, y: int, start: int)
    ensures Seconds(y - start) - Seconds(x - start) == Seconds(y) - Seconds(x)
  {
  }

  lemma RateOnRampUp(p: Pacer, x: int)
    requires p.Valid() && p.StagesNonNegative() && 0 <= x < p.rampUp
    ensures p.Rate(x) == Line(p.startRps, p.peakRps, p.rampUp, x)
  {
    SlopeForm(p.startRps, p.peakRps, Seconds(p.rampUp), Seconds(x));
  }

  lemma RateOnHold(p: Pacer, x: int)
    requires p.Valid() && p.StagesNonNegative() && p.rampUp <= x < p.rampUp + p.hold
    ensures p.Rate(x) == Line(p.peakRps, p.peakRps, p.hold, x - p.rampUp)
  {
    assert PerSecond(p.peakRps - p.peakRps, p.hold) == 0.0;
  }

  lemma Complement(b: real, f: real)
    ensures b * (1.0 - f) == b + (0.0 - b) * f
  {
  }

  lemma RateOnRampDown(p: Pacer, x: int)
    requires p.Valid() && p.StagesNonNegative() && p.rampUp + p.hold <= x < p.totalStage
    ensures p.Rate(x) == Line(p.peakRps, 0.0, p.rampDown, x - p.rampUp - p.hold)
  {
    var d := x - p.rampUp - p.hold;
    LineNonNegative(p.peakRps, 0.0, p.rampDown, d);
    SlopeForm(p.peakRps, 0.0, Seconds(p.rampDown), Seconds(d));
    Complement(p.peakRps, Seconds(d) / Seconds(p.rampDown));
  }

  // ---------- when the search ends ----------

  /** The answer is known at once, or the doubling stops at some point. */
  ghost predicate Ends(p: Pacer, elapsed: int, hits: nat) {
    || (p.totalStage > 0 && p.Area(p.totalStage) + SLACK < (hits + 1) as real)
    || p.Area(elapsed) >= (hits + 1) as real
    || exists n: nat :: p.Stops(p.Tried(elapsed, n), hits)
  }

  lemma {:induction false} TriedGrows(p: Pacer, elapsed: int, n: nat)
    ensures p.Tried(elapsed, n) >= n + 1 || (p.totalStage > 0 && p.Tried(elapsed, n) >= p.totalStage)
  {
    if n > 0 {
      TriedGrows(p, elapsed, n - 1);
    }
  }

  /** Exactly when the search ends: the schedule's total length is positive, or its hit curve holds
      the hit. With stages of no negative length the second never helps, as the next lemma shows. */
  lemma EndsIff(p: Pacer, elapsed: int, hits: nat)
    requires p.Valid()
    ensures Ends(p, elapsed, hits) <==> p.SearchEnds(hits)
  {
    AreaBounded(p, elapsed);
    forall n: nat
      ensures p.Area(p.Tried(elapsed, n)) <= p.Area(p.Length())
    {
      AreaBounded(p, p.Tried(elapsed, n));
    }
    if p.SearchEnds(hits) {
      var n := if p.totalStage > 0 then p.totalStage else p.Length();
      TriedGrows(p, elapsed, n);
      if p.totalStage <= 0 {
        AreaMonotone(p, n, p.Tried(elapsed, n));
      }
      assert p.Stops(p.Tried(elapsed, n), hits);
    }
    hide Pacer.Area, Pacer.Tried, Pacer.Length;
  }

  /** With no negative stage, the search ends for any hit exactly when the total is positive: the
      configuration that leaves all three stages unset makes it run for ever. */
  lemma EndsIffPositive(p: Pacer, elapsed: int, hits: nat)
    requires p.Valid() && p.StagesNonNegative()
    ensures Ends(p, elapsed, hits) <==> p.totalStage > 0
  {
    EndsIff(p, elapsed, hits);
    TotalArea(p);
    assert Seconds(0) == 0.0;
  }

  /** The unset configuration, which nothing refuses. */
  lemma UnsetNeverEnds(startRps: real, peakRps: real, elapsed: int, hits: nat)
    requires startRps >= 0.0 && peakRps >= 0.0
    ensures !Ends(NewPhasePacer(startRps, peakRps, 0, 0, 0), elapsed, hits)
  {
    EndsIffPositive(NewPhasePacer(startRps, peakRps, 0, 0, 0), elapsed, hits);
  }

  // ---------- the bisection ----------

  /** After `i` halvings of a gap of `width`, rounding up each time, at most `gap` is left. */
  ghost predicate Halved(gap: int, width: int, i: nat) {
    gap * Pow2(i) < width + Pow2(i)
  }

  lemma NotHalvedYet(width: int)
    ensures Halved(width, width, 0)
  {
  }

  lemma HalvingStep(gap: int, width: int, i: nat)
    requires 0 <= gap && Halved(gap, width, i)
    ensures Halved(gap / 2, width, i + 1) && Halved(gap - gap / 2, width, i + 1)
  {
    var q := Pow2(i);
    assert Pow2(i + 1) == 2 * q;
    var up := gap - gap / 2;
    assert 2 * up <= gap + 1;
    assert (2 * up) * q <= (gap + 1) * q;
    assert (2 * (gap / 2)) * q <= gap * q;
  }

  lemma Resolution(gap: int, width: int, bound: int, n: nat)
    requires Halved(gap, width, n) && width <= bound
    ensures gap as real < bound as real / Pow2(n) as real + 1.0
  {
    ScaledGap(gap, width, Pow2(n));
    QuotientBound(gap as real, bound as real, Pow2(n) as real);
  }

  lemma ScaledGap(gap: int, width: int, q: int)
    requires gap * q < width + q
    ensures gap as real * q as real < width as real + q as real
  {
    assert gap as real * q as real == (gap * q) as real;
  }

  lemma NegativeProduct(d: real, q: real)
    requires d * q < 0.0 && q > 0.0
    ensures d < 0.0
  {
  }

  lemma QuotientBound(g: real, b: real, q: real)
    requires q > 0.0 && g * q < b + q
    ensures g < b / q + 1.0
  {
    var r := b / q;
    assert r * q == b;
    var d := g - (r + 1.0);
    assert d * q == g * q - (r * q + q);
    NegativeProduct(d, q);
  }
}
