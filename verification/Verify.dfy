/** The verification loop: engine/verify.go, and the loader's check that its window fits its samples. */
module Verification {
  import opened Prelude

  // ------------------------------------------------------- one criterion

  datatype Direction = LowerIsBetter | HigherIsBetter

  datatype Criterion = Criterion(direction: Direction, max: Option<real>, maxRatio: Option<real>, floor: real)

  datatype Sample = Sample(value: real, baseline: real) {
    predicate HasBaseline() {
      baseline > 0.0
    }
  }

  /** The ratio against the baseline is over the tolerance. A division by zero is infinite, and over it. */
  predicate OverRatio(d: Direction, s: Sample, tolerance: real)
    requires s.HasBaseline()
  {
    match d
    case LowerIsBetter => s.value / s.baseline > tolerance
    case HigherIsBetter => s.value == 0.0 || s.baseline / s.value > tolerance
  }

  /** Floor first, then the absolute limit, then the ratio, which needs a baseline. */
  predicate Passes(c: Criterion, s: Sample) {
    if c.direction == LowerIsBetter && s.value <= c.floor then true
    else if c.direction == HigherIsBetter && c.floor > 0.0 && s.value >= c.floor then true
    else if c.max.Some? && c.direction == LowerIsBetter && s.value > c.max.value then false
    else if c.max.Some? && c.direction == HigherIsBetter && s.value < c.max.value then false
    else if c.maxRatio.Some? && s.HasBaseline() then !OverRatio(c.direction, s, c.maxRatio.value)
    else true
  }

  /** The ratio, without division: what a value may be against its baseline. */
  lemma RatioMeans(d: Direction, s: Sample, tolerance: real)
    requires s.HasBaseline()
    ensures d == LowerIsBetter ==> (OverRatio(d, s, tolerance) <==> s.value > tolerance * s.baseline)
    ensures d == HigherIsBetter && s.value > 0.0 ==> (OverRatio(d, s, tolerance) <==> s.baseline > tolerance * s.value)
    ensures d == HigherIsBetter && s.value == 0.0 ==> OverRatio(d, s, tolerance)
    ensures d == HigherIsBetter && s.value < 0.0 ==> (OverRatio(d, s, tolerance) <==> s.baseline < tolerance * s.value)
  {
    if d == LowerIsBetter {
      QuotientAgainst(s.value, s.baseline, tolerance);
    } else if s.value > 0.0 {
      QuotientAgainst(s.baseline, s.value, tolerance);
    } else if s.value < 0.0 {
      QuotientAgainst(-s.baseline, -s.value, tolerance);
      assert (-s.baseline) / (-s.value) == s.baseline / s.value;
    }
  }

  lemma QuotientAgainst(x: real, b: real, t: real)
    requires b > 0.0
    ensures x / b > t <==> x > t * b
  {
    assert x == (x / b) * b;
    if x / b > t {
      assert (x / b - t) * b > 0.0;
    } else {
      assert (t - x / b) * b >= 0.0;
    }
  }

  /**
    * When a sample passes: below the floor, or within the limit and the ratio to the baseline as far
    * as they are set; the other way round where more is better, and there a zero is over any ratio.
    */
  lemma PassesExactly(c: Criterion, s: Sample)
    requires s.value >= 0.0
    ensures c.direction == LowerIsBetter ==>
      (Passes(c, s) <==>
         || s.value <= c.floor
         || ((c.max.Some? ==> s.value <= c.max.value)
             && (c.maxRatio.Some? && s.baseline > 0.0 ==> s.value <= c.maxRatio.value * s.baseline)))
    ensures c.direction == HigherIsBetter ==>
      (Passes(c, s) <==>
         || (c.floor > 0.0 && s.value >= c.floor)
         || ((c.max.Some? ==> s.value >= c.max.value)
             && (c.maxRatio.Some? && s.baseline > 0.0 ==>
                   s.value > 0.0 && s.baseline <= c.maxRatio.value * s.value)))
  {
    hide OverRatio;
    if RatioApplies(c, s) {
      RatioMeans(c.direction, s, c.maxRatio.value);
    }
  }

  /** Same baseline, value no worse. */
  predicate NoWorse(d: Direction, s: Sample, s': Sample) {
    s'.baseline == s.baseline && if d == LowerIsBetter then s'.value <= s.value else s'.value >= s.value
  }

  predicate RatioApplies(c: Criterion, s: Sample) {
    c.maxRatio.Some? && s.HasBaseline()
  }

  /**
    * When every better value passes too. It fails for one family: a higher-is-better ratio passes
    * on negative values, whose quotient is negative, and then refuses zero.
    */
  lemma BetterPasses(c: Criterion, s: Sample)
    requires Passes(c, s)
    ensures (forall s' :: NoWorse(c.direction, s, s') ==> Passes(c, s'))
            <==> !(c.direction == HigherIsBetter && RatioApplies(c, s) && s.value < 0.0)
  {
    if c.direction == HigherIsBetter && RatioApplies(c, s) && s.value < 0.0 {
      assert NoWorse(c.direction, s, Sample(0.0, s.baseline)) && !Passes(c, Sample(0.0, s.baseline));
    } else {
      forall s' | NoWorse(c.direction, s, s') ensures Passes(c, s') {
        BetterValuePasses(c, s, s');
      }
    }
  }

  lemma BetterValuePasses(c: Criterion, s: Sample, s': Sample)
    requires Passes(c, s) && NoWorse(c.direction, s, s')
    requires !(c.direction == HigherIsBetter && RatioApplies(c, s) && s.value < 0.0)
    ensures Passes(c, s')
  {
    if RatioApplies(c, s) {
      if c.direction == LowerIsBetter {
        QuotientGrows(s'.value, s.value, s.baseline);
      } else if s.value > 0.0 {
        ReciprocalShrinks(s.baseline, s.value, s'.value);
      }
    }
  }

  lemma QuotientGrows(x: real, y: real, b: real)
    requires x <= y && b > 0.0
    ensures x / b <= y / b
  {
  }

  lemma ReciprocalShrinks(b: real, x: real, y: real)
    requires 0.0 < x <= y && b > 0.0
    ensures b / y <= b / x
  {
    var q := b / x;
    ProductGrows(q, x, y);
    QuotientGrows(b, q * y, y);
    assert q * y / y == q;
  }

  lemma ProductGrows(q: real, x: real, y: real)
    requires q > 0.0 && x <= y
    ensures q * x <= q * y
  {
  }

  // ------------------------------------------------------- one tick

  /** What one verifier answers. */
  datatype Reading = NoReading | Read(sample: Sample)

  /** What the loop meets in one turn of its ticker. */
  datatype Tick = Cancelled | Broken | Seen(ok: bool)

  /** One observation per criterion: any error makes the tick broken, else all must pass. */
  function Observed(cs: seq<Criterion>, rs: seq<Reading>): Tick
    requires |rs| == |cs|
  {
    if exists i :: 0 <= i < |rs| && rs[i].NoReading? then Broken
    else Seen(forall i :: 0 <= i < |rs| ==> Passes(cs[i], rs[i].sample))
  }

  method SampleAll(cs: seq<Criterion>, rs: seq<Reading>) returns (t: Tick)
    requires |rs| == |cs|
    ensures t == Observed(cs, rs)
  {
    var allOK := true;
    for i := 0 to |cs|
      invariant forall j :: 0 <= j < i ==> rs[j].Read?
      invariant allOK <==> forall j :: 0 <= j < i ==> Passes(cs[j], rs[j].sample)
    {
      if rs[i].NoReading? {
        return Broken;
      }
      if !Passes(cs[i], rs[i].sample) {
        allOK := false;
      }
    }
    return Seen(allOK);
  }

  // ------------------------------------------------------- the verdict

  datatype Policy = Policy(bake: int, interval: int, minSamples: int, failureThreshold: int,
                           successThreshold: int, maxInconclusive: int, criteria: seq<Criterion>)

  datatype Verdict = Healthy | Unhealthy | Inconclusive | Aborted

  /** The observations among some ticks, errors deleted. */
  function Observations(ts: seq<Tick>): seq<bool> {
    if ts == [] then []
    else Observations(ts[..|ts| - 1]) + if ts[|ts| - 1].Seen? then [ts[|ts| - 1].ok] else []
  }

  function Errors(ts: seq<Tick>): nat {
    if ts == [] then 0
    else Errors(ts[..|ts| - 1]) + if ts[|ts| - 1].Broken? then 1 else 0
  }

  /** Length of the longest suffix that is all b. */
  function Trailing(obs: seq<bool>, b: bool): (n: nat)
    ensures n <= |obs| && (forall i :: |obs| - n <= i < |obs| ==> obs[i] == b)
    ensures n < |obs| ==> obs[|obs| - 1 - n] != b
  {
    if obs == [] || obs[|obs| - 1] != b then 0 else 1 + Trailing(obs[..|obs| - 1], b)
  }

  /** The verdict the last of some ticks brings about, if it does. */
  function Trips(ts: seq<Tick>, p: Policy): Option<Verdict>
    requires ts != []
  {
    var obs := Observations(ts);
    match ts[|ts| - 1]
    case Cancelled => Some(Aborted)
    case Broken => if Errors(ts) > p.maxInconclusive then Some(Inconclusive) else None
    case Seen(true) =>
      if Trailing(obs, true) >= p.successThreshold && |obs| >= p.minSamples then Some(Healthy) else None
    case Seen(false) => if Trailing(obs, false) >= p.failureThreshold then Some(Unhealthy) else None
  }

  function TripAt(ts: seq<Tick>, i: nat, p: Policy): Option<Verdict>
    requires i < |ts|
  {
    Trips(ts[..i + 1], p)
  }

  /** The first tick from the i-th on that brings about a verdict, or the number of ticks. */
  function FirstTrip(ts: seq<Tick>, p: Policy, i: nat): (f: nat)
    requires i <= |ts|
    ensures i <= f <= |ts| && (forall j :: i <= j < f ==> TripAt(ts, j, p).None?)
    ensures f < |ts| ==> TripAt(ts, f, p).Some?
    decreases |ts| - i
  {
    if i == |ts| || TripAt(ts, i, p).Some? then i else FirstTrip(ts, p, i + 1)
  }

  /** The verdict on a window: that of the first tick to bring one about, else by the number of samples. */
  function Judge(ts: seq<Tick>, p: Policy): Verdict {
    var f := FirstTrip(ts, p, 0);
    if p.criteria == [] then Healthy
    else if f < |ts| then TripAt(ts, f, p).value
    else if |Observations(ts)| < p.minSamples then Inconclusive
    else Healthy
  }

  /** What one more tick adds to the counts. */
  lemma OneMore(ts: seq<Tick>, i: nat)
    requires i < |ts|
    ensures var obs, obs' := Observations(ts[..i]), Observations(ts[..i + 1]);
            if ts[i].Seen? then
              && |obs'| == |obs| + 1 && Errors(ts[..i + 1]) == Errors(ts[..i])
              && Trailing(obs', ts[i].ok) == Trailing(obs, ts[i].ok) + 1 && Trailing(obs', !ts[i].ok) == 0
            else obs' == obs && Errors(ts[..i + 1]) == Errors(ts[..i]) + if ts[i].Broken? then 1 else 0
  {
    assert ts[..i + 1][..i] == ts[..i];
    var obs := Observations(ts[..i]);
    if ts[i].Seen? {
      assert Observations(ts[..i + 1]) == obs + [ts[i].ok];
      assert (obs + [ts[i].ok])[..|obs|] == obs;
    } else {
      assert obs + [] == obs;
    }
  }

  /** Whether the counts after the i-th tick bring about a verdict. */
  lemma CountsTrip(ts: seq<Tick>, i: nat, p: Policy)
    requires i < |ts|
    ensures var obs := Observations(ts[..i + 1]);
            TripAt(ts, i, p) == (
              match ts[i]
              case Cancelled => Some(Aborted)
              case Broken => if Errors(ts[..i + 1]) > p.maxInconclusive then Some(Inconclusive) else None
              case Seen(ok) =>
                if ok && Trailing(obs, true) >= p.successThreshold && |obs| >= p.minSamples then Some(Healthy)
                else if !ok && Trailing(obs, false) >= p.failureThreshold then Some(Unhealthy)
                else None)
    ensures FirstTrip(ts, p, i) == if TripAt(ts, i, p).Some? then i else FirstTrip(ts, p, i + 1)
  {
    hide Observations, Errors, Trailing;
  }

  /** The decision loop over the ticks that come before the deadline. */
  method Verify(ts: seq<Tick>, p: Policy) returns (v: Verdict, samples: nat)
    ensures v == Judge(ts, p)
    ensures p.criteria != [] ==>
      var f := FirstTrip(ts, p, 0); samples == |Observations(if f < |ts| then ts[..f + 1] else ts)|
  {
    hide Observations, Errors, Trailing, TripAt, Trips, FirstTrip;
    samples := 0;
    if p.criteria == [] {
      return Healthy, samples;
    }
    var consecutiveFail, consecutivePass, inconclusive := 0, 0, 0;
    Nothing();
    for i := 0 to |ts|
      invariant FirstTrip(ts, p, 0) == FirstTrip(ts, p, i)
      invariant samples == |Observations(ts[..i])| && inconclusive == Errors(ts[..i])
      invariant consecutiveFail == Trailing(Observations(ts[..i]), false)
      invariant consecutivePass == Trailing(Observations(ts[..i]), true)
    {
      OneMore(ts, i);
      CountsTrip(ts, i, p);
      if ts[i].Cancelled? {
        return Aborted, samples;
      }
      if ts[i].Broken? {
        inconclusive := inconclusive + 1;
        if inconclusive > p.maxInconclusive {
          return Inconclusive, samples;
        }
        continue;
      }
      samples := samples + 1;
      if ts[i].ok {
        consecutivePass, consecutiveFail := consecutivePass + 1, 0;
        if consecutivePass >= p.successThreshold && samples >= p.minSamples {
          return Healthy, samples;
        }
      } else {
        consecutiveFail, consecutivePass := consecutiveFail + 1, 0;
        if consecutiveFail >= p.failureThreshold {
          return Unhealthy, samples;
        }
      }
    }
    assert ts[..|ts|] == ts;
    Untripped(ts, p);
    return if samples < p.minSamples then Inconclusive else Healthy, samples;
  }

  lemma Untripped(ts: seq<Tick>, p: Policy)
    ensures FirstTrip(ts, p, |ts|) == |ts|
  {
  }

  lemma Nothing()
    ensures Observations([]) == [] && Errors([]) == 0
    ensures Trailing([], true) == 0 && Trailing([], false) == 0
  {
  }

  // ------------------------------------------------------- what a verdict rests on

  /** The last n observations up to the i-th tick all say b. */
  predicate InARow(ts: seq<Tick>, i: nat, n: int, b: bool)
    requires i < |ts|
  {
    var obs := Observations(ts[..i + 1]);
    n <= |obs| && forall j :: |obs| - n <= j < |obs| && 0 <= j ==> obs[j] == b
  }

  /**
    * Each verdict has its grounds: a cancellation; a run of failures; too many errors or too few
    * samples; samples enough, and if it came early a run of passes.
    */
  lemma VerdictGrounds(ts: seq<Tick>, p: Policy)
    requires p.criteria != []
    ensures match Judge(ts, p)
            case Aborted => exists i :: 0 <= i < |ts| && ts[i].Cancelled?
            case Unhealthy =>
              exists i :: 0 <= i < |ts| && ts[i] == Seen(false) && InARow(ts, i, p.failureThreshold, false)
            case Inconclusive =>
              || (exists i :: 0 <= i < |ts| && ts[i].Broken? && Errors(ts[..i + 1]) > p.maxInconclusive)
              || |Observations(ts)| < p.minSamples
            case Healthy =>
              || (exists i :: 0 <= i < |ts| && ts[i] == Seen(true) && InARow(ts, i, p.successThreshold, true)
                              && |Observations(ts[..i + 1])| >= p.minSamples)
              || |Observations(ts)| >= p.minSamples
  {
    hide Observations, Errors;
    var f := FirstTrip(ts, p, 0);
    if f < |ts| {
      CountsTrip(ts, f, p);
    }
  }

  /** And grounds have their verdict: a tick that gives them decides unless an earlier one did. */
  lemma GroundsDecide(ts: seq<Tick>, i: nat, p: Policy)
    requires i < |ts|
    ensures ts[i].Cancelled? ==> TripAt(ts, i, p) == Some(Aborted)
    ensures ts[i] == Seen(false) ==>
      (TripAt(ts, i, p) == Some(Unhealthy) <==> InARow(ts, i, p.failureThreshold, false))
    ensures ts[i].Broken? ==> (TripAt(ts, i, p) == Some(Inconclusive) <==> Errors(ts[..i + 1]) > p.maxInconclusive)
    ensures ts[i] == Seen(true) ==>
      (TripAt(ts, i, p) == Some(Healthy) <==>
         InARow(ts, i, p.successThreshold, true) && |Observations(ts[..i + 1])| >= p.minSamples)
  {
    hide Observations, Errors;
    CountsTrip(ts, i, p);
  }

  lemma {:induction false} AllAlike(ts: seq<Tick>, n: nat, b: bool)
    requires n <= |ts| && forall i :: 0 <= i < |ts| ==> ts[i] == Seen(b)
    ensures |Observations(ts[..n])| == n == Trailing(Observations(ts[..n]), b)
  {
    Nothing();
    if n > 0 {
      AllAlike(ts, n - 1, b);
      OneMore(ts, n - 1);
    }
  }

  /** A window that only fails is unhealthy exactly when it is as long as the threshold. */
  lemma OnlyFailures(ts: seq<Tick>, p: Policy)
    requires p.criteria != [] && forall i :: 0 <= i < |ts| ==> ts[i] == Seen(false)
    ensures Judge(ts, p) == Unhealthy <==> ts != [] && |ts| >= p.failureThreshold
  {
    hide Observations, Errors, Trailing;
    var f := FirstTrip(ts, p, 0);
    forall i | 0 <= i < |ts| ensures TripAt(ts, i, p) == if i + 1 >= p.failureThreshold then Some(Unhealthy) else None {
      CountsTrip(ts, i, p);
      AllAlike(ts, i + 1, false);
    }
    if ts != [] && |ts| >= p.failureThreshold {
      assert TripAt(ts, |ts| - 1, p).Some?;
    }
  }

  /** A window that only passes is healthy exactly when it has the samples. */
  lemma OnlyPasses(ts: seq<Tick>, p: Policy)
    requires p.criteria != [] && forall i :: 0 <= i < |ts| ==> ts[i] == Seen(true)
    ensures Judge(ts, p) == Healthy <==> |ts| >= p.minSamples
    ensures Judge(ts, p) in {Healthy, Inconclusive}
  {
    hide Observations, Errors, Trailing;
    var f := FirstTrip(ts, p, 0);
    forall i | 0 <= i < |ts| ensures TripAt(ts, i, p)
                  == if i + 1 >= p.successThreshold && i + 1 >= p.minSamples then Some(Healthy) else None {
      CountsTrip(ts, i, p);
      AllAlike(ts, i + 1, true);
    }
    AllAlike(ts, |ts|, true);
    assert ts[..|ts|] == ts;
  }

  lemma {:induction false} AllErrors(ts: seq<Tick>, n: nat)
    requires n <= |ts| && forall i :: 0 <= i < |ts| ==> ts[i].Broken?
    ensures Observations(ts[..n]) == [] && Errors(ts[..n]) == n
  {
    Nothing();
    if n > 0 {
      AllErrors(ts, n - 1);
      OneMore(ts, n - 1);
      assert ts[..n][..n - 1] == ts[..n - 1];
    }
  }

  /** A window of nothing but errors says nothing about the version. */
  lemma OnlyErrors(ts: seq<Tick>, p: Policy)
    requires p.criteria != [] && forall i :: 0 <= i < |ts| ==> ts[i].Broken?
    ensures Judge(ts, p) ==
              if (|ts| > 0 && |ts| > p.maxInconclusive) || p.minSamples > 0 then Inconclusive else Healthy
  {
    hide Observations, Errors, Trailing;
    var f := FirstTrip(ts, p, 0);
    forall i | 0 <= i < |ts|
      ensures TripAt(ts, i, p) == if i + 1 > p.maxInconclusive then Some(Inconclusive) else None
    {
      CountsTrip(ts, i, p);
      AllErrors(ts, i + 1);
    }
    AllErrors(ts, |ts|);
    assert ts[..|ts|] == ts;
    if |ts| > 0 && |ts| > p.maxInconclusive {
      assert TripAt(ts, |ts| - 1, p).Some?;
    }
  }

  // ------------------------------------------------------- two runs

  /** The ticks differ only where the second run passes and the first did not. */
  predicate Improves(ts: seq<Tick>, us: seq<Tick>) {
    && |us| == |ts|
    && forall i :: 0 <= i < |ts| ==> us[i] == ts[i] || (ts[i] == Seen(false) && us[i] == Seen(true))
  }

  lemma {:induction false} ImprovedRuns(ts: seq<Tick>, us: seq<Tick>, n: nat)
    requires Improves(ts, us) && n <= |ts|
    ensures var obs, obs' := Observations(ts[..n]), Observations(us[..n]);
            && |obs| == |obs'| && Errors(ts[..n]) == Errors(us[..n])
            && Trailing(obs, true) <= Trailing(obs', true) && Trailing(obs', false) <= Trailing(obs, false)
  {
    hide Observations, Errors, Trailing;
    Nothing();
    if n > 0 {
      ImprovedRuns(ts, us, n - 1);
      OneMore(ts, n - 1);
      OneMore(us, n - 1);
    }
  }

  lemma ImprovedTrip(ts: seq<Tick>, us: seq<Tick>, p: Policy, i: nat)
    requires Improves(ts, us) && i < |ts|
    ensures var t, u := TripAt(ts, i, p), TripAt(us, i, p);
            && (t == Some(Healthy) ==> u == Some(Healthy)) && (u == Some(Unhealthy) ==> t == Some(Unhealthy))
            && (t == Some(Aborted) <==> u == Some(Aborted)) && (t == Some(Inconclusive) <==> u == Some(Inconclusive))
  {
    hide Observations, Errors, Trailing;
    ImprovedRuns(ts, us, i + 1);
  }

  /** Better observations never spoil a healthy verdict and never bring about an unhealthy one. */
  lemma ImprovedVerdict(ts: seq<Tick>, us: seq<Tick>, p: Policy)
    requires Improves(ts, us)
    ensures Judge(ts, p) == Healthy ==> Judge(us, p) == Healthy
    ensures Judge(us, p) == Unhealthy ==> Judge(ts, p) == Unhealthy
  {
    hide TripAt, Observations;
    var f, g := FirstTrip(ts, p, 0), FirstTrip(us, p, 0);
    assert ts[..|ts|] == ts && us[..|us|] == us;
    ImprovedRuns(ts, us, |ts|);
    if f < |ts| {
      ImprovedTrip(ts, us, p, f);
    }
    if g < |us| {
      ImprovedTrip(ts, us, p, g);
    }
  }

  // ------------------------------------------------------- two runs, by their readings

  /** One tick as the verifiers answered it. */
  datatype Round = Stop | Answers(readings: seq<Reading>)

  predicate Shaped(cs: seq<Criterion>, rounds: seq<Round>) {
    forall i :: 0 <= i < |rounds| ==> rounds[i].Answers? ==> |rounds[i].readings| == |cs|
  }

  function TickOf(cs: seq<Criterion>, r: Round): Tick
    requires r.Answers? ==> |r.readings| == |cs|
  {
    if r.Stop? then Cancelled else Observed(cs, r.readings)
  }

  function Ticks(cs: seq<Criterion>, rounds: seq<Round>): (ts: seq<Tick>)
    requires Shaped(cs, rounds)
    ensures |ts| == |rounds|
  {
    seq(|rounds|, i requires 0 <= i < |rounds| => TickOf(cs, rounds[i]))
  }

  /** The same errors; values no worse; and no higher-is-better ratio of a negative value. */
  predicate BetterReadings(cs: seq<Criterion>, rs: seq<Reading>, rs': seq<Reading>) {
    && |rs| == |cs| == |rs'|
    && forall j :: 0 <= j < |cs| ==>
         && (rs[j].NoReading? <==> rs'[j].NoReading?)
         && (rs[j].Read? && rs'[j].Read? ==>
               && NoWorse(cs[j].direction, rs[j].sample, rs'[j].sample)
               && !(cs[j].direction == HigherIsBetter && RatioApplies(cs[j], rs[j].sample) && rs[j].sample.value < 0.0))
  }

  predicate BetterRounds(cs: seq<Criterion>, rounds: seq<Round>, rounds': seq<Round>) {
    && |rounds| == |rounds'|
    && forall i :: 0 <= i < |rounds| ==>
         && (rounds[i].Stop? <==> rounds'[i].Stop?)
         && (rounds[i].Answers? && rounds'[i].Answers? ==>
               BetterReadings(cs, rounds[i].readings, rounds'[i].readings))
  }

  lemma BetterObserved(cs: seq<Criterion>, rs: seq<Reading>, rs': seq<Reading>)
    requires BetterReadings(cs, rs, rs')
    ensures var t, u := Observed(cs, rs), Observed(cs, rs'); u == t || (t == Seen(false) && u == Seen(true))
  {
    hide Passes, NoWorse, RatioApplies;
    if Observed(cs, rs) == Seen(true) {
      forall j | 0 <= j < |cs| ensures rs'[j].Read? && Passes(cs[j], rs'[j].sample) {
        assert rs[j].Read? && Passes(cs[j], rs[j].sample);
        BetterValuePasses(cs[j], rs[j].sample, rs'[j].sample);
      }
    } else if Observed(cs, rs) == Broken {
      var j :| 0 <= j < |rs| && rs[j].NoReading?;
      assert rs'[j].NoReading?;
    } else {
      assert forall j :: 0 <= j < |cs| ==> rs'[j].Read?;
    }
  }

  /**
    * Metrics that are nowhere worse, with errors in the same places and the same baselines, keep a
    * healthy verdict healthy and cannot turn any other verdict into an unhealthy one.
    */
  lemma {:induction false} BetterMetricsBetterVerdict(cs: seq<Criterion>, rounds: seq<Round>, rounds': seq<Round>,
                                                      p: Policy)
    requires Shaped(cs, rounds) && Shaped(cs, rounds') && BetterRounds(cs, rounds, rounds')
    ensures Judge(Ticks(cs, rounds), p) == Healthy ==> Judge(Ticks(cs, rounds'), p) == Healthy
    ensures Judge(Ticks(cs, rounds'), p) == Unhealthy ==> Judge(Ticks(cs, rounds), p) == Unhealthy
  {
    hide Observed, BetterReadings, Judge;
    var ts, us := Ticks(cs, rounds), Ticks(cs, rounds');
    forall i | 0 <= i < |ts| ensures us[i] == ts[i] || (ts[i] == Seen(false) && us[i] == Seen(true)) {
      if rounds[i].Answers? {
        BetterObserved(cs, rounds[i].readings, rounds'[i].readings);
      }
    }
    ImprovedVerdict(ts, us, p);
  }

  // ------------------------------------------------------- the loader's promise

  /** What the loader accepts of a policy: each policy by itself, then against its criteria. */
  predicate LoaderAccepts(p: Policy) {
    && p.interval > 0 && p.failureThreshold >= 1 && p.minSamples >= 1
    && (p.bake > 0 ==> p.bake / p.interval >= p.minSamples)
    && (p.criteria != [] ==> p.bake > 0)
  }

  /** The ticker's turns begun before the deadline, the k-th at k intervals. */
  function TurnsBegun(bake: int, interval: int): (n: nat)
    requires interval > 0
    ensures forall k: nat :: k < n <==> k * interval < bake
  {
    if bake <= 0 then
      NoneBegun(bake, interval);
      0
    else
      CountBegun(bake, interval);
      (bake + interval - 1) / interval
  }

  lemma NoneBegun(bake: int, interval: int)
    requires interval > 0 && bake <= 0
    ensures forall k: nat :: !(k * interval < bake)
  {
  }

  lemma CountBegun(bake: int, interval: int)
    requires interval > 0 && bake > 0
    ensures forall k: nat :: k < (bake + interval - 1) / interval <==> k * interval < bake
  {
    var n := (bake + interval - 1) / interval;
    assert n * interval <= bake + interval - 1 < n * interval + interval;
    forall k: nat ensures k < n <==> k * interval < bake {
      if k < n {
        TimesGrows(k + 1, n, interval);
      } else {
        TimesGrows(n, k, interval);
      }
    }
  }

  lemma TimesGrows(a: int, b: int, c: int)
    requires a <= b && c > 0
    ensures a * c <= b * c
  {
  }

  lemma {:induction false} AllObserved(ts: seq<Tick>)
    requires forall i :: 0 <= i < |ts| ==> ts[i].Seen?
    ensures |Observations(ts)| == |ts|
  {
    if ts != [] {
      AllObserved(ts[..|ts| - 1]);
    }
  }

  /** One observation at every turn begun before the deadline. */
  predicate FullyObserved(ts: seq<Tick>, p: Policy)
    requires p.interval > 0
  {
    |ts| == TurnsBegun(p.bake, p.interval) && forall i :: 0 <= i < |ts| ==> ts[i].Seen?
  }

  /** A policy the loader accepts never ends short of samples when every interval yields an observation. */
  lemma NeverShort(ts: seq<Tick>, p: Policy)
    requires LoaderAccepts(p) && FullyObserved(ts, p)
    ensures Judge(ts, p) in {Healthy, Unhealthy}
  {
    hide Trips, Observations, TurnsBegun;
    if p.criteria != [] {
      EnoughTurns(p);
      AllObserved(ts);
      if FirstTrip(ts, p, 0) < |ts| {
        SeenTrips(ts[..FirstTrip(ts, p, 0) + 1], p);
      }
    }
  }

  lemma EnoughTurns(p: Policy)
    requires LoaderAccepts(p) && p.criteria != []
    ensures TurnsBegun(p.bake, p.interval) >= p.minSamples
  {
    var m := p.bake / p.interval;
    assert (m - 1) * p.interval < m * p.interval <= p.bake;
  }

  /**
    * Exactly which windows can end short of samples: those with fewer turns than samples asked for.
    * The bake of a canary step, which the loader does not hold against the policy, can be one.
    */
  lemma ShortExactly(p: Policy)
    requires p.interval > 0 && p.criteria != []
    ensures (forall ts :: FullyObserved(ts, p) ==> Judge(ts, p) != Inconclusive)
            <==> TurnsBegun(p.bake, p.interval) >= p.minSamples
  {
    hide TurnsBegun, Judge;
    var n := TurnsBegun(p.bake, p.interval);
    if n >= p.minSamples {
      forall ts | FullyObserved(ts, p) ensures Judge(ts, p) != Inconclusive {
        LongEnough(ts, p);
      }
    } else {
      var ts := seq(n, i requires 0 <= i < n => Seen(true));
      assert FullyObserved(ts, p);
      AllPassing(ts, p);
    }
  }

  lemma LongEnough(ts: seq<Tick>, p: Policy)
    requires |ts| >= p.minSamples && forall i :: 0 <= i < |ts| ==> ts[i].Seen?
    ensures Judge(ts, p) != Inconclusive
  {
    hide Trips, Observations;
    AllObserved(ts);
    if FirstTrip(ts, p, 0) < |ts| {
      SeenTrips(ts[..FirstTrip(ts, p, 0) + 1], p);
    }
  }

  lemma AllPassing(ts: seq<Tick>, p: Policy)
    requires |ts| < p.minSamples && p.criteria != [] && forall i :: 0 <= i < |ts| ==> ts[i] == Seen(true)
    ensures Judge(ts, p) == Inconclusive
  {
    hide Observations;
    AllObserved(ts);
    var f := FirstTrip(ts, p, 0);
    if f < |ts| {
      AllObserved(ts[..f + 1]);
    }
  }

  lemma SeenTrips(ts: seq<Tick>, p: Policy)
    requires ts != [] && ts[|ts| - 1].Seen?
    ensures Trips(ts, p).Some? ==> Trips(ts, p).value in {Healthy, Unhealthy}
  {
  }
}
