/** The cost model: seconds as a setup time plus a slope times work, with the slope corrected
    online by damped least squares through the origin.  Every family of programs has its own
    line; a family nobody seeded starts from the unknown one. */
module Costs {
  import opened Reals
  import opened LinAlg
  import opened Ranking
  import opened Wrappers

  const FLOOR := 0.000000000001
  const MAX_SECONDS := 1000000.0

  /** The calibrated line of a family, with its least-squares accumulators. */
  datatype Fit = Fit(setup: real, slope: real, nObs: nat, sw: real, swt: real)

  /** A family: its line, its exponent on the training size, and the recent ratios of
      measured to predicted time. */
  datatype FamilyStats = FamilyStats(fit: Fit, trainPow: real, ratios: seq<real>)

  function Seed(setup: real, slope: real, trainPow: real): FamilyStats {
    FamilyStats(Fit(setup, slope, 0, 0.0, 0.0), trainPow, [])
  }

  const UNKNOWN := "_unknown"

  const FAMILY_SEED: map<string, FamilyStats> := map[
    "hist_gbm" := Seed(0.05, 0.0000002, 1.0),
    "rf" := Seed(0.05, 0.0000006, 1.05),
    "gbr" := Seed(0.05, 0.0000005, 1.05),
    "logreg" := Seed(0.02, 0.00000003, 1.0),
    "ridge" := Seed(0.01, 0.00000001, 1.0),
    "svc_rbf" := Seed(0.03, 0.0000001, 1.6),
    UNKNOWN := Seed(0.05, 0.0000005, 1.1)]

  /** A measured run: how much work it was and how long it took. */
  datatype Timing = Timing(work: real, seconds: real)

  /** The part of a timing that the slope has to explain. */
  function Residual(setup: real, t: Timing): real {
    Max(0.0, t.seconds - setup)
  }

  function Fitted(swt: real, sw: real): real {
    if sw == 0.0 then 0.0 else swt / sw
  }

  function Blend(nObs: nat): real {
    Min(1.0, nObs as real / 5.0)
  }

  function Mix(blend: real, before: real, fitted: real): real {
    (1.0 - blend) * before + blend * fitted
  }

  /** What a timing adds to the accumulators: squared work and work times residual. */
  datatype Weights = Weights(ww: real, wr: real)

  function Weigh(setup: real, t: Timing): Weights {
    Weights(t.work * t.work, t.work * Residual(setup, t))
  }

  function WeighAll(setup: real, ts: seq<Timing>): (ps: seq<Weights>)
    ensures |ps| == |ts| && forall i {:trigger ps[i]} :: 0 <= i < |ts| ==> ps[i] == Weigh(setup, ts[i])
  {
    seq(|ts|, i requires 0 <= i < |ts| => Weigh(setup, ts[i]))
  }

  /** One successful observation: adds its weights and refits the slope. */
  function Refit(f: Fit, p: Weights): Fit {
    var sw, swt := f.sw + p.ww, f.swt + p.wr;
    Fit(f.setup,
        if sw > 0.0 then Mix(Blend(f.nObs), f.slope, Max(FLOOR, Fitted(swt, sw))) else f.slope,
        f.nObs + 1, sw, swt)
  }

  function RefitAll(f: Fit, ps: seq<Weights>): Fit {
    if ps == [] then f else Refit(RefitAll(f, ps[..|ps| - 1]), ps[|ps| - 1])
  }

  /** The line after a run of timings. */
  function Learned(f: Fit, ts: seq<Timing>): Fit {
    RefitAll(f, WeighAll(f.setup, ts))
  }

  /** Measured to predicted time, under the refitted line. */
  function Ratio(f: Fit, t: Timing): real {
    t.seconds / Max(0.000000001, f.setup + f.slope * t.work)
  }

  lemma RatioIs(f: Fit, t: Timing, predicted: real)
    requires predicted == Max(0.000000001, f.setup + f.slope * t.work)
    ensures Ratio(f, t) * predicted == t.seconds
  {
    Quotient(t.seconds, predicted);
  }

  /** Keeps the latest 64 ratios. */
  function Noted(ratios: seq<real>, x: real): (r: seq<real>)
    requires |ratios| <= 64
    ensures |r| <= 64 && r != []
  {
    var more := ratios + [x];
    if |more| > 64 then more[1..] else more
  }

  /** The new ratio comes last, and only the oldest is ever dropped, when there are 64. */
  lemma NotedIs(ratios: seq<real>, x: real, r: seq<real>)
    requires |ratios| <= 64 && r == Noted(ratios, x)
    ensures |r| == (if |ratios| == 64 then 64 else |ratios| + 1)
    ensures r[|r| - 1] == x && r[..|r| - 1] == ratios[|ratios| - (|r| - 1)..]
  {}

  // -------------------------------------------------------------- the slope stays in range

  /** `(time - setup) / work` lies between `lo` and `hi`, up to the floor. */
  ghost predicate InRange(setup: real, t: Timing, lo: real, hi: real) {
    && t.work > 0.0
    && Residual(setup, t) <= hi * t.work
    && (lo > FLOOR ==> Residual(setup, t) >= lo * t.work)
  }

  ghost predicate WeightsInRange(p: Weights, lo: real, hi: real) {
    p.ww > 0.0 && p.wr <= hi * p.ww && (lo > FLOOR ==> p.wr >= lo * p.ww)
  }

  /** The accumulators and the slope are within the range. */
  ghost predicate Bracketed(f: Fit, lo: real, hi: real) {
    && f.sw >= 0.0 && (f.nObs > 0 ==> f.sw > 0.0)
    && f.swt <= hi * f.sw
    && (lo > FLOOR ==> f.swt >= lo * f.sw)
    && lo <= f.slope <= hi
  }

  lemma WeighedAbove(w: real, res: real, hi: real, ww: real, wr: real)
    requires w > 0.0 && res <= hi * w && ww == w * w && wr == w * res
    ensures wr <= hi * ww && ww > 0.0
  {
    Mono(res, hi * w, w);
    Assoc(hi, w, w);
    PositiveSquare(w, ww);
  }

  lemma WeighedBelow(w: real, res: real, lo: real, ww: real, wr: real)
    requires w > 0.0 && res >= lo * w && ww == w * w && wr == w * res
    ensures wr >= lo * ww
  {
    Mono(lo * w, res, w);
    Assoc(lo, w, w);
  }

  lemma WeighInRange(setup: real, t: Timing, lo: real, hi: real, p: Weights)
    requires InRange(setup, t, lo, hi) && p == Weigh(setup, t)
    ensures WeightsInRange(p, lo, hi)
  {
    WeighedAbove(t.work, Residual(setup, t), hi, p.ww, p.wr);
    if lo > FLOOR { WeighedBelow(t.work, Residual(setup, t), lo, p.ww, p.wr); }
  }

  lemma FittedInRange(sw: real, swt: real, lo: real, hi: real, f: real)
    requires sw > 0.0 && swt <= hi * sw && (lo > FLOOR ==> swt >= lo * sw)
    requires lo <= hi && hi >= FLOOR && f == Fitted(swt, sw)
    ensures lo <= Max(FLOOR, f) <= hi
  {
    Quotient(swt, sw);
    Cancel(f, hi, sw);
    Cancel(lo, f, sw);
  }

  lemma ConvexGap(b: real, x: real, y: real, h: real, p: real, q: real)
    requires p == (1.0 - b) * (h - x) && q == b * (h - y)
    ensures p + q == h - ((1.0 - b) * x + b * y)
  {}

  lemma ConvexAtMost(b: real, x: real, y: real, hi: real)
    requires 0.0 <= b <= 1.0 && x <= hi && y <= hi
    ensures (1.0 - b) * x + b * y <= hi
  {
    var p, q := (1.0 - b) * (hi - x), b * (hi - y);
    NonNegative(1.0 - b, hi - x, p);
    NonNegative(b, hi - y, q);
    ConvexGap(b, x, y, hi, p, q);
  }

  lemma ConvexAtLeast(b: real, x: real, y: real, lo: real)
    requires 0.0 <= b <= 1.0 && lo <= x && lo <= y
    ensures lo <= (1.0 - b) * x + b * y
  {
    var p, q := (1.0 - b) * (lo - x), b * (lo - y);
    NonNegative(1.0 - b, x - lo, -p);
    NonNegative(b, y - lo, -q);
    ConvexGap(b, x, y, lo, p, q);
  }

  lemma MixInRange(b: real, x: real, y: real, lo: real, hi: real)
    requires 0.0 <= b <= 1.0 && lo <= x <= hi && lo <= y <= hi
    ensures lo <= Mix(b, x, y) <= hi
  {
    ConvexAtMost(b, x, y, hi);
    ConvexAtLeast(b, x, y, lo);
  }

  lemma SumsInRange(f: Fit, lo: real, hi: real, p: Weights)
    requires Bracketed(f, lo, hi) && WeightsInRange(p, lo, hi)
    ensures f.swt + p.wr <= hi * (f.sw + p.ww)
    ensures lo > FLOOR ==> f.swt + p.wr >= lo * (f.sw + p.ww)
  {
    Distribute(f.sw, p.ww, hi);
    Distribute(f.sw, p.ww, lo);
  }

  lemma RefitInRange(f: Fit, p: Weights, lo: real, hi: real)
    requires Bracketed(f, lo, hi) && WeightsInRange(p, lo, hi) && lo <= hi && hi >= FLOOR
    ensures Bracketed(Refit(f, p), lo, hi)
  {
    SumsInRange(f, lo, hi, p);
    RefitSlope(f.nObs, f.slope, f.sw + p.ww, f.swt + p.wr, lo, hi);
  }

  lemma RefitSlope(nObs: nat, slope: real, sw: real, swt: real, lo: real, hi: real)
    requires sw > 0.0 && swt <= hi * sw && (lo > FLOOR ==> swt >= lo * sw)
    requires lo <= slope <= hi && hi >= FLOOR
    ensures lo <= Mix(Blend(nObs), slope, Max(FLOOR, Fitted(swt, sw))) <= hi
  {
    FittedInRange(sw, swt, lo, hi, Fitted(swt, sw));
    MixInRange(Blend(nObs), slope, Max(FLOOR, Fitted(swt, sw)), lo, hi);
  }

  lemma {:induction false} RefitAllInRange(f: Fit, ps: seq<Weights>, lo: real, hi: real)
    requires Bracketed(f, lo, hi) && lo <= hi && hi >= FLOOR
    requires forall i :: 0 <= i < |ps| ==> WeightsInRange(ps[i], lo, hi)
    ensures Bracketed(RefitAll(f, ps), lo, hi)
  {
    if ps != [] {
      RefitAllInRange(f, ps[..|ps| - 1], lo, hi);
      RefitInRange(RefitAll(f, ps[..|ps| - 1]), ps[|ps| - 1], lo, hi);
    }
  }

  /** No observations yet. */
  ghost predicate Fresh(f: Fit) {
    f.nObs == 0 && f.sw == 0.0 && f.swt == 0.0
  }

  /** After any run of observations the slope is between the least and the largest of its
      seed and the observed ratios, up to the floor. */
  lemma SlopeStaysInRange(seed: Fit, ts: seq<Timing>, lo: real, hi: real)
    requires Fresh(seed) && lo <= seed.slope <= hi && hi >= FLOOR
    requires forall i :: 0 <= i < |ts| ==> InRange(seed.setup, ts[i], lo, hi)
    ensures lo <= Learned(seed, ts).slope <= hi
  {
    var ps := WeighAll(seed.setup, ts);
    forall i | 0 <= i < |ps| ensures WeightsInRange(ps[i], lo, hi) {
      WeighInRange(seed.setup, ts[i], lo, hi, ps[i]);
    }
    RefitAllInRange(seed, ps, lo, hi);
  }

  // --------------------------------------------------------------- exactly linear timings

  /** How much of the seed is left in the slope after `k` observations. */
  function Damping(k: nat): real
    decreases k, 0
  {
    if k == 0 then 1.0 else Damped(k - 1)
  }

  function Damped(k: nat): real
    decreases k, 1
  {
    (1.0 - Blend(k)) * Damping(k)
  }

  lemma DampingIs(k: nat)
    ensures Damping(k + 1) == (1.0 - Blend(k)) * Damping(k)
  {
    assert Damped(k) == (1.0 - Blend(k)) * Damping(k);
  }

  lemma BlendEnds(k: nat)
    ensures 0.0 <= Blend(k) <= 1.0 && (Blend(k) == 1.0 <==> k >= 5)
  {}

  lemma {:induction false} DampingEnds(k: nat)
    ensures Damping(k) == 0.0 <==> k >= 6
    ensures Damping(k) >= 0.0
  {
    if k > 0 {
      DampingEnds(k - 1);
      DampingGoesOn(k - 1);
    }
  }

  lemma DampingGoesOn(k: nat)
    requires Damping(k) >= 0.0 && (Damping(k) == 0.0 <==> k >= 6)
    ensures Damping(k + 1) >= 0.0 && (Damping(k + 1) == 0.0 <==> k + 1 >= 6)
  {
    var a := 1.0 - Blend(k);
    BlendEnds(k);
    DampedBy(k, a, Damping(k), Damping(k + 1));
    NextDamping(k, a, Damping(k), Damping(k + 1));
  }

  lemma DampedBy(k: nat, a: real, d: real, p: real)
    requires a == 1.0 - Blend(k) && d == Damping(k) && p == Damping(k + 1)
    ensures p == a * d
  {
    DampingIs(k);
  }

  lemma NextDamping(k: nat, a: real, d: real, p: real)
    requires a >= 0.0 && d >= 0.0 && p == a * d
    requires (a == 0.0 <==> k >= 5) && (d == 0.0 <==> k >= 6)
    ensures p >= 0.0 && (p == 0.0 <==> k + 1 >= 6)
  {
    DampingStep(a, d, p);
  }

  lemma DampingStep(a: real, d: real, p: real)
    requires 0.0 <= a && d >= 0.0 && p == a * d
    ensures p >= 0.0 && (p == 0.0 <==> a == 0.0 || d == 0.0)
  {
    if a > 0.0 && d > 0.0 { PositiveProduct(a, d, p); }
  }

  /** Takes exactly `slope * work` longer than the setup. */
  ghost predicate Linear(setup: real, slope: real, t: Timing) {
    t.work > 0.0 && t.seconds == setup + slope * t.work
  }

  ghost predicate WeightsLinear(p: Weights, slope: real) {
    p.ww > 0.0 && p.wr == slope * p.ww
  }

  lemma LinearWeights(w: real, res: real, slope: real, ww: real, wr: real)
    requires w > 0.0 && res == slope * w && ww == w * w && wr == w * res
    ensures wr == slope * ww && ww > 0.0
  {
    Assoc(slope, w, w);
    PositiveSquare(w, ww);
  }

  lemma WeighLinear(setup: real, t: Timing, slope: real, p: Weights)
    requires Linear(setup, slope, t) && slope >= FLOOR && p == Weigh(setup, t)
    ensures WeightsLinear(p, slope)
  {
    Mono(0.0, slope, t.work);
    LinearWeights(t.work, Residual(setup, t), slope, p.ww, p.wr);
  }

  lemma FittedExactly(sw: real, swt: real, slope: real)
    requires sw > 0.0 && swt == slope * sw
    ensures Fitted(swt, sw) == slope
  {
    QuotientUnique(swt, sw, slope);
  }

  lemma MixedTowards(b: real, x: real, slope: real, d: real, gap: real, next: real)
    requires x == slope + d * gap && next == (1.0 - b) * d
    ensures Mix(b, x, slope) == slope + next * gap
  {
    Assoc(1.0 - b, d, gap);
    Distribute(slope, d * gap, 1.0 - b);
  }

  /** On the line `slope`, with the share `d` of the initial `gap` left in the slope. */
  ghost predicate OnTheWay(f: Fit, slope: real, d: real, gap: real) {
    f.sw >= 0.0 && f.swt == slope * f.sw && f.slope == slope + d * gap
  }

  lemma RefitLinear(f: Fit, p: Weights, slope: real, d: real, gap: real, next: real)
    requires OnTheWay(f, slope, d, gap) && WeightsLinear(p, slope) && slope >= FLOOR
    requires next == (1.0 - Blend(f.nObs)) * d
    ensures OnTheWay(Refit(f, p), slope, next, gap)
  {
    Distribute(f.sw, p.ww, slope);
    FittedExactly(f.sw + p.ww, f.swt + p.wr, slope);
    MixedTowards(Blend(f.nObs), f.slope, slope, d, gap, next);
  }

  lemma {:induction false} RefitAllLinear(f: Fit, ps: seq<Weights>, slope: real, gap: real)
    requires f.nObs == 0 && OnTheWay(f, slope, 1.0, gap) && slope >= FLOOR
    requires forall i :: 0 <= i < |ps| ==> WeightsLinear(ps[i], slope)
    ensures OnTheWay(RefitAll(f, ps), slope, Damping(|ps|), gap) && RefitAll(f, ps).nObs == |ps|
  {
    if ps != [] {
      var init := ps[..|ps| - 1];
      RefitAllLinear(f, init, slope, gap);
      DampingIs(|init|);
      RefitLinear(RefitAll(f, init), ps[|ps| - 1], slope, Damping(|init|), gap, Damping(|ps|));
    }
  }

  /** On exactly linear timings the slope is the true one exactly from the sixth successful
      observation on, unless the seed was right already. */
  lemma LinearIsExactFromTheSixth(seed: Fit, ts: seq<Timing>, slope: real)
    requires Fresh(seed) && slope >= FLOOR
    requires forall i :: 0 <= i < |ts| ==> Linear(seed.setup, slope, ts[i])
    ensures Learned(seed, ts).slope == slope <==> |ts| >= 6 || seed.slope == slope
  {
    var gap, ps := seed.slope - slope, WeighAll(seed.setup, ts);
    forall i | 0 <= i < |ps| ensures WeightsLinear(ps[i], slope) {
      WeighLinear(seed.setup, ts[i], slope, ps[i]);
    }
    RefitAllLinear(seed, ps, slope, gap);
    DampingEnds(|ts|);
    ZeroTerm(Damping(|ts|), gap, Damping(|ts|) * gap);
  }

  lemma ZeroTerm(d: real, gap: real, p: real)
    requires d >= 0.0 && p == d * gap
    ensures p == 0.0 <==> d == 0.0 || gap == 0.0
  {
    if d > 0.0 {
      if gap > 0.0 { PositiveProduct(d, gap, p); }
      if gap < 0.0 { PositiveProduct(d, -gap, -p); }
    }
  }

  // ---------------------------------------------------------------------- the estimate

  datatype Estimate = Estimate(seconds: real, lo: real, hi: real, calibrated: bool)

  const ENHANCER_MULT: map<string, real> := map["scale" := 1.05, "poly2" := 1.8, "poly3" := 4.0, "tlog" := 1.02]

  function Factor(tag: string): (x: real)
    ensures x >= 1.0
  {
    if tag in ENHANCER_MULT then ENHANCER_MULT[tag] else 1.0
  }

  /** How much the enhancers multiply the cost; they only ever add to it. */
  function EnhancerMult(tags: seq<string>): (m: real)
    ensures m >= 1.0
    decreases |tags|, 0
  {
    if tags == [] then 1.0 else LastMult(tags)
  }

  function LastMult(tags: seq<string>): (m: real)
    requires tags != []
    ensures m >= 1.0
    decreases |tags| - 1, 1
  {
    var rest, x := EnhancerMult(tags[..|tags| - 1]), Factor(tags[|tags| - 1]);
    AtLeastBoth(rest, x, rest * x);
    rest * x
  }

  lemma AtLeastBoth(a: real, b: real, p: real)
    requires a >= 1.0 && b >= 1.0 && p == a * b
    ensures p >= 1.0
  {
    Mono(1.0, a, b);
  }

  /** Ascending order. */
  function Ascending(s: seq<real>): (r: seq<real>)
    ensures |r| == |s|
  {
    SortPermutes(seq(|s|, i requires 0 <= i < |s| => Keyed(i, -s[i])));
    var ranked := SortDesc(seq(|s|, i requires 0 <= i < |s| => Keyed(i, -s[i])));
    seq(|s|, i requires 0 <= i < |s| => -ranked[i].key)
  }

  lemma QuantileIndex(share: real, last: nat)
    requires 0.0 <= share <= 1.0
    ensures 0 <= (share * last as real).Floor <= last
  {
    var x := share * last as real;
    Mono(0.0, share, last as real);
    Mono(share, 1.0, last as real);
    assert 0.0 <= x <= last as real;
  }

  /** `rs[int(share * (len - 1))]`. */
  function Quantile(rs: seq<real>, share: real): real
    requires rs != [] && 0.0 <= share <= 1.0
  {
    QuantileIndex(share, |rs| - 1);
    rs[(share * (|rs| - 1) as real).Floor]
  }

  lemma InBand(seconds: real, low: real, high: real, lo: real, hi: real)
    requires seconds >= 0.0 && low <= 1.0 <= high && lo == seconds * low && hi == seconds * high
    ensures lo <= seconds <= hi
  {
    Mono(low, 1.0, seconds);
    Mono(1.0, high, seconds);
  }

  /** The point estimate with its band: the observed spread of measured to predicted times
      after two observations, a factor of two either way before. */
  function EstimateFor(st: FamilyStats, line: real, mult: real): (e: Estimate)
    requires mult >= 1.0
    ensures e.lo <= e.seconds <= e.hi && 0.0 <= e.seconds <= MAX_SECONDS
    ensures e.calibrated <==> st.fit.nObs >= 2 && st.ratios != []
  {
    Banded(st, Point(Max(0.0, line), mult))
  }

  function Point(base: real, mult: real): (seconds: real)
    requires base >= 0.0 && mult >= 1.0
    ensures 0.0 <= seconds <= MAX_SECONDS
  {
    NonNegative(base, mult, base * mult);
    Min(MAX_SECONDS, base * mult)
  }

  function Banded(st: FamilyStats, seconds: real): (e: Estimate)
    requires 0.0 <= seconds <= MAX_SECONDS
    ensures e.lo <= seconds <= e.hi && e.seconds == seconds
    ensures e.calibrated <==> st.fit.nObs >= 2 && st.ratios != []
  {
    var band := if st.fit.nObs >= 2 && st.ratios != [] then Spread(st.ratios) else (0.5, 2.0);
    InBand(seconds, band.0, band.1, seconds * band.0, seconds * band.1);
    Estimate(seconds, seconds * band.0, seconds * band.1, st.fit.nObs >= 2 && st.ratios != [])
  }

  function Spread(ratios: seq<real>): (band: (real, real))
    requires ratios != []
    ensures band.0 <= 1.0 <= band.1
  {
    var rs := Ascending(ratios);
    (Min(1.0, Quantile(rs, 0.1)), Max(1.0, Quantile(rs, 0.9)))
  }

  // --------------------------------------------------------------- what the estimate says

  /** Enhancers multiply: two lists of tags together cost the product of their factors. */
  lemma {:induction false} EnhancersMultiply(tags: seq<string>, more: seq<string>, m: real, n: real, p: real)
    requires m == EnhancerMult(tags) && n == EnhancerMult(more) && p == m * n
    ensures EnhancerMult(tags + more) == p
  {
    if more == [] {
      assert tags + more == tags;
    } else {
      var init, last := more[..|more| - 1], more[|more| - 1];
      var rest, x := EnhancerMult(init), Factor(last);
      var q := m * rest;
      EnhancersMultiply(tags, init, m, rest, q);
      OneMoreEnhancer(init, last, more, rest, x, n);
      assert tags + more == tags + init + [last];
      OneMoreEnhancer(tags + init, last, tags + more, q, x, EnhancerMult(tags + more));
      ThreeFactors(m, rest, x, n, q, p);
    }
  }

  lemma ThreeFactors(m: real, rest: real, x: real, n: real, q: real, p: real)
    requires n == rest * x && q == m * rest && p == m * n
    ensures p == q * x
  {
    Assoc(m, rest, x);
  }

  lemma OneMoreEnhancer(tags: seq<string>, tag: string, all: seq<string>, m: real, x: real, p: real)
    requires all == tags + [tag] && m == EnhancerMult(tags) && x == Factor(tag) && p == EnhancerMult(all)
    ensures p == m * x
  {
    assert all[..|all| - 1] == tags;
    assert p == LastMult(all);
  }

  /** The factor of a single tag. */
  lemma OneEnhancer(tag: string)
    ensures EnhancerMult([tag]) ==
      if tag == "scale" then 1.05 else if tag == "poly2" then 1.8 else if tag == "poly3" then 4.0
      else if tag == "tlog" then 1.02 else 1.0
  {
    OneMoreEnhancer([], tag, [tag], 1.0, Factor(tag), EnhancerMult([tag]));
  }

  lemma {:induction false} SetupStays(f: Fit, ps: seq<Weights>)
    ensures RefitAll(f, ps).setup == f.setup
  {
    if ps != [] { SetupStays(f, ps[..|ps| - 1]); }
  }

  lemma PointIs(base: real, m: real, product: real)
    requires base >= 0.0 && m >= 1.0 && product == base * m
    ensures Point(base, m) == if product < MAX_SECONDS then product else MAX_SECONDS
  {}

  lemma PointGrows(a: real, b: real, m: real)
    requires 0.0 <= a <= b && m >= 1.0
    ensures Point(a, m) <= Point(b, m)
  {
    var p, q := a * m, b * m;
    LargerProduct(a, b, m, p, q);
    PointIs(a, m, p);
    PointIs(b, m, q);
  }

  lemma LargerProduct(a: real, b: real, m: real, p: real, q: real)
    requires a <= b && m >= 1.0 && p == a * m && q == b * m
    ensures p <= q
  {
    Mono(a, b, m);
  }

  lemma SecondsAre(st: FamilyStats, line: real, m: real, base: real)
    requires m >= 1.0 && base == Max(0.0, line)
    ensures EstimateFor(st, line, m).seconds == Point(base, m)
  {}

  /** After six exactly linear timings the estimate is the true line, times the factor of the
      enhancers, up to the cap. */
  lemma LinearEstimate(seed: Fit, ts: seq<Timing>, slope: real, st: FamilyStats, work: real, line: real, m: real, product: real)
    requires Fresh(seed) && slope >= FLOOR && |ts| >= 6 && st.fit == Learned(seed, ts)
    requires forall i :: 0 <= i < |ts| ==> Linear(seed.setup, slope, ts[i])
    requires line == seed.setup + slope * work && line >= 0.0 && m >= 1.0 && product == line * m
    ensures EstimateFor(st, LineAt(st.fit, work), m).seconds == if product < MAX_SECONDS then product else MAX_SECONDS
  {
    LearnedLine(seed, ts, slope, work, line);
    SecondsAre(st, line, m, line);
    PointIs(line, m, product);
  }

  /** What a line predicts. */
  function LineAt(f: Fit, work: real): real {
    f.setup + f.slope * work
  }

  lemma LearnedLine(seed: Fit, ts: seq<Timing>, slope: real, work: real, line: real)
    requires Fresh(seed) && slope >= FLOOR && |ts| >= 6 && line == seed.setup + slope * work
    requires forall i :: 0 <= i < |ts| ==> Linear(seed.setup, slope, ts[i])
    ensures LineAt(Learned(seed, ts), work) == line
  {
    LinearIsExactFromTheSixth(seed, ts, slope);
    SetupStays(seed, WeighAll(seed.setup, ts));
  }

  /** More work is never estimated to take less time. */
  lemma EstimateGrows(st: FamilyStats, work: real, more: real, m: real)
    requires st.fit.slope >= 0.0 && work <= more && m >= 1.0
    ensures EstimateFor(st, LineAt(st.fit, work), m).seconds <= EstimateFor(st, LineAt(st.fit, more), m).seconds
  {
    LineGrows(st.fit, work, more);
    LargerLine(st, LineAt(st.fit, work), LineAt(st.fit, more), m);
  }

  lemma LineGrows(f: Fit, work: real, more: real)
    requires f.slope >= 0.0 && work <= more
    ensures LineAt(f, work) <= LineAt(f, more)
  {
    Mono(work, more, f.slope);
  }

  lemma LargerLine(st: FamilyStats, a: real, b: real, m: real)
    requires a <= b && m >= 1.0
    ensures EstimateFor(st, a, m).seconds <= EstimateFor(st, b, m).seconds
  {
    SecondsAre(st, a, m, Max(0.0, a));
    SecondsAre(st, b, m, Max(0.0, b));
    PointGrows(Max(0.0, a), Max(0.0, b), m);
  }

  class CostModel {
    var fam: map<string, FamilyStats>

    ghost predicate Valid()
      reads this
    {
      FAMILY_SEED.Keys <= fam.Keys && forall k :: k in fam ==> |fam[k].ratios| <= 64
    }

    constructor ()
      ensures Valid() && fam == FAMILY_SEED
    {
      fam := FAMILY_SEED;
    }

    /** What one measured run does to a family; failed and unusable timings do nothing. */
    method Observe(family: string, workOf: real -> real, wall: Option<Reading>, ok: bool)
      requires Valid()
      modifies this
      ensures Valid()
      ensures var before := if family in old(fam) then old(fam)[family] else FAMILY_SEED[UNKNOWN];
        fam == old(fam)[family :=
          if Usable(wall, ok) then Updated(before, Timing(workOf(before.trainPow), wall.value.value)) else before]
    {
      var st := if family in fam then fam[family] else FAMILY_SEED[UNKNOWN];
      fam := fam[family := st];
      if !Usable(wall, ok) {
        return;
      }
      fam := fam[family := Updated(st, Timing(workOf(st.trainPow), wall.value.value))];
    }

    /** Predicts the seconds of a run; families never seen are taken for unknown ones. */
    method EstimateRun(family: string, workOf: real -> real, tags: seq<string>) returns (e: Estimate)
      requires Valid()
      ensures e.lo <= e.seconds <= e.hi && 0.0 <= e.seconds <= MAX_SECONDS
      ensures var st := if family in fam then fam[family] else fam[UNKNOWN];
        e == EstimateFor(st, LineAt(st.fit, workOf(st.trainPow)), EnhancerMult(tags))
    {
      assert UNKNOWN in FAMILY_SEED.Keys;
      var st := if family in fam then fam[family] else fam[UNKNOWN];
      e := EstimateFor(st, LineAt(st.fit, workOf(st.trainPow)), EnhancerMult(tags));
    }
  }

  predicate Usable(wall: Option<Reading>, ok: bool) {
    ok && wall.Some? && wall.value.Finite? && wall.value.value > 0.0
  }

  function Updated(st: FamilyStats, t: Timing): (r: FamilyStats)
    requires |st.ratios| <= 64
    ensures |r.ratios| <= 64
    ensures r.fit == Refit(st.fit, Weigh(st.fit.setup, t)) && r.trainPow == st.trainPow
  {
    var fit := Refit(st.fit, Weigh(st.fit.setup, t));
    FamilyStats(fit, st.trainPow, Noted(st.ratios, Ratio(fit, t)))
  }
}
