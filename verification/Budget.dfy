/** The budget controller. */
module Budget {
  import opened Reals
  import opened Ranking
  import opened Wrappers

  // Admission against a usable total and a per-round cap, true costs charged after each run,
  // and a cull of losing arms between rounds.

  type Id = nat

  const EPS := 0.000000001

  datatype Config = Config(totalSeconds: real, rounds: nat, reserveFrac: real, keepFrac: real, minKeep: nat) {
    /** What the configuration accepts. */
    predicate Valid() {
      && totalSeconds > 0.0 && rounds >= 1
      && 0.0 <= reserveFrac < 1.0 && 0.0 < keepFrac <= 1.0 && minKeep >= 1
    }
  }

  /** The accounting part of the controller. */
  datatype Ledger = Ledger(usable: real, rounds: nat, spent: real, cap: real, roundSpent: real) {

    function Remaining(): real {
      Max(0.0, usable - spent)
    }

    predicate Admits(est: real) {
      var e := Max(0.0, est);
      spent + e <= usable + EPS && roundSpent + e <= cap + EPS && Remaining() > EPS
    }

    function Charged(cost: real): Ledger {
      this.(spent := spent + cost, roundSpent := roundSpent + cost)
    }

    function RoundsLeft(r: int): nat {
      if rounds - r > 1 then rounds - r else 1
    }

    function Opened(r: int): Ledger {
      this.(roundSpent := 0.0, cap := Remaining() / RoundsLeft(r) as real)
    }
  }

  /** The true cost of a run; missing, negative and non-finite readings cost nothing. */
  function Cost(wall: Reading): (c: real)
    ensures c >= 0.0
    ensures wall.Finite? && wall.value >= 0.0 ==> c == wall.value
    ensures !wall.Finite? || wall.value < 0.0 ==> c == 0.0
  {
    match wall
    case Finite(v) => Max(0.0, v)
    case _ => 0.0
  }

  // ------------------------------------------------------------- spending over whole runs

  /** A candidate: what it is estimated to cost, and what it turns out to cost. */
  datatype Job = Job(est: real, wall: Reading)

  /** What happens to a controller.  Candidates may be admitted in a batch and charged later, in
      any order; `Charge(k)` charges the `k`-th candidate outstanding.  A run that was never
      admitted may be charged, too. */
  datatype Event = BeginRound(r: int) | Admit(job: Job) | Charge(k: nat) | ChargeExtra(wall: Reading)

  /** The ledger, and the candidates admitted and not yet charged. */
  datatype Books = Books(ledger: Ledger, pending: seq<Job>)

  function Step(b: Books, e: Event): Books {
    match e
    case BeginRound(r) => b.(ledger := b.ledger.Opened(r))
    case Admit(job) => if b.ledger.Admits(job.est) then b.(pending := b.pending + [job]) else b
    case Charge(k) =>
      if k < |b.pending| then Books(b.ledger.Charged(Cost(b.pending[k].wall)), Without(b.pending, k)) else b
    case ChargeExtra(wall) => b.(ledger := b.ledger.Charged(Cost(wall)))
  }

  function Without(s: seq<Job>, k: nat): seq<Job>
    requires k < |s|
  {
    s[..k] + s[k + 1..]
  }

  function Run(b: Books, events: seq<Event>): Books
    decreases |events|, 1
  {
    if events == [] then b else Last(b, events)
  }

  /** The last step, a function of its own so that the prover takes it only where a proof
      mentions it. */
  function Last(b: Books, events: seq<Event>): Books
    requires events != []
    decreases |events|, 0
  {
    Step(Run(b, events[..|events| - 1]), events[|events| - 1])
  }

  lemma RunStep(b: Books, events: seq<Event>)
    requires events != []
    ensures Run(b, events) == Step(Run(b, events[..|events| - 1]), events[|events| - 1])
  {
    assert Run(b, events) == Last(b, events);
  }

  lemma RunMore(b: Books, events: seq<Event>, e: Event)
    ensures Run(b, events + [e]) == Step(Run(b, events), e)
  {
    assert (events + [e])[..|events|] == events;
    RunStep(b, events + [e]);
  }

  function Opening(usable: real, rounds: nat): Ledger
    requires rounds >= 1
  {
    Ledger(usable, rounds, 0.0, usable / rounds as real, 0.0)
  }

  function Start(usable: real, rounds: nat): Books
    requires rounds >= 1
  {
    Books(Opening(usable, rounds), [])
  }

  /** How far a run goes past its estimate. */
  function Overrun(job: Job): real {
    Max(0.0, Cost(job.wall) - Max(0.0, job.est))
  }

  /** What the candidates outstanding will cost. */
  function Costs(jobs: seq<Job>): (c: real)
    ensures c >= 0.0
  {
    if jobs == [] then 0.0 else Costs(jobs[..|jobs| - 1]) + Cost(jobs[|jobs| - 1].wall)
  }

  lemma {:induction false} CostsWithout(jobs: seq<Job>, k: nat)
    requires k < |jobs|
    ensures Costs(jobs) == Costs(Without(jobs, k)) + Cost(jobs[k].wall)
  {
    var last := |jobs| - 1;
    if k == last {
      assert Without(jobs, k) == jobs[..last];
    } else {
      CostsWithout(jobs[..last], k);
      assert Without(jobs, k) == Without(jobs[..last], k) + [jobs[last]];
      assert Without(jobs, k)[..last - 1] == Without(jobs[..last], k);
    }
  }

  lemma CostsMore(jobs: seq<Job>, job: Job)
    ensures Costs(jobs + [job]) == Costs(jobs) + Cost(job.wall)
  {
    assert (jobs + [job])[..|jobs|] == jobs;
  }

  /** What no estimate could foresee when a candidate was admitted last: its overrun, the cost of
      the candidates outstanding at that moment, and extra charges since. */
  function Allowance(b: Books, events: seq<Event>): (a: real)
    ensures a >= 0.0
  {
    if events == [] then Costs(b.pending)
    else
      var init, e := events[..|events| - 1], events[|events| - 1];
      match e
      case Admit(job) =>
        if Run(b, init).ledger.Admits(job.est) then Overrun(job) + Costs(Run(b, init).pending) else Allowance(b, init)
      case ChargeExtra(wall) => Allowance(b, init) + Cost(wall)
      case _ => Allowance(b, init)
  }

  lemma {:induction false} UsableStays(b: Books, events: seq<Event>)
    ensures Run(b, events).ledger.usable == b.ledger.usable && Run(b, events).ledger.rounds == b.ledger.rounds
  {
    if events != [] { UsableStays(b, events[..|events| - 1]); }
  }

  /** One step keeps a bound on what is spent and owed. */
  lemma StepBounded(b: Books, e: Event, bound: real, allowance: real, next: real)
    requires b.ledger.spent + Costs(b.pending) <= bound + allowance && bound == b.ledger.usable + EPS
    requires next == match e
      case Admit(job) => if b.ledger.Admits(job.est) then Overrun(job) + Costs(b.pending) else allowance
      case ChargeExtra(wall) => allowance + Cost(wall)
      case _ => allowance
    ensures Step(b, e).ledger.spent + Costs(Step(b, e).pending) <= bound + next
  {
    match e
    case Admit(job) => CostsMore(b.pending, job);
    case Charge(k) => if k < |b.pending| { CostsWithout(b.pending, k); }
    case _ =>
  }

  /** Whatever is opened, admitted and charged, in whatever order: what is spent, and what is
      outstanding, exceeds the usable total by at most the tolerance and the allowance. */
  lemma {:induction false} SpendingIsBounded(b: Books, events: seq<Event>)
    requires b.ledger.spent <= b.ledger.usable + EPS
    ensures Run(b, events).ledger.spent + Costs(Run(b, events).pending) <= b.ledger.usable + EPS + Allowance(b, events)
  {
    if events != [] {
      var init, e := events[..|events| - 1], events[|events| - 1];
      SpendingIsBounded(b, init);
      UsableStays(b, init);
      StepBounded(Run(b, init), e, b.ledger.usable + EPS, Allowance(b, init), Allowance(b, events));
    }
  }

  // ------------------------------------------------------------------- the exact limit

  /** No job of the run overruns by more than `d`. */
  ghost predicate OverrunsWithin(events: seq<Event>, d: real) {
    forall i :: 0 <= i < |events| && events[i].Admit? ==> Overrun(events[i].job) <= d
  }

  /** Never more than `p` candidates are admitted and not yet charged. */
  ghost predicate OutstandingWithin(b: Books, events: seq<Event>, p: nat) {
    |Run(b, events).pending| <= p && (events != [] ==> OutstandingWithin(b, events[..|events| - 1], p))
  }

  /** What is charged for runs that were not admitted. */
  function Extras(events: seq<Event>): (x: real)
    ensures x >= 0.0
  {
    if events == [] then 0.0
    else
      var e := events[|events| - 1];
      Extras(events[..|events| - 1]) + if e.ChargeExtra? then Cost(e.wall) else 0.0
  }

  /** At most `p` outstanding, overruns of at most `d`, extra charges of at most `x`. */
  ghost predicate Within(b: Books, events: seq<Event>, p: nat, d: real, x: real) {
    OutstandingWithin(b, events, p) && OverrunsWithin(events, d) && Extras(events) <= x
  }

  /** Everything outstanding was admitted under the total, so it costs at most `share` each. */
  ghost predicate SharesAtMost(jobs: seq<Job>, share: real) {
    forall i :: 0 <= i < |jobs| ==> Cost(jobs[i].wall) <= share
  }

  lemma {:induction false} CostsAtMost(jobs: seq<Job>, share: real)
    requires SharesAtMost(jobs, share)
    ensures Costs(jobs) <= Repeat(share, |jobs|)
  {
    if jobs != [] { CostsAtMost(jobs[..|jobs| - 1], share); }
  }

  /** What is spent and owed when at most `p` candidates are outstanding; `ps` is what `p` of
      them can cost. */
  ghost predicate Afforded(b: Books, usable: real, share: real, extras: real, p: nat, ps: real) {
    && b.ledger.usable == usable && b.ledger.spent >= 0.0
    && SharesAtMost(b.pending, share)
    && b.ledger.spent + Costs(b.pending) <= extras + ps
    && (usable <= EPS || p == 0 ==> b.pending == [] && b.ledger.spent <= extras)
  }

  /** An admitted job fits the total, so with its overrun it costs at most a share. */
  lemma AdmittedShare(l: Ledger, job: Job, d: real)
    requires l.Admits(job.est) && Overrun(job) <= d
    ensures l.spent + Cost(job.wall) <= l.usable + EPS + d
  {}

  lemma AdmittedAffordably(b: Books, job: Job, usable: real, d: real, share: real, extras: real, p: nat, ps: real)
    requires Afforded(b, usable, share, extras, p, ps) && b.ledger.Admits(job.est) && |b.pending| < p
    requires Overrun(job) <= d && share == usable + EPS + d && extras >= 0.0
    requires Costs(b.pending) + share <= ps
    ensures Afforded(Step(b, Admit(job)), usable, share, extras, p, ps)
  {
    AdmittedShare(b.ledger, job, d);
    CostsMore(b.pending, job);
    assert SharesAtMost(b.pending + [job], share);
  }

  lemma RoomForOne(jobs: seq<Job>, share: real, p: nat)
    requires SharesAtMost(jobs, share) && |jobs| < p && share >= 0.0
    ensures Costs(jobs) + share <= Repeat(share, p)
  {
    CostsAtMost(jobs, share);
    RepeatMore(share, |jobs| + 1, p);
  }

  lemma ChargedAffordably(b: Books, k: nat, usable: real, share: real, extras: real, p: nat, ps: real)
    requires Afforded(b, usable, share, extras, p, ps)
    ensures Afforded(Step(b, Charge(k)), usable, share, extras, p, ps)
  {
    if k < |b.pending| { CostsWithout(b.pending, k); }
  }

  lemma {:induction false} StaysAfforded(b: Books, events: seq<Event>, p: nat, d: real, x: real, share: real, ps: real)
    requires b.pending == [] && b.ledger.spent == 0.0 && b.ledger.usable >= 0.0 && d >= 0.0
    requires share == b.ledger.usable + EPS + d && ps == Repeat(share, p) && ps >= 0.0
    requires Within(b, events, p, d, x)
    ensures Afforded(Run(b, events), b.ledger.usable, share, Extras(events), p, ps)
  {
    if events != [] {
      var init, e := events[..|events| - 1], events[|events| - 1];
      StaysAfforded(b, init, p, d, x, share, ps);
      RunStep(b, events);
      NextAfforded(Run(b, init), e, b.ledger.usable, d, share, Extras(init), p, ps);
    }
  }

  lemma NextAfforded(b: Books, e: Event, usable: real, d: real, share: real, extras: real, p: nat, ps: real)
    requires Afforded(b, usable, share, extras, p, ps) && |Step(b, e).pending| <= p
    requires usable >= 0.0 && d >= 0.0 && share == usable + EPS + d && ps == Repeat(share, p) && extras >= 0.0
    requires e.Admit? ==> Overrun(e.job) <= d
    ensures Afforded(Step(b, e), usable, share, extras + (if e.ChargeExtra? then Cost(e.wall) else 0.0), p, ps)
  {
    match e
    case Admit(job) =>
      if b.ledger.Admits(job.est) {
        RoomForOne(b.pending, share, p);
        AdmittedAffordably(b, job, usable, d, share, extras, p, ps);
      }
    case Charge(k) => ChargedAffordably(b, k, usable, share, extras, p, ps);
    case _ =>
  }

  /** The most that admitted runs can spend. */
  function Worst(usable: real, p: nat, d: real): real {
    if usable > EPS then p as real * (usable + EPS + d) else 0.0
  }

  /** The documented invariant says spending never exceeds the usable total.  A limit on it holds
      for every run that has at most `p` candidates outstanding, overruns each estimate by at most
      `d` and charges at most `x` unadmitted, exactly when it leaves room for `p` times the total,
      the tolerance and `d`, and for `x`.  With every run charged before the next is admitted,
      `p` is 1. */
  lemma SpendingLimitIsExact(usable: real, rounds: nat, p: nat, d: real, x: real, limit: real)
    requires rounds >= 1 && usable >= 0.0 && d >= 0.0 && x >= 0.0
    ensures (forall events :: Within(Start(usable, rounds), events, p, d, x) ==>
               Run(Start(usable, rounds), events).ledger.spent <= limit)
       <==> Worst(usable, p, d) + x <= limit
  {
    forall events | Within(Start(usable, rounds), events, p, d, x)
      ensures Run(Start(usable, rounds), events).ledger.spent <= Worst(usable, p, d) + x
    {
      LimitHolds(usable, rounds, events, p, d, x);
    }
    var events := Spendthrift(usable, rounds, p, d, x);
  }

  lemma LimitHolds(usable: real, rounds: nat, events: seq<Event>, p: nat, d: real, x: real)
    requires rounds >= 1 && usable >= 0.0 && d >= 0.0 && Within(Start(usable, rounds), events, p, d, x)
    ensures Run(Start(usable, rounds), events).ledger.spent <= Worst(usable, p, d) + x
  {
    var b, share := Start(usable, rounds), usable + EPS + d;
    var ps := Repeat(share, p);
    RepeatMore(share, 0, p);
    RepeatIsProduct(share, p);
    StaysAfforded(b, events, p, d, x, share, ps);
    SpentAtMost(Run(b, events), usable, share, Extras(events), p, ps, x, Worst(usable, p, d));
  }

  lemma SpentAtMost(b: Books, usable: real, share: real, extras: real, p: nat, ps: real, x: real, worst: real)
    requires Afforded(b, usable, share, extras, p, ps) && extras <= x && ps >= 0.0
    requires worst == if usable > EPS then ps else 0.0
    ensures b.ledger.spent <= worst + x
  {}

  /** Opens the last round at once, where the cap is everything, admits `p` jobs and charges them
      all. */
  lemma Spendthrift(usable: real, rounds: nat, p: nat, d: real, x: real) returns (events: seq<Event>)
    requires rounds >= 1 && usable >= 0.0 && d >= 0.0 && x >= 0.0
    ensures Within(Start(usable, rounds), events, p, d, x)
    ensures Run(Start(usable, rounds), events).ledger.spent == Worst(usable, p, d) + x
  {
    var init := [];
    if usable > EPS { init := Batch(usable, rounds, p, d); }
    ExtraAtTheEnd(Start(usable, rounds), init, p, d, x);
    events := init + [ChargeExtra(Finite(x))];
  }

  lemma ExtraAtTheEnd(b: Books, init: seq<Event>, p: nat, d: real, x: real)
    requires Within(b, init, p, d, 0.0) && x >= 0.0
    ensures Within(b, init + [ChargeExtra(Finite(x))], p, d, x)
    ensures Run(b, init + [ChargeExtra(Finite(x))]).ledger.spent == Run(b, init).ledger.spent + x
  {
    RunMore(b, init, ChargeExtra(Finite(x)));
    assert (init + [ChargeExtra(Finite(x))])[..|init|] == init;
  }

  lemma Batch(usable: real, rounds: nat, p: nat, d: real) returns (events: seq<Event>)
    requires rounds >= 1 && usable > EPS && d >= 0.0
    ensures Within(Start(usable, rounds), events, p, d, 0.0)
    ensures Run(Start(usable, rounds), events).ledger.spent == Worst(usable, p, d)
  {
    var b, job := Start(usable, rounds), Job(usable + EPS, Finite(usable + EPS + d));
    LastRoundOpen(usable, rounds, p, d);
    AdmitMany(b, [BeginRound(rounds - 1)], job, p, p, d);
    var admitted := [BeginRound(rounds - 1)] + Copies(Admit(job), p);
    ChargeMany(b, admitted, job, p, p, d);
    RepeatIsProduct(usable + EPS + d, p);
    events := admitted + Copies(Charge(0), p);
  }

  lemma LastRoundOpen(usable: real, rounds: nat, p: nat, d: real)
    requires rounds >= 1 && usable >= 0.0
    ensures Run(Start(usable, rounds), [BeginRound(rounds - 1)]) == Books(Ledger(usable, rounds, 0.0, usable, 0.0), [])
    ensures Within(Start(usable, rounds), [BeginRound(rounds - 1)], p, d, 0.0)
  {
    var l := Opening(usable, rounds);
    assert [BeginRound(rounds - 1)][..0] == [];
    RunOpens(Start(usable, rounds), rounds - 1);
    assert l.Opened(rounds - 1).cap == usable by { QuotientUnique(usable, 1.0, usable); }
  }

  /** One more event of a run that keeps within the bounds. */
  lemma WithinMore(b: Books, events: seq<Event>, e: Event, p: nat, d: real)
    requires Within(b, events, p, d, 0.0) && !e.ChargeExtra? && (e.Admit? ==> Overrun(e.job) <= d)
    requires |Step(Run(b, events), e).pending| <= p
    ensures Within(b, events + [e], p, d, 0.0) && Run(b, events + [e]) == Step(Run(b, events), e)
  {
    RunMore(b, events, e);
    assert (events + [e])[..|events|] == events;
  }

  lemma {:induction false} AdmitMany(b: Books, events: seq<Event>, job: Job, k: nat, p: nat, d: real)
    requires k <= p && Run(b, events).pending == [] && Run(b, events).ledger.Admits(job.est)
    requires Within(b, events, p, d, 0.0) && Overrun(job) <= d
    ensures Run(b, events + Copies(Admit(job), k)) == Books(Run(b, events).ledger, Copies(job, k))
    ensures Within(b, events + Copies(Admit(job), k), p, d, 0.0)
  {
    if k == 0 {
      assert events + Copies(Admit(job), 0) == events;
    } else {
      AdmitMany(b, events, job, k - 1, p, d);
      var init := events + Copies(Admit(job), k - 1);
      assert events + Copies(Admit(job), k) == init + [Admit(job)];
      assert Copies(job, k - 1) + [job] == Copies(job, k);
      WithinMore(b, init, Admit(job), p, d);
    }
  }

  lemma {:induction false} ChargeMany(b: Books, events: seq<Event>, job: Job, k: nat, p: nat, d: real)
    requires k <= p && Run(b, events).pending == Copies(job, p) && Within(b, events, p, d, 0.0)
    ensures Run(b, events + Copies(Charge(0), k)).pending == Copies(job, p - k)
    ensures Run(b, events + Copies(Charge(0), k)).ledger.spent == Run(b, events).ledger.spent + Repeat(Cost(job.wall), k)
    ensures Within(b, events + Copies(Charge(0), k), p, d, 0.0)
  {
    if k == 0 {
      assert events + Copies(Charge(0), 0) == events;
    } else {
      ChargeMany(b, events, job, k - 1, p, d);
      var init := events + Copies(Charge(0), k - 1);
      assert events + Copies(Charge(0), k) == init + [Charge(0)];
      assert Without(Copies(job, p - k + 1), 0) == Copies(job, p - k);
      WithinMore(b, init, Charge(0), p, d);
    }
  }

  // ------------------------------------------------------------------------ round caps

  /** A round: open it, then whatever is admitted and charged in it. */
  function RoundEvents(r: nat, events: seq<Event>): seq<Event> {
    [BeginRound(r)] + events
  }

  /** The events of a round open no other. */
  ghost predicate NoOpenings(events: seq<Event>) {
    forall i :: 0 <= i < |events| ==> !events[i].BeginRound?
  }

  ghost predicate ProperRounds(rounds: seq<seq<Event>>) {
    forall r :: 0 <= r < |rounds| ==> NoOpenings(rounds[r])
  }

  /** The books after the first `r` rounds. */
  function AfterRounds(b: Books, rounds: seq<seq<Event>>, r: nat): Books
    requires r <= |rounds|
  {
    if r == 0 then b else Run(AfterRounds(b, rounds, r - 1), RoundEvents(r - 1, rounds[r - 1]))
  }

  /** The cap of round `r`. */
  function CapOf(b: Books, rounds: seq<seq<Event>>, r: nat): real
    requires r <= |rounds|
  {
    AfterRounds(b, rounds, r).ledger.Opened(r).cap
  }

  /** The allowance of round `r`. */
  function Slip(b: Books, rounds: seq<seq<Event>>, r: nat): (a: real)
    requires r < |rounds|
    ensures a >= 0.0
  {
    Allowance(AfterRounds(b, rounds, r), RoundEvents(r, rounds[r]))
  }

  /** The tolerances and allowances of the first `r` rounds. */
  function Drift(b: Books, rounds: seq<seq<Event>>, r: nat): real
    requires r <= |rounds|
  {
    if r == 0 then 0.0 else Drift(b, rounds, r - 1) + (EPS + Slip(b, rounds, r - 1))
  }

  lemma RunOpens(b: Books, r: nat)
    ensures Run(b, [BeginRound(r)]) == b.(ledger := b.ledger.Opened(r))
    ensures Allowance(b, [BeginRound(r)]) == Costs(b.pending)
  {
    assert [BeginRound(r)][..0] == [];
    RunStep(b, [BeginRound(r)]);
  }

  /** What a round has spent and owes stays within its cap, the tolerance and the allowance, and
      comes out of the total. */
  ghost predicate RoundKept(start: Ledger, before: real, after: Books, allowance: real) {
    && after.ledger.cap == start.cap && after.ledger.usable == start.usable && after.ledger.rounds == start.rounds
    && after.ledger.roundSpent >= 0.0 && after.ledger.spent == before + after.ledger.roundSpent
    && after.ledger.roundSpent + Costs(after.pending) <= after.ledger.cap + EPS + allowance
  }

  lemma StepKeepsRound(start: Ledger, before: real, b: Books, e: Event, allowance: real, next: real)
    requires RoundKept(start, before, b, allowance) && !e.BeginRound?
    requires next == match e
      case Admit(job) => if b.ledger.Admits(job.est) then Overrun(job) + Costs(b.pending) else allowance
      case ChargeExtra(wall) => allowance + Cost(wall)
      case _ => allowance
    ensures RoundKept(start, before, Step(b, e), next)
  {
    match e
    case Admit(job) => CostsMore(b.pending, job);
    case Charge(k) => if k < |b.pending| { CostsWithout(b.pending, k); }
    case _ =>
  }

  lemma {:induction false} RoundWithinCap(b: Books, r: nat, events: seq<Event>)
    requires NoOpenings(events) && b.ledger.Opened(r).cap >= 0.0
    ensures RoundKept(b.ledger.Opened(r), b.ledger.spent, Run(b, RoundEvents(r, events)), Allowance(b, RoundEvents(r, events)))
  {
    if events == [] {
      assert RoundEvents(r, events) == [BeginRound(r)];
      RunOpens(b, r);
    } else {
      var init, e := events[..|events| - 1], events[|events| - 1];
      RoundWithinCap(b, r, init);
      assert RoundEvents(r, events)[..|events|] == RoundEvents(r, init);
      StepKeepsRound(b.ledger.Opened(r), b.ledger.spent, Run(b, RoundEvents(r, init)), e,
                     Allowance(b, RoundEvents(r, init)), Allowance(b, RoundEvents(r, events)));
    }
  }

  lemma {:induction false} AccountsAfter(b: Books, rounds: seq<seq<Event>>, r: nat)
    requires r <= |rounds|
    ensures AfterRounds(b, rounds, r).ledger.usable == b.ledger.usable
    ensures AfterRounds(b, rounds, r).ledger.rounds == b.ledger.rounds
  {
    if r > 0 {
      AccountsAfter(b, rounds, r - 1);
      UsableStays(AfterRounds(b, rounds, r - 1), RoundEvents(r - 1, rounds[r - 1]));
    }
  }

  lemma CapIs(l: Ledger, r: nat, cap: real, left: real)
    requires cap == l.Opened(r).cap && left == l.RoundsLeft(r) as real
    ensures cap >= 0.0 && cap * left == l.Remaining()
  {
    Quotient(l.Remaining(), left);
  }

  lemma CapStep(cap: real, k: real, left: real, remaining: real, slack: real, rest: real, next: real)
    requires k >= 1.0 && left == k + 1.0 && slack >= 0.0
    requires cap * left == remaining && rest >= remaining - cap - slack && next * k == rest
    ensures next >= cap - slack
  {
    Distribute(k, 1.0, cap);
    Distribute(cap, slack, k);
    Mono(1.0, k, slack);
    Cancel(cap - slack, next, k);
  }

  /** Whatever is admitted and charged in a round, in whatever order, the next round's cap is
      smaller by at most the tolerance and the round's allowance. */
  lemma CapsNeverShrink(b: Books, rounds: seq<seq<Event>>, r: nat)
    requires r < |rounds| && r + 1 < b.ledger.rounds && ProperRounds(rounds)
    ensures CapOf(b, rounds, r + 1) >= CapOf(b, rounds, r) - (EPS + Slip(b, rounds, r))
  {
    var before, after := AfterRounds(b, rounds, r), AfterRounds(b, rounds, r + 1);
    AccountsAfter(b, rounds, r);
    AccountsAfter(b, rounds, r + 1);
    var cap, next := CapOf(b, rounds, r), CapOf(b, rounds, r + 1);
    var left, k := (b.ledger.rounds - r) as real, (b.ledger.rounds - r - 1) as real;
    CapIs(before.ledger, r, cap, left);
    RoundWithinCap(before, r, rounds[r]);
    CapIs(after.ledger, r + 1, next, k);
    CapStep(cap, k, left, before.ledger.Remaining(), EPS + Slip(b, rounds, r), after.ledger.Remaining(), next);
  }

  /** So every round may spend at least an equal share of the usable total, up to the tolerances
      and allowances of the rounds before it. */
  lemma {:induction false} EveryRoundGetsItsShare(usable: real, n: nat, rounds: seq<seq<Event>>, r: nat)
    requires usable >= 0.0 && r < n && r <= |rounds| && ProperRounds(rounds)
    ensures CapOf(Start(usable, n), rounds, r) >= usable / n as real - Drift(Start(usable, n), rounds, r)
  {
    if r > 0 {
      EveryRoundGetsItsShare(usable, n, rounds, r - 1);
      CapsNeverShrink(Start(usable, n), rounds, r - 1);
    }
  }

  // ------------------------------------------------- charged before the next is admitted

  /** Every job is charged, if it was admitted, before the next is offered. */
  function Offers(jobs: seq<Job>): seq<Event> {
    if jobs == [] then [] else Offers(jobs[..|jobs| - 1]) + [Admit(jobs[|jobs| - 1]), Charge(0)]
  }

  function OfferedRounds(rounds: seq<seq<Job>>): seq<seq<Event>> {
    seq(|rounds|, r requires 0 <= r < |rounds| => Offers(rounds[r]))
  }

  ghost predicate NoOverruns(jobs: seq<Job>) {
    forall i :: 0 <= i < |jobs| ==> Overrun(jobs[i]) == 0.0
  }

  lemma {:induction false} OffersOpenNothing(jobs: seq<Job>)
    ensures NoOpenings(Offers(jobs))
  {
    if jobs != [] { OffersOpenNothing(jobs[..|jobs| - 1]); }
  }

  /** In that order a round without overruns leaves nothing outstanding and needs no
      allowance. */
  lemma {:induction false} OneAtATime(b: Books, r: nat, jobs: seq<Job>)
    requires b.pending == [] && NoOverruns(jobs)
    ensures Run(b, RoundEvents(r, Offers(jobs))).pending == []
    ensures Allowance(b, RoundEvents(r, Offers(jobs))) == 0.0
  {
    if jobs == [] {
      assert RoundEvents(r, Offers(jobs)) == [BeginRound(r)];
      RunOpens(b, r);
    } else {
      var init, job := jobs[..|jobs| - 1], jobs[|jobs| - 1];
      OneAtATime(b, r, init);
      OneOffer(b, RoundEvents(r, Offers(init)), job);
      assert RoundEvents(r, Offers(jobs)) == RoundEvents(r, Offers(init)) + [Admit(job), Charge(0)];
    }
  }

  lemma OneOffer(b: Books, events: seq<Event>, job: Job)
    requires Run(b, events).pending == [] && Allowance(b, events) == 0.0 && Overrun(job) == 0.0
    ensures Run(b, events + [Admit(job), Charge(0)]).pending == []
    ensures Allowance(b, events + [Admit(job), Charge(0)]) == 0.0
  {
    var more := events + [Admit(job)];
    assert more[..|events|] == events;
    assert events + [Admit(job), Charge(0)] == more + [Charge(0)];
    assert (more + [Charge(0)])[..|more|] == more;
    RunMore(b, events, Admit(job));
    RunMore(b, more, Charge(0));
  }

  lemma {:induction false} NothingDrifts(b: Books, rounds: seq<seq<Job>>, r: nat)
    requires b.pending == [] && r <= |rounds| && forall i :: 0 <= i < |rounds| ==> NoOverruns(rounds[i])
    ensures AfterRounds(b, OfferedRounds(rounds), r).pending == []
    ensures Drift(b, OfferedRounds(rounds), r) == r as real * EPS
  {
    if r > 0 {
      NothingDrifts(b, rounds, r - 1);
      OneAtATime(AfterRounds(b, OfferedRounds(rounds), r - 1), r - 1, rounds[r - 1]);
      Distribute((r - 1) as real, 1.0, EPS);
    }
  }

  /** When every run is charged before the next is admitted and none exceeds its estimate, every
      round may spend an equal share of the total, up to one tolerance for each round before. */
  lemma EqualShares(usable: real, n: nat, rounds: seq<seq<Job>>, r: nat)
    requires usable >= 0.0 && r < n && r <= |rounds| && forall i :: 0 <= i < |rounds| ==> NoOverruns(rounds[i])
    ensures CapOf(Start(usable, n), OfferedRounds(rounds), r) >= usable / n as real - r as real * EPS
  {
    forall i | 0 <= i < |rounds| ensures NoOpenings(OfferedRounds(rounds)[i]) { OffersOpenNothing(rounds[i]); }
    EveryRoundGetsItsShare(usable, n, OfferedRounds(rounds), r);
    NothingDrifts(Start(usable, n), rounds, r);
  }

  // ------------------------------------------------------------------------- the cull

  /** How many scored arms survive, when there are more than `minKeep`. */
  function KeepCount(cfg: Config, scored: nat): int {
    var share := Ceil(cfg.keepFrac * scored as real);
    if share > cfg.minKeep then share else cfg.minKeep
  }

  lemma KeepCountFits(cfg: Config, scored: nat)
    requires cfg.Valid() && scored > cfg.minKeep
    ensures cfg.minKeep <= KeepCount(cfg, scored) <= scored
  {
    Mono(cfg.keepFrac, 1.0, scored as real);
  }

  function ItemSet(s: seq<Keyed<Id>>): set<Id> {
    set e | e in s :: e.item
  }

  datatype Culled = Culled(alive: set<Id>, killed: seq<Id>)

  /** Unscored arms are dropped; of the scored ones the best survive and the rest are killed,
      unless culling is off or few are left. */
  function Cull(cfg: Config, alive: set<Id>, scores: seq<Keyed<Id>>): Culled
    requires cfg.Valid()
  {
    var scored := Restrict(scores, alive);
    var contenders := alive * ItemSet(scores);
    if cfg.keepFrac >= 1.0 || |scored| <= cfg.minKeep then Culled(contenders, [])
    else
      KeepCountFits(cfg, |scored|);
      SortPermutes(scored);
      var losers := SortDesc(scored)[KeepCount(cfg, |scored|)..];
      Culled(contenders - ItemSet(losers), Items(losers))
  }

  /** Scores are kept once per arm. */
  ghost predicate OneScoreEach(scores: seq<Keyed<Id>>) {
    forall i, j :: 0 <= i < j < |scores| ==> scores[i].item != scores[j].item
  }

  lemma InsertOnce(x: Keyed<Id>, s: seq<Keyed<Id>>)
    requires OneScoreEach(s) && x.item !in ItemSet(s)
    ensures OneScoreEach([x] + s)
  {
    forall i | 0 <= i < |s| ensures s[i].item != x.item {
      assert s[i] in s;
    }
  }

  lemma {:induction false} RankedInsert(x: Keyed<Id>, s: seq<Keyed<Id>>)
    requires OneScoreEach(s) && x.item !in ItemSet(s)
    ensures OneScoreEach(Insert(x, s)) && ItemSet(Insert(x, s)) == ItemSet(s) + {x.item}
    ensures forall e :: e in Insert(x, s) <==> e == x || e in s
  {
    if s == [] || x.key >= s[0].key {
      InsertOnce(x, s);
    } else {
      RankedInsert(x, s[1..]);
      assert s == [s[0]] + s[1..];
      assert s[0].item !in ItemSet(s[1..]);
      InsertOnce(s[0], Insert(x, s[1..]));
    }
  }

  /** Ranking keeps the entries, still once per arm. */
  lemma {:induction false} RankedOnce(s: seq<Keyed<Id>>)
    requires OneScoreEach(s)
    ensures OneScoreEach(SortDesc(s)) && ItemSet(SortDesc(s)) == ItemSet(s)
    ensures forall e :: e in SortDesc(s) <==> e in s
  {
    if s != [] {
      RankedOnce(s[1..]);
      assert s == [s[0]] + s[1..];
      RankedInsert(s[0], SortDesc(s[1..]));
    }
  }

  lemma ItemSetCons(x: Keyed<Id>, s: seq<Keyed<Id>>)
    ensures ItemSet([x] + s) == {x.item} + ItemSet(s)
  {
    assert x in [x] + s;
  }

  lemma {:induction false} RestrictOnce(s: seq<Keyed<Id>>, keep: set<Id>)
    requires OneScoreEach(s)
    ensures OneScoreEach(Restrict(s, keep)) && ItemSet(Restrict(s, keep)) == ItemSet(s) * keep
  {
    if s != [] {
      RestrictOnce(s[1..], keep);
      assert s == [s[0]] + s[1..];
      ItemSetCons(s[0], s[1..]);
      if s[0].item in keep {
        assert s[0].item !in ItemSet(s[1..]);
        InsertOnce(s[0], Restrict(s[1..], keep));
        ItemSetCons(s[0], Restrict(s[1..], keep));
      }
    }
  }

  lemma {:induction false} CountOnce(s: seq<Keyed<Id>>)
    requires OneScoreEach(s)
    ensures |ItemSet(s)| == |s|
  {
    if s != [] {
      CountOnce(s[1..]);
      assert s == [s[0]] + s[1..];
      assert ItemSet(s) == ItemSet(s[1..]) + {s[0].item};
      assert s[0].item !in ItemSet(s[1..]);
    }
  }

  lemma SplitOnce(s: seq<Keyed<Id>>, k: nat)
    requires OneScoreEach(s) && k <= |s|
    ensures ItemSet(s) == ItemSet(s[..k]) + ItemSet(s[k..]) && ItemSet(s[..k]) !! ItemSet(s[k..])
    ensures |ItemSet(s[..k])| == k
  {
    assert s == s[..k] + s[k..];
    CountOnce(s[..k]);
  }

  /** How a cull divides the arms alive, given the ranking of the scored ones and how many of
      them stay. */
  ghost predicate Divides(alive: set<Id>, ranked: seq<Keyed<Id>>, k: nat, c: Culled)
    requires k <= |ranked|
  {
    && c.alive == ItemSet(ranked[..k]) && c.killed == Items(ranked[k..])
    && ItemSet(ranked) <= alive
  }

  lemma CullDivides(cfg: Config, alive: set<Id>, scores: seq<Keyed<Id>>) returns (k: nat)
    requires cfg.Valid() && OneScoreEach(scores)
    ensures var ranked := SortDesc(Restrict(scores, alive));
      && k <= |ranked| == |Restrict(scores, alive)|
      && OneScoreEach(ranked) && Desc(ranked) && ItemSet(ranked) == alive * ItemSet(scores)
      && Divides(alive, ranked, k, Cull(cfg, alive, scores))
      && k == if cfg.keepFrac >= 1.0 || |ranked| <= cfg.minKeep then |ranked| else KeepCount(cfg, |ranked|)
  {
    var scored := Restrict(scores, alive);
    RestrictOnce(scores, alive);
    RankedOnce(scored);
    SortPermutes(scored);
    SortIsDesc(scored);
    var ranked := SortDesc(scored);
    if cfg.keepFrac >= 1.0 || |scored| <= cfg.minKeep {
      k := |ranked|;
      assert ranked[..k] == ranked;
    } else {
      KeepCountFits(cfg, |scored|);
      k := KeepCount(cfg, |scored|);
      SplitOnce(ranked, k);
    }
  }

  /** A cull splits the arms alive exactly into survivors, killed arms and dropped arms
      without a score, and as many as `minKeep` asks for survive when there are as many
      scored arms. */
  lemma CullSplits(cfg: Config, alive: set<Id>, scores: seq<Keyed<Id>>, c: Culled, killed: set<Id>, dropped: set<Id>)
    requires cfg.Valid() && OneScoreEach(scores) && c == Cull(cfg, alive, scores)
    requires killed == (set p | p in c.killed) && dropped == alive - ItemSet(scores)
    ensures alive == c.alive + killed + dropped
    ensures c.alive !! killed && c.alive !! dropped && killed !! dropped
    ensures |c.alive| >= cfg.minKeep || |c.alive| == |Restrict(scores, alive)|
  {
    var k := CullDivides(cfg, alive, scores);
    var ranked := SortDesc(Restrict(scores, alive));
    SplitOnce(ranked, k);
    KilledAre(ranked, k);
    ThreeWays(alive, ItemSet(scores), c.alive, killed);
  }

  /** `k` of `n` scored arms are to stay: all of them when culling is off or few are left, and
      otherwise the least number that is both `minKeep` and the share `keepFrac`, at least. */
  predicate StaysOf(cfg: Config, k: nat, n: nat) {
    if cfg.keepFrac >= 1.0 || n <= cfg.minKeep then k == n
    else
      && k >= cfg.minKeep && k as real >= cfg.keepFrac * n as real
      && (k == cfg.minKeep || (k - 1) as real < cfg.keepFrac * n as real)
  }

  /** How many arms survive a cull, and how many it kills. */
  lemma CullCount(cfg: Config, alive: set<Id>, scores: seq<Keyed<Id>>, c: Culled, n: nat)
    requires cfg.Valid() && OneScoreEach(scores) && c == Cull(cfg, alive, scores) && n == |alive * ItemSet(scores)|
    ensures StaysOf(cfg, |c.alive|, n) && |c.alive| + |c.killed| == n
  {
    var k := CullDivides(cfg, alive, scores);
    var ranked := SortDesc(Restrict(scores, alive));
    SplitOnce(ranked, k);
    CountOnce(ranked);
    if cfg.keepFrac < 1.0 && n > cfg.minKeep { LeastShare(cfg, n); }
  }

  lemma LeastShare(cfg: Config, n: nat)
    requires cfg.Valid() && cfg.keepFrac < 1.0 && n > cfg.minKeep
    ensures KeepCount(cfg, n) >= 0 && StaysOf(cfg, KeepCount(cfg, n), n)
  {}

  lemma ThreeWays(alive: set<Id>, scored: set<Id>, kept: set<Id>, killed: set<Id>)
    requires kept + killed == alive * scored && kept !! killed
    ensures alive == kept + killed + (alive - scored)
    ensures kept !! (alive - scored) && killed !! (alive - scored)
  {}

  /** No killed arm outscores a survivor. */
  lemma CullRanks(cfg: Config, alive: set<Id>, scores: seq<Keyed<Id>>, e: Keyed<Id>, f: Keyed<Id>)
    requires cfg.Valid() && OneScoreEach(scores) && e in scores && f in scores
    requires e.item in Cull(cfg, alive, scores).killed && f.item in Cull(cfg, alive, scores).alive
    ensures e.key <= f.key
  {
    var k := CullDivides(cfg, alive, scores);
    var ranked := SortDesc(Restrict(scores, alive));
    SplitOnce(ranked, k);
    KilledAre(ranked, k);
    ScoresInRanking(scores, alive);
    assert e.item in (set p | p in Items(ranked[k..]));
    LoserIsBehind(ranked, k, e, f);
  }

  lemma KilledAre(ranked: seq<Keyed<Id>>, k: nat)
    requires k <= |ranked|
    ensures (set p | p in Items(ranked[k..])) == ItemSet(ranked[k..])
  {
    var losers := ranked[k..];
    forall p ensures p in Items(losers) <==> p in ItemSet(losers) {
      if p in ItemSet(losers) {
        var i :| 0 <= i < |losers| && losers[i].item == p;
        assert Items(losers)[i] == p;
      }
      if p in Items(losers) {
        var i :| 0 <= i < |losers| && Items(losers)[i] == p;
        assert losers[i] in losers;
      }
    }
  }

  lemma ScoresInRanking(scores: seq<Keyed<Id>>, alive: set<Id>)
    requires OneScoreEach(scores)
    ensures forall e :: e in SortDesc(Restrict(scores, alive)) <==> e in scores && e.item in alive
  {
    RestrictMembers(scores, alive);
    RestrictOnce(scores, alive);
    RankedOnce(Restrict(scores, alive));
  }

  lemma LoserIsBehind(ranked: seq<Keyed<Id>>, k: nat, e: Keyed<Id>, f: Keyed<Id>)
    requires k <= |ranked| && OneScoreEach(ranked) && Desc(ranked) && e in ranked && f in ranked
    requires e.item in ItemSet(ranked[k..]) && f.item in ItemSet(ranked[..k])
    ensures e.key <= f.key
  {
    var i :| 0 <= i < |ranked| && ranked[i] == e;
    var j :| 0 <= j < |ranked| && ranked[j] == f;
    var i' :| 0 <= i' < |ranked[k..]| && ranked[k..][i'].item == e.item;
    var j' :| 0 <= j' < |ranked[..k]| && ranked[..k][j'].item == f.item;
    assert ranked[k + i'].item == e.item && ranked[j'].item == f.item;
  }

  /** The best score among the arms alive is still alive after a cull. */
  lemma CullKeepsBest(cfg: Config, alive: set<Id>, scores: seq<Keyed<Id>>, e: Keyed<Id>)
    requires cfg.Valid() && OneScoreEach(scores) && e in scores && e.item in alive
    ensures exists f :: f in scores && f.item in Cull(cfg, alive, scores).alive && f.key >= e.key
  {
    var k := CullDivides(cfg, alive, scores);
    var ranked := SortDesc(Restrict(scores, alive));
    ScoresInRanking(scores, alive);
    var i :| 0 <= i < |ranked| && ranked[i] == e;
    assert k >= 1;
    assert ranked[..k][0] == ranked[0] && ranked[0] in ranked[..k];
    assert ranked[0] in ranked;
  }

  // --------------------------------------------------------------------- the controller

  /** `scores[p] = x` for a dictionary that keeps its insertion order. */
  function PutScore(scores: seq<Keyed<Id>>, p: Id, x: real): seq<Keyed<Id>> {
    if scores == [] then [Keyed(p, x)]
    else if scores[0].item == p then [Keyed(p, x)] + scores[1..]
    else [scores[0]] + PutScore(scores[1..], p, x)
  }

  lemma {:induction false} PutScoreOnce(scores: seq<Keyed<Id>>, p: Id, x: real)
    requires OneScoreEach(scores)
    ensures OneScoreEach(PutScore(scores, p, x))
    ensures ItemSet(PutScore(scores, p, x)) == ItemSet(scores) + {p}
    ensures forall e :: e in PutScore(scores, p, x) <==> (if e.item == p then e.key == x else e in scores)
  {
    if scores == [] {
    } else {
      var rest := scores[1..];
      assert scores == [scores[0]] + rest;
      ItemSetCons(scores[0], rest);
      assert scores[0].item !in ItemSet(rest);
      if scores[0].item == p {
        InsertOnce(Keyed(p, x), rest);
        ItemSetCons(Keyed(p, x), rest);
      } else {
        PutScoreOnce(rest, p, x);
        InsertOnce(scores[0], PutScore(rest, p, x));
        ItemSetCons(scores[0], PutScore(rest, p, x));
      }
    }
  }

  class BudgetController {
    const cfg: Config
    const usable: real
    var spent: real
    var roundIndex: int
    var roundCap: real
    var roundSpent: real
    var admitted: set<Id>
    var scores: seq<Keyed<Id>>
    var alive: set<Id>
    var killed: seq<Id>

    ghost predicate Valid()
      reads this
    {
      cfg.Valid() && OneScoreEach(scores)
    }

    function Accounts(): Ledger
      reads this
    {
      Ledger(usable, cfg.rounds, spent, roundCap, roundSpent)
    }

    constructor (cfg: Config)
      requires cfg.Valid()
      ensures Valid() && this.cfg == cfg && usable == cfg.totalSeconds * (1.0 - cfg.reserveFrac)
      ensures Accounts() == Opening(usable, cfg.rounds)
      ensures scores == [] && alive == {} && killed == [] && admitted == {}
    {
      this.cfg := cfg;
      var u := cfg.totalSeconds * (1.0 - cfg.reserveFrac);
      usable := u;
      spent, roundIndex, roundCap, roundSpent := 0.0, -1, u / cfg.rounds as real, 0.0;
      admitted, scores, alive, killed := {}, [], {}, [];
    }

    /** Opens round `r`: what is left of the total is spread over the rounds left. */
    method BeginRound(r: int)
      requires Valid()
      modifies this`roundIndex, this`roundSpent, this`roundCap
      ensures Valid() && Accounts() == old(Accounts()).Opened(r) && roundIndex == r
    {
      roundIndex := r;
      roundSpent := 0.0;
      var roundsLeft := if cfg.rounds - r > 1 then cfg.rounds - r else 1;
      roundCap := Max(0.0, usable - spent) / roundsLeft as real;
    }

    /** Whether there is room, in this round and overall, for an estimated cost. */
    method Admit(p: Id, est: real) returns (ok: bool)
      requires Valid()
      modifies this`admitted, this`alive
      ensures Valid() && ok == Accounts().Admits(est)
      ensures admitted == (if ok then old(admitted) + {p} else old(admitted))
      ensures alive == (if ok then old(alive) + {p} else old(alive))
    {
      var e := Max(0.0, est);
      ok := spent + e <= usable + EPS && roundSpent + e <= roundCap + EPS && Max(0.0, usable - spent) > EPS;
      if ok {
        admitted := admitted + {p};
        alive := alive + {p};
      }
    }

    /** Records the true cost of a run. */
    method Charge(wall: Reading)
      requires Valid()
      modifies this`spent, this`roundSpent
      ensures Valid() && Accounts() == old(Accounts()).Charged(Cost(wall))
    {
      var cost := Cost(wall);
      spent := spent + cost;
      roundSpent := roundSpent + cost;
    }

    /** Records the latest score of an arm, which is alive from then on. */
    method RecordScore(p: Id, score: Reading)
      requires Valid()
      modifies this`scores, this`alive
      ensures Valid()
      ensures !score.Finite? ==> scores == old(scores) && alive == old(alive)
      ensures score.Finite? ==> scores == PutScore(old(scores), p, score.value) && alive == old(alive) + {p}
    {
      if score.Finite? {
        PutScoreOnce(scores, p, score.value);
        scores := PutScore(scores, p, score.value);
        alive := alive + {p};
      }
    }

    /** Ends a round: drops unscored arms, keeps the best of the scored ones, kills the rest. */
    method EndRound() returns (losers: seq<Id>)
      requires Valid()
      modifies this`alive, this`killed
      ensures Valid() && losers == Cull(cfg, old(alive), scores).killed
      ensures alive == Cull(cfg, old(alive), scores).alive
      ensures killed == old(killed) + losers
    {
      var scored := Restrict(scores, alive);
      alive := alive * ItemSet(scores);
      if cfg.keepFrac >= 1.0 || |scored| <= cfg.minKeep {
        return [];
      }
      KeepCountFits(cfg, |scored|);
      SortPermutes(scored);
      var ranked := SortDesc(scored);
      losers := Items(ranked[KeepCount(cfg, |scored|)..]);
      KilledAre(ranked, KeepCount(cfg, |scored|));
      alive := alive - (set p | p in losers);
      killed := killed + losers;
    }

    /** Exhausted up to a millionth of a second. */
    method Stop() returns (done: bool)
      ensures done == (Accounts().Remaining() <= 0.000001)
    {
      done := Max(0.0, usable - spent) <= 0.000001;
    }

    /** A whole run: the books move as `Step` says, event by event. */
    method Drive(events: seq<Event>) returns (pending: seq<Job>)
      requires Valid()
      modifies this`roundIndex, this`roundSpent, this`roundCap, this`admitted, this`alive, this`spent
      ensures Valid() && Books(Accounts(), pending) == Run(Books(old(Accounts()), []), events)
    {
      pending := [];
      ghost var start := Books(Accounts(), []);
      for i := 0 to |events|
        invariant Valid() && Books(Accounts(), pending) == Run(start, events[..i])
      {
        assert events[..i + 1] == events[..i] + [events[i]];
        RunMore(start, events[..i], events[i]);
        match events[i]
        case BeginRound(r) => BeginRound(r);
        case Admit(job) =>
          var ok := Admit(i, job.est);
          if ok { pending := pending + [job]; }
        case Charge(k) =>
          if k < |pending| {
            Charge(pending[k].wall);
            pending := Without(pending, k);
          }
        case ChargeExtra(wall) => Charge(wall);
      }
      assert events[..|events|] == events;
    }
  }
}
