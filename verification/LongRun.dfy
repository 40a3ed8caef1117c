/** Long-horizon resume: the hooks a resumable run installs on the round loop. */
module LongRun {
  import opened Wrappers
  import opened Store
  import C = Checkpoint

  // The gate and completion hooks are called by the orchestrator.  What its loop does inside
  // a round is left open; only what it hands to the hooks matters here.

  /** A proposed program.  Its id is a function of its source, label and code. */
  datatype Program = Program(code: string, source: string, text: string, parentId: Option<string>, provenance: string)

  datatype Best = Best(program: Program, score: real)

  /** The champion of a loop with its validation score.  A program without code defines nothing
      to fit, so it never scores and never becomes champion. */
  type Champion = b: Best | b.program.code != ""
    witness Best(Program("fit", "", "", None, ""), 0.0)

  datatype RoundEntry = RoundEntry(round: int, runId: string)

  datatype LongState = LongState(
    runId: string,
    nRounds: int,
    completed: seq<int>,
    championScore: Option<real>,
    champion: Option<Program>,
    roundLineage: seq<RoundEntry>,
    parentRunId: Option<string>,
    lineage: seq<string>,
    resumeCount: nat)

  /** The program read back from a checkpoint: nothing when its code is empty. */
  function Rehydrate(champion: Option<Program>): Option<Program> {
    if champion.Some? && champion.value.code == "" then None else champion
  }

  /** What a fresh loop carries after the gate has skipped at least one round. */
  function Carried(s: LongState): Option<Champion> {
    var p := Rehydrate(s.champion);
    if p.Some? && s.championScore.Some? then Some(Best(p.value, s.championScore.value)) else None
  }

  /** The saved champion. */
  function Saved(s: LongState): Option<Best> {
    if s.champion.Some? && s.championScore.Some? then Some(Best(s.champion.value, s.championScore.value)) else None
  }

  /** The state saved when round `r` finishes with `best` as the best so far. */
  function RoundDone(s: LongState, r: int, best: Option<Champion>): LongState {
    s.(completed := if r in s.completed then s.completed else C.InsertSorted(s.completed, r),
       championScore := if best.Some? then Some(best.value.score) else None,
       champion := if best.Some? then Some(best.value.program) else None,
       roundLineage := s.roundLineage + [RoundEntry(r, s.runId)])
  }

  function LoadOrInit(prior: Option<LongState>, runId: string, nRounds: int): LongState {
    match prior
    case None => LongState(runId, nRounds, [], None, None, [], None, [], 0)
    case Some(s) =>
      s.(runId := runId,
         nRounds := if s.nRounds > nRounds then s.nRounds else nRounds,
         parentRunId := Some(s.runId),
         lineage := C.AddAncestor(s.lineage, s.runId),
         resumeCount := s.resumeCount + 1)
  }

  // ------------------------------------------------------------------- what is persisted

  /** `k` rounds are done: the completed rounds are the first `k`, with exactly one lineage
      entry each, in order. */
  ghost predicate Orderly(s: LongState, k: nat) {
    && s.completed == C.Prefix(k)
    && |s.roundLineage| == k && (forall i :: 0 <= i < k ==> s.roundLineage[i].round == i)
    && (k == 0 || k <= s.nRounds)
    && Distinct(s.lineage)
    && (k == 0 ==> s.champion.None?)
    && (s.champion.Some? <==> s.championScore.Some?)
    && (s.champion.Some? ==> s.champion.value.code != "")
  }

  ghost predicate Sound(s: LongState) {
    Orderly(s, |s.completed|)
  }

  ghost predicate AllSound(stored: Option<LongState>, fallback: Option<LongState>) {
    (stored.Some? ==> Sound(stored.value)) && (fallback.Some? ==> Sound(fallback.value))
  }

  /** `s` took over from `prior`: all work is kept, and `prior` is named as its ancestor. */
  ghost predicate Took(prior: LongState, s: LongState, runId: string, nRounds: int) {
    && s.completed == prior.completed && s.roundLineage == prior.roundLineage && Saved(s) == Saved(prior)
    && s.runId == runId && s.parentRunId == Some(prior.runId) && s.resumeCount == prior.resumeCount + 1
    && prior.lineage <= s.lineage && (prior.runId != "" ==> prior.runId in s.lineage)
    && s.nRounds >= nRounds && s.nRounds >= prior.nRounds && (s.nRounds == nRounds || s.nRounds == prior.nRounds)
  }

  lemma LoadKeepsOrder(prior: Option<LongState>, runId: string, nRounds: int)
    requires prior.Some? ==> Sound(prior.value)
    ensures Sound(LoadOrInit(prior, runId, nRounds))
    ensures prior.Some? ==> Took(prior.value, LoadOrInit(prior, runId, nRounds), runId, nRounds)
  {
    if prior.Some? { C.AncestorsDistinct(prior.value.lineage, prior.value.runId); }
  }

  /** Completing round `k` keeps all that, and what a resumed run reads back from it is the
      champion saved with that round. */
  lemma RoundKeepsOrder(s: LongState, k: nat, best: Option<Champion>)
    requires Orderly(s, k) && k < s.nRounds
    ensures Orderly(RoundDone(s, k, best), k + 1)
    ensures Carried(RoundDone(s, k, best)) == best == Saved(RoundDone(s, k, best))
    ensures RoundDone(s, k, best).roundLineage[..k] == s.roundLineage && RoundDone(s, k, best).roundLineage[k].runId == s.runId
  {
    assert C.Prefix(k) + [k] == C.Prefix(k + 1);
  }

  lemma DonePrefix(s: LongState, k: nat, r: int)
    requires Orderly(s, k) && r >= 0
    ensures r in s.completed <==> r < k
  {
    if r < k { assert C.Prefix(k)[r] == r; }
  }

  // -------------------------------------------------------------------- the round loop

  /** What happens when the loop opens a round it may not skip: the search may end without
      completing the round, or the round completes, perhaps with a better champion, and the
      search goes on or stops. */
  datatype Event = Abandoned | Finished(found: Option<Champion>, stop: bool)

  /** A round replaces the champion only by a strictly better one. */
  function Improve(best: Option<Champion>, found: Option<Champion>): Option<Champion> {
    if found.Some? && (best.None? || found.value.score > best.value.score) then found else best
  }

  /** What skipping a completed round does to the champion at hand. */
  function Restore(best: Option<Champion>, carried: Option<Champion>): Option<Champion> {
    if carried.Some? && (best.None? || carried.value.score >= best.value.score) then carried else best
  }

  /** One attempt: its name, its steps, how it crashes, and what its loop meets. */
  datatype Attempt = Attempt(
    runId: string, fuel: nat, powerLoss: bool, renameReached: bool,
    deadline: int -> bool, open: int -> Event)

  class ResumableRun {
    const store: CheckpointStore<LongState>
    const runId: string
    /** No attempt on this store asks for more rounds than this. */
    ghost const bound: int
    var state: LongState
    var executed: seq<int>
    var skipped: seq<int>

    constructor (store: CheckpointStore<LongState>, runId: string, ghost bound: int)
      ensures this.store == store && this.runId == runId && this.bound == bound && executed == [] && skipped == []
    {
      this.store, this.runId, this.bound := store, runId, bound;
      state := LongState(runId, 0, [], None, None, [], None, [], 0);
      executed, skipped := [], [];
    }

    /** The hook after a finished round: note it, and save the champion with it. */
    method OnComplete(r: int, best: Option<Champion>, fuel: nat) returns (left: nat, crashed: bool)
      requires store.Intact()
      modifies this, store
      ensures store.Intact()
      ensures state == RoundDone(old(state), r, best)
      ensures executed == old(executed) + [r] && skipped == old(skipped)
      ensures store.Stored() == (if fuel < 4 then old(store.Stored()) else Some(state))
      ensures store.Fallback() == (if fuel < 5 then old(store.Fallback()) else Some(state))
      ensures crashed == (fuel < 5) && (!crashed ==> left == fuel - 5)
    {
      executed := executed + [r];
      state := RoundDone(state, r, best);
      left, crashed := store.Save(state, fuel);
    }

    /** The gate in front of every round. */
    method Gate(r: int) returns (skip: bool)
      modifies `skipped
      ensures skip == (r in state.completed)
      ensures skipped == (if skip then old(skipped) + [r] else old(skipped))
    {
      skip := r in state.completed;
      if skip {
        skipped := skipped + [r];
      }
    }

    /** In between two rounds: `k` rounds are done, in memory and everywhere on disk. */
    ghost predicate Between(k: nat)
      reads this, store
    {
      && store.Intact() && store.Stored() == store.Fallback() == Some(state)
      && Orderly(state, k) && state.nRounds <= bound
    }

    /** A round that was not done yet: it is abandoned, or it finishes and is saved. */
    method FreshRound(r: nat, best: Option<Champion>, fuel: nat, event: Event)
      returns (after: Option<Champion>, left: nat, fate: Fate)
      requires Between(r) && r < state.nRounds
      modifies this, store
      ensures store.Intact() && Recoverable(bound, store.Stored(), store.Fallback()) && Rounds(store.Stored()) >= r
      ensures skipped == old(skipped)
      ensures fuel >= 6 ==> fate != Crashed && left >= fuel - 6
      ensures fate == GoesOn || fate == EndsAfter ==>
        && event.Finished? && after == Improve(best, event.found) && (fate == EndsAfter <==> event.stop)
        && state == RoundDone(old(state), r, after) && executed == old(executed) + [r] && Between(r + 1)
      ensures fate == EndsBefore ==>
        event.Abandoned? && after == best && state == old(state) && executed == old(executed) && Between(r)
      ensures fate == Crashed ==> executed == old(executed) || executed == old(executed) + [r]
      ensures fate == Crashed ==> store.Fallback() == Some(old(state))
      ensures fate == Crashed ==> store.Stored() == Some(old(state)) || (event.Finished? && store.Stored() == Some(RoundDone(old(state), r, Improve(best, event.found))))
    {
      after := best;
      if fuel == 0 {
        return best, 0, Crashed;
      }
      match event
      case Abandoned => return best, fuel - 1, EndsBefore;
      case Finished(found, stop) =>
        after := Improve(best, found);
        RoundKeepsOrder(state, r, after);
        var crashed;
        left, crashed := OnComplete(r, after, fuel - 1);
        fate := if crashed then Crashed else if stop then EndsAfter else GoesOn;
    }

    /** In front of round `r` of a loop that started from `start` with `k0` rounds done: what
        is saved, what was skipped and executed, and the champion at hand, which is nothing at
        first, then what the gate restored, then what was saved last. */
    ghost predicate InFrontOf(a: Attempt, r: nat, best: Option<Champion>, start: LongState, k0: nat)
      reads this, store
    {
      && Between(if r <= k0 then k0 else r)
      && state.nRounds == start.nRounds && (r <= k0 ==> state == start)
      && best == (if r == 0 then None else Saved(state))
      && Climbs(start, state)
      && (r >= k0 ==> IsBest(a, Saved(start), k0, r, best))
      && skipped == C.Prefix(if r <= k0 then r else k0) && executed == From(k0, if r <= k0 then 0 else r - k0)
    }

    /** A power loss does not undo the rounds that were done at the start. */
    ghost predicate FallsBackTo(k0: nat)
      reads store
    {
      store.Fallback().Some? && Rounds(store.Fallback()) >= k0
    }

    /** What a loop leaves, finished or crashed. */
    ghost predicate Left(a: Attempt, start: LongState, k0: nat)
      reads this, store
    {
      && store.Intact() && Recoverable(bound, store.Stored(), store.Fallback())
      && store.Stored().Some? && Rounds(store.Stored()) >= k0 && FallsBackTo(k0)
      && HoldsBest(a, start, k0, Rounds(store.Stored()), store.Stored().value)
      && Accounted(k0)
    }

    lemma AtStart(a: Attempt, k0: nat)
      requires Between(k0) && executed == [] && skipped == []
      ensures InFrontOf(a, 0, None, state, k0) && (k0 == 0 || k0 <= state.nRounds)
    {}

    lemma NothingLost(a: Attempt, r: nat, best: Option<Champion>, start: LongState, k0: nat)
      requires InFrontOf(a, r, best, start, k0)
      ensures Left(a, start, k0)
    {}

    /** The gate skips a round that is done and restores its champion. */
    method GateTurn(ghost a: Attempt, r: nat, best: Option<Champion>, ghost start: LongState, ghost k0: nat)
      returns (skip: bool, after: Option<Champion>)
      requires InFrontOf(a, r, best, start, k0)
      modifies `skipped
      ensures skip == (r < k0)
      ensures InFrontOf(a, if skip then r + 1 else r, after, start, k0)
    {
      DonePrefix(state, if r <= k0 then k0 else r, r);
      CarriedIsSaved(state, if r <= k0 then k0 else r);
      skip := Gate(r);
      after := if skip then Restore(best, Carried(state)) else best;
      assert C.Prefix(r) + [r] == C.Prefix(r + 1);
    }

    /** Any other round is run. */
    method FreshTurn(a: Attempt, r: nat, best: Option<Champion>, fuel: nat, ghost start: LongState, ghost k0: nat)
      returns (after: Option<Champion>, left: nat, fate: Fate)
      requires InFrontOf(a, r, best, start, k0) && k0 <= r < state.nRounds
      modifies this, store
      ensures fate == Crashed ==> Left(a, start, k0)
      ensures fate == GoesOn || fate == EndsAfter ==> InFrontOf(a, r + 1, after, start, k0)
      ensures fate == EndsBefore ==> InFrontOf(a, r, after, start, k0)
      ensures fuel >= 6 ==> fate != Crashed && left >= fuel - 6
      ensures fate == EndsBefore ==> a.open(r).Abandoned?
      ensures fate == EndsAfter ==> a.open(r).Finished? && a.open(r).stop
    {
      StandsStill(a, start, state, k0, r, best);
      FromMore(k0, r);
      if a.open(r).Finished? { StepsOn(a, start, state, k0, r, best); }
      after, left, fate := FreshRound(r, best, fuel, a.open(r));
    }

    /** One turn of the loop: deadline, gate, round. */
    method Turn(a: Attempt, r: nat, best: Option<Champion>, fuel: nat, ghost start: LongState, ghost k0: nat)
      returns (after: Option<Champion>, left: nat, fate: Fate)
      requires InFrontOf(a, r, best, start, k0) && r < start.nRounds
      modifies this, store
      ensures fate == Crashed ==> Left(a, start, k0)
      ensures fate != Crashed ==> InFrontOf(a, Behind(r, fate), after, start, k0)
      ensures fate == EndsBefore || fate == EndsAfter ==> Stopped(a, start.nRounds, k0, Behind(r, fate))
      ensures fuel >= 6 ==> fate != Crashed && left >= fuel - 6
    {
      if a.deadline(r) {
        return best, fuel, EndsBefore;
      }
      var skip;
      skip, after := GateTurn(a, r, best, start, k0);
      left, fate := fuel, GoesOn;
      if !skip {
        after, left, fate := FreshTurn(a, r, after, fuel, start, k0);
      }
    }

    /** The loop over rounds, `k0` of which are done when it starts; `None` when it crashes.
        `reached` is the round it stopped in front of. */
    method Loop(a: Attempt, fuel: nat, ghost k0: nat) returns (result: Option<Option<Champion>>, ghost reached: nat)
      requires Between(k0) && executed == [] && skipped == []
      modifies this, store
      ensures Left(a, old(state), k0)
      ensures result.Some? ==>
        InFrontOf(a, reached, result.value, old(state), k0) && Stopped(a, old(state.nRounds), k0, reached)
      ensures fuel >= 6 * C.AtLeastZero(old(state.nRounds)) ==> result.Some?
    {
      var best: Option<Champion>, left: nat, fate := None, fuel, GoesOn;
      ghost var start := state;
      var rounds := state.nRounds;
      AtStart(a, k0);
      var r := 0;
      while r < rounds && fate == GoesOn
        invariant 0 <= r && (fate == Crashed ==> Left(a, start, k0))
        invariant fate != Crashed ==> InFrontOf(a, r, best, start, k0)
        invariant fate == EndsBefore || fate == EndsAfter ==> Stopped(a, rounds, k0, r)
        invariant fuel >= 6 * C.AtLeastZero(rounds) ==> fate != Crashed && (fate == GoesOn ==> left >= 6 * (rounds - r))
        decreases rounds - r, fate == GoesOn
      {
        best, left, fate := Turn(a, r, best, left, start, k0);
        r := Behind(r, fate);
      }
      if fate != Crashed { NothingLost(a, r, best, start, k0); }
      result := if fate == Crashed then None else Some(best);
      reached := r;
    }

    /** One attempt: load or start, save at once, then loop; `None` when it crashes. */
    method Run(cfgRounds: int, a: Attempt) returns (result: Option<Option<Champion>>, ghost reached: nat)
      requires cfgRounds <= bound && store.Intact() && Recoverable(bound, store.Stored(), store.Fallback())
      modifies this, store
      ensures store.Intact() && Recoverable(bound, store.Stored(), store.Fallback())
      ensures Rounds(store.Stored()) >= old(Rounds(store.Stored()))
      ensures old(store.Fallback()).Some? ==> FallsBackTo(old(Rounds(store.Fallback())))
      ensures old(store.Stored()).Some? ==>
        store.Stored().Some? && Climbs(old(store.Stored()).value, store.Stored().value)
      ensures result.Some? ==>
        var start := LoadOrInit(old(store.Stored()), runId, cfgRounds);
        var k0 := old(Rounds(store.Stored()));
        InFrontOf(a, reached, result.value, start, k0) && Stopped(a, start.nRounds, k0, reached)
      ensures store.Stored().Some? ==>
        IsBest(a, if old(store.Stored()).Some? then Saved(old(store.Stored()).value) else None, old(Rounds(store.Stored())),
               Rounds(store.Stored()), Saved(store.Stored().value))
      ensures result.None? ==> a.fuel < 5 + 6 * C.AtLeastZero(LoadOrInit(old(store.Stored()), runId, cfgRounds).nRounds)
    {
      executed, skipped := [], [];
      var prior := store.Load();
      LoadKeepsOrder(prior, runId, cfgRounds);
      state := LoadOrInit(prior, runId, cfgRounds);
      ghost var k0 := Rounds(prior);
      var left, crashed := store.Save(state, a.fuel);
      if crashed {
        return None, 0;
      }
      result, reached := Loop(a, left, k0);
    }

    /** Skipped rounds are the first ones, executed rounds follow the `k0` that were done. */
    ghost predicate Accounted(k0: nat)
      reads this
    {
      && skipped == C.Prefix(|skipped|) && |skipped| <= k0
      && executed == From(k0, |executed|)
      && (executed != [] ==> |skipped| == k0)
    }
  }

  ghost predicate AtLeast(a: Option<Best>, b: Option<Best>) {
    b.None? || (a.Some? && a.value.score >= b.value.score)
  }

  /** The persisted champion never gets worse. */
  ghost predicate Climbs(before: LongState, after: LongState) {
    AtLeast(Saved(after), Saved(before))
  }

  /** What round `i` of an attempt finds. */
  function Found(a: Attempt, i: int): Option<Best> {
    if a.open(i).Finished? && a.open(i).found.Some? then Some(a.open(i).found.value) else None
  }

  ghost predicate Beats(b: Best, other: Option<Best>) {
    other.Some? ==> b.score > other.value.score
  }

  ghost predicate BeatsRound(a: Attempt, b: Best, j: nat) {
    Beats(b, Found(a, j))
  }

  ghost predicate CoversRound(a: Attempt, best: Option<Best>, i: nat) {
    AtLeast(best, Found(a, i))
  }

  /** Round `i` found `b`, and it was better than everything before it. */
  ghost predicate NewBest(a: Attempt, before: Option<Best>, k0: nat, i: nat, b: Best) {
    && Found(a, i) == Some(b) && Beats(b, before)
    && forall j {:trigger BeatsRound(a, b, j)} :: k0 <= j < i ==> BeatsRound(a, b, j)
  }

  /** The best of the champion at the start and what rounds `k0` to `r` found: none of them has
      a larger score, and it is the start's champion or the first find of its score. */
  ghost predicate IsBest(a: Attempt, before: Option<Best>, k0: nat, r: nat, best: Option<Best>) {
    && AtLeast(best, before)
    && (forall i {:trigger CoversRound(a, best, i)} :: k0 <= i < r ==> CoversRound(a, best, i))
    && (best == before || (best.Some? && exists i {:trigger NewBest(a, before, k0, i, best.value)} ::
          k0 <= i < r && NewBest(a, before, k0, i, best.value)))
  }

  lemma BestMore(a: Attempt, before: Option<Best>, k0: nat, r: nat, best: Option<Champion>)
    requires k0 <= r && IsBest(a, before, k0, r, best) && a.open(r).Finished?
    ensures IsBest(a, before, k0, r + 1, Improve(best, a.open(r).found))
  {
    var after := Improve(best, a.open(r).found);
    assert CoversRound(a, after, r);
    forall i | k0 <= i < r ensures CoversRound(a, after, i) {
      assert CoversRound(a, best, i);
    }
    if after != best {
      forall j | k0 <= j < r ensures BeatsRound(a, after.value, j) {
        assert CoversRound(a, best, j);
      }
      assert NewBest(a, before, k0, r, after.value);
    }
  }

  /** A saved state: it holds the best of the start and of what the rounds since have found. */
  ghost predicate HoldsBest(a: Attempt, start: LongState, k0: nat, r: nat, s: LongState) {
    |s.completed| == r && Climbs(start, s) && IsBest(a, Saved(start), k0, r, Saved(s))
  }

  lemma StandsStill(a: Attempt, start: LongState, s: LongState, k0: nat, r: nat, best: Option<Champion>)
    requires Orderly(s, r) && k0 <= r && Climbs(start, s) && IsBest(a, Saved(start), k0, r, best)
    requires best == (if r == 0 then None else Saved(s))
    ensures HoldsBest(a, start, k0, r, s)
  {}

  lemma StepsOn(a: Attempt, start: LongState, s: LongState, k0: nat, r: nat, best: Option<Champion>)
    requires Orderly(s, r) && r < s.nRounds && k0 <= r && Climbs(start, s) && IsBest(a, Saved(start), k0, r, best)
    requires best == (if r == 0 then None else Saved(s)) && a.open(r).Finished?
    ensures HoldsBest(a, start, k0, r + 1, RoundDone(s, r, Improve(best, a.open(r).found)))
  {
    RoundClimbs(start, s, r, best, a.open(r).found);
    BestMore(a, Saved(start), k0, r, best);
    RoundKeepsOrder(s, r, Improve(best, a.open(r).found));
  }

  lemma RoundClimbs(start: LongState, s: LongState, r: int, best: Option<Champion>, found: Option<Champion>)
    requires Climbs(start, s) && best == Saved(s)
    ensures Climbs(start, RoundDone(s, r, Improve(best, found)))
  {}

  lemma CarriedIsSaved(s: LongState, k: nat)
    requires Orderly(s, k)
    ensures Carried(s) == Saved(s)
  {}

  function From(k: nat, n: nat): (s: seq<int>)
    ensures |s| == n && forall i :: 0 <= i < n ==> s[i] == k + i
  {
    seq(n, i => k + i)
  }

  lemma FromMore(k: nat, r: nat)
    requires k <= r
    ensures From(k, r - k) + [r] == From(k, r + 1 - k)
  {}

  /** The only reasons for a loop to stop in front of round `reached`. */
  ghost predicate Stopped(a: Attempt, nRounds: int, k0: nat, reached: nat) {
    || reached >= nRounds
    || a.deadline(reached)
    || (reached >= k0 && a.open(reached).Abandoned?)
    || (reached > k0 && a.open(reached - 1).Finished? && a.open(reached - 1).stop)
  }

  /** How opening a round ends. */
  datatype Fate = GoesOn | EndsAfter | EndsBefore | Crashed

  /** The round the loop stands in front of once round `r` ended like this. */
  function Behind(r: nat, fate: Fate): nat {
    if fate == GoesOn || fate == EndsAfter then r + 1 else r
  }

  function Rounds(s: Option<LongState>): nat {
    if s.Some? then |s.value.completed| else 0
  }

  /** Everything recoverable is orderly, and a power loss costs at most one round. */
  ghost predicate Recoverable(n: int, stored: Option<LongState>, fallback: Option<LongState>) {
    && AllSound(stored, fallback) && Within(n, stored, fallback)
    && Rounds(fallback) <= Rounds(stored) <= Rounds(fallback) + 1
  }

  ghost predicate Within(n: int, stored: Option<LongState>, fallback: Option<LongState>) {
    (stored.Some? ==> stored.value.nRounds <= n) && (fallback.Some? ==> fallback.value.nRounds <= n)
  }

  // ---------------------------------------------------------------- any chain of attempts

  ghost predicate Complete(n: nat, stored: Option<LongState>) {
    stored.Some? && Orderly(stored.value, n)
  }

  /** All rounds are done, even after a power loss. */
  ghost predicate Safe(n: nat, stored: Option<LongState>, fallback: Option<LongState>) {
    Complete(n, stored) && Complete(n, fallback)
  }

  lemma AllRoundsDone(n: nat, stored: Option<LongState>, fallback: Option<LongState>)
    requires Recoverable(n, stored, fallback) && stored.Some? && fallback.Some?
    requires Rounds(stored) >= n && Rounds(fallback) >= n
    ensures Safe(n, stored, fallback)
  {}

  /** What holds on the disk between attempts. */
  ghost predicate Sane(store: CheckpointStore<LongState>, n: nat)
    reads store
  {
    store.Intact() && Recoverable(n, store.Stored(), store.Fallback())
  }

  ghost predicate SafelyDone(store: CheckpointStore<LongState>, n: nat)
    reads store
  {
    Safe(n, store.Stored(), store.Fallback())
  }

  /** One attempt on `n` rounds, up to its end or its crash. */
  method RunOnce(store: CheckpointStore<LongState>, n: nat, a: Attempt) returns (finished: bool)
    requires Sane(store, n)
    modifies store
    ensures Sane(store, n)
    ensures old(SafelyDone(store, n)) ==> SafelyDone(store, n)
    ensures Uneventful(a, n) ==> finished && SafelyDone(store, n)
  {
    var attempt := new ResumableRun(store, a.runId, n);
    ghost var k0, safe := Rounds(store.Stored()), SafelyDone(store, n);
    ghost var start := LoadOrInit(store.Stored(), a.runId, n);
    var result;
    ghost var reached;
    result, reached := attempt.Run(n, a);
    finished := result.Some?;
    if safe || Uneventful(a, n) {
      if !safe { assert start.nRounds == n && reached >= n; }
      AllRoundsDone(n, store.Stored(), store.Fallback());
    }
  }

  /** One attempt on `n` rounds, and the reboot after it when it crashes. */
  method AttemptOnce(store: CheckpointStore<LongState>, n: nat, a: Attempt)
    requires Sane(store, n)
    modifies store
    ensures Sane(store, n)
    ensures Uneventful(a, n) || old(SafelyDone(store, n)) ==> SafelyDone(store, n)
  {
    var finished := RunOnce(store, n, a);
    if !finished {
      store.Reboot(a.powerLoss, a.renameReached);
    }
  }

  /** Any finite chain of attempts on `n` rounds, each stopped anywhere.  What is persisted is
      always orderly: the first `k` rounds, one lineage entry each; and once an attempt gets
      enough steps and nothing ends its search early, all `n` rounds are, for good. */
  method Supervise(n: nat, attempts: seq<Attempt>) returns (store: CheckpointStore<LongState>)
    ensures Sane(store, n)
    ensures forall i :: 0 <= i < |attempts| && Uneventful(attempts[i], n) ==> SafelyDone(store, n)
  {
    store := new CheckpointStore<LongState>();
    ghost var done := false;
    for i := 0 to |attempts|
      invariant fresh(store) && Sane(store, n) && (done ==> SafelyDone(store, n))
      invariant forall j :: 0 <= j < i && Uneventful(attempts[j], n) ==> done
    {
      AttemptOnce(store, n, attempts[i]);
      done := done || Uneventful(attempts[i], n);
    }
  }

  /** Enough steps, no deadline, and no round that ends the search before the last. */
  ghost predicate Uneventful(a: Attempt, n: nat) {
    && a.fuel >= 5 + 6 * n
    && (forall r {:trigger a.deadline(r)} :: !a.deadline(r))
    && (forall r {:trigger a.open(r)} :: a.open(r).Finished? && !a.open(r).stop)
  }
}
