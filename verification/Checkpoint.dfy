/** Crash-safe checkpointing of a round loop. */
module Checkpoint {
  import opened Wrappers
  import opened Store

  // An attempt is a sequence of single steps, and a countdown can stop it in front of any of
  // them.

  /** What rounds work on: the champion so far, the caller's payload and the record log. */
  datatype Core = Core(championId: Option<string>, championScore: Option<real>, payload: string, records: seq<string>)

  const FRESH_CORE := Core(None, None, "{}", [])

  datatype RoundOutcome = RoundOutcome(
    championId: Option<string>, championScore: Option<real>, records: seq<string>, payload: Option<string>)

  datatype RunState = RunState(
    runId: string,
    nRounds: int,
    completed: seq<int>,
    core: Core,
    parentRunId: Option<string>,
    lineage: seq<string>,
    resumeCount: nat)

  /** One round's work, a function of the round and of what earlier rounds left. */
  type RoundFn = (int, Core) -> RoundOutcome

  /** Applies a round's outcome: a round without a champion or payload keeps the old one. */
  function Apply(c: Core, o: RoundOutcome): Core {
    Core(if o.championId.Some? then o.championId else c.championId,
         if o.championId.Some? then o.championScore else c.championScore,
         if o.payload.Some? then o.payload.value else c.payload,
         c.records + o.records)
  }

  /** What `k` rounds leave when nothing ever crashes. */
  function After(fn: RoundFn, k: nat): Core {
    if k == 0 then FRESH_CORE else Apply(After(fn, k - 1), fn(k - 1, After(fn, k - 1)))
  }

  /** The records of all outcomes, each outcome's exactly once, in order. */
  function AllRecords(log: seq<RoundOutcome>): seq<string> {
    if log == [] then [] else AllRecords(log[..|log| - 1]) + log[|log| - 1].records
  }

  /** The `i`-th outcome is the last one that names a champion. */
  ghost predicate LastChampion(log: seq<RoundOutcome>, i: int) {
    0 <= i < |log| && log[i].championId.Some? && forall j :: i < j < |log| ==> log[j].championId.None?
  }

  ghost predicate LastPayload(log: seq<RoundOutcome>, i: int) {
    0 <= i < |log| && log[i].payload.Some? && forall j :: i < j < |log| ==> log[j].payload.None?
  }

  /** What a run of these outcomes must leave: the last champion named with its score, the last
      payload given, and all records. */
  ghost predicate LeftBy(log: seq<RoundOutcome>, c: Core) {
    && (forall i :: LastChampion(log, i) ==> c.championId == log[i].championId && c.championScore == log[i].championScore)
    && ((forall i :: 0 <= i < |log| ==> log[i].championId.None?) ==> c.championId.None? && c.championScore.None?)
    && (forall i :: LastPayload(log, i) ==> c.payload == log[i].payload.value)
    && ((forall i :: 0 <= i < |log| ==> log[i].payload.None?) ==> c.payload == "{}")
    && c.records == AllRecords(log)
  }

  /** `o` is the outcome of round `i` working on what the outcomes before it left. */
  ghost predicate Returned(fn: RoundFn, before: seq<RoundOutcome>, i: nat, o: RoundOutcome) {
    exists c :: LeftBy(before, c) && o == fn(i, c)
  }

  /** The outcomes of rounds that ran one after the other. */
  ghost predicate RunLog(fn: RoundFn, log: seq<RoundOutcome>) {
    forall i {:trigger Returned(fn, log[..i], i, log[i])} :: 0 <= i < |log| ==> Returned(fn, log[..i], i, log[i])
  }

  /** One more outcome: it takes over the champion and the payload exactly when it has one. */
  lemma AppliedIsLeft(log: seq<RoundOutcome>, c: Core, o: RoundOutcome)
    requires LeftBy(log, c)
    ensures LeftBy(log + [o], Apply(c, o))
  {
    var more := log + [o];
    assert more[..|log|] == log;
    forall i | LastChampion(more, i)
      ensures Apply(c, o).championId == more[i].championId && Apply(c, o).championScore == more[i].championScore
    {
      if i < |log| {
        assert more[|log|].championId.None?;
        assert LastChampion(log, i) by {
          forall j | i < j < |log| ensures log[j].championId.None? { assert more[j] == log[j]; }
        }
      }
    }
    forall i | LastPayload(more, i) ensures Apply(c, o).payload == more[i].payload.value {
      if i < |log| {
        assert more[|log|].payload.None?;
        assert LastPayload(log, i) by {
          forall j | i < j < |log| ensures log[j].payload.None? { assert more[j] == log[j]; }
        }
      }
    }
    if forall i :: 0 <= i < |more| ==> more[i].championId.None? {
      assert more[|log|].championId.None?;
      assert forall i :: 0 <= i < |log| ==> log[i] == more[i];
    }
    if forall i :: 0 <= i < |more| ==> more[i].payload.None? {
      assert more[|log|].payload.None?;
      assert forall i :: 0 <= i < |log| ==> log[i] == more[i];
    }
  }

  lemma RunLogMore(fn: RoundFn, log: seq<RoundOutcome>, c: Core, o: RoundOutcome)
    requires RunLog(fn, log) && LeftBy(log, c) && o == fn(|log|, c)
    ensures RunLog(fn, log + [o])
  {
    var more := log + [o];
    forall i | 0 <= i < |more| ensures Returned(fn, more[..i], i, more[i]) {
      assert more[..i] == log[..i];
      if i < |log| {
        assert Returned(fn, log[..i], i, log[i]);
      } else {
        assert log[..i] == log;
      }
    }
  }

  lemma NothingLeft(fn: RoundFn)
    ensures LeftBy([], FRESH_CORE) && RunLog(fn, [])
  {}

  lemma OneMoreRound(fn: RoundFn, log: seq<RoundOutcome>, c: Core, o: RoundOutcome)
    requires RunLog(fn, log) && LeftBy(log, c) && o == fn(|log|, c)
    ensures RunLog(fn, log + [o]) && LeftBy(log + [o], Apply(c, o))
  {
    AppliedIsLeft(log, c, o);
    RunLogMore(fn, log, c, o);
  }

  /** The fold is what a run of `k` rounds leaves: champion, score and payload of the last
      outcome that has one, and every record. */
  lemma {:induction false} AfterIsLeft(fn: RoundFn, k: nat) returns (log: seq<RoundOutcome>)
    ensures |log| == k && RunLog(fn, log) && LeftBy(log, After(fn, k))
  {
    if k == 0 {
      NothingLeft(fn);
      log := [];
    } else {
      var before := AfterIsLeft(fn, k - 1);
      var c := After(fn, k - 1);
      OneMoreRound(fn, before, c, fn(k - 1, c));
      log := before + [fn(k - 1, c)];
    }
  }

  /** Outcomes leave one core only, so a run has one outcome. */
  lemma LeavesOne(log: seq<RoundOutcome>, c: Core, d: Core)
    requires LeftBy(log, c) && LeftBy(log, d)
    ensures c == d
  {
    if i :| 0 <= i < |log| && log[i].championId.Some? {
      var k := FindLast(log, i, (o: RoundOutcome) => o.championId.Some?);
      assert LastChampion(log, k);
    }
    if i :| 0 <= i < |log| && log[i].payload.Some? {
      var k := FindLast(log, i, (o: RoundOutcome) => o.payload.Some?);
      assert LastPayload(log, k);
    }
  }

  lemma FindLast(log: seq<RoundOutcome>, i: nat, has: RoundOutcome -> bool) returns (k: nat)
    requires i < |log| && has(log[i])
    ensures i <= k < |log| && has(log[k]) && forall j :: k < j < |log| ==> !has(log[j])
    decreases |log| - i
  {
    if j :| i < j < |log| && has(log[j]) { k := FindLast(log, j, has); } else { k := i; }
  }

  lemma {:induction false} OneRunLog(fn: RoundFn, log: seq<RoundOutcome>, other: seq<RoundOutcome>, k: nat)
    requires RunLog(fn, log) && RunLog(fn, other) && k <= |log| && k <= |other|
    ensures log[..k] == other[..k]
  {
    if k > 0 {
      var i := k - 1;
      OneRunLog(fn, log, other, i);
      assert Returned(fn, log[..i], i, log[i]) && Returned(fn, other[..i], i, other[i]);
      OneOutcome(fn, log[..i], i, log[i], other[i]);
      assert log[..k] == log[..i] + [log[i]] && other[..k] == other[..i] + [other[i]];
    }
  }

  lemma OneOutcome(fn: RoundFn, before: seq<RoundOutcome>, i: nat, o: RoundOutcome, p: RoundOutcome)
    requires Returned(fn, before, i, o) && Returned(fn, before, i, p)
    ensures o == p
  {
    var c :| LeftBy(before, c) && o == fn(i, c);
    var d :| LeftBy(before, d) && p == fn(i, d);
    LeavesOne(before, c, d);
  }

  /** The record log is each round's records exactly once, in order. */
  lemma RecordsOnce(fn: RoundFn, log: seq<RoundOutcome>)
    requires RunLog(fn, log)
    ensures After(fn, |log|).records == AllRecords(log)
  {
    var other := AfterIsLeft(fn, |log|);
    OneRunLog(fn, log, other, |log|);
    assert log[..|log|] == log && other[..|log|] == other;
  }

  function Prefix(k: nat): (s: seq<int>)
    ensures |s| == k && forall i :: 0 <= i < k ==> s[i] == i
  {
    seq(k, i => i)
  }

  /** The first `k` rounds are done, and their work is that of an uninterrupted run. */
  ghost predicate Progress(fn: RoundFn, s: RunState, k: nat) {
    && s.completed == Prefix(k) && s.core == After(fn, k)
    && (k == 0 || k <= s.nRounds)
    && Distinct(s.lineage)
  }

  ghost predicate Sound(fn: RoundFn, s: RunState) {
    Progress(fn, s, |s.completed|)
  }

  /** Whatever a reader may get, now or after a power loss, is a correct stopping point. */
  ghost predicate AllSound(fn: RoundFn, stored: Option<RunState>, fallback: Option<RunState>) {
    && (stored.Some? ==> Sound(fn, stored.value))
    && (fallback.Some? ==> Sound(fn, fallback.value))
  }

  // ------------------------------------------------------------------------- lineage

  function AddAncestor(lineage: seq<string>, id: string): seq<string> {
    if id != "" && id !in lineage then lineage + [id] else lineage
  }

  function Ancestors(prior: RunState, parent: Option<string>): seq<string> {
    var own := AddAncestor(prior.lineage, prior.runId);
    if parent.Some? then AddAncestor(own, parent.value) else own
  }

  /** The state an attempt continues from. */
  function Resumed(prior: RunState, runId: string, parent: Option<string>, nRounds: int): RunState {
    RunState(runId, if prior.nRounds > nRounds then prior.nRounds else nRounds, prior.completed, prior.core,
             Some(prior.runId), Ancestors(prior, parent), prior.resumeCount + 1)
  }

  function Minted(runId: string, parent: Option<string>, nRounds: int): RunState {
    RunState(runId, nRounds, [], FRESH_CORE, parent, if parent.Some? && parent.value != "" then [parent.value] else [], 0)
  }

  lemma AncestorsDistinct(lineage: seq<string>, id: string)
    requires Distinct(lineage)
    ensures Distinct(AddAncestor(lineage, id)) && lineage <= AddAncestor(lineage, id)
    ensures id != "" ==> id in AddAncestor(lineage, id)
  {}

  /** Resuming keeps all work, extends the lineage without repeating anyone, and records the
      attempt it took over from. */
  lemma ResumingKeepsWork(fn: RoundFn, prior: RunState, runId: string, parent: Option<string>, nRounds: int, k: nat)
    requires Progress(fn, prior, k)
    ensures Progress(fn, Resumed(prior, runId, parent, nRounds), k)
    ensures prior.lineage <= Resumed(prior, runId, parent, nRounds).lineage
    ensures prior.runId != "" ==> prior.runId in Resumed(prior, runId, parent, nRounds).lineage
    ensures parent.Some? && parent.value != "" ==> parent.value in Resumed(prior, runId, parent, nRounds).lineage
    ensures forall id :: id in Resumed(prior, runId, parent, nRounds).lineage ==> id in prior.lineage || id == prior.runId || parent == Some(id)
    ensures var s := Resumed(prior, runId, parent, nRounds);
      s.runId == runId && s.parentRunId == Some(prior.runId) && s.resumeCount == prior.resumeCount + 1 &&
      s.nRounds >= nRounds && s.nRounds >= prior.nRounds && (s.nRounds == nRounds || s.nRounds == prior.nRounds)
  {
    AncestorsDistinct(prior.lineage, prior.runId);
    if parent.Some? { AncestorsDistinct(AddAncestor(prior.lineage, prior.runId), parent.value); }
  }

  // ------------------------------------------------------------------- one round's effect

  /** Appending and sorting, for a list that was sorted already. */
  function InsertSorted(s: seq<int>, r: int): seq<int> {
    if s == [] || s[|s| - 1] <= r then s + [r] else InsertSorted(s[..|s| - 1], r) + [s[|s| - 1]]
  }

  /** The state once round `r` is applied and marked. */
  function Marked(s: RunState, r: int, o: RoundOutcome): RunState {
    s.(core := Apply(s.core, o), completed := if r in s.completed then s.completed else InsertSorted(s.completed, r))
  }

  /** The same run with its first `k` rounds done. */
  function WithRounds(fn: RoundFn, s: RunState, k: nat): RunState {
    s.(core := After(fn, k), completed := Prefix(k))
  }

  lemma RoundAdvances(fn: RoundFn, s: RunState, k: nat)
    requires Progress(fn, s, k) && k < s.nRounds
    ensures Progress(fn, Marked(s, k, fn(k, s.core)), k + 1)
    ensures Marked(s, k, fn(k, s.core)) == WithRounds(fn, s, k + 1)
  {
    DonePrefix(fn, s, k, k);
    assert Prefix(k) + [k] == Prefix(k + 1);
  }

  lemma DonePrefix(fn: RoundFn, s: RunState, k: nat, r: int)
    requires Progress(fn, s, k) && r >= 0
    ensures r in s.completed <==> r < k
  {
    if r < k { assert Prefix(k)[r] == r; }
  }

  // ------------------------------------------------------------------------ an attempt

  function Rounds(s: Option<RunState>): nat {
    if s.Some? then |s.value.completed| else 0
  }

  /** Everything recoverable is sound, stays within `n` rounds, and a power loss costs at
      most one round. */
  ghost predicate Recoverable(fn: RoundFn, n: int, stored: Option<RunState>, fallback: Option<RunState>) {
    && AllSound(fn, stored, fallback)
    && (stored.Some? ==> stored.value.nRounds <= n)
    && (fallback.Some? ==> fallback.value.nRounds <= n)
    && Rounds(fallback) <= Rounds(stored) <= Rounds(fallback) + 1
  }

  /** What saving `state` over `stored`/`fallback` can leave behind. */
  lemma SavedAnywhere(fn: RoundFn, n: int, stored: Option<RunState>, fallback: Option<RunState>, state: RunState, k: nat, fuel: nat)
    requires Recoverable(fn, n, stored, fallback) && Progress(fn, state, k) && state.nRounds <= n
    requires Rounds(stored) == k || Rounds(stored) == Rounds(fallback) == k - 1
    ensures Recoverable(fn, n, if fuel < 4 then stored else Some(state), if fuel < 5 then fallback else Some(state))
  {
    assert Sound(fn, state);
  }

  class CheckpointedRun {
    const store: CheckpointStore<RunState>
    const roundFn: RoundFn
    const runId: string
    const parentRunId: Option<string>
    var nRounds: int
    var resumed: bool

    constructor (store: CheckpointStore<RunState>, nRounds: int, roundFn: RoundFn, runId: string, parentRunId: Option<string>)
      ensures this.store == store && this.nRounds == nRounds && this.roundFn == roundFn
      ensures this.runId == runId && this.parentRunId == parentRunId && !resumed
    {
      this.store, this.nRounds, this.roundFn, this.runId, this.parentRunId := store, nRounds, roundFn, runId, parentRunId;
      resumed := false;
    }

    /** The state to continue from; `None` when the attempt is stopped first.  Resuming is
        saved at once; a fresh state is not saved until its first round is done. */
    method Resume(fuel: nat, ghost n: int) returns (state: Option<RunState>, left: nat)
      requires store.Intact() && Recoverable(roundFn, n, store.Stored(), store.Fallback()) && nRounds <= n
      modifies this, store
      ensures store.Intact() && Recoverable(roundFn, n, store.Stored(), store.Fallback())
      ensures Rounds(store.Stored()) == old(Rounds(store.Stored()))
      ensures fuel >= 5 ==> state.Some? && left >= fuel - 5
      ensures old(nRounds) <= nRounds
      ensures state.Some? ==>
        && Between(state.value, Rounds(store.Stored()), n)
        && state.value.nRounds == nRounds
        && state.value == (if old(store.Stored()).Some? then Resumed(old(store.Stored()).value, runId, parentRunId, old(nRounds))
                           else Minted(runId, parentRunId, nRounds))
    {
      var prior := store.Load();
      if prior.None? {
        return Some(Minted(runId, parentRunId, nRounds)), fuel;
      }
      resumed := true;
      ghost var k := |prior.value.completed|;
      var next := Resumed(prior.value, runId, parentRunId, nRounds);
      ResumingKeepsWork(roundFn, prior.value, runId, parentRunId, nRounds, k);
      SavedAnywhere(roundFn, n, store.Stored(), store.Fallback(), next, k, fuel);
      nRounds := next.nRounds;
      var crashed;
      left, crashed := store.Save(next, fuel);
      state := if crashed then None else Some(next);
    }

    /** In between two rounds: `state` has `k` rounds done, and so has everything on disk. */
    ghost predicate Between(state: RunState, k: nat, n: int)
      reads store
    {
      && store.Intact() && Recoverable(roundFn, n, store.Stored(), store.Fallback())
      && Progress(roundFn, state, k) && state.nRounds <= n
      && Rounds(store.Stored()) == Rounds(store.Fallback()) == k
    }

    /** Runs one round, applies its outcome, marks it and saves; `None` when stopped while the
        round runs, before the save or during it. */
    method RunRound(state: RunState, r: nat, fuel: nat, ghost n: int) returns (done: Option<RunState>, left: nat)
      requires Between(state, r, n) && r < state.nRounds
      modifies store
      ensures store.Intact() && Recoverable(roundFn, n, store.Stored(), store.Fallback())
      ensures Rounds(store.Stored()) >= r
      ensures fuel >= 7 ==> done.Some? && left == fuel - 7
      ensures done.Some? ==>
        done.value == WithRounds(roundFn, state, r + 1) && Between(done.value, r + 1, n)
    {
      if fuel < 2 {
        return None, 0;
      }
      var next := Marked(state, r, roundFn(r, state.core));
      RoundAdvances(roundFn, state, r);
      SavedAnywhere(roundFn, n, store.Stored(), store.Fallback(), next, r + 1, fuel - 2);
      var crashed;
      left, crashed := store.Save(next, fuel - 2);
      done := if crashed then None else Some(next);
    }

    /** Runs every round not done yet, saving after each; `None` when stopped on the way.  A
        round costs one step to run, one to apply and five to save. */
    method Run(fuel: nat, ghost n: int) returns (final: Option<RunState>)
      requires store.Intact() && Recoverable(roundFn, n, store.Stored(), store.Fallback()) && nRounds <= n
      modifies this, store
      ensures store.Intact() && Recoverable(roundFn, n, store.Stored(), store.Fallback())
      ensures Rounds(store.Stored()) >= old(Rounds(store.Stored()))
      ensures final.Some? ==>
        && old(nRounds) <= final.value.nRounds <= n
        && Progress(roundFn, final.value, AtLeastZero(final.value.nRounds))
      ensures fuel >= Needed(n) ==> final.Some?
    {
      var begun, left: nat;
      begun, left := Resume(fuel, n);
      if begun.None? {
        return None;
      }
      final := RunRounds(begun.value, left, n, Rounds(store.Stored()));
    }

    method RunRounds(begun: RunState, fuel: nat, ghost n: int, ghost start: nat) returns (final: Option<RunState>)
      requires Between(begun, start, n)
      modifies store
      ensures store.Intact() && Recoverable(roundFn, n, store.Stored(), store.Fallback())
      ensures Rounds(store.Stored()) >= start
      ensures final.Some? ==>
        begun.nRounds <= n && final.value == WithRounds(roundFn, begun, AtLeastZero(begun.nRounds)) &&
        Progress(roundFn, final.value, AtLeastZero(begun.nRounds))
      ensures fuel >= 7 * AtLeastZero(n) ==> final.Some?
    {
      var state, left: nat := begun, fuel;
      ghost var k := start;
      var r := 0;
      while r < begun.nRounds
        invariant 0 <= r <= k && (r <= begun.nRounds || begun.nRounds < 0)
        invariant Between(state, k, n) && k >= start && state == WithRounds(roundFn, begun, k)
        invariant fuel >= 7 * AtLeastZero(n) ==> left >= 7 * (n - r)
      {
        DonePrefix(roundFn, state, k, r);
        if r !in state.completed {
          var done;
          done, left := RunRound(state, r, left, n);
          if done.None? {
            return None;
          }
          state, k := done.value, k + 1;
        }
        r := r + 1;
      }
      final := Some(state);
    }
  }

  function AtLeastZero(n: int): nat {
    if n < 0 then 0 else n
  }

  /** Steps that are enough for any attempt on `n` rounds. */
  function Needed(n: int): nat {
    5 + 7 * AtLeastZero(n)
  }

  // ---------------------------------------------------------------- any chain of attempts

  /** One attempt: who runs it, how many steps it gets, and what kind of crash follows. */
  datatype Attempt = Attempt(runId: string, parentRunId: Option<string>, fuel: nat, powerLoss: bool, renameReached: bool)

  /** Any finite chain of attempts on `n` rounds, each stopped anywhere: whoever finishes
      finishes in the state of an uninterrupted run. */
  method Supervise(fn: RoundFn, n: nat, attempts: seq<Attempt>) returns (final: Option<RunState>)
    ensures final.Some? ==> Completed(fn, n, final.value)
    ensures (exists i :: 0 <= i < |attempts| && attempts[i].fuel >= Needed(n)) ==> final.Some?
  {
    var store := new CheckpointStore<RunState>();
    for i := 0 to |attempts|
      invariant store.Intact() && fresh(store) && Recoverable(fn, n, store.Stored(), store.Fallback())
      invariant forall j :: 0 <= j < i ==> attempts[j].fuel < Needed(n)
    {
      var a := attempts[i];
      var attempt := new CheckpointedRun(store, n, fn, a.runId, a.parentRunId);
      final := attempt.Run(a.fuel, n);
      if final.Some? {
        ghost var log := AfterIsLeft(fn, n);
        return;
      }
      store.Reboot(a.powerLoss, a.renameReached);
    }
    final := None;
  }

  /** The outcome of an uninterrupted run: every round done, in order, and `n` rounds returned
      outcomes, each from what the ones before it left, that leave this champion, score,
      payload and these records; no run named twice in the lineage. */
  ghost predicate Completed(fn: RoundFn, n: nat, s: RunState) {
    && s.nRounds == n && s.completed == Prefix(n)
    && (exists log :: |log| == n && RunLog(fn, log) && LeftBy(log, s.core))
    && Distinct(s.lineage)
  }

  /** Nothing is left open by that: two completed states hold the same work. */
  lemma CompletedIsUnique(fn: RoundFn, n: nat, s: RunState, t: RunState)
    requires Completed(fn, n, s) && Completed(fn, n, t)
    ensures s.core == t.core && s.completed == t.completed
  {
    var log :| |log| == n && RunLog(fn, log) && LeftBy(log, s.core);
    var other :| |other| == n && RunLog(fn, other) && LeftBy(other, t.core);
    OneRunLog(fn, log, other, n);
    assert log[..n] == log && other[..n] == other;
    LeavesOne(log, s.core, t.core);
  }
}
