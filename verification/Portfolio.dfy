/** The concurrent early-kill portfolio. */
module Portfolio {
  import opened Ladder
  import opened Ranking
  import opened Halving
  import opened Pruning
  import opened Fallback
  import opened Wrappers

  // The state of a round lives in local variables.  Launch order, completion order and
  // batching are left nondeterministic, so every contract below holds for every schedule.

  /** What is known about the arms of a round: their records, the scores they have shown,
      the range of all scores seen, and the full-budget scores in order of arrival. */
  datatype Board = Board(
    records: map<Id, ArmRecord>,
    stats: map<Id, seq<Observation>>,
    range: Option<(real, real)>,
    fullScores: seq<Keyed<Id>>)

  /** One run has finished: its outcome enters the board. */
  function SettleArm(b: Board, pid: Id, o: Outcome, r: nat, budget: real): Board
    requires pid in b.records && pid in b.stats
  {
    var records := b.records[pid := AfterRun(b.records[pid], o, r, budget)];
    match o
    case Failed(_) => b.(records := records)
    case Scored(s) =>
      Board(records,
            b.stats[pid := b.stats[pid] + [Observation(s, budget)]],
            Widen(b.range, s),
            if budget >= 1.0 then b.fullScores + [Keyed(pid, s)] else b.fullScores)
  }

  function ScoreOf(o: Outcome): Option<real> {
    match o
    case Scored(s) => Some(s)
    case Failed(_) => None
  }

  /** Lower bounds of the arms settled with a score on this rung. */
  function SettledBounds(alive: seq<Id>, done: map<Id, Option<real>>, stats: map<Id, seq<Observation>>, band: (real, real)): seq<Keyed<Id>>
    requires forall p :: p in done && done[p].Some? ==> p in stats && stats[p] != []
  {
    if alive == [] then []
    else if alive[0] in done && done[alive[0]].Some? then
      [Keyed(alive[0], Lcb(stats[alive[0]], band.0, band.1))] + SettledBounds(alive[1..], done, stats, band)
    else SettledBounds(alive[1..], done, stats, band)
  }

  /** Splits the pending arms into those kept and those killed unrun. */
  method PrunePending(pending: seq<Id>, settled: seq<Keyed<Id>>, k: nat, stats: map<Id, seq<Observation>>, band: (real, real))
    returns (keep: seq<Id>, killed: seq<Id>)
    requires k >= 1 && forall p :: p in pending ==> p in stats
    requires Distinct(pending)
    ensures forall p :: p in killed <==> p in pending && Dominated(stats[p], settled, k, band)
    ensures forall p :: p in keep <==> p in pending && !Dominated(stats[p], settled, k, band)
    ensures Distinct(keep)
  {
    if |settled| < k {
      return pending, [];
    }
    SortPermutes(settled);
    var bar := SortDesc(settled)[k - 1].key;
    keep, killed := [], [];
    for i := 0 to |pending|
      invariant forall p :: p in killed <==> p in pending[..i] && Dominated(stats[p], settled, k, band)
      invariant forall p :: p in keep <==> p in pending[..i] && !Dominated(stats[p], settled, k, band)
      invariant Distinct(keep)
    {
      var pid := pending[i];
      assert pending[..i + 1] == pending[..i] + [pid];
      assert pid !in pending[..i];
      var ucb := Ucb(stats[pid], band.0, band.1);
      if ucb.Some? && ucb.value < bar {
        killed := killed + [pid];
      } else {
        keep := keep + [pid];
      }
    }
    assert pending[..|pending|] == pending;
  }

  /** The launch order of a rung.  The policies sort by an upper bound, by a random sample
      or not at all; the choice is left open. */
  method OrderArms(alive: seq<Id>) returns (ordered: seq<Id>)
    ensures forall p :: p in ordered <==> p in alive
    ensures Distinct(ordered)
  {
    ordered := [];
    var rest := Unkilled(alive, {});
    while rest != {}
      invariant forall p :: p in alive <==> p in ordered || p in rest
      invariant forall p :: p in ordered ==> p !in rest
      invariant Distinct(ordered)
    {
      var p :| p in rest;
      ordered, rest := ordered + [p], rest - {p};
    }
  }

  /** The arms of a rung are pending, running, settled or killed. */
  ghost predicate Partition(alive: seq<Id>, pending: seq<Id>, inFlight: set<Id>, ran: set<Id>, killed: set<Id>) {
    && Distinct(pending)
    && (forall p :: p in alive <==> p in pending || p in inFlight || p in ran || p in killed)
    && (forall p :: p in pending ==> p !in inFlight && p !in ran && p !in killed)
    && inFlight !! ran && inFlight !! killed && ran !! killed
  }

  /** A rung in progress: what the log says is what the rule decides, for the arms launched, for
      those killed and for those still waiting. */
  ghost predicate Underway(rd: Round, r: nat, e: Entry, log: RungLog, pending: seq<Id>, inFlight: set<Id>, ran: set<Id>, judging: bool)
    requires r < |rd.ladder|
  {
    && RungRun(rd, r, e, log, judging) && Waiting(rd, r, e, log, pending)
    && Partition(e.alive, pending, inFlight, ran, log.kills.Keys)
    && log.starts.Keys == ran + inFlight
  }

  /** Before anything is launched, whoever has settled has been judged by. */
  ghost predicate UpToDate(log: RungLog, pending: seq<Id>, ran: set<Id>, judging: bool) {
    judging && pending != [] ==> ran == LastJudged(log.judged, |log.judged|)
  }

  /** Fills the free workers; afterwards none is idle while an arm is waiting. */
  method SubmitNext(rd: Round, r: nat, ghost e: Entry, pending0: seq<Id>, inFlight0: set<Id>, workers: nat,
                    ghost ran: set<Id>, ghost log0: RungLog, ghost judging: bool)
    returns (pending: seq<Id>, inFlight: set<Id>, ghost log: RungLog)
    requires workers >= 1 && |inFlight0| <= workers && r < |rd.ladder|
    requires Underway(rd, r, e, log0, pending0, inFlight0, ran, judging) && UpToDate(log0, pending0, ran, judging)
    ensures Underway(rd, r, e, log, pending, inFlight, ran, judging)
    ensures |inFlight| <= workers && (pending != [] ==> |inFlight| == workers)
    ensures log.judged == log0.judged && log.kills == log0.kills
  {
    pending, inFlight, log := pending0, inFlight0, log0;
    while pending != [] && |inFlight| < workers
      invariant Underway(rd, r, e, log, pending, inFlight, ran, judging) && UpToDate(log, pending, ran, judging)
      invariant |inFlight| <= workers && log.judged == log0.judged && log.kills == log0.kills
      decreases |pending|
    {
      ghost var p := pending[0];
      LaunchOne(rd, r, e, log, pending, inFlight, ran, judging);
      log := log.(starts := log.starts[p := Start(|log.judged|, ran)]);
      inFlight, pending := inFlight + {pending[0]}, pending[1..];
    }
  }

  lemma LaunchOne(rd: Round, r: nat, e: Entry, log: RungLog, pending: seq<Id>, inFlight: set<Id>, ran: set<Id>, judging: bool)
    requires r < |rd.ladder| && pending != []
    requires Underway(rd, r, e, log, pending, inFlight, ran, judging) && UpToDate(log, pending, ran, judging)
    ensures Underway(rd, r, e, log.(starts := log.starts[pending[0] := Start(|log.judged|, ran)]), pending[1..],
                     inFlight + {pending[0]}, ran, judging)
  {
    PartitionLaunch(e.alive, pending, inFlight, ran, log.kills.Keys);
    LogLaunch(rd, r, e, log, pending, pending[0], ran, judging);
    assert forall q :: q in pending[1..] ==> q in pending;
  }

  lemma PartitionLaunch(alive: seq<Id>, pending: seq<Id>, inFlight: set<Id>, ran: set<Id>, killed: set<Id>)
    requires Partition(alive, pending, inFlight, ran, killed) && pending != []
    ensures pending[0] in pending && pending[0] !in ran && pending[0] !in inFlight
    ensures Partition(alive, pending[1..], inFlight + {pending[0]}, ran, killed)
  {
    assert pending == [pending[0]] + pending[1..];
  }

  // ---------------------------------------------------------- a rung in progress

  /** What a rung has done so far to the board `b0` it started from. */
  ghost predicate Track(rd: Round, r: nat, alive: seq<Id>, done: map<Id, Option<real>>, killed: set<Id>, b: Board, b0: Board)
    requires r < |rd.ladder|
  {
    && RecordsTrack(rd, r, done.Keys, killed, b.records, b0.records)
    && StatsTrack(rd, r, done.Keys, b.stats, b0.stats)
    && FullTrack(rd, r, done.Keys, b.fullScores)
    && DoneTrack(rd, r, done)
    && Unkilled(alive, {}) <= b0.records.Keys && Unkilled(alive, {}) <= b0.stats.Keys
  }

  ghost predicate RecordsTrack(rd: Round, r: nat, ran: set<Id>, killed: set<Id>,
                               records: map<Id, ArmRecord>, records0: map<Id, ArmRecord>)
    requires r < |rd.ladder|
  {
    && records.Keys == records0.Keys
    && forall p :: p in records0 ==> records[p] == Midway(rd, r, ran, killed, records0[p], p)
  }

  ghost function Midway(rd: Round, r: nat, ran: set<Id>, killed: set<Id>, rec: ArmRecord, p: Id): ArmRecord
    requires r < |rd.ladder|
  {
    if p in ran then AfterRun(rec, rd.run(p, r), r, rd.ladder[r].budget)
    else if p in killed then AfterKill(rec, r)
    else rec
  }

  ghost predicate StatsTrack(rd: Round, r: nat, ran: set<Id>,
                             stats: map<Id, seq<Observation>>, stats0: map<Id, seq<Observation>>)
    requires r < |rd.ladder|
  {
    && stats.Keys == stats0.Keys
    && forall p :: p in stats0 ==>
         stats[p] == (if p in ran then stats0[p] + Seen(rd.run(p, r), rd.ladder[r].budget) else stats0[p])
  }

  ghost predicate FullTrack(rd: Round, r: nat, ran: set<Id>, fullScores: seq<Keyed<Id>>)
    requires r < |rd.ladder|
  {
    forall e :: e in fullScores <==> rd.ladder[r].budget >= 1.0 && e.item in ran && rd.run(e.item, r) == Scored(e.key)
  }

  ghost predicate DoneTrack(rd: Round, r: nat, done: map<Id, Option<real>>) {
    forall p :: p in done ==> done[p] == ScoreOf(rd.run(p, r))
  }

  lemma TrackSettle(rd: Round, r: nat, alive: seq<Id>, done: map<Id, Option<real>>, killed: set<Id>, b: Board, b0: Board, pid: Id)
    requires r < |rd.ladder| && Track(rd, r, alive, done, killed, b, b0)
    requires pid in alive && pid !in done && pid !in killed
    ensures pid in b.records && pid in b.stats
    ensures Track(rd, r, alive, done[pid := ScoreOf(rd.run(pid, r))], killed,
                  SettleArm(b, pid, rd.run(pid, r), r, rd.ladder[r].budget), b0)
  {
    assert pid in Unkilled(alive, {});
    var done' := done[pid := ScoreOf(rd.run(pid, r))];
    assert done'.Keys == done.Keys + {pid};
    RecordsSettle(rd, r, done.Keys, killed, b.records, b0.records, pid);
    StatsSettle(rd, r, done.Keys, b.stats, b0.stats, pid);
    FullSettle(rd, r, done.Keys, b.fullScores, pid);
  }

  lemma RecordsSettle(rd: Round, r: nat, ran: set<Id>, killed: set<Id>,
                      records: map<Id, ArmRecord>, records0: map<Id, ArmRecord>, pid: Id)
    requires r < |rd.ladder| && RecordsTrack(rd, r, ran, killed, records, records0)
    requires pid in records && pid !in ran && pid !in killed
    ensures RecordsTrack(rd, r, ran + {pid}, killed,
                         records[pid := AfterRun(records[pid], rd.run(pid, r), r, rd.ladder[r].budget)], records0)
  {}

  lemma StatsSettle(rd: Round, r: nat, ran: set<Id>, stats: map<Id, seq<Observation>>, stats0: map<Id, seq<Observation>>, pid: Id)
    requires r < |rd.ladder| && StatsTrack(rd, r, ran, stats, stats0)
    requires pid in stats && pid !in ran
    ensures match rd.run(pid, r)
            case Scored(s) =>
              StatsTrack(rd, r, ran + {pid}, stats[pid := stats[pid] + [Observation(s, rd.ladder[r].budget)]], stats0)
            case Failed(_) => StatsTrack(rd, r, ran + {pid}, stats, stats0)
  {}

  lemma FullSettle(rd: Round, r: nat, ran: set<Id>, fullScores: seq<Keyed<Id>>, pid: Id)
    requires r < |rd.ladder| && FullTrack(rd, r, ran, fullScores) && pid !in ran
    ensures match rd.run(pid, r)
            case Scored(s) =>
              FullTrack(rd, r, ran + {pid}, if rd.ladder[r].budget >= 1.0 then fullScores + [Keyed(pid, s)] else fullScores)
            case Failed(_) => FullTrack(rd, r, ran + {pid}, fullScores)
  {}

  lemma PartitionSettle(alive: seq<Id>, pending: seq<Id>, inFlight: set<Id>, ran: set<Id>, killed: set<Id>, pid: Id)
    requires Partition(alive, pending, inFlight, ran, killed) && pid in inFlight
    ensures Partition(alive, pending, inFlight - {pid}, ran + {pid}, killed)
    ensures pid in alive && pid !in ran && pid !in killed
  {}

  /** The range is that of the scores seen before this rung and on it so far. */
  ghost predicate RangeTrack(rd: Round, r: nat, before: set<real>, ran: set<Id>, range: Option<(real, real)>) {
    Spans(range, before + Scores(rd, r, ran))
  }

  lemma RangeSettle(rd: Round, r: nat, before: set<real>, ran: set<Id>, b: Board, pid: Id)
    requires r < |rd.ladder| && pid in b.records && pid in b.stats && RangeTrack(rd, r, before, ran, b.range)
    ensures RangeTrack(rd, r, before, ran + {pid}, SettleArm(b, pid, rd.run(pid, r), r, rd.ladder[r].budget).range)
  {
    ScoresMore(rd, r, ran, pid);
    if rd.run(pid, r).Scored? {
      var s, seen := rd.run(pid, r).score, Scores(rd, r, ran);
      SpansWiden(b.range, before + seen, s);
      assert before + (seen + {s}) == before + seen + {s};
    }
  }

  /** A batch of finished runs, in whatever order they are handed over. */
  method SettleBatch(rd: Round, r: nat, alive: seq<Id>, batch: set<Id>, ghost pending: seq<Id>, inFlight0: set<Id>,
                     done0: map<Id, Option<real>>, ghost killed: set<Id>, ghost before: set<real>, board: Board, ghost b0: Board)
    returns (inFlight: set<Id>, done: map<Id, Option<real>>, b: Board)
    requires r < |rd.ladder| && Track(rd, r, alive, done0, killed, board, b0)
    requires RangeTrack(rd, r, before, done0.Keys, board.range)
    requires Partition(alive, pending, inFlight0, done0.Keys, killed) && batch <= inFlight0
    ensures Track(rd, r, alive, done, killed, b, b0)
    ensures RangeTrack(rd, r, before, done.Keys, b.range)
    ensures Partition(alive, pending, inFlight, done.Keys, killed)
    ensures done0.Keys + batch <= done.Keys
    ensures inFlight <= inFlight0 && done.Keys + inFlight == done0.Keys + inFlight0
  {
    var todo := batch;
    inFlight, done, b := inFlight0, done0, board;
    while todo != {}
      invariant todo <= inFlight && todo <= batch
      invariant Track(rd, r, alive, done, killed, b, b0)
      invariant RangeTrack(rd, r, before, done.Keys, b.range)
      invariant Partition(alive, pending, inFlight, done.Keys, killed)
      invariant done0.Keys <= done.Keys && batch <= done.Keys + todo
      invariant inFlight <= inFlight0 && done.Keys + inFlight == done0.Keys + inFlight0
    {
      var pid :| pid in todo;
      PartitionSettle(alive, pending, inFlight, done.Keys, killed, pid);
      TrackSettle(rd, r, alive, done, killed, b, b0, pid);
      RangeSettle(rd, r, before, done.Keys, b, pid);
      b := SettleArm(b, pid, rd.run(pid, r), r, rd.ladder[r].budget);
      ghost var ran := done.Keys + {pid};
      MovedOver(done.Keys, inFlight, pid);
      done := done[pid := ScoreOf(rd.run(pid, r))];
      assert done.Keys == ran;
      inFlight, todo := inFlight - {pid}, todo - {pid};
    }
  }

  // ----------------------------------------------------------------------- pruning

  lemma MovedOver(ran: set<Id>, inFlight: set<Id>, p: Id)
    requires p in inFlight
    ensures ran + {p} + (inFlight - {p}) == ran + inFlight
  {}

  /** Settled arms have just shown the score they settled with. */
  ghost predicate BoundsKnown(rd: Round, r: nat, done: map<Id, Option<real>>, stats: map<Id, seq<Observation>>)
    requires r < |rd.ladder|
  {
    forall p :: p in done && done[p].Some? ==>
      p in stats && stats[p] != [] && stats[p][|stats[p]| - 1] == Observation(done[p].value, rd.ladder[r].budget)
  }

  /** The bounds the rung compares with are those of the arms settled so far. */
  lemma {:induction false} SettledBoundsAre(rd: Round, r: nat, alive: seq<Id>, done: map<Id, Option<real>>,
                                            stats: map<Id, seq<Observation>>, band: (real, real))
    requires r < |rd.ladder| && DoneTrack(rd, r, done) && BoundsKnown(rd, r, done, stats)
    ensures SettledBounds(alive, done, stats, band) == Bounds(rd, alive, r, done.Keys, band)
  {
    if alive != [] {
      SettledBoundsAre(rd, r, alive[1..], done, stats, band);
      BoundsCons(rd, alive, r, done.Keys, band);
    }
  }

  lemma SettledAreKnown(rd: Round, r: nat, alive: seq<Id>, done: map<Id, Option<real>>, killed: set<Id>, b: Board, b0: Board)
    requires r < |rd.ladder|
    requires Track(rd, r, alive, done, killed, b, b0) && done.Keys <= b0.stats.Keys
    ensures BoundsKnown(rd, r, done, b.stats)
  {}

  lemma TrackKill(rd: Round, r: nat, alive: seq<Id>, done: map<Id, Option<real>>, killed: set<Id>, b: Board, b0: Board, pid: Id)
    requires r < |rd.ladder| && Track(rd, r, alive, done, killed, b, b0)
    requires pid in alive && pid !in done
    ensures pid in b.records
    ensures Track(rd, r, alive, done, killed + {pid}, b.(records := b.records[pid := AfterKill(b.records[pid], r)]), b0)
  {
    assert pid in Unkilled(alive, {});
  }

  /** Marks the arms of `kill`. */
  method ApplyKills(rd: Round, r: nat, alive: seq<Id>, done: map<Id, Option<real>>, kill: seq<Id>,
                    ghost killed0: set<Id>, board: Board, ghost b0: Board)
    returns (b: Board, ghost killed: set<Id>)
    requires r < |rd.ladder| && Track(rd, r, alive, done, killed0, board, b0)
    requires forall p :: p in kill ==> p in alive && p !in done
    ensures Track(rd, r, alive, done, killed, b, b0)
    ensures forall p :: p in killed <==> p in killed0 || p in kill
    ensures b.range == board.range
  {
    b, killed := board, killed0;
    for i := 0 to |kill|
      invariant Track(rd, r, alive, done, killed, b, b0)
      invariant forall p :: p in killed <==> p in killed0 || p in kill[..i]
      invariant b.range == board.range
    {
      var pid := kill[i];
      assert kill[..i + 1] == kill[..i] + [pid];
      TrackKill(rd, r, alive, done, killed, b, b0, pid);
      b := b.(records := b.records[pid := AfterKill(b.records[pid], r)]);
      killed := killed + {pid};
    }
    assert kill[..|kill|] == kill;
  }

  /** `e` is what a rung that starts from the board `b0` starts from. */
  ghost predicate EntryFits(e: Entry, alive: seq<Id>, b0: Board) {
    && e.alive == alive && Spans(b0.range, e.before) && e.shown.Keys == Unkilled(alive, {})
    && forall p :: p in e.shown ==> p in b0.stats && e.shown[p] == b0.stats[p]
  }

  /** Sorts out the pending arms that cannot make the cut. */
  method Judge(rd: Round, r: nat, alive: seq<Id>, ghost e: Entry, pending0: seq<Id>, ghost inFlight: set<Id>,
               done: map<Id, Option<real>>, ghost killed: set<Id>, board: Board, ghost b0: Board)
    returns (pending: seq<Id>, kill: seq<Id>)
    requires r < |rd.ladder| && rd.ladder[r].survivors >= 1 && EntryFits(e, alive, b0)
    requires Track(rd, r, alive, done, killed, board, b0) && Partition(alive, pending0, inFlight, done.Keys, killed)
    requires RangeTrack(rd, r, e.before, done.Keys, board.range)
    ensures Distinct(pending) && (forall p :: p in pending0 <==> p in pending || p in kill)
    ensures forall p :: p in kill ==> p !in pending && Condemned(rd, r, e, p, done.Keys)
    ensures forall p :: p in pending ==> !Condemned(rd, r, e, p, done.Keys)
  {
    DoneInStats(rd, r, alive, pending0, inFlight, done, killed, board, b0);
    PendingUnchanged(rd, r, alive, pending0, inFlight, done, killed, board, b0);
    var settled := SettledBounds(alive, done, board.stats, BandOf(board.range));
    SettledBoundsAre(rd, r, alive, done, board.stats, BandOf(board.range));
    pending, kill := PrunePending(pending0, settled, rd.ladder[r].survivors, board.stats, BandOf(board.range));
    forall p | p in pending0 ensures p in kill <==> Condemned(rd, r, e, p, done.Keys) {
      assert p in Unkilled(alive, {});
      RuleIsExact(rd, alive, r, e.before, e.shown[p], done.Keys, board.range);
    }
  }

  /** After a batch has settled: kills the pending arms that cannot make the cut, and logs the
      judgement. */
  method PruneStep(rd: Round, r: nat, alive: seq<Id>, ghost e: Entry, pending0: seq<Id>, ghost inFlight: set<Id>,
                   done: map<Id, Option<real>>, ghost log0: RungLog, board: Board, ghost b0: Board)
    returns (pending: seq<Id>, b: Board, ghost log: RungLog)
    requires r < |rd.ladder| && rd.ladder[r].survivors >= 1 && EntryFits(e, alive, b0)
    requires InRung(rd, r, e, pending0, inFlight, done, log0, board, b0, true)
    ensures InRung(rd, r, e, pending, inFlight, done, log, b, b0, true) && UpToDate(log, pending, done.Keys, true)
  {
    var kill: seq<Id>;
    pending, kill := Judge(rd, r, alive, e, pending0, inFlight, done, log0.kills.Keys, board, b0);
    log := AfterJudgement(log0, done.Keys, kill);
    JudgedThen(rd, r, e, log0, pending0, inFlight, done.Keys, pending, kill);
    ghost var killed;
    b, killed := ApplyKills(rd, r, alive, done, kill, log0.kills.Keys, board, b0);
    SameKills(killed, log0.kills.Keys, log.kills.Keys, kill);
  }

  lemma SameKills(killed: set<Id>, before: set<Id>, after: set<Id>, kill: seq<Id>)
    requires forall p :: p in killed <==> p in before || p in kill
    requires forall p :: p in after <==> p in before || p in kill
    ensures killed == after
  {}

  lemma JudgedThen(rd: Round, r: nat, e: Entry, log: RungLog, pending0: seq<Id>, inFlight: set<Id>, done: set<Id>,
                   pending: seq<Id>, kill: seq<Id>)
    requires r < |rd.ladder| && Underway(rd, r, e, log, pending0, inFlight, done, true)
    requires Distinct(pending) && (forall p :: p in pending0 <==> p in pending || p in kill)
    requires forall p :: p in kill ==> p !in pending && Condemned(rd, r, e, p, done)
    requires forall p :: p in pending ==> !Condemned(rd, r, e, p, done)
    ensures var after := AfterJudgement(log, done, kill);
      && Underway(rd, r, e, after, pending, inFlight, done, true) && UpToDate(after, pending, done, true)
      && (forall p :: p in after.kills <==> p in log.kills || p in kill)
    ensures forall p :: p in kill ==> p in e.alive && p !in done
  {
    PendingKilled(e.alive, pending0, inFlight, done, log.kills.Keys, pending, kill);
    LogJudgement(rd, r, e, log, pending0, done, pending, kill);
  }

  /** The arms pruned go from pending to killed. */
  lemma PendingKilled(alive: seq<Id>, pending0: seq<Id>, inFlight: set<Id>, ran: set<Id>, killed0: set<Id>,
                      pending: seq<Id>, kill: seq<Id>)
    requires Partition(alive, pending0, inFlight, ran, killed0) && Distinct(pending)
    requires forall p :: p in pending0 <==> p in pending || p in kill
    requires forall p :: p in kill ==> p !in pending
    ensures forall p :: p in kill ==> p in alive && p !in ran
    ensures forall killed :: (forall p :: p in killed <==> p in killed0 || p in kill) ==>
              Partition(alive, pending, inFlight, ran, killed)
  {}

  /** An arm that has not been run on this rung still shows the scores it came with. */
  lemma PendingUnchanged(rd: Round, r: nat, alive: seq<Id>, pending: seq<Id>, inFlight: set<Id>, done: map<Id, Option<real>>,
                         killed: set<Id>, b: Board, b0: Board)
    requires r < |rd.ladder| && Track(rd, r, alive, done, killed, b, b0)
    requires Partition(alive, pending, inFlight, done.Keys, killed)
    ensures forall p :: p in pending ==> p in b0.stats && p in b.stats && b.stats[p] == b0.stats[p]
  {
    forall p | p in pending ensures p in b0.stats && p in b.stats && b.stats[p] == b0.stats[p] {
      assert p in Unkilled(alive, {});
    }
  }

  lemma DoneInStats(rd: Round, r: nat, alive: seq<Id>, pending: seq<Id>, inFlight: set<Id>, done: map<Id, Option<real>>,
                    killed: set<Id>, b: Board, b0: Board)
    requires r < |rd.ladder| && Track(rd, r, alive, done, killed, b, b0)
    requires Partition(alive, pending, inFlight, done.Keys, killed)
    ensures BoundsKnown(rd, r, done, b.stats)
    ensures forall p :: p in pending ==> p in b.stats
  {
    forall p | p in done || p in pending ensures p in Unkilled(alive, {}) {}
    assert done.Keys <= Unkilled(alive, {});
    SettledAreKnown(rd, r, alive, done, killed, b, b0);
  }

  // ------------------------------------------------------------------------ halving

  /** The arms with a score on this rung, in the order they entered it. */
  function ScoredEntries(alive: seq<Id>, done: map<Id, Option<real>>): seq<Keyed<Id>> {
    if alive == [] then []
    else if alive[0] in done && done[alive[0]].Some? then
      [Keyed(alive[0], done[alive[0]].value)] + ScoredEntries(alive[1..], done)
    else ScoredEntries(alive[1..], done)
  }

  lemma {:induction false} ScoredAreRestricted(rd: Round, r: nat, alive: seq<Id>, done: map<Id, Option<real>>)
    requires DoneTrack(rd, r, done)
    ensures ScoredEntries(alive, done) == Restrict(rd.Entries(alive, r), done.Keys)
  {
    if alive != [] {
      ScoredAreRestricted(rd, r, alive[1..], done);
      if rd.run(alive[0], r).Scored? {
        RestrictCons(Keyed(alive[0], rd.run(alive[0], r).score), rd.Entries(alive[1..], r), done.Keys);
      }
    }
  }

  ghost predicate RungRecords(rd: Round, r: nat, alive: seq<Id>, killed: set<Id>, advance: seq<Id>,
                              records: map<Id, ArmRecord>, records0: map<Id, ArmRecord>)
    requires r < |rd.ladder|
  {
    && records.Keys == records0.Keys
    && forall p :: p in records0 ==> records[p] == rd.RungRecord(r, alive, killed, advance, records0[p], p)
  }

  /** Halved out: scored on this rung below full budget without advancing. */
  function Halved(p: Id, done: map<Id, Option<real>>, advance: seq<Id>, budget: real): bool {
    p !in advance && p in done && done[p].Some? && budget < 1.0
  }

  method MarkHalved(alive: seq<Id>, done: map<Id, Option<real>>, advance: seq<Id>, budget: real, records0: map<Id, ArmRecord>)
    returns (records: map<Id, ArmRecord>)
    requires Unkilled(alive, {}) <= records0.Keys
    ensures records.Keys == records0.Keys
    ensures forall p :: p in records0 ==> (records[p] ==
      if p in alive && Halved(p, done, advance, budget) then records0[p].(killedEarly := true) else records0[p])
  {
    records := records0;
    for i := 0 to |alive|
      invariant records.Keys == records0.Keys
      invariant forall p :: p in records0 ==> (records[p] ==
        if p in alive[..i] && Halved(p, done, advance, budget) then records0[p].(killedEarly := true) else records0[p])
    {
      var pid := alive[i];
      assert alive[..i + 1] == alive[..i] + [pid];
      assert pid in Unkilled(alive, {});
      if Halved(pid, done, advance, budget) {
        records := records[pid := records[pid].(killedEarly := true)];
      }
    }
    assert alive[..|alive|] == alive;
  }

  /** Successive halving: the top survivors advance, the other scored arms are marked. */
  method Halve(rd: Round, r: nat, alive: seq<Id>, done: map<Id, Option<real>>, board: Board, ghost killed: set<Id>, ghost b0: Board)
    returns (advance: seq<Id>, b: Board)
    requires r < |rd.ladder| && rd.ladder[r].survivors >= 1
    requires Track(rd, r, alive, done, killed, board, b0)
    requires done.Keys == Unkilled(alive, killed) && forall p :: p in killed ==> p in alive
    ensures advance == rd.Advance(alive, Unkilled(alive, killed), r)
    ensures RungRecords(rd, r, alive, killed, advance, b.records, b0.records)
    ensures b.stats == board.stats && b.fullScores == board.fullScores && b.range == board.range
  {
    ScoredAreRestricted(rd, r, alive, done);
    var ranked := SortDesc(ScoredEntries(alive, done));
    advance := Items(Top(ranked, rd.ladder[r].survivors));
    var records := MarkHalved(alive, done, advance, rd.ladder[r].budget, board.records);
    HalvedRecords(rd, r, alive, done, killed, advance, records, board, b0);
    b := board.(records := records);
  }

  lemma HalvedRecords(rd: Round, r: nat, alive: seq<Id>, done: map<Id, Option<real>>, killed: set<Id>, advance: seq<Id>,
                      records: map<Id, ArmRecord>, b: Board, b0: Board)
    requires r < |rd.ladder| && Track(rd, r, alive, done, killed, b, b0)
    requires done.Keys == Unkilled(alive, killed) && forall p :: p in killed ==> p in alive
    requires records.Keys == b.records.Keys
    requires forall p :: p in b.records ==> (records[p] ==
      if p in alive && Halved(p, done, advance, rd.ladder[r].budget) then b.records[p].(killedEarly := true) else b.records[p])
    ensures RungRecords(rd, r, alive, killed, advance, records, b0.records)
  {
    forall p | p in b0.records
      ensures records[p] == rd.RungRecord(r, alive, killed, advance, b0.records[p], p)
    {
      assert p in done <==> p in alive && p !in killed;
    }
  }

  // ------------------------------------------------------------------------ one rung

  /** Runs one rung with a bounded pool of workers, settling whatever finishes and pruning
      what is still pending, until nothing is left in flight; then halves. */
  method RunRung(rd: Round, r: nat, alive: seq<Id>, workers: nat, pruning: bool, ghost e: Entry, board: Board)
    returns (advance: seq<Id>, b: Board, ghost log: RungLog)
    requires rd.Valid() && r < |rd.ladder| && workers >= 1 && EntryFits(e, alive, board)
    requires Unkilled(alive, {}) <= board.records.Keys && Unkilled(alive, {}) <= board.stats.Keys && board.fullScores == []
    ensures RungResult(rd, r, e, log, pruning)
    ensures advance == rd.Advance(alive, log.starts.Keys, r)
    ensures RungRecords(rd, r, alive, log.kills.Keys, advance, b.records, board.records)
    ensures StatsTrack(rd, r, log.starts.Keys, b.stats, board.stats)
    ensures FullTrack(rd, r, log.starts.Keys, b.fullScores)
    ensures RangeTrack(rd, r, e.before, log.starts.Keys, b.range)
  {
    var done: map<Id, Option<real>>;
    done, b, log := LaunchAndPrune(rd, r, alive, workers, pruning, e, board);
    advance, b := Halve(rd, r, alive, done, b, log.kills.Keys, board);
  }

  /** A finished rung: every arm was launched or killed, and each as the rule decides. */
  ghost predicate RungResult(rd: Round, r: nat, e: Entry, log: RungLog, pruning: bool)
    requires r < |rd.ladder|
  {
    && log.starts.Keys == Unkilled(e.alive, log.kills.Keys) && log.kills.Keys <= Unkilled(e.alive, {})
    && RungRun(rd, r, e, log, pruning && rd.ladder[r].budget < 1.0)
  }

  /** A rung in progress on the board `b`, which it started as `board`. */
  ghost predicate InRung(rd: Round, r: nat, e: Entry, pending: seq<Id>, inFlight: set<Id>, done: map<Id, Option<real>>,
                         log: RungLog, b: Board, board: Board, judging: bool)
    requires r < |rd.ladder|
  {
    && Track(rd, r, e.alive, done, log.kills.Keys, b, board)
    && RangeTrack(rd, r, e.before, done.Keys, b.range)
    && Underway(rd, r, e, log, pending, inFlight, done.Keys, judging)
  }

  /** No worker is idle while an arm is waiting, and there are at most `workers` at work. */
  ghost predicate Busy(pending: seq<Id>, inFlight: set<Id>, workers: nat) {
    |inFlight| <= workers && (pending != [] ==> |inFlight| == workers)
  }

  method LaunchAndPrune(rd: Round, r: nat, alive: seq<Id>, workers: nat, pruning: bool, ghost e: Entry, board: Board)
    returns (done: map<Id, Option<real>>, b: Board, ghost log: RungLog)
    requires rd.Valid() && r < |rd.ladder| && workers >= 1 && EntryFits(e, alive, board)
    requires Unkilled(alive, {}) <= board.records.Keys && Unkilled(alive, {}) <= board.stats.Keys && board.fullScores == []
    ensures RungResult(rd, r, e, log, pruning) && done.Keys == log.starts.Keys
    ensures Track(rd, r, alive, done, log.kills.Keys, b, board)
    ensures RangeTrack(rd, r, e.before, done.Keys, b.range)
  {
    ghost var judging := pruning && rd.ladder[r].budget < 1.0;
    var pending := OrderArms(alive);
    var inFlight: set<Id> := {};
    done, b, log := map[], board, EMPTY_LOG;
    RungBegins(rd, r, alive, e, pending, board, judging);
    pending, inFlight, log := SubmitNext(rd, r, e, pending, inFlight, workers, done.Keys, log, judging);
    while inFlight != {}
      invariant InRung(rd, r, e, pending, inFlight, done, log, b, board, judging) && Busy(pending, inFlight, workers)
      decreases Unkilled(alive, {}) - done.Keys
    {
      pending, inFlight, done, b, log := NextBatch(rd, r, alive, workers, pruning, e, pending, inFlight, done, log, b, board);
    }
    RungEnds(rd, r, e, pending, done, log, b, board, judging);
  }

  lemma RungBegins(rd: Round, r: nat, alive: seq<Id>, e: Entry, pending: seq<Id>, board: Board, judging: bool)
    requires r < |rd.ladder| && EntryFits(e, alive, board) && board.fullScores == []
    requires Unkilled(alive, {}) <= board.records.Keys && Unkilled(alive, {}) <= board.stats.Keys
    requires Distinct(pending) && forall p :: p in pending <==> p in alive
    ensures InRung(rd, r, e, pending, {}, map[], EMPTY_LOG, board, board, judging)
    ensures UpToDate(EMPTY_LOG, pending, {}, judging)
  {
    var done: map<Id, Option<real>> := map[];
    assert done.Keys == {} && EMPTY_LOG.kills.Keys == {} && EMPTY_LOG.starts.Keys == {};
    assert e.before + Scores(rd, r, {}) == e.before;
    NothingYet(rd, r, e, pending, judging);
  }

  lemma RungEnds(rd: Round, r: nat, e: Entry, pending: seq<Id>, done: map<Id, Option<real>>, log: RungLog, b: Board, board: Board,
                 judging: bool)
    requires r < |rd.ladder| && InRung(rd, r, e, pending, {}, done, log, b, board, judging) && pending == []
    ensures log.starts.Keys == done.Keys == Unkilled(e.alive, log.kills.Keys)
    ensures log.kills.Keys <= Unkilled(e.alive, {}) && RungRun(rd, r, e, log, judging)
  {
    forall p ensures p in done <==> p in Unkilled(e.alive, log.kills.Keys) {}
    assert done.Keys == Unkilled(e.alive, log.kills.Keys);
  }

  /** Some of the runs finish: they are settled, the arms still waiting are judged by them, and the
      free workers are filled again. */
  method NextBatch(rd: Round, r: nat, alive: seq<Id>, workers: nat, pruning: bool, ghost e: Entry,
                   pending0: seq<Id>, inFlight0: set<Id>, done0: map<Id, Option<real>>, ghost log0: RungLog, b0: Board, ghost board: Board)
    returns (pending: seq<Id>, inFlight: set<Id>, done: map<Id, Option<real>>, b: Board, ghost log: RungLog)
    requires rd.Valid() && r < |rd.ladder| && workers >= 1 && EntryFits(e, alive, board)
    requires InRung(rd, r, e, pending0, inFlight0, done0, log0, b0, board, pruning && rd.ladder[r].budget < 1.0)
    requires Busy(pending0, inFlight0, workers) && inFlight0 != {}
    ensures InRung(rd, r, e, pending, inFlight, done, log, b, board, pruning && rd.ladder[r].budget < 1.0)
    ensures Busy(pending, inFlight, workers)
    ensures Unkilled(alive, {}) - done.Keys < Unkilled(alive, {}) - done0.Keys
  {
    var batch :| batch != {} && batch <= inFlight0;
    BatchIsNew(alive, pending0, inFlight0, done0.Keys, log0.kills.Keys, batch);
    inFlight, done, b := SettleBatch(rd, r, alive, batch, pending0, inFlight0, done0, log0.kills.Keys, e.before, b0, board);
    SmallerSet(inFlight, inFlight0);
    pending, log := pending0, log0;
    if pruning && pending != [] && rd.ladder[r].budget < 1.0 {
      pending, b, log := PruneStep(rd, r, alive, e, pending, inFlight, done, log, b, board);
    }
    pending, inFlight, log := SubmitNext(rd, r, e, pending, inFlight, workers, done.Keys, log, pruning && rd.ladder[r].budget < 1.0);
  }

  lemma SmallerSet(s: set<Id>, t: set<Id>)
    requires s <= t
    ensures |s| <= |t|
    decreases |s|
  {
    if x :| x in s { SmallerSet(s - {x}, t - {x}); }
  }

  lemma BatchIsNew(alive: seq<Id>, pending: seq<Id>, inFlight: set<Id>, ran: set<Id>, killed: set<Id>, batch: set<Id>)
    requires Partition(alive, pending, inFlight, ran, killed) && batch != {} && batch <= inFlight
    ensures forall after :: ran + batch <= after ==> Unkilled(alive, {}) - after < Unkilled(alive, {}) - ran
  {
    var p :| p in batch;
    assert p in Unkilled(alive, {}) && p !in ran;
  }

  // ---------------------------------------------------------------------- a whole round

  /** After `r` rungs everything on the board is determined by the kills. */
  ghost predicate BoardAfter(rd: Round, kills: seq<set<Id>>, r: nat, alive: seq<Id>, b: Board)
    requires rd.Valid()
  {
    && r == |kills| <= |rd.ladder|
    && alive == rd.Entering(kills, r)
    && b.records.Keys == Unkilled(rd.programs, {})
    && b.stats.Keys == Unkilled(rd.programs, {})
    && Unkilled(alive, {}) <= Unkilled(rd.programs, {})
    && (forall p :: p in b.records ==> b.records[p] == rd.Record(kills, p, r))
    && (forall p :: p in b.stats ==> b.stats[p] == rd.History(kills, p, r))
    && Spans(b.range, ScoresBefore(rd, kills, r))
    && (r < |rd.ladder| ==> b.fullScores == [])
    && (r == |rd.ladder| ==> forall e :: e in b.fullScores <==> e in rd.FullEntries(kills))
  }

  lemma RecordsAfterRung(rd: Round, kills: seq<set<Id>>, r: nat, alive: seq<Id>, killed: set<Id>, advance: seq<Id>,
                         records: map<Id, ArmRecord>, b0: Board)
    requires rd.Valid() && r < |rd.ladder| && BoardAfter(rd, kills, r, alive, b0)
    requires advance == rd.Advance(alive, Unkilled(alive, killed), r)
    requires RungRecords(rd, r, alive, killed, advance, records, b0.records)
    ensures advance == rd.Entering(kills + [killed], r + 1)
    ensures forall p :: p in records ==> records[p] == rd.Record(kills + [killed], p, r + 1)
  {
    var kills' := kills + [killed];
    assert kills'[r] == killed;
    EnteringPrefix(rd, kills, killed, r);
    assert rd.Entering(kills', r + 1) == rd.Leaving(kills', r) == advance;
    forall p | p in records ensures records[p] == rd.Record(kills', p, r + 1) {
      RecordPrefix(rd, kills, killed, p, r);
      RecordStep(rd, kills', p, r + 1);
    }
  }

  lemma StatsAfterRung(rd: Round, kills: seq<set<Id>>, r: nat, alive: seq<Id>, killed: set<Id>,
                       stats: map<Id, seq<Observation>>, b0: Board)
    requires rd.Valid() && r < |rd.ladder| && BoardAfter(rd, kills, r, alive, b0)
    requires StatsTrack(rd, r, Unkilled(alive, killed), stats, b0.stats)
    ensures forall p :: p in stats ==> stats[p] == rd.History(kills + [killed], p, r + 1)
  {
    forall p | p in stats ensures stats[p] == rd.History(kills + [killed], p, r + 1) {
      ShownAfterRung(rd, kills, killed, p, r);
    }
  }

  lemma ShownAfterRung(rd: Round, kills: seq<set<Id>>, killed: set<Id>, p: Id, r: nat)
    requires rd.Valid() && r == |kills| < |rd.ladder|
    ensures rd.History(kills + [killed], p, r + 1) == rd.History(kills, p, r) +
      (if p in Unkilled(rd.Entering(kills, r), killed) then Seen(rd.run(p, r), rd.ladder[r].budget) else [])
  {
    EnteringPrefix(rd, kills, killed, r);
    HistoryPrefix(rd, kills, killed, p, r);
    assert (kills + [killed])[r] == killed;
    assert rd.Shows(kills + [killed], p, r)
        == if p in Unkilled(rd.Entering(kills, r), killed) then Seen(rd.run(p, r), rd.ladder[r].budget) else [];
  }

  lemma FullAfterRung(rd: Round, kills: seq<set<Id>>, r: nat, alive: seq<Id>, killed: set<Id>, fullScores: seq<Keyed<Id>>)
    requires rd.Valid() && r == |kills| < |rd.ladder| && alive == rd.Entering(kills, r)
    requires FullTrack(rd, r, Unkilled(alive, killed), fullScores)
    ensures r + 1 < |rd.ladder| ==> fullScores == []
    ensures r + 1 == |rd.ladder| ==> forall e :: e in fullScores <==> e in rd.FullEntries(kills + [killed])
  {
    if r + 1 < |rd.ladder| {
      NoMembers(fullScores);
    } else {
      ScoresOnTop(rd, kills, r, alive, killed);
      ScoredRestricted(rd, alive, Unkilled(alive, killed), r);
    }
  }

  lemma ScoresOnTop(rd: Round, kills: seq<set<Id>>, r: nat, alive: seq<Id>, killed: set<Id>)
    requires rd.Valid() && r == |kills| && r + 1 == |rd.ladder| && alive == rd.Entering(kills, r)
    ensures rd.FullEntries(kills + [killed]) == Restrict(rd.Entries(alive, r), Unkilled(alive, killed))
  {
    EnteringPrefix(rd, kills, killed, r);
    assert (kills + [killed])[r] == killed;
  }

  lemma RangeAfterRung(rd: Round, kills: seq<set<Id>>, r: nat, alive: seq<Id>, killed: set<Id>, range: Option<(real, real)>)
    requires rd.Valid() && r == |kills| < |rd.ladder| && alive == rd.Entering(kills, r)
    requires RangeTrack(rd, r, ScoresBefore(rd, kills, r), Unkilled(alive, killed), range)
    ensures Spans(range, ScoresBefore(rd, kills + [killed], r + 1))
  {
    ScoresBeforePrefix(rd, kills, killed, r);
    EnteringPrefix(rd, kills, killed, r);
    assert (kills + [killed])[r] == killed;
  }

  lemma BoardAfterRung(rd: Round, kills: seq<set<Id>>, r: nat, alive: seq<Id>, killed: set<Id>, advance: seq<Id>, b: Board, b0: Board)
    requires rd.Valid() && r < |rd.ladder| && BoardAfter(rd, kills, r, alive, b0)
    requires advance == rd.Advance(alive, Unkilled(alive, killed), r)
    requires RungRecords(rd, r, alive, killed, advance, b.records, b0.records)
    requires StatsTrack(rd, r, Unkilled(alive, killed), b.stats, b0.stats)
    requires FullTrack(rd, r, Unkilled(alive, killed), b.fullScores)
    requires RangeTrack(rd, r, ScoresBefore(rd, kills, r), Unkilled(alive, killed), b.range)
    ensures BoardAfter(rd, kills + [killed], r + 1, advance, b)
  {
    RangeAfterRung(rd, kills, r, alive, killed, b.range);
    RecordsAfterRung(rd, kills, r, alive, killed, advance, b.records, b0);
    StatsAfterRung(rd, kills, r, alive, killed, b.stats, b0);
    FullAfterRung(rd, kills, r, alive, killed, b.fullScores);
    AdvanceSubset(rd, alive, Unkilled(alive, killed), r);
    forall p | p in advance ensures p in rd.programs { assert p in Unkilled(alive, {}); }
  }

  /** All rungs of a round, with the log of every launch and kill.  An empty rung has nothing to
      launch, so going through the remaining rungs is the same as leaving the loop. */
  method RunRungs(rd: Round, workers: nat, pruning: bool) returns (b: Board, ghost logs: seq<RungLog>)
    requires rd.Valid() && workers >= 1
    ensures PrunedRun(rd, logs, pruning)
    ensures BoardAfter(rd, Killed(logs), |logs|, rd.Entering(Killed(logs), |logs|), b)
  {
    b := Board(map p | p in rd.programs :: FRESH_RECORD, map p | p in rd.programs :: [], None, []);
    var alive := rd.programs;
    logs := [];
    for r := 0 to |rd.ladder|
      invariant |logs| == r && BoardAfter(rd, Killed(logs), r, alive, b)
      invariant RungsMade(rd, logs, pruning)
    {
      alive, b, logs := NextRung(rd, r, alive, workers, pruning, b, logs);
    }
  }

  method NextRung(rd: Round, r: nat, alive0: seq<Id>, workers: nat, pruning: bool, b0: Board, ghost logs0: seq<RungLog>)
    returns (alive: seq<Id>, b: Board, ghost logs: seq<RungLog>)
    requires rd.Valid() && workers >= 1 && r == |logs0| < |rd.ladder| && BoardAfter(rd, Killed(logs0), r, alive0, b0)
    requires RungsMade(rd, logs0, pruning)
    ensures |logs| == r + 1 && BoardAfter(rd, Killed(logs), r + 1, alive, b)
    ensures RungsMade(rd, logs, pruning)
  {
    ghost var kills, log := Killed(logs0), EMPTY_LOG;
    alive, b, log := RunRung(rd, r, alive0, workers, pruning, EntryOf(rd, kills, r), b0);
    BoardAfterRung(rd, kills, r, alive0, log.kills.Keys, alive, b, b0);
    LogGrows(rd, logs0, log, pruning);
    KilledMore(logs0, log);
    logs := logs0 + [log];
  }

  /** The best entry; earlier entries win ties. */
  method BestOf(entries: seq<Keyed<Id>>) returns (best: Option<Keyed<Id>>)
    ensures entries == [] <==> best.None?
    ensures best.Some? ==> IsMaximum(entries, best.value)
  {
    best := None;
    for i := 0 to |entries|
      invariant i == 0 <==> best.None?
      invariant best.Some? ==> best.value in entries && forall j :: 0 <= j < i ==> entries[j].key <= best.value.key
    {
      if best.None? || entries[i].key > best.value.key {
        best := Some(entries[i]);
      }
    }
  }

  /** Last scores of the arms that have one, in program order. */
  function LastScores(ps: seq<Id>, stats: map<Id, seq<Observation>>): seq<Keyed<Id>>
    requires forall p :: p in ps ==> p in stats
  {
    if ps == [] then [] else LastEntry(ps[0], stats[ps[0]]) + LastScores(ps[1..], stats)
  }

  lemma {:induction false} LastScoresAre(rd: Round, kills: seq<set<Id>>, ps: seq<Id>, stats: map<Id, seq<Observation>>)
    requires rd.Valid() && |kills| == |rd.ladder|
    requires forall p :: p in ps ==> p in stats && stats[p] == rd.History(kills, p, |kills|)
    ensures LastScores(ps, stats) == rd.LastEntries(kills, ps)
  {
    if ps != [] { LastScoresAre(rd, kills, ps[1..], stats); }
  }

  /** The winner: best full-budget score, or failing that best last score. */
  method PickWinner(rd: Round, ghost kills: seq<set<Id>>, b: Board) returns (best: Option<Keyed<Id>>)
    requires rd.Valid() && |kills| == |rd.ladder| && BoardAfter(rd, kills, |kills|, rd.Entering(kills, |kills|), b)
    ensures rd.IsWinner(kills, best)
  {
    best := BestOf(b.fullScores);
    if best.None? {
      assert forall p :: p in rd.programs ==> p in Unkilled(rd.programs, {});
      LastScoresAre(rd, kills, rd.programs, b.stats);
      best := BestOf(LastScores(rd.programs, b.stats));
      NoMembers(rd.FullEntries(kills));
    }
  }

  /** One round of the portfolio: nothing for no programs, otherwise a ladder, its rungs
      and a winner.  `rd` and `logs` name the round that was run and what was pruned. */
  method RunPortfolioRound(programs: seq<Id>, cfg: Config, workers: nat, pruning: bool, run: (Id, nat) -> Outcome)
    returns (best: Option<Keyed<Id>>, records: seq<ArmRecord>, ghost rd: Round, ghost logs: seq<RungLog>)
    requires workers >= 1
    ensures programs == [] ==> best.None? && records == []
    ensures rd.programs == programs && rd.run == run
    ensures programs != [] ==> LadderFor(|programs|, cfg, rd.ladder) && RoundResult(rd, pruning, best, records, logs)
  {
    rd, logs := Round(programs, [], run), [];
    if programs == [] {
      return None, [], rd, logs;
    }
    var ladder := BuildLadder(|programs|, cfg);
    LadderClimbs(|programs|, cfg, ladder);
    LadderNarrows(|programs|, cfg, ladder);
    rd := Round(programs, ladder, run);
    best, records, logs := RunLadder(Round(programs, ladder, run), workers, pruning);
  }

  /** What one round returns: a log of launches and kills that are exactly those the pruning
      rule decides, a record per arm with exactly one fate, and the winner of this run.  If
      every arm killed would have scored at most the bound it was killed on, the arms entering
      every rung and the full-budget scores are those of the sequential run without pruning; the
      winner is one of that run's, too, when some arm has a full-budget score or the ladder has
      at most three rungs. */
  ghost predicate RoundResult(rd: Round, pruning: bool, best: Option<Keyed<Id>>, records: seq<ArmRecord>,
                              logs: seq<RungLog>)
  {
    && PrunedRun(rd, logs, pruning)
    && rd.IsWinner(Killed(logs), best)
    && Reported(rd, Killed(logs), records)
    && (AllHonest(rd, logs) ==> SameAsSequential(rd, Killed(logs), best))
  }

  ghost predicate Reported(rd: Round, kills: seq<set<Id>>, records: seq<ArmRecord>)
    requires rd.Valid() && |kills| == |rd.ladder|
  {
    && |records| == |rd.programs|
    && (forall i :: 0 <= i < |records| ==> records[i] == rd.Record(kills, rd.programs[i], |kills|))
    && (forall i :: 0 <= i < |records| ==> Settled(records[i]))
  }

  ghost predicate SameAsSequential(rd: Round, kills: seq<set<Id>>, best: Option<Keyed<Id>>)
    requires rd.Valid() && |kills| == |rd.ladder|
  {
    && (forall r :: 0 <= r <= |kills| ==> rd.Entering(kills, r) == rd.Entering(rd.NoKills(), r))
    && rd.FullEntries(kills) == rd.FullEntries(rd.NoKills())
    && (rd.FullEntries(rd.NoKills()) != [] || |rd.ladder| <= 3 ==> rd.IsWinner(rd.NoKills(), best))
  }

  method RunLadder(rd: Round, workers: nat, pruning: bool)
    returns (best: Option<Keyed<Id>>, records: seq<ArmRecord>, ghost logs: seq<RungLog>)
    requires rd.Valid() && workers >= 1
    ensures RoundResult(rd, pruning, best, records, logs)
  {
    var b: Board;
    b, logs := RunRungs(rd, workers, pruning);
    best := PickWinner(rd, Killed(logs), b);
    TopIsUntouched(rd, logs, pruning);
    records := CollectRecords(rd, Killed(logs), b);
    if AllHonest(rd, logs) { HonestOutcome(rd, logs, pruning, best); }
  }

  method CollectRecords(rd: Round, ghost kills: seq<set<Id>>, b: Board) returns (records: seq<ArmRecord>)
    requires rd.Valid() && |kills| == |rd.ladder| && kills[|kills| - 1] == {}
    requires BoardAfter(rd, kills, |kills|, rd.Entering(kills, |kills|), b)
    ensures Reported(rd, kills, records)
  {
    assert forall p :: p in rd.programs ==> p in Unkilled(rd.programs, {});
    records := seq(|rd.programs|, i requires 0 <= i < |rd.programs| => b.records[rd.programs[i]]);
    forall i | 0 <= i < |rd.programs| ensures Settled(records[i]) {
      EveryArmAccounted(rd, kills, rd.programs[i]);
    }
  }

  lemma HonestOutcome(rd: Round, logs: seq<RungLog>, pruning: bool, best: Option<Keyed<Id>>)
    requires PrunedRun(rd, logs, pruning) && AllHonest(rd, logs) && rd.IsWinner(Killed(logs), best)
    ensures SameAsSequential(rd, Killed(logs), best)
  {
    HonestPruningRefines(rd, logs, pruning);
    if rd.FullEntries(rd.NoKills()) != [] || |rd.ladder| <= 3 { WinnerUnchanged(rd, logs, pruning, best); }
  }
}
