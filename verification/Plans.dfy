/** Gated experiment plans: the validator, and the decomposer that has to satisfy it. */
module Plans {
  import opened Reals
  import opened Wrappers

  const TOLERANCE := 0.000001

  datatype Phase = Phase(
    name: string, budgetSeconds: real, cohortSize: int, survivors: int, gate: Option<real>, dependsOn: Option<string>)

  datatype Plan = Plan(phases: seq<Phase>, totalSeconds: real)

  // ------------------------------------------------------------- what a valid plan is

  ghost predicate DistinctNames(ps: seq<Phase>) {
    forall i, j :: 0 <= i < j < |ps| ==> ps[i].name != ps[j].name
  }

  /** The phase is a root, or depends on an earlier phase. */
  ghost predicate ForwardEdge(ps: seq<Phase>, i: nat)
    requires i < |ps|
  {
    ps[i].dependsOn.Some? ==> exists j :: 0 <= j < i && ps[j].name == ps[i].dependsOn.value
  }

  ghost predicate OneRoot(ps: seq<Phase>) {
    exists r :: OnlyRoot(ps, r)
  }

  ghost predicate OnlyRoot(ps: seq<Phase>, r: nat) {
    r < |ps| && ps[r].dependsOn.None? && forall i :: 0 <= i < |ps| && ps[i].dependsOn.None? ==> i == r
  }

  predicate Sized(p: Phase) {
    p.budgetSeconds > 0.0 && p.cohortSize >= 1 && 1 <= p.survivors <= p.cohortSize
  }

  function Allocated(ps: seq<Phase>): real {
    if ps == [] then 0.0 else Allocated(ps[..|ps| - 1]) + ps[|ps| - 1].budgetSeconds
  }

  /** A gated chain: distinct names, forward edges, one root, positive budgets within the
      total, each cohort the previous phase's survivors, one survivor at the end. */
  ghost predicate ValidPlan(plan: Plan) {
    var ps := plan.phases;
    && ps != [] && DistinctNames(ps)
    && (forall i :: 0 <= i < |ps| ==> ForwardEdge(ps, i))
    && OneRoot(ps)
    && (forall i :: 0 <= i < |ps| ==> Sized(ps[i]))
    && (forall i :: 0 < i < |ps| ==> ps[i].cohortSize == ps[i - 1].survivors)
    && Allocated(ps) <= plan.totalSeconds + TOLERANCE
    && ps[|ps| - 1].survivors == 1
  }

  // ---------------------------------------------------------------------- the validator

  /** The index of the phase of that name, if any. */
  function IndexOf(ps: seq<Phase>, name: string): (r: Option<nat>)
    ensures r.Some? ==> r.value < |ps| && ps[r.value].name == name
    ensures r.None? ==> forall i :: 0 <= i < |ps| ==> ps[i].name != name
  {
    if ps == [] then None
    else if ps[|ps| - 1].name == name then Some(|ps| - 1)
    else IndexOf(ps[..|ps| - 1], name)
  }

  method NamesUnique(ps: seq<Phase>) returns (ok: bool)
    ensures ok <==> DistinctNames(ps)
  {
    var seen: set<string> := {};
    for i := 0 to |ps|
      invariant DistinctNames(ps[..i])
      invariant seen == (set j | 0 <= j < i :: ps[j].name)
    {
      if ps[i].name in seen {
        var j :| 0 <= j < i && ps[j].name == ps[i].name;
        return false;
      }
      seen := seen + {ps[i].name};
    }
    assert ps[..|ps|] == ps;
    return true;
  }

  /** Follows the edges from phase `start` to a root; fails on an unknown name or an edge that
      does not go backwards in the list. */
  method Walk(ps: seq<Phase>, start: nat) returns (ok: bool)
    requires DistinctNames(ps) && start < |ps|
    ensures ok ==> ForwardEdge(ps, start)
    ensures !ok ==> exists i :: 0 <= i < |ps| && !ForwardEdge(ps, i)
  {
    var cur: nat := start;
    while ps[cur].dependsOn.Some?
      invariant cur < |ps|
      invariant cur != start ==> ForwardEdge(ps, start)
      decreases cur
    {
      var target := IndexOf(ps, ps[cur].dependsOn.value);
      if target.None? || target.value >= cur {
        assert !ForwardEdge(ps, cur);
        return false;
      }
      assert ForwardEdge(ps, cur);
      cur := target.value;
    }
    return true;
  }

  method CountRoots(ps: seq<Phase>) returns (one: bool)
    ensures one <==> OneRoot(ps)
  {
    var first: Option<nat> := None;
    for i := 0 to |ps|
      invariant first.None? ==> forall j :: 0 <= j < i ==> ps[j].dependsOn.Some?
      invariant first.Some? ==> first.value < i && ps[first.value].dependsOn.None?
      invariant first.Some? ==> forall j :: 0 <= j < i && ps[j].dependsOn.None? ==> j == first.value
    {
      if ps[i].dependsOn.None? {
        if first.Some? {
          return false;
        }
        first := Some(i);
      }
    }
    assert first.Some? ==> OnlyRoot(ps, first.value);
    return first.Some?;
  }

  method CheckSizes(plan: Plan) returns (ok: bool)
    requires plan.phases != []
    ensures ok <==>
      && (forall i :: 0 <= i < |plan.phases| ==> Sized(plan.phases[i]))
      && (forall i :: 0 < i < |plan.phases| ==> plan.phases[i].cohortSize == plan.phases[i - 1].survivors)
      && Allocated(plan.phases) <= plan.totalSeconds + TOLERANCE
      && plan.phases[|plan.phases| - 1].survivors == 1
  {
    var ps := plan.phases;
    var total := 0.0;
    for i := 0 to |ps|
      invariant total == Allocated(ps[..i])
      invariant forall j :: 0 <= j < i ==> Sized(ps[j])
      invariant forall j :: 0 < j < i ==> ps[j].cohortSize == ps[j - 1].survivors
    {
      var p := ps[i];
      if p.budgetSeconds <= 0.0 || p.cohortSize < 1 || p.survivors < 1 || p.survivors > p.cohortSize {
        return false;
      }
      assert ps[..i + 1][..i] == ps[..i];
      total := total + p.budgetSeconds;
      if i > 0 && (p.cohortSize > ps[i - 1].cohortSize || p.cohortSize != ps[i - 1].survivors) {
        return false;
      }
    }
    assert ps[..|ps|] == ps;
    return total <= plan.totalSeconds + TOLERANCE && ps[|ps| - 1].survivors == 1;
  }

  /** Accepts exactly the valid plans. */
  method Validate(plan: Plan) returns (ok: bool)
    ensures ok <==> ValidPlan(plan)
  {
    var ps := plan.phases;
    if ps == [] {
      return false;
    }
    ok := NamesUnique(ps);
    if !ok {
      return;
    }
    for i := 0 to |ps|
      invariant forall j :: 0 <= j < i ==> ForwardEdge(ps, j)
    {
      ok := Walk(ps, i);
      if !ok {
        return;
      }
    }
    ok := CountRoots(ps);
    if !ok {
      return;
    }
    ok := CheckSizes(plan);
  }

  // ------------------------------------------------------------ what an accepted plan gives

  lemma ParentIsEarlier(plan: Plan, i: nat)
    requires ValidPlan(plan) && i < |plan.phases| && plan.phases[i].dependsOn.Some?
    ensures IndexOf(plan.phases, plan.phases[i].dependsOn.value).Some?
    ensures IndexOf(plan.phases, plan.phases[i].dependsOn.value).value < i
  {
    assert ForwardEdge(plan.phases, i);
  }

  /** Where following the edges from phase `i` ends; the index is the termination measure. */
  ghost function RootOf(plan: Plan, i: nat): nat
    requires ValidPlan(plan) && i < |plan.phases|
    decreases i
  {
    if plan.phases[i].dependsOn.None? then i
    else
      ParentIsEarlier(plan, i);
      RootOf(plan, IndexOf(plan.phases, plan.phases[i].dependsOn.value).value)
  }

  lemma {:induction false} RootIsRoot(plan: Plan, i: nat)
    requires ValidPlan(plan) && i < |plan.phases|
    ensures RootOf(plan, i) < |plan.phases| && plan.phases[RootOf(plan, i)].dependsOn.None?
    decreases i
  {
    if plan.phases[i].dependsOn.Some? {
      ParentIsEarlier(plan, i);
      RootIsRoot(plan, IndexOf(plan.phases, plan.phases[i].dependsOn.value).value);
    }
  }

  /** In an accepted plan every phase leads back to the first one, the only root. */
  lemma EveryPhaseReachesTheFirst(plan: Plan, i: nat)
    requires ValidPlan(plan) && i < |plan.phases|
    ensures RootOf(plan, i) == 0
  {
    RootIsRoot(plan, i);
    assert ForwardEdge(plan.phases, 0);
    var r: nat :| OnlyRoot(plan.phases, r);
  }

  /** Cohorts narrow along an accepted plan, down to one survivor. */
  lemma {:induction false} CohortsNarrow(plan: Plan, i: nat, j: nat)
    requires ValidPlan(plan) && i <= j < |plan.phases|
    ensures 1 <= plan.phases[j].survivors <= plan.phases[j].cohortSize <= plan.phases[i].cohortSize
  {
    assert Sized(plan.phases[j]);
    if i < j {
      CohortsNarrow(plan, i, j - 1);
    }
  }

  // --------------------------------------------------------------------- the decomposer

  datatype Stage = Stage(name: string, budgetFrac: real, keepFrac: real)

  const STAGES := [Stage("screen", 0.2, 0.25), Stage("refine", 0.3, 0.4), Stage("confirm", 0.5, 1.0)]

  /** `s` is the least number that is the share `keep` of a cohort and, when there is a choice,
      two. */
  predicate LeastCut(keep: real, cohort: int, s: int) {
    var least := if cohort >= 2 then 2 else 1;
    && s >= least && s as real >= keep * cohort as real
    && (s == least || (s - 1) as real < keep * cohort as real)
  }

  /** How many of a cohort advance from a stage that is not the last. */
  function Narrowed(keep: real, cohort: int): (s: int)
    requires cohort >= 1 && 0.0 < keep <= 1.0
    ensures 1 <= s <= cohort && LeastCut(keep, cohort, s)
  {
    Mono(keep, 1.0, cohort as real);
    Mono(0.0, keep, cohort as real);
    var c := Ceil(keep * cohort as real);
    var s := if c < 1 then 1 else if c > cohort then cohort else c;
    if s < 2 && cohort >= 2 then 2 else s
  }

  /** Arguments the decomposer rejects. */
  predicate Rejected(totalSeconds: real, gates: Option<seq<Option<real>>>) {
    totalSeconds <= 0.0 || (gates.Some? && |gates.value| != |STAGES|)
  }

  /** Phase `j` is laid out as its stage says, after the phases before it. */
  ghost predicate Laid(totalSeconds: real, gates: Option<seq<Option<real>>>, n: int, ps: seq<Phase>, j: nat)
    requires !Rejected(totalSeconds, gates) && j < |ps| && j < |STAGES|
  {
    && ps[j].name == STAGES[j].name && ps[j].budgetSeconds == totalSeconds * STAGES[j].budgetFrac
    && 1 <= ps[j].survivors <= ps[j].cohortSize
    && (j == |STAGES| - 1 ==> ps[j].survivors == 1)
    && (j < |STAGES| - 1 ==> LeastCut(STAGES[j].keepFrac, ps[j].cohortSize, ps[j].survivors))
    && (n >= 2 ==> ps[j].cohortSize >= 2)
    && ps[j].gate == (if gates.Some? then gates.value[j] else None)
    && ps[j].dependsOn == (if j == 0 then None else Some(STAGES[j - 1].name))
    && ps[j].cohortSize == (if j == 0 then AtLeastOne(n) else ps[j - 1].survivors)
  }

  ghost predicate AllLaid(totalSeconds: real, gates: Option<seq<Option<real>>>, n: int, ps: seq<Phase>)
    requires !Rejected(totalSeconds, gates) && |ps| <= |STAGES|
  {
    forall j :: 0 <= j < |ps| ==> Laid(totalSeconds, gates, n, ps, j)
  }

  lemma LaidMore(totalSeconds: real, gates: Option<seq<Option<real>>>, n: int, ps: seq<Phase>, p: Phase)
    requires !Rejected(totalSeconds, gates) && |ps| < |STAGES| && AllLaid(totalSeconds, gates, n, ps)
    requires Laid(totalSeconds, gates, n, ps + [p], |ps|)
    ensures AllLaid(totalSeconds, gates, n, ps + [p])
  {
    forall j | 0 <= j < |ps + [p]| ensures Laid(totalSeconds, gates, n, ps + [p], j) {
      if j < |ps| { assert Laid(totalSeconds, gates, n, ps, j); }
    }
  }

  /** A cheap screen that a quarter of the candidates survive, a refine phase that 0.4 of those
      survive, and a confirm phase with half of the time and one winner. */
  ghost predicate ThreeStages(total: real, n: int, ps: seq<Phase>)
    requires |ps| == 3
  {
    && ps[0].budgetSeconds == 0.2 * total && ps[1].budgetSeconds == 0.3 * total && ps[2].budgetSeconds == 0.5 * total
    && ps[0].cohortSize == (if n < 1 then 1 else n) && LeastCut(0.25, ps[0].cohortSize, ps[0].survivors)
    && ps[1].cohortSize == ps[0].survivors && LeastCut(0.4, ps[1].cohortSize, ps[1].survivors)
    && ps[2].cohortSize == ps[1].survivors && ps[2].survivors == 1
  }

  /** Builds the screen, refine and confirm phases; `None` stands for rejected arguments.  The
      plan is always valid and spends exactly the total. */
  method Decompose(totalSeconds: real, nCandidates: int, gates: Option<seq<Option<real>>>) returns (plan: Option<Plan>)
    ensures plan.None? <==> Rejected(totalSeconds, gates)
    ensures plan.Some? ==>
      && plan.value.totalSeconds == totalSeconds && ValidPlan(plan.value)
      && |plan.value.phases| == |STAGES| && AllLaid(totalSeconds, gates, nCandidates, plan.value.phases)
      && Allocated(plan.value.phases) == totalSeconds && ThreeStages(totalSeconds, nCandidates, plan.value.phases)
  {
    if Rejected(totalSeconds, gates) {
      return None;
    }
    var phases: seq<Phase> := [];
    var cohort := AtLeastOne(nCandidates);
    var prev: Option<string> := None;
    for i := 0 to |STAGES|
      invariant |phases| == i && AllLaid(totalSeconds, gates, nCandidates, phases)
      invariant cohort == (if i == 0 then AtLeastOne(nCandidates) else phases[i - 1].survivors) >= 1
      invariant prev == (if i == 0 then None else Some(STAGES[i - 1].name))
      invariant nCandidates >= 2 && i < |STAGES| ==> cohort >= 2
    {
      var stage := STAGES[i];
      var survivors := if i == |STAGES| - 1 then 1 else Narrowed(stage.keepFrac, cohort);
      var gate := if gates.Some? then gates.value[i] else None;
      var phase := Phase(stage.name, totalSeconds * stage.budgetFrac, cohort, survivors, gate, prev);
      assert Laid(totalSeconds, gates, nCandidates, phases + [phase], i);
      LaidMore(totalSeconds, gates, nCandidates, phases, phase);
      phases := phases + [phase];
      prev := Some(stage.name);
      cohort := survivors;
    }
    LaidIsValid(totalSeconds, gates, nCandidates, phases);
    var ok := Validate(Plan(phases, totalSeconds));
    assert ok;
    plan := Some(Plan(phases, totalSeconds));
  }

  lemma LaidIsValid(totalSeconds: real, gates: Option<seq<Option<real>>>, n: int, ps: seq<Phase>)
    requires !Rejected(totalSeconds, gates) && |ps| == |STAGES| && AllLaid(totalSeconds, gates, n, ps)
    ensures ValidPlan(Plan(ps, totalSeconds)) && Allocated(ps) == totalSeconds && ThreeStages(totalSeconds, n, ps)
  {
    assert Laid(totalSeconds, gates, n, ps, 0) && Laid(totalSeconds, gates, n, ps, 1) && Laid(totalSeconds, gates, n, ps, 2);
    assert STAGES[0] == Stage("screen", 0.2, 0.25);
    assert STAGES[1] == Stage("refine", 0.3, 0.4);
    assert STAGES[2] == Stage("confirm", 0.5, 1.0);
    ThreePhases(ps, totalSeconds);
  }

  lemma ThreePhases(ps: seq<Phase>, total: real)
    requires |ps| == 3 && total > 0.0
    requires ps[0].name == "screen" && ps[1].name == "refine" && ps[2].name == "confirm"
    requires ps[0].budgetSeconds == total * 0.2 && ps[1].budgetSeconds == total * 0.3 && ps[2].budgetSeconds == total * 0.5
    requires forall j :: 0 <= j < 3 ==> 1 <= ps[j].survivors <= ps[j].cohortSize
    requires ps[2].survivors == 1 && ps[1].cohortSize == ps[0].survivors && ps[2].cohortSize == ps[1].survivors
    requires ps[0].dependsOn.None? && ps[1].dependsOn == Some("screen") && ps[2].dependsOn == Some("refine")
    ensures ValidPlan(Plan(ps, total)) && Allocated(ps) == total
  {
    AllocatedThree(ps);
    ThreeNames(ps);
    ThreeEdges(ps);
    ThreeSizes(ps);
  }

  lemma ThreeEdges(ps: seq<Phase>)
    requires |ps| == 3 && ps[0].dependsOn.None? && ps[1].dependsOn == Some(ps[0].name) && ps[2].dependsOn == Some(ps[1].name)
    ensures (forall i :: 0 <= i < |ps| ==> ForwardEdge(ps, i)) && OneRoot(ps)
  {
    forall i | 0 <= i < |ps| ensures ForwardEdge(ps, i) {
      if i > 0 { assert ps[i - 1].name == ps[i].dependsOn.value; }
    }
    assert OnlyRoot(ps, 0);
  }

  lemma ThreeSizes(ps: seq<Phase>)
    requires |ps| == 3
    requires ps[0].budgetSeconds > 0.0 && ps[1].budgetSeconds > 0.0 && ps[2].budgetSeconds > 0.0
    requires forall j :: 0 <= j < 3 ==> 1 <= ps[j].survivors <= ps[j].cohortSize
    requires ps[1].cohortSize == ps[0].survivors && ps[2].cohortSize == ps[1].survivors
    ensures forall i :: 0 <= i < |ps| ==> Sized(ps[i])
    ensures forall i :: 0 < i < |ps| ==> ps[i].cohortSize == ps[i - 1].survivors
  {}

  lemma ThreeNames(ps: seq<Phase>)
    requires |ps| == 3 && ps[0].name == "screen" && ps[1].name == "refine" && ps[2].name == "confirm"
    ensures DistinctNames(ps)
  {
    assert ps[0].name[0] != ps[1].name[0] && ps[0].name[0] != ps[2].name[0] && ps[1].name[0] != ps[2].name[0];
  }

  lemma AllocatedThree(ps: seq<Phase>)
    requires |ps| == 3
    ensures Allocated(ps) == ps[0].budgetSeconds + ps[1].budgetSeconds + ps[2].budgetSeconds
  {
    assert ps[..2][..1] == ps[..1];
    assert Allocated(ps[..0]) == 0.0;
    assert Allocated(ps[..1]) == ps[0].budgetSeconds;
    assert Allocated(ps[..2]) == ps[0].budgetSeconds + ps[1].budgetSeconds;
  }
}
