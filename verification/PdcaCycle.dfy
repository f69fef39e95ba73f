/**
  The Plan-Do-Check-Act orchestrator (orchestrator.py): its phase machine over whole sequences
  of step, pause, resume and abort. The planner, the executor and the readiness assessor answer
  whatever each step's input says.
*/
module Pdca {
  import opened Wrappers

  datatype Phase = Plan | Do | Check | Act | Done | Aborted

  // `readiness_level` of a report: JSON null, or a string.
  datatype Verdict = Null | Level(name: string)

  datatype Delta = FirstMeasurement | Improved | Worsened | Unchanged

  datatype Entry = Entry(iteration: int, verdict: Verdict, delta: Delta)

  type ActionId = string

  // A milestone's action requests; one that is not a dict is None.
  type Milestone = seq<Option<ActionId>>

  datatype Planned = PlannerRaised | PlannerNotDict | Milestones(milestones: seq<Milestone>)

  datatype Submission = ExecutorRaised | Finished | ApprovedPending

  // A report without the key counts as "not-ready".
  datatype Assessment = AssessorRaised | AssessorNotDict | Report(level: Option<Verdict>)

  datatype Input = Input(planned: Planned, submission: nat -> Submission, assessment: Assessment)

  datatype State = State(
    phase: Phase,
    iteration: int,
    history: seq<Entry>,
    paused: bool,
    interaction: Option<nat>,
    maxIterations: int,
    planCache: seq<Milestone>,
    submitted: seq<ActionId>,
    prompts: nat)

  const READINESS_TERMINAL := "ready-with-high-confidence"

  function Rank(v: Verdict): int {
    if v == Level("not-ready") then 0
    else if v == Level("partially-ready") then 1
    else if v == Level("ready-with-conditions") then 2
    else if v == Level("ready-with-high-confidence") then 3
    else -1
  }

  // `previous` is None when there is no history; a null verdict in it reads the same.
  function VerdictDelta(previous: Option<Verdict>, current: Verdict): Delta {
    if previous == None || previous == Some(Null) then FirstMeasurement
    else if Rank(current) > Rank(previous.value) then Improved
    else if Rank(current) < Rank(previous.value) then Worsened
    else Unchanged
  }

  // ---------------------------------------------------------------------------
  // The Do pass: submit in order, halt at the first action that awaits approval.
  // ---------------------------------------------------------------------------

  function RequestsOf(m: Milestone): seq<ActionId> {
    if m == [] then []
    else (if m[0].Some? then [m[0].value] else []) + RequestsOf(m[1..])
  }

  function AllRequests(milestones: seq<Milestone>): seq<ActionId> {
    if milestones == [] then [] else RequestsOf(milestones[0]) + AllRequests(milestones[1..])
  }

  // The place of the first request, counting from submission `n`, that awaits approval.
  function FirstPending(requests: seq<ActionId>, submission: nat -> Submission, n: nat): (k: nat)
    ensures k <= |requests|
    ensures k < |requests| ==> submission(n + k) == ApprovedPending
    ensures forall j :: n <= j < n + k ==> submission(j) != ApprovedPending
    decreases |requests|
  {
    if requests == [] || submission(n) == ApprovedPending then 0
    else 1 + FirstPending(requests[1..], submission, n + 1)
  }

  // ---------------------------------------------------------------------------
  // The phases.
  // ---------------------------------------------------------------------------

  function Prompted(s: State): State {
    s.(paused := true, interaction := Some(s.prompts), prompts := s.prompts + 1)
  }

  function PlanPhase(s: State, planned: Planned): State {
    match planned
    case PlannerRaised | PlannerNotDict => s.(phase := Aborted)
    case Milestones(ms) => s.(planCache := ms, phase := if ms == [] then Check else Do)
  }

  // Requests submitted in order, and whether one that awaits approval halted that.
  function Submitted(s: State, requests: seq<ActionId>, submission: nat -> Submission): (State, bool) {
    var k := FirstPending(requests, submission, |s.submitted|);
    if k < |requests| then (Prompted(s.(submitted := s.submitted + requests[..k + 1])), true)
    else (s.(submitted := s.submitted + requests), false)
  }

  function DoPhase(s: State, submission: nat -> Submission): State {
    var (t, halted) := Submitted(s, AllRequests(s.planCache), submission);
    if halted then t else t.(phase := Check)
  }

  function Previous(history: seq<Entry>): Option<Verdict> {
    if history == [] then None else Some(history[|history| - 1].verdict)
  }

  function CheckPhase(s: State, assessment: Assessment): State {
    match assessment
    case AssessorRaised | AssessorNotDict => s.(phase := Aborted)
    case Report(level) =>
      var verdict := if level.Some? then level.value else Level("not-ready");
      s.(history := s.history + [Entry(s.iteration, verdict, VerdictDelta(Previous(s.history), verdict))], phase := Act)
  }

  function ActPhase(s: State): State {
    if s.history == [] then s.(phase := Aborted)
    else
      var latest := s.history[|s.history| - 1];
      if latest.verdict == Level(READINESS_TERMINAL) then s.(phase := Done)
      else if latest.delta in {Improved, FirstMeasurement} then
        if s.iteration >= s.maxIterations then s.(phase := Done)
        else s.(iteration := s.iteration + 1, phase := Plan)
      else Prompted(s)
  }

  // step(): nothing happens when the cycle is over or paused.
  function StepOf(s: State, input: Input): State {
    if s.phase in {Done, Aborted} || s.paused then s
    else match s.phase
      case Plan => PlanPhase(s, input.planned)
      case Do => DoPhase(s, input.submission)
      case Check => CheckPhase(s, input.assessment)
      case _ => ActPhase(s)
  }

  datatype Op = Step(input: Input) | Pause | Resume | Abort

  function Apply(s: State, op: Op): State {
    match op
    case Step(input) => StepOf(s, input)
    case Pause => s.(paused := true)
    case Resume => s.(paused := false, interaction := None)
    case Abort => s.(phase := Aborted)
  }

  function ApplyAll(s: State, ops: seq<Op>): State
    decreases |ops|
  {
    if ops == [] then s else ApplyAll(Apply(s, ops[0]), ops[1..])
  }

  // A new cycle after start().
  function Started(maxIterations: int): State {
    State(Plan, 1, [], false, None, maxIterations, [], [], 0)
  }

  lemma {:induction false} ApplyAllAppend(s: State, a: seq<Op>, b: seq<Op>)
    ensures ApplyAll(s, a + b) == ApplyAll(ApplyAll(s, a), b)
    decreases |a|
  {
    if a == [] {
      assert a + b == b;
    } else {
      assert (a + b)[1..] == a[1..] + b;
      ApplyAllAppend(Apply(s, a[0]), a[1..], b);
    }
  }

  // ---------------------------------------------------------------------------
  // Phase and history agree.
  // ---------------------------------------------------------------------------

  function Max(a: int, b: int): int {
    if a < b then b else a
  }

  // How many iterations the history can have entries for, phase by phase.
  predicate HistoryFits(s: State) {
    match s.phase
    case Plan | Do | Check => |s.history| == s.iteration - 1
    case Act | Done => |s.history| == s.iteration
    case Aborted => s.iteration - 1 <= |s.history| <= s.iteration
  }

  // An entry on which Act goes on to another iteration.
  predicate Advancing(e: Entry) {
    e.verdict != Level(READINESS_TERMINAL) && e.delta in {Improved, FirstMeasurement}
  }

  // Entry i is the one iteration i + 1 wrote, compared with the entry before it.
  predicate EntryFits(history: seq<Entry>, i: nat)
    requires i < |history|
  {
    && history[i].iteration == i + 1
    && history[i].delta == VerdictDelta(if i == 0 then None else Some(history[i - 1].verdict), history[i].verdict)
  }

  ghost predicate Inv(s: State) {
    && 1 <= s.iteration <= Max(1, s.maxIterations)
    && HistoryFits(s)
    && (forall i :: 0 <= i < |s.history| ==> EntryFits(s.history, i))
    && (forall i :: 0 <= i < s.iteration - 1 ==> Advancing(s.history[i]))
  }

  lemma CheckKeepsInv(s: State, assessment: Assessment)
    requires Inv(s) && s.phase == Check
    ensures Inv(CheckPhase(s, assessment))
  {
    var t := CheckPhase(s, assessment);
    forall i | 0 <= i < |s.history|
      ensures EntryFits(t.history, i)
    {
      assert EntryFits(s.history, i);
    }
  }

  lemma StepKeepsInv(s: State, input: Input)
    requires Inv(s)
    ensures Inv(StepOf(s, input))
  {
    if s.phase == Check && !s.paused {
      CheckKeepsInv(s, input.assessment);
    }
  }

  lemma {:induction false} RunKeepsInv(s: State, ops: seq<Op>)
    requires Inv(s)
    ensures Inv(ApplyAll(s, ops)) && ApplyAll(s, ops).maxIterations == s.maxIterations
    decreases |ops|
  {
    if ops == [] {
    } else {
      if ops[0].Step? {
        StepKeepsInv(s, ops[0].input);
      }
      RunKeepsInv(Apply(s, ops[0]), ops[1..]);
    }
  }

  // The iteration stays within the cap, the history has one entry per finished Check, and entry
  // i belongs to iteration i + 1.
  ghost predicate PhaseFitsHistory(s: State) {
    && 1 <= s.iteration <= Max(1, s.maxIterations)
    && HistoryFits(s)
    && forall i :: 0 <= i < |s.history| ==> s.history[i].iteration == i + 1
  }

  lemma InvMeaning(s: State)
    requires Inv(s)
    ensures PhaseFitsHistory(s)
  {
    forall i | 0 <= i < |s.history|
      ensures s.history[i].iteration == i + 1
    {
      assert EntryFits(s.history, i);
    }
  }

  // So it is in every state reachable from one start.
  lemma PhaseAndHistoryAgree(maxIterations: int, ops: seq<Op>)
    ensures PhaseFitsHistory(ApplyAll(Started(maxIterations), ops))
  {
    RunKeepsInv(Started(maxIterations), ops);
    InvMeaning(ApplyAll(Started(maxIterations), ops));
  }

  // ---------------------------------------------------------------------------
  // Progress.
  // ---------------------------------------------------------------------------

  function PhaseRank(p: Phase): nat {
    match p
    case Plan => 4
    case Do => 3
    case Check => 2
    case Act => 1
    case Done | Aborted => 0
  }

  // The work left, and the phase it stands at.
  function Measure(s: State): nat
    requires Inv(s)
  {
    5 * (Max(1, s.maxIterations) - s.iteration) + PhaseRank(s.phase)
  }

  // A step that does anything either comes closer to the end, or pauses where it is with a new prompt.
  lemma StepProgress(s: State, input: Input)
    requires Inv(s) && !s.paused && s.phase !in {Done, Aborted}
    ensures var t := StepOf(s, input);
            && Inv(t)
            && (if t.paused then t.phase == s.phase && t.iteration == s.iteration && t.history == s.history
                else Measure(t) < Measure(s))
            && (if t.paused then t.interaction == Some(s.prompts) && t.prompts == s.prompts + 1
                else t.interaction == s.interaction && t.prompts == s.prompts)
  {
    StepKeepsInv(s, input);
  }

  // The steps of a run that did something and did not pause.
  function Advances(s: State, ops: seq<Op>): nat
    decreases |ops|
  {
    if ops == [] then 0
    else
      var t := Apply(s, ops[0]);
      (if ops[0].Step? && !s.paused && s.phase !in {Done, Aborted} && !t.paused then 1 else 0) + Advances(t, ops[1..])
  }

  // However a cycle is stepped, paused, resumed and aborted, at most five advances an iteration happen.
  lemma {:induction false} BoundedAdvances(s: State, ops: seq<Op>)
    requires Inv(s)
    ensures Advances(s, ops) <= Measure(s)
    decreases |ops|
  {
    if ops == [] {
    } else {
      if ops[0].Step? {
        StepKeepsInv(s, ops[0].input);
        if !s.paused && s.phase !in {Done, Aborted} {
          StepProgress(s, ops[0].input);
        }
      }
      BoundedAdvances(Apply(s, ops[0]), ops[1..]);
    }
  }

  // A cycle that Act found stuck.
  predicate Stuck(s: State) {
    s.phase == Act && s.history != [] && !Advancing(s.history[|s.history| - 1])
    && s.history[|s.history| - 1].verdict != Level(READINESS_TERMINAL)
  }

  // Resuming does not help: only abort() ever leaves a stuck Act phase.
  lemma {:induction false} StuckUntilAborted(s: State, ops: seq<Op>)
    requires Stuck(s)
    requires Abort !in ops
    ensures var t := ApplyAll(s, ops);
            Stuck(t) && t.history == s.history && t.iteration == s.iteration && t.submitted == s.submitted
    decreases |ops|
  {
    if ops == [] {
    } else {
      StuckUntilAborted(Apply(s, ops[0]), ops[1..]);
    }
  }

  // ---------------------------------------------------------------------------
  // The readiness ranks bound the iterations.
  // ---------------------------------------------------------------------------

  predicate StringVerdict(op: Op) {
    op.Step? && op.input.assessment.Report? ==> op.input.assessment.level != Some(Null)
  }

  predicate StringHistory(s: State) {
    forall i :: 0 <= i < |s.history| ==> s.history[i].verdict.Level?
  }

  lemma {:induction false} StringsStayStrings(s: State, ops: seq<Op>)
    requires StringHistory(s)
    requires forall i :: 0 <= i < |ops| ==> StringVerdict(ops[i])
    ensures StringHistory(ApplyAll(s, ops))
    decreases |ops|
  {
    if ops == [] {
    } else {
      assert StringVerdict(ops[0]);
      StringsStayStrings(Apply(s, ops[0]), ops[1..]);
    }
  }

  // As long as entries advance, their ranks rise strictly and stay below the terminal rank.
  lemma {:induction false} RanksRise(s: State, j: nat)
    requires Inv(s) && StringHistory(s)
    requires j < |s.history|
    requires forall i :: 0 <= i <= j ==> Advancing(s.history[i])
    ensures j - 1 <= Rank(s.history[j].verdict) <= 2
    ensures forall i :: 0 <= i < j ==> Rank(s.history[i].verdict) < Rank(s.history[j].verdict)
  {
    assert EntryFits(s.history, j);
    if j > 0 {
      RanksRise(s, j - 1);
    }
  }

  ghost predicate RanksRose(s: State) {
    && s.iteration - 1 <= |s.history|
    && forall i, j :: 0 <= i < j < s.iteration - 1 ==> Rank(s.history[i].verdict) < Rank(s.history[j].verdict)
  }

  // A step that ends the cycle because of the iteration cap.
  predicate HitsCap(s: State) {
    s.phase == Act && !s.paused && s.history != [] && Advancing(s.history[|s.history| - 1])
    && s.iteration >= s.maxIterations
  }

  lemma StringsBound(s: State)
    requires Inv(s) && StringHistory(s)
    ensures s.iteration <= Max(1, s.maxIterations) && s.iteration <= 5 && RanksRose(s)
    ensures 5 <= s.maxIterations ==> !HitsCap(s)
  {
    forall j | 0 <= j < s.iteration - 1
      ensures forall i :: 0 <= i < j ==> Rank(s.history[i].verdict) < Rank(s.history[j].verdict)
    {
      RanksRise(s, j);
    }
    if s.iteration >= 2 {
      RanksRise(s, s.iteration - 2);
    }
    if HitsCap(s) {
      RanksRise(s, |s.history| - 1);
    }
  }

  /**
    With string verdicts the iteration never exceeds five, whatever the configured cap: every
    iteration but the last raised the readiness rank, and there are four ranks below the
    terminal one, counting unknown levels. So the branch of Act that ends the cycle because of
    the cap is dead once the cap is five or more, and at the default of ten.
  */
  lemma IterationsBounded(maxIterations: int, ops: seq<Op>)
    requires forall i :: 0 <= i < |ops| ==> StringVerdict(ops[i])
    ensures var s := ApplyAll(Started(maxIterations), ops);
            && s.iteration <= Max(1, maxIterations) && s.iteration <= 5 && RanksRose(s)
            && (5 <= maxIterations ==> !HitsCap(s))
  {
    RunKeepsInv(Started(maxIterations), ops);
    StringsStayStrings(Started(maxIterations), ops);
    StringsBound(ApplyAll(Started(maxIterations), ops));
  }

  // ---------------------------------------------------------------------------
  // The bounds are exact, and need the string verdicts.
  // ---------------------------------------------------------------------------

  function Assessed(v: Verdict): Op {
    Step(Input(Milestones([]), (_: nat) => Finished, Report(Some(v))))
  }

  // Plan with nothing to do, Check with verdict v, Act.
  function OneIteration(v: Verdict): seq<Op> {
    [Assessed(v), Assessed(v), Assessed(v)]
  }

  function Iterations(vs: seq<Verdict>): seq<Op> {
    if vs == [] then [] else Iterations(vs[..|vs| - 1]) + OneIteration(vs[|vs| - 1])
  }

  predicate GoesOn(previous: Option<Verdict>, v: Verdict) {
    v != Level(READINESS_TERMINAL) && VerdictDelta(previous, v) in {Improved, FirstMeasurement}
  }

  function Before(vs: seq<Verdict>, i: nat): Option<Verdict>
    requires i <= |vs|
  {
    if i == 0 then None else Some(vs[i - 1])
  }

  predicate AllGoOn(vs: seq<Verdict>) {
    forall i :: 0 <= i < |vs| ==> GoesOn(Before(vs, i), vs[i])
  }

  lemma PrefixGoesOn(vs: seq<Verdict>, k: nat)
    requires AllGoOn(vs) && k <= |vs|
    ensures AllGoOn(vs[..k])
  {
    forall i | 0 <= i < k
      ensures GoesOn(Before(vs[..k], i), vs[..k][i])
    {
      assert GoesOn(Before(vs, i), vs[i]);
    }
  }

  // About to plan iteration |vs| + 1, after verdicts vs.
  predicate PlanningAfter(s: State, vs: seq<Verdict>) {
    && s.phase == Plan && !s.paused && s.iteration == |vs| + 1
    && Previous(s.history) == Before(vs, |vs|)
  }

  lemma ThreeSteps(s: State, a: Op, b: Op, c: Op)
    ensures ApplyAll(s, [a, b, c]) == Apply(Apply(Apply(s, a), b), c)
  {
    var s1 := Apply(s, a);
    var s2 := Apply(s1, b);
    assert [a, b, c][1..] == [b, c] && [b, c][1..] == [c] && [c][1..] == [];
    assert ApplyAll(s2, [c]) == ApplyAll(Apply(s2, c), []);
    assert ApplyAll(s1, [b, c]) == ApplyAll(s2, [c]);
  }

  lemma {:induction false} AdvanceOnce(s: State, vs: seq<Verdict>, v: Verdict)
    requires PlanningAfter(s, vs) && s.iteration < s.maxIterations && GoesOn(Previous(s.history), v)
    ensures var t := ApplyAll(s, OneIteration(v));
            PlanningAfter(t, vs + [v]) && t.maxIterations == s.maxIterations
  {
    ThreeSteps(s, Assessed(v), Assessed(v), Assessed(v));
  }

  lemma {:induction false} LastGoesOn(vs: seq<Verdict>)
    requires vs != [] && AllGoOn(vs)
    ensures var rest := vs[..|vs| - 1]; AllGoOn(rest) && GoesOn(Before(rest, |rest|), vs[|vs| - 1])
  {
    PrefixGoesOn(vs, |vs| - 1);
    assert GoesOn(Before(vs, |vs| - 1), vs[|vs| - 1]);
  }

  lemma {:induction false} AdvanceMore(s0: State, vs: seq<Verdict>)
    requires vs != []
    requires var rest := vs[..|vs| - 1];
             var s := ApplyAll(s0, Iterations(rest));
             && PlanningAfter(s, rest) && s.maxIterations == s0.maxIterations && s.iteration < s.maxIterations
             && GoesOn(Before(rest, |rest|), vs[|vs| - 1])
    ensures var t := ApplyAll(s0, Iterations(vs)); PlanningAfter(t, vs) && t.maxIterations == s0.maxIterations
  {
    var rest, v := vs[..|vs| - 1], vs[|vs| - 1];
    AdvanceOnce(ApplyAll(s0, Iterations(rest)), rest, v);
    ApplyAllAppend(s0, Iterations(rest), OneIteration(v));
    assert rest + [v] == vs;
  }

  lemma {:induction false} AdvanceMany(s0: State, vs: seq<Verdict>)
    requires PlanningAfter(s0, []) && |vs| < Max(1, s0.maxIterations) && AllGoOn(vs)
    ensures var s := ApplyAll(s0, Iterations(vs));
            PlanningAfter(s, vs) && s.maxIterations == s0.maxIterations
    decreases |vs|
  {
    if vs == [] {
    } else {
      LastGoesOn(vs);
      AdvanceMany(s0, vs[..|vs| - 1]);
      AdvanceMore(s0, vs);
    }
  }

  lemma {:induction false} IterationsAreStrings(vs: seq<Verdict>)
    requires Null !in vs
    ensures forall i :: 0 <= i < |Iterations(vs)| ==> StringVerdict(Iterations(vs)[i])
    decreases |vs|
  {
    if vs == [] {
    } else {
      IterationsAreStrings(vs[..|vs| - 1]);
      assert forall op :: op in OneIteration(vs[|vs| - 1]) ==> StringVerdict(op);
    }
  }

  // Verdicts that each improve as little as they can, from an unknown level on.
  const SLOWLY_IMPROVING: seq<Verdict> :=
    [Level("unrated"), Level("not-ready"), Level("partially-ready"), Level("ready-with-conditions")]

  // Five is the exact bound: string verdicts can lead to the smaller of five and the cap.
  lemma BoundReached(maxIterations: int) returns (ops: seq<Op>)
    ensures forall i :: 0 <= i < |ops| ==> StringVerdict(ops[i])
    ensures ApplyAll(Started(maxIterations), ops).iteration
         == if Max(1, maxIterations) < 5 then Max(1, maxIterations) else 5
  {
    var n := if Max(1, maxIterations) < 5 then Max(1, maxIterations) else 5;
    var vs := SLOWLY_IMPROVING[..n - 1];
    assert AllGoOn(SLOWLY_IMPROVING);
    PrefixGoesOn(SLOWLY_IMPROVING, n - 1);
    IterationsAreStrings(vs);
    AdvanceMany(Started(maxIterations), vs);
    ops := Iterations(vs);
  }

  lemma TwoSteps(s: State, a: Op, b: Op)
    ensures ApplyAll(s, [a, b]) == Apply(Apply(s, a), b)
  {
    assert [a, b][1..] == [b] && [b][1..] == [];
    assert ApplyAll(Apply(s, a), [b]) == ApplyAll(Apply(Apply(s, a), b), []);
  }

  lemma MeetCap(s: State, vs: seq<Verdict>, v: Verdict)
    requires PlanningAfter(s, vs) && s.iteration >= s.maxIterations && GoesOn(Before(vs, |vs|), v)
    ensures HitsCap(ApplyAll(s, [Assessed(v), Assessed(v)]))
  {
    TwoSteps(s, Assessed(v), Assessed(v));
  }

  lemma {:induction false} ToTheCap(s0: State, vs: seq<Verdict>, v: Verdict) returns (ops: seq<Op>)
    requires PlanningAfter(s0, []) && |vs| == Max(1, s0.maxIterations) - 1
    requires AllGoOn(vs) && GoesOn(Before(vs, |vs|), v) && Null !in vs && v != Null
    ensures forall i :: 0 <= i < |ops| ==> StringVerdict(ops[i])
    ensures HitsCap(ApplyAll(s0, ops))
  {
    IterationsAreStrings(vs);
    AdvanceMany(s0, vs);
    MeetCap(ApplyAll(s0, Iterations(vs)), vs, v);
    ApplyAllAppend(s0, Iterations(vs), [Assessed(v), Assessed(v)]);
    ops := Iterations(vs) + [Assessed(v), Assessed(v)];
  }

  // With a cap of four or less string verdicts can reach the branch that IterationsBounded calls dead.
  lemma CapReached(maxIterations: int) returns (ops: seq<Op>)
    requires maxIterations <= 4
    ensures forall i :: 0 <= i < |ops| ==> StringVerdict(ops[i])
    ensures HitsCap(ApplyAll(Started(maxIterations), ops))
  {
    var n := Max(1, maxIterations);
    assert AllGoOn(SLOWLY_IMPROVING);
    PrefixGoesOn(SLOWLY_IMPROVING, n - 1);
    assert GoesOn(Before(SLOWLY_IMPROVING, n - 1), SLOWLY_IMPROVING[n - 1]);
    ops := ToTheCap(Started(maxIterations), SLOWLY_IMPROVING[..n - 1], SLOWLY_IMPROVING[n - 1]);
  }

  // A null verdict counts as a first measurement again, so an assessor that only answers null
  // takes the cycle to any iteration up to the cap.
  lemma NullVerdictsRunOn(maxIterations: int, n: nat) returns (ops: seq<Op>)
    requires 1 <= n <= Max(1, maxIterations)
    ensures ApplyAll(Started(maxIterations), ops).iteration == n
  {
    var vs := seq(n - 1, _ => Null);
    forall i | 0 <= i < n - 1
      ensures GoesOn(Before(vs, i), vs[i])
    {
    }
    AdvanceMany(Started(maxIterations), vs);
    ops := Iterations(vs);
  }

  // ---------------------------------------------------------------------------
  // The Do pass.
  // ---------------------------------------------------------------------------

  /**
    A Do pass submits the plan's requests in order up to and including the first one that awaits
    approval, and pauses exactly when there is one. A later pass over the same plan starts again
    from the first request.
  */
  lemma DoPassMeaning(s: State, input: Input) returns (k: nat)
    requires s.phase == Do && !s.paused
    ensures var t, requests, n := StepOf(s, input), AllRequests(s.planCache), |s.submitted|;
            && k <= |requests|
            && t.submitted == s.submitted + requests[..k]
            && (t.paused <==> k > 0 && input.submission(n + k - 1) == ApprovedPending)
            && (forall j :: n <= j < n + k - 1 ==> input.submission(j) != ApprovedPending)
            && (if t.paused then t.phase == Do && t.planCache == s.planCache else k == |requests| && t.phase == Check)
  {
    var requests, n := AllRequests(s.planCache), |s.submitted|;
    k := FirstPending(requests, input.submission, n);
    assert requests[..|requests|] == requests;
    if k < |requests| {
      k := k + 1;
    }
  }

  // The requests of a plan are those of its milestones in order, those of a milestone its dicts.
  lemma {:induction false} RequestsInParts(a: Milestone, b: Milestone, r: ActionId)
    ensures RequestsOf(a + b) == RequestsOf(a) + RequestsOf(b)
    ensures RequestsOf([]) == [] == RequestsOf([None]) && RequestsOf([Some(r)]) == [r]
    decreases |a|
  {
    var none: Milestone := [None];
    assert [Some(r)][1..] == [] && none[1..] == [];
    if a == [] {
      assert a + b == b;
    } else {
      assert (a + b)[1..] == a[1..] + b;
      RequestsInParts(a[1..], b, r);
    }
  }

  lemma {:induction false} AllRequestsInParts(a: seq<Milestone>, b: seq<Milestone>, m: Milestone)
    ensures AllRequests(a + b) == AllRequests(a) + AllRequests(b)
    ensures AllRequests([]) == [] && AllRequests([m]) == RequestsOf(m)
    decreases |a|
  {
    assert [m][1..] == [];
    assert RequestsOf(m) + [] == RequestsOf(m);
    if a == [] {
      assert a + b == b;
    } else {
      assert (a + b)[1..] == a[1..] + b;
      AllRequestsInParts(a[1..], b, m);
    }
  }

  // ---------------------------------------------------------------------------
  // Over a whole run: plans are carried out, and verdicts are recorded.
  // ---------------------------------------------------------------------------

  predicate Works(s: State, op: Op, phase: Phase) {
    op.Step? && !s.paused && s.phase == phase
  }

  function PlanAfter(s: State, op: Op, plan: seq<Milestone>): seq<Milestone> {
    if Works(s, op, Plan) && op.input.planned.Milestones? then op.input.planned.milestones else plan
  }

  // What the planner last returned, and the levels the assessor reported, in order.
  function LastPlan(s: State, ops: seq<Op>, plan: seq<Milestone>): seq<Milestone>
    decreases |ops|
  {
    if ops == [] then plan
    else LastPlan(Apply(s, ops[0]), ops[1..], PlanAfter(s, ops[0], plan))
  }

  function Reported(s: State, ops: seq<Op>): seq<Option<Verdict>>
    decreases |ops|
  {
    if ops == [] then []
    else
      (if Works(s, ops[0], Check) && ops[0].input.assessment.Report? then [ops[0].input.assessment.level] else [])
      + Reported(Apply(s, ops[0]), ops[1..])
  }

  ghost predicate EndsWith(xs: seq<ActionId>, ys: seq<ActionId>) {
    |ys| <= |xs| && xs[|xs| - |ys|..] == ys
  }

  // The plan in the cache is `plan`, and once it is to be assessed it has been submitted whole.
  ghost predicate CarriesOut(s: State, plan: seq<Milestone>) {
    && s.planCache == plan
    && (s.phase in {Check, Act, Done} ==> EndsWith(s.submitted, AllRequests(plan)))
  }

  lemma EndsWithPart(xs: seq<ActionId>, ys: seq<ActionId>)
    ensures EndsWith(xs + ys, ys)
  {
  }

  lemma {:induction false} DoCarriesOut(s: State, input: Input)
    requires s.phase == Do && !s.paused
    ensures var t := StepOf(s, input);
            && t.planCache == s.planCache && t.phase in {Do, Check}
            && (t.phase == Check ==> EndsWith(t.submitted, AllRequests(s.planCache)))
  {
    var requests := AllRequests(s.planCache);
    var k := DoPassMeaning(s, input);
    if k == |requests| {
      assert requests[..k] == requests;
      EndsWithPart(s.submitted, requests);
    }
  }

  lemma {:induction false} StepCarriesOut(s: State, op: Op, plan: seq<Milestone>)
    requires CarriesOut(s, plan)
    ensures CarriesOut(Apply(s, op), PlanAfter(s, op, plan))
  {
    if Works(s, op, Do) {
      DoCarriesOut(s, op.input);
    } else if Works(s, op, Plan) {
      assert AllRequests([]) == [];
    } else {
      assert Apply(s, op).submitted == s.submitted && Apply(s, op).planCache == s.planCache;
    }
  }

  lemma {:induction false} RunCarriesOut(s: State, ops: seq<Op>, plan: seq<Milestone>)
    requires CarriesOut(s, plan)
    ensures CarriesOut(ApplyAll(s, ops), LastPlan(s, ops, plan))
    decreases |ops|
  {
    if ops == [] {
    } else {
      StepCarriesOut(s, ops[0], plan);
      RunCarriesOut(Apply(s, ops[0]), ops[1..], PlanAfter(s, ops[0], plan));
    }
  }

  /**
    Plans are carried out. However a cycle is stepped, paused, resumed and aborted: when an
    iteration comes to be assessed, and until the next plan, the submissions end with all requests
    of what the planner last returned, in order.
  */
  lemma {:induction false} PlansAreCarriedOut(maxIterations: int, ops: seq<Op>)
    ensures var s := ApplyAll(Started(maxIterations), ops);
            s.phase in {Check, Act, Done} ==>
              EndsWith(s.submitted, AllRequests(LastPlan(Started(maxIterations), ops, [])))
  {
    assert EndsWith([], AllRequests([]));
    RunCarriesOut(Started(maxIterations), ops, []);
  }

  // Only a Do pass submits anything.
  lemma OnlyDoSubmits(s: State, op: Op)
    ensures Apply(s, op).submitted != s.submitted ==> Works(s, op, Do)
  {
  }

  function VerdictsOf(history: seq<Entry>): seq<Verdict> {
    seq(|history|, i requires 0 <= i < |history| => history[i].verdict)
  }

  function Recorded(levels: seq<Option<Verdict>>): seq<Verdict> {
    seq(|levels|, i requires 0 <= i < |levels| =>
          match levels[i] case Some(v) => v case None => Level("not-ready"))
  }

  lemma StepRecords(s: State, op: Op)
    ensures VerdictsOf(Apply(s, op).history)
         == VerdictsOf(s.history) +
            (if Works(s, op, Check) && op.input.assessment.Report? then Recorded([op.input.assessment.level]) else [])
  {
    if !(Works(s, op, Check) && op.input.assessment.Report?) {
      assert Apply(s, op).history == s.history;
    }
  }

  lemma RecordedInParts(a: seq<Option<Verdict>>, b: seq<Option<Verdict>>)
    ensures Recorded(a + b) == Recorded(a) + Recorded(b) && Recorded([]) == []
  {
  }

  lemma {:induction false} RunRecords(s: State, ops: seq<Op>)
    ensures VerdictsOf(ApplyAll(s, ops).history) == VerdictsOf(s.history) + Recorded(Reported(s, ops))
    decreases |ops|
  {
    if ops == [] {
    } else {
      var t, op := Apply(s, ops[0]), ops[0];
      var levels := if Works(s, op, Check) && op.input.assessment.Report? then [op.input.assessment.level] else [];
      RunRecords(t, ops[1..]);
      StepRecords(s, op);
      RecordedInParts(levels, Reported(t, ops[1..]));
      assert Recorded(Reported(s, ops)) == Recorded(levels) + Recorded(Reported(t, ops[1..]));
    }
  }

  // A cycle is done only on its last verdict: the terminal one, or one that would have gone on had
  // the cap not been reached. A pending prompt is the last one made, and the cycle waits for it.
  predicate EndsRightly(s: State) {
    && (s.phase == Done ==>
          && s.history != []
          && var last := s.history[|s.history| - 1];
             last.verdict == Level(READINESS_TERMINAL) || (Advancing(last) && s.iteration >= s.maxIterations))
    && (s.interaction.Some? ==> s.paused && s.interaction.value == s.prompts - 1)
  }

  lemma StepEndsRightly(s: State, op: Op)
    requires EndsRightly(s)
    ensures EndsRightly(Apply(s, op))
  {
  }

  lemma {:induction false} RunEndsRightly(s: State, ops: seq<Op>)
    requires EndsRightly(s)
    ensures EndsRightly(ApplyAll(s, ops))
    decreases |ops|
  {
    if ops == [] {
    } else {
      StepEndsRightly(s, ops[0]);
      RunEndsRightly(Apply(s, ops[0]), ops[1..]);
    }
  }

  /**
    The history of any run holds, in order, the levels that the assessor reported, a missing one as
    "not-ready"; and the run is done only on the last of them, as EndsRightly says.
  */
  lemma {:induction false} VerdictsAreRecorded(maxIterations: int, ops: seq<Op>)
    ensures var s := ApplyAll(Started(maxIterations), ops);
            && VerdictsOf(s.history) == Recorded(Reported(Started(maxIterations), ops))
            && EndsRightly(s)
  {
    var s := Started(maxIterations);
    RunRecords(s, ops);
    assert VerdictsOf(s.history) == [];
    assert [] + Recorded(Reported(s, ops)) == Recorded(Reported(s, ops));
    RunEndsRightly(s, ops);
  }

  const LADDER := ["not-ready", "partially-ready", "ready-with-conditions", "ready-with-high-confidence"]

  // A verdict improves on another by standing higher on the ladder, or on it at all; a first one,
  // and one after a null, is neither better nor worse.
  lemma DeltaMeaning(previous: Verdict, current: Verdict, i: nat, j: nat)
    requires i < 4 && j < 4
    ensures VerdictDelta(None, current) == VerdictDelta(Some(Null), current) == FirstMeasurement
    ensures VerdictDelta(Some(Level(LADDER[i])), Level(LADDER[j]))
         == if i < j then Improved else if j < i then Worsened else Unchanged
    ensures (current.Null? || current.name !in LADDER) ==>
              VerdictDelta(Some(Level(LADDER[i])), current) == Worsened
    ensures previous.Level? && previous.name !in LADDER ==>
              && VerdictDelta(Some(previous), Level(LADDER[j])) == Improved
              && (current.Null? || current.name !in LADDER ==> VerdictDelta(Some(previous), current) == Unchanged)
  {
    assert LADDER[0] == "not-ready" && LADDER[1] == "partially-ready";
    assert LADDER[2] == "ready-with-conditions" && LADDER[3] == "ready-with-high-confidence";
    assert LADDER[0][0] != LADDER[1][0] && LADDER[1][0] != LADDER[2][0] && LADDER[0][0] != LADDER[2][0];
    assert LADDER[2][11] != LADDER[3][11];
  }

  lemma SubmitOneSeq(done: seq<ActionId>, r: ActionId, rest: seq<ActionId>, k: nat)
    requires k <= |rest|
    ensures done + ([r] + rest) == done + [r] + rest
    ensures ([r] + rest)[..1] == [r]
    ensures k < |rest| ==> done + ([r] + rest)[..1 + k + 1] == done + [r] + rest[..k + 1]
  {
  }

  lemma {:induction false} RequestsFrom(m: Milestone, a: nat)
    requires a < |m|
    ensures RequestsOf(m[a..])
         == if m[a].Some? then [m[a].value] + RequestsOf(m[a + 1..]) else RequestsOf(m[a + 1..])
  {
    assert m[a..][1..] == m[a + 1..];
  }

  // Submitting a list is submitting its head, and then the rest unless that halted.
  lemma SubmitOne(s: State, r: ActionId, rest: seq<ActionId>, submission: nat -> Submission)
    ensures var t := s.(submitted := s.submitted + [r]);
            Submitted(s, [r] + rest, submission)
            == if submission(|s.submitted|) == ApprovedPending then (Prompted(t), true)
               else Submitted(t, rest, submission)
  {
    var n, all := |s.submitted|, [r] + rest;
    var k := FirstPending(rest, submission, n + 1);
    assert all[1..] == rest;
    assert FirstPending(all, submission, n) == if submission(n) == ApprovedPending then 0 else 1 + k;
    SubmitOneSeq(s.submitted, r, rest, k);
  }

  // The same for a list in two parts.
  lemma {:induction false} SubmittedInParts(s: State, a: seq<ActionId>, b: seq<ActionId>, submission: nat -> Submission)
    ensures Submitted(s, a + b, submission)
         == if Submitted(s, a, submission).1 then Submitted(s, a, submission)
            else Submitted(Submitted(s, a, submission).0, b, submission)
    decreases |a|
  {
    if a == [] {
      assert a + b == b;
      assert s.submitted + [] == s.submitted;
    } else {
      assert a == [a[0]] + a[1..];
      assert a + b == [a[0]] + (a[1..] + b);
      SubmitOne(s, a[0], a[1..], submission);
      SubmitOne(s, a[0], a[1..] + b, submission);
      SubmittedInParts(s.(submitted := s.submitted + [a[0]]), a[1..], b, submission);
    }
  }

  // ---------------------------------------------------------------------------
  // Pausing, resuming and aborting.
  // ---------------------------------------------------------------------------

  // A paused cycle stands still until it is resumed, and then goes on where it was.
  lemma {:induction false} PauseHolds(s: State, ops: seq<Op>)
    requires s.paused && forall op :: op in ops ==> op.Step? || op.Pause?
    ensures ApplyAll(s, ops) == s
    ensures ApplyAll(s, ops + [Resume]) == s.(paused := false, interaction := None)
    decreases |ops|
  {
    assert [Resume][1..] == [];
    if ops == [] {
      assert ops + [Resume] == [Resume];
      assert ApplyAll(s, [Resume]) == ApplyAll(Apply(s, Resume), []);
    } else {
      assert ops[0] in ops && (ops + [Resume])[1..] == ops[1..] + [Resume];
      PauseHolds(s, ops[1..]);
    }
  }

  // An aborted one never does anything again.
  lemma {:induction false} AbortIsFinal(s: State, ops: seq<Op>)
    ensures var t := ApplyAll(s, [Abort] + ops);
            && t.phase == Aborted && t.submitted == s.submitted && t.history == s.history
            && t.iteration == s.iteration && t.prompts == s.prompts
    decreases |ops|
  {
    assert ([Abort] + ops)[1..] == ops;
    if ops == [] {
    } else {
      var aborted := Apply(s, Abort);
      AbortIsFinal(Apply(aborted, ops[0]), ops[1..]);
      assert ([Abort] + ops[1..])[1..] == ops[1..];
      assert Apply(Apply(aborted, ops[0]), Abort) == Apply(aborted, ops[0]);
    }
  }

  // ---------------------------------------------------------------------------
  // The cycle itself.
  // ---------------------------------------------------------------------------

  class PdcaCycle {
    const maxIterations: int
    var phase: Phase
    var iteration: int
    var history: seq<Entry>
    var pausedForUser: bool
    var pendingInteraction: Option<nat>
    var planCache: seq<Milestone>
    var submitted: seq<ActionId>
    var prompts: nat

    ghost function View(): State
      reads this
    {
      State(phase, iteration, history, pausedForUser, pendingInteraction, maxIterations, planCache, submitted, prompts)
    }

    constructor (maxIterations: int := 10)
      ensures View() == Started(maxIterations)
    {
      this.maxIterations := maxIterations;
      phase, iteration, history := Plan, 1, [];
      pausedForUser, pendingInteraction := false, None;
      planCache, submitted, prompts := [], [], 0;
    }

    method StartCycle()
      modifies this`phase, this`iteration
      ensures View() == old(View()).(phase := Plan, iteration := 1)
    {
      phase := Plan;
      iteration := 1;
    }

    method PauseCycle()
      modifies this`pausedForUser
      ensures View() == Apply(old(View()), Pause)
    {
      pausedForUser := true;
    }

    method ResumeCycle()
      modifies this`pausedForUser, this`pendingInteraction
      ensures View() == Apply(old(View()), Resume)
    {
      pausedForUser := false;
      pendingInteraction := None;
    }

    method AbortCycle()
      modifies this`phase
      ensures View() == Apply(old(View()), Abort)
    {
      phase := Aborted;
    }

    method StepCycle(input: Input)
      modifies this
      ensures View() == Apply(old(View()), Step(input))
    {
      if phase in {Done, Aborted} {
        return;
      }
      if pausedForUser {
        return;
      }
      match phase {
        case Plan => RunPlan(input.planned);
        case Do => RunDo(input.submission);
        case Check => RunCheck(input.assessment);
        case Act => RunAct();
        case Done | Aborted =>
      }
    }

    method EmitPrompt()
      modifies this`pausedForUser, this`pendingInteraction, this`prompts
      ensures View() == Prompted(old(View()))
    {
      pausedForUser := true;
      pendingInteraction := Some(prompts);
      prompts := prompts + 1;
    }

    method RunPlan(planned: Planned)
      modifies this
      ensures View() == PlanPhase(old(View()), planned)
    {
      if !planned.Milestones? {
        AbortCycle();
        return;
      }
      planCache := planned.milestones;
      if planCache == [] {
        phase := Check;
        return;
      }
      phase := Do;
    }

    // Submits a milestone's requests; halts as soon as one awaits approval.
    method SubmitMilestone(milestone: Milestone, submission: nat -> Submission) returns (halted: bool)
      modifies this
      ensures (View(), halted) == Submitted(old(View()), RequestsOf(milestone), submission)
    {
      ghost var left := RequestsOf(milestone);
      ghost var target := Submitted(View(), left, submission);
      for a := 0 to |milestone|
        invariant left == RequestsOf(milestone[a..]) && Submitted(View(), left, submission) == target
      {
        RequestsFrom(milestone, a);
        left := RequestsOf(milestone[a + 1..]);
        if milestone[a].Some? {
          SubmitOne(View(), milestone[a].value, left, submission);
          var outcome := submission(|submitted|);
          submitted := submitted + [milestone[a].value];
          if outcome == ApprovedPending {
            EmitPrompt();
            return true;
          }
        }
      }
      assert submitted + [] == submitted;
      return false;
    }

    method RunDo(submission: nat -> Submission)
      modifies this
      ensures View() == DoPhase(old(View()), submission)
    {
      ghost var target := Submitted(old(View()), AllRequests(planCache), submission);
      for m := 0 to |planCache|
        invariant planCache == old(planCache)
        invariant Submitted(View(), AllRequests(planCache[m..]), submission) == target
        invariant View() == old(View()).(submitted := submitted)
      {
        assert planCache[m..] == [planCache[m]] + planCache[m + 1..];
        SubmittedInParts(View(), RequestsOf(planCache[m]), AllRequests(planCache[m + 1..]), submission);
        var halted := SubmitMilestone(planCache[m], submission);
        if halted {
          return;
        }
      }
      phase := Check;
    }

    method RunCheck(assessment: Assessment)
      modifies this
      ensures View() == CheckPhase(old(View()), assessment)
    {
      if !assessment.Report? {
        AbortCycle();
        return;
      }
      var verdict := if assessment.level.Some? then assessment.level.value else Level("not-ready");
      var previous := if history != [] then Some(history[|history| - 1].verdict) else None;
      var delta := VerdictDelta(previous, verdict);
      history := history + [Entry(iteration, verdict, delta)];
      phase := Act;
    }

    method RunAct()
      modifies this
      ensures View() == ActPhase(old(View()))
    {
      if history == [] {
        AbortCycle();
        return;
      }
      var latest := history[|history| - 1];
      if latest.verdict == Level(READINESS_TERMINAL) {
        phase := Done;
        return;
      }
      if latest.delta in {Improved, FirstMeasurement} {
        if iteration >= maxIterations {
          phase := Done;
          return;
        }
        iteration := iteration + 1;
        phase := Plan;
        return;
      }
      EmitPrompt();
    }
  }
}
