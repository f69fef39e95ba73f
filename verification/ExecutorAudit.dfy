/**
  What the audit log of the action executor (executor.py) accounts for: every outcome has its
  intent, and every real run its authorisation.
*/
module ExecutorAudit {
  import opened Wrappers
  import opened AuthorityPolicy
  import opened ActionExecution

  // ---------------------------------------------------------------------------
  // Prefixes of the trace are traces of shorter runs.
  // ---------------------------------------------------------------------------

  lemma {:induction false} PrefixReached(p: Policy, steps: seq<Step>, k: nat) returns (j: nat)
    requires k <= |RunOf(p, INITIAL, steps).trace|
    ensures j <= |steps| && RunOf(p, INITIAL, steps[..j]).trace == RunOf(p, INITIAL, steps).trace[..k]
    decreases |steps|
  {
    var trace := RunOf(p, INITIAL, steps).trace;
    j := |steps|;
    assert steps[..j] == steps;
    if k < |trace| {
      var before, last := steps[..|steps| - 1], steps[|steps| - 1];
      assert before + [last] == steps;
      RunOneMore(p, INITIAL, before, last);
      EmittedIsAppended(p, RunOf(p, INITIAL, before), last);
      j := PrefixReached(p, before, k);
      assert before[..j] == steps[..j];
    }
  }

  // ---------------------------------------------------------------------------
  // Accounting: intents and outcomes.
  // ---------------------------------------------------------------------------

  function IntentsOf(id: RequestId): Item -> bool {
    (item: Item) => item.Logged? && item.event.Intent? && item.event.request.id == id
  }

  predicate IsOutcome(e: Event) {
    e.Completed? || e.Failed? || e.DryRunDone? || e.RejectedBy?
  }

  function OutcomesOf(id: RequestId): Item -> bool {
    (item: Item) => item.Logged? && IsOutcome(item.event) && item.event.request.id == id
  }

  // Requests queued over a pending one of the same id, which is lost.
  function OverwritesOf(id: RequestId): Item -> bool {
    (item: Item) => item.Queued? && item.id == id && item.replaced
  }

  predicate BeingRejected(op: Op, id: RequestId) {
    op.Deciding? && op.decision == Rejected && op.request.id == id
  }

  predicate Answering(op: Op, id: RequestId) {
    match op
    case ToQueue(r) => r.id == id
    case ToRun(r) => r.id == id
    case ToReport(r, _) => r.id == id
    case _ => false
  }

  // The intents of `id` that still await an outcome.
  function Owed(s: State, id: RequestId): nat {
    One(id in s.pending && !BeingRejected(s.op, id)) + One(Answering(s.op, id))
  }

  // A rejection is in the log, and an interruption leaves the request pending: it can be decided
  // again. A failure leaves it in memory, a crash where its file is not written yet.
  predicate DecisionUndone(s: State, step: Step, id: RequestId) {
    BeingRejected(s.op, id) && (step.Fail? || (step.Crash? && LiveRecord(s.files, id)))
  }

  // An interruption leaves an operation without its outcome: before it was queued, run or reported.
  predicate OutcomeLost(s: State, step: Step, id: RequestId) {
    (step.Fail? || step.Crash?) && Answering(s.op, id)
  }

  // A crash forgets a pending request that no file calls undecided: it was not saved yet, or its
  // approval was saved and it has not run.
  predicate RequestForgotten(s: State, step: Step, id: RequestId) {
    step.Crash? && id in s.pending && !BeingRejected(s.op, id) && !LiveRecord(s.files, id)
  }

  // What the files call undecided is pending.
  ghost predicate DiskInMemory(s: State) {
    forall id :: LiveRecord(s.files, id) ==> id in s.pending
  }

  ghost predicate Fit(s: State) {
    OpFits(s) && KeysFit(s) && DiskInMemory(s)
  }

  lemma StepKeepsDiskInMemory(p: Policy, s: State, step: Step)
    requires OpFits(s) && DiskInMemory(s)
    ensures DiskInMemory(Next(p, s, step))
  {
  }

  lemma StepKeepsAllFit(p: Policy, s: State, step: Step)
    requires Fit(s)
    ensures Fit(Next(p, s, step))
  {
    StepKeepsFit(p, s, step);
    StepKeepsDiskInMemory(p, s, step);
  }

  // Along a run: how often a decision on `id` was undone, and how often one of its intents lost
  // its outcome.
  function Undone(p: Policy, s: State, steps: seq<Step>, id: RequestId): nat
    decreases |steps|
  {
    if steps == [] then 0
    else One(DecisionUndone(s, steps[0], id)) + Undone(p, Next(p, s, steps[0]), steps[1..], id)
  }

  function Lost(p: Policy, s: State, steps: seq<Step>, id: RequestId): nat
    decreases |steps|
  {
    if steps == [] then 0
    else
      One(OutcomeLost(s, steps[0], id)) + One(RequestForgotten(s, steps[0], id))
      + Lost(p, Next(p, s, steps[0]), steps[1..], id)
  }

  lemma DecidedAccounts(s: State, r: Request, d: Decision, phase: Phase, id: RequestId)
    requires OpFits(s) && s.op == Deciding(r, d, phase)
    ensures Owed(Decided(s, r, d, phase), id) == Owed(s, id)
  {
  }

  lemma OtherTickAccounts(p: Policy, s: State, w: World, id: RequestId)
    requires OpFits(s) && !s.op.Deciding?
    ensures var item := Emitted(p, s, Tick(w));
            Owed(s, id) + OneIf(item, IntentsOf(id))
            == Owed(Ticked(p, s, w), id) + OneIf(item, OutcomesOf(id)) + OneIf(item, OverwritesOf(id))
  {
  }

  lemma OrdinaryAccounts(p: Policy, s: State, step: Step, id: RequestId)
    requires OpFits(s) && KeysFit(s) && !step.Fail? && !step.Crash?
    ensures var item := Emitted(p, s, step);
            Owed(s, id) + OneIf(item, IntentsOf(id))
            == Owed(Next(p, s, step), id) + OneIf(item, OutcomesOf(id)) + OneIf(item, OverwritesOf(id))
  {
    if step.Tick? {
      if s.op.Deciding? {
        DecidedAccounts(s, s.op.request, s.op.decision, s.op.phase, id);
      } else {
        OtherTickAccounts(p, s, step.world, id);
      }
    }
  }

  lemma InterruptionAccounts(p: Policy, s: State, step: Step, id: RequestId)
    requires Fit(s) && (step.Fail? || step.Crash?)
    ensures Owed(s, id) + One(DecisionUndone(s, step, id))
         == Owed(Next(p, s, step), id) + One(OutcomeLost(s, step, id)) + One(RequestForgotten(s, step, id))
  {
  }

  lemma {:induction false} RunAccounts(p: Policy, s: State, steps: seq<Step>, id: RequestId)
    requires Fit(s)
    ensures var t := RunOf(p, s, steps);
            && Fit(t)
            && Count(t.trace, IntentsOf(id)) + Count(s.trace, OutcomesOf(id)) + Count(s.trace, OverwritesOf(id))
               + Owed(s, id) + Undone(p, s, steps, id)
               == Count(t.trace, OutcomesOf(id)) + Count(t.trace, OverwritesOf(id)) + Count(s.trace, IntentsOf(id))
                  + Owed(t, id) + Lost(p, s, steps, id)
    decreases |steps|
  {
    if steps == [] {
    } else {
      StepKeepsAllFit(p, s, steps[0]);
      if steps[0].Fail? || steps[0].Crash? {
        InterruptionAccounts(p, s, steps[0], id);
      } else {
        OrdinaryAccounts(p, s, steps[0], id);
      }
      CountStep(p, s, steps[0], IntentsOf(id));
      CountStep(p, s, steps[0], OutcomesOf(id));
      CountStep(p, s, steps[0], OverwritesOf(id));
      RunAccounts(p, Next(p, s, steps[0]), steps[1..], id);
    }
  }

  /**
    The exact account of an id at every moment of every run, through whatever crashes and failures:
    its intents and the decisions that were undone are its outcomes, what is still owed, what a
    later request of the same id overwrote, and what an interruption lost.
  */
  lemma {:induction false} IntentsAccountedFor(p: Policy, steps: seq<Step>, id: RequestId)
    ensures var s := RunOf(p, INITIAL, steps);
            Count(s.trace, IntentsOf(id)) + Undone(p, INITIAL, steps, id)
            == Count(s.trace, OutcomesOf(id)) + Owed(s, id) + Count(s.trace, OverwritesOf(id))
               + Lost(p, INITIAL, steps, id)
  {
    RunAccounts(p, INITIAL, steps, id);
  }

  /**
    Between operations: the books balance, every intent having its outcome or being pending,
    exactly when as many decisions were undone as intents were overwritten or lost.
  */
  lemma {:induction false} BooksBalance(p: Policy, steps: seq<Step>, id: RequestId)
    requires RunOf(p, INITIAL, steps).op == Idle
    ensures var s := RunOf(p, INITIAL, steps);
            Count(s.trace, IntentsOf(id)) == Count(s.trace, OutcomesOf(id)) + One(id in s.pending)
            <==> Undone(p, INITIAL, steps, id) == Count(s.trace, OverwritesOf(id)) + Lost(p, INITIAL, steps, id)
  {
    IntentsAccountedFor(p, steps, id);
  }

  // Nothing fails, and the process restarts only between operations.
  predicate Orderly(p: Policy, s: State, steps: seq<Step>)
    decreases |steps|
  {
    steps == []
    || ((steps[0].Fail? || steps[0].Crash? ==> s.op.Idle?) && Orderly(p, Next(p, s, steps[0]), steps[1..]))
  }

  lemma OrderlyStep(p: Policy, s: State, step: Step, id: RequestId)
    requires Fit(s) && InSync(s) && (step.Fail? || step.Crash? ==> s.op.Idle?)
    ensures InSync(Next(p, s, step))
    ensures !DecisionUndone(s, step, id) && !OutcomeLost(s, step, id) && !RequestForgotten(s, step, id)
  {
    if !step.Fail? {
      StepKeepsSync(p, s, step);
    }
  }

  // Then nothing is undone or lost.
  lemma {:induction false} OrderlyLosesNothing(p: Policy, s: State, steps: seq<Step>, id: RequestId)
    requires Fit(s) && InSync(s) && Orderly(p, s, steps)
    ensures Undone(p, s, steps, id) == 0 && Lost(p, s, steps, id) == 0
    decreases |steps|
  {
    if steps == [] {
    } else {
      StepKeepsAllFit(p, s, steps[0]);
      OrderlyStep(p, s, steps[0], id);
      OrderlyLosesNothing(p, Next(p, s, steps[0]), steps[1..], id);
    }
  }

  lemma InitialFits()
    ensures Fit(INITIAL) && InSync(INITIAL)
  {
    assert UndecidedIn(map[]) == map[];
  }

  // So across restarts between operations the books balance exactly when nothing was overwritten.
  lemma {:induction false} OrderlyBooksBalance(p: Policy, steps: seq<Step>, id: RequestId)
    requires Orderly(p, INITIAL, steps) && RunOf(p, INITIAL, steps).op == Idle
    ensures var s := RunOf(p, INITIAL, steps);
            var intents, outcomes := Count(s.trace, IntentsOf(id)), Count(s.trace, OutcomesOf(id));
            var lost := Count(s.trace, OverwritesOf(id));
            && intents == outcomes + One(id in s.pending) + lost
            && (intents == outcomes + One(id in s.pending) <==> lost == 0)
  {
    InitialFits();
    OrderlyLosesNothing(p, INITIAL, steps, id);
    IntentsAccountedFor(p, steps, id);
  }

  // ---------------------------------------------------------------------------
  // Whether outcomes ever exceed intents.
  // ---------------------------------------------------------------------------

  predicate WithinAt(trace: seq<Item>, k: nat, id: RequestId)
    requires k <= |trace|
  {
    Count(trace[..k], OutcomesOf(id)) <= Count(trace[..k], IntentsOf(id))
  }

  ghost predicate NeverExceeds(trace: seq<Item>, id: RequestId) {
    forall k: nat :: k <= |trace| ==> WithinAt(trace, k, id)
  }

  // No more decisions undone than intents still owed, overwritten or lost.
  predicate UndoneIsCovered(p: Policy, steps: seq<Step>, id: RequestId) {
    var s := RunOf(p, INITIAL, steps);
    Undone(p, INITIAL, steps, id) <= Owed(s, id) + Count(s.trace, OverwritesOf(id)) + Lost(p, INITIAL, steps, id)
  }

  // At any one moment they do not exceed exactly when the undone decisions are covered.
  lemma {:induction false} OutcomesWithinIntents(p: Policy, steps: seq<Step>, id: RequestId)
    ensures var s := RunOf(p, INITIAL, steps);
            Count(s.trace, OutcomesOf(id)) <= Count(s.trace, IntentsOf(id)) <==> UndoneIsCovered(p, steps, id)
  {
    IntentsAccountedFor(p, steps, id);
  }

  lemma {:induction false} UndoneGrows(p: Policy, s: State, steps: seq<Step>, j: nat, id: RequestId)
    requires j <= |steps|
    ensures Undone(p, s, steps[..j], id) <= Undone(p, s, steps, id)
    decreases |steps|
  {
    if j == 0 {
      assert steps[..0] == [];
    } else {
      assert steps[..j][0] == steps[0] && steps[..j][1..] == steps[1..][..j - 1];
      UndoneGrows(p, Next(p, s, steps[0]), steps[1..], j - 1, id);
    }
  }

  lemma {:induction false} TraceGrows(p: Policy, s: State, steps: seq<Step>)
    ensures s.trace <= RunOf(p, s, steps).trace
    decreases |steps|
  {
    if steps == [] {
    } else {
      EmittedIsAppended(p, s, steps[0]);
      TraceGrows(p, Next(p, s, steps[0]), steps[1..]);
    }
  }

  lemma {:induction false} ShorterRunIsPrefix(p: Policy, steps: seq<Step>, j: nat)
    requires j <= |steps|
    ensures RunOf(p, INITIAL, steps[..j]).trace <= RunOf(p, INITIAL, steps).trace
  {
    assert steps[..j] + steps[j..] == steps;
    RunInParts(p, INITIAL, steps[..j], steps[j..]);
    TraceGrows(p, RunOf(p, INITIAL, steps[..j]), steps[j..]);
  }

  /**
    No prefix of the log has more outcomes than intents of an id, if and only if at every moment
    of the run its undone decisions are covered.
  */
  lemma {:induction false} OutcomesFollowIntentsExactly(p: Policy, steps: seq<Step>, id: RequestId)
    ensures NeverExceeds(RunOf(p, INITIAL, steps).trace, id)
       <==> forall j: nat :: j <= |steps| ==> UndoneIsCovered(p, steps[..j], id)
  {
    var trace := RunOf(p, INITIAL, steps).trace;
    if NeverExceeds(trace, id) {
      forall j: nat | j <= |steps| ensures UndoneIsCovered(p, steps[..j], id) {
        var shorter := RunOf(p, INITIAL, steps[..j]).trace;
        ShorterRunIsPrefix(p, steps, j);
        assert shorter == trace[..|shorter|];
        assert WithinAt(trace, |shorter|, id);
        OutcomesWithinIntents(p, steps[..j], id);
      }
    }
    if forall j: nat :: j <= |steps| ==> UndoneIsCovered(p, steps[..j], id) {
      forall k: nat | k <= |trace| ensures WithinAt(trace, k, id) {
        var j := PrefixReached(p, steps, k);
        assert UndoneIsCovered(p, steps[..j], id);
        OutcomesWithinIntents(p, steps[..j], id);
      }
    }
  }

  // If no decision was undone, every prefix of the log has no more outcomes than intents.
  lemma {:induction false} OutcomesFollowIntents(p: Policy, steps: seq<Step>, k: nat, id: RequestId)
    requires Undone(p, INITIAL, steps, id) == 0 && k <= |RunOf(p, INITIAL, steps).trace|
    ensures var prefix := RunOf(p, INITIAL, steps).trace[..k];
            Count(prefix, OutcomesOf(id)) <= Count(prefix, IntentsOf(id))
  {
    var j := PrefixReached(p, steps, k);
    UndoneGrows(p, INITIAL, steps, j, id);
    OutcomesWithinIntents(p, steps[..j], id);
  }

  /**
    And for an id that is settled, with nothing overwritten or lost, this is the exact condition:
    no prefix of the log has more outcomes than intents if and only if, after a rejection was
    logged, no failure came before the record left memory and no crash before its file was written.
  */
  lemma {:induction false} SettledOutcomes(p: Policy, steps: seq<Step>, id: RequestId)
    requires var s := RunOf(p, INITIAL, steps);
             Owed(s, id) == 0 && Count(s.trace, OverwritesOf(id)) == 0 && Lost(p, INITIAL, steps, id) == 0
    ensures NeverExceeds(RunOf(p, INITIAL, steps).trace, id) <==> Undone(p, INITIAL, steps, id) == 0
  {
    var trace := RunOf(p, INITIAL, steps).trace;
    if Undone(p, INITIAL, steps, id) == 0 {
      forall k: nat | k <= |trace| ensures WithinAt(trace, k, id) {
        OutcomesFollowIntents(p, steps, k, id);
      }
    } else {
      OutcomesWithinIntents(p, steps, id);
      assert trace[..|trace|] == trace;
      assert !WithinAt(trace, |trace|, id);
    }
  }

  // A request that every policy asks about.
  function Asking(id: RequestId): Request {
    Request(id, GIT_COMMIT, "plugin", "target", "now", map[REGISTRY[GIT_COMMIT].primaryArg := ""], false)
  }

  const WORLD := World(false, true)

  lemma {:induction false} TwoSteps(p: Policy, s: State, a: Step, b: Step)
    ensures RunOf(p, s, [a, b]) == Next(p, Next(p, s, a), b)
  {
    assert [a, b][1..] == [b] && [b][1..] == [];
    assert RunOf(p, Next(p, s, a), [b]) == RunOf(p, Next(p, Next(p, s, a), b), []);
  }

  // The request goes to the queue.
  lemma {:induction false} AskingIsQueued(p: Policy, id: RequestId)
    requires id != ""
    ensures var r := Asking(id);
            RunOf(p, INITIAL, [Submit(r), Tick(WORLD)] + [Tick(WORLD), Tick(WORLD)])
            == State([Submitted(r), Logged(Intent(r, AskPermission)), Queued(id, false)],
                     map[id := Pending(r, Undecided)], map[id := Pending(r, Undecided)], Idle)
  {
    var r, tick := Asking(id), Tick(WORLD);
    TwoSteps(p, INITIAL, Submit(r), tick);
    var s := RunOf(p, INITIAL, [Submit(r), tick]);
    assert s == State([Submitted(r), Logged(Intent(r, AskPermission))], map[], map[], ToQueue(r));
    TwoSteps(p, s, tick, tick);
    RunInParts(p, INITIAL, [Submit(r), tick], [tick, tick]);
  }

  // The rejection is logged, and the process crashes before anything else is done.
  lemma {:induction false} RejectionUndone(p: Policy, s: State, r: Request)
    requires s.op == Idle && s.pending == UndecidedIn(s.files) && r.id in s.pending && s.pending[r.id].request == r
    ensures RunOf(p, s, [BeginReject(r.id), Tick(WORLD)] + [Crash]) == s.(trace := s.trace + [Logged(RejectedBy(r))])
  {
    TwoSteps(p, s, BeginReject(r.id), Tick(WORLD));
    RunOneMore(p, s, [BeginReject(r.id), Tick(WORLD)], Crash);
  }

  lemma CountFive(a: Item, b: Item, c: Item, d: Item, e: Item, f: Item -> bool)
    ensures Count([a, b, c] + [d] + [e], f) == One(f(a)) + One(f(b)) + One(f(c)) + One(f(d)) + One(f(e))
  {
    CountAppend([], a, f);
    CountAppend([a], b, f);
    CountAppend([a, b], c, f);
    assert [] + [a] == [a] && [a] + [b] == [a, b] && [a, b] + [c] == [a, b, c];
    CountAppend([a, b, c], d, f);
    CountAppend([a, b, c] + [d], e, f);
  }

  /**
    It fails, for every policy and id: the request is rejected, the process crashes after the log
    entry and before the file is written, the request is pending again and is rejected once more.
  */
  lemma {:induction false} TwoOutcomesOneIntent(p: Policy, id: RequestId) returns (steps: seq<Step>)
    requires id != ""
    ensures var trace := RunOf(p, INITIAL, steps).trace;
            Count(trace, IntentsOf(id)) == 1 && Count(trace, OutcomesOf(id)) == 2
  {
    var r := Asking(id);
    var queue := [Submit(r), Tick(WORLD)] + [Tick(WORLD), Tick(WORLD)];
    var undone := [BeginReject(id), Tick(WORLD)] + [Crash];
    AskingIsQueued(p, id);
    var s := RunOf(p, INITIAL, queue);
    RejectionUndone(p, s, r);
    var t := RunOf(p, s, undone);
    RejectionUndone(p, t, r);
    steps := queue + undone + undone;
    RunInParts(p, INITIAL, queue, undone);
    RunInParts(p, INITIAL, queue + undone, undone);
    var asked, intent, rejected := Submitted(r), Logged(Intent(r, AskPermission)), Logged(RejectedBy(r));
    assert RunOf(p, INITIAL, steps).trace == [asked, intent, Queued(id, false)] + [rejected] + [rejected];
    CountFive(asked, intent, Queued(id, false), rejected, rejected, IntentsOf(id));
    CountFive(asked, intent, Queued(id, false), rejected, rejected, OutcomesOf(id));
  }

  // ---------------------------------------------------------------------------
  // The same for all ids together.
  // ---------------------------------------------------------------------------

  function IsIntent(): Item -> bool {
    (item: Item) => item.Logged? && item.event.Intent?
  }

  function HasOutcome(): Item -> bool {
    (item: Item) => item.Logged? && IsOutcome(item.event)
  }

  function IsOverwrite(): Item -> bool {
    (item: Item) => item.Queued? && item.replaced
  }

  predicate AnsweringAny(op: Op) {
    op.ToQueue? || op.ToRun? || op.ToReport?
  }

  predicate RejectingAny(op: Op) {
    op.Deciding? && op.decision == Rejected
  }

  function TotalOwed(s: State): int {
    |s.pending| - One(RejectingAny(s.op)) + One(AnsweringAny(s.op))
  }

  function TotalUndone(p: Policy, s: State, steps: seq<Step>): nat
    decreases |steps|
  {
    if steps == [] then 0
    else
      One(s.op.Deciding? && DecisionUndone(s, steps[0], s.op.request.id))
      + TotalUndone(p, Next(p, s, steps[0]), steps[1..])
  }

  // The requests a crash forgets.
  function Forgotten(s: State, step: Step): set<RequestId> {
    set id | id in s.pending && RequestForgotten(s, step, id)
  }

  function TotalLost(p: Policy, s: State, steps: seq<Step>): nat
    decreases |steps|
  {
    if steps == [] then 0
    else
      One((steps[0].Fail? || steps[0].Crash?) && AnsweringAny(s.op)) + |Forgotten(s, steps[0])|
      + TotalLost(p, Next(p, s, steps[0]), steps[1..])
  }

  lemma PendingSizes(m: map<RequestId, Pending>, id: RequestId, v: Pending)
    ensures |m[id := v]| == |m| + One(id !in m)
    ensures |m - {id}| == |m| - One(id in m)
  {
    assert m[id := v].Keys == m.Keys + {id};
    assert (m - {id}).Keys == m.Keys - {id};
  }

  lemma SimpleTickAccountsTotal(p: Policy, s: State, w: World)
    requires s.op.Idle? || s.op.Received? || s.op.ToSave? || s.op.ToRun? || s.op.ToReport?
    ensures var item := Emitted(p, s, Tick(w));
            TotalOwed(s) + OneIf(item, IsIntent())
            == TotalOwed(Ticked(p, s, w)) + OneIf(item, HasOutcome()) + OneIf(item, IsOverwrite())
  {
  }

  lemma QueueingAccountsTotal(p: Policy, s: State, w: World, r: Request)
    requires s.op == ToQueue(r)
    ensures TotalOwed(s) == TotalOwed(Ticked(p, s, w)) + One(r.id in s.pending)
  {
    PendingSizes(s.pending, r.id, Pending(r, Undecided));
  }

  lemma DecidingAccountsTotal(s: State, r: Request, d: Decision, phase: Phase)
    requires OpFits(s) && s.op == Deciding(r, d, phase)
    ensures TotalOwed(Decided(s, r, d, phase)) == TotalOwed(s)
  {
    PendingSizes(s.pending, r.id, Pending(r, d));
  }

  lemma TickAccountsTotal(p: Policy, s: State, w: World)
    requires OpFits(s)
    ensures var item := Emitted(p, s, Tick(w));
            TotalOwed(s) + OneIf(item, IsIntent())
            == TotalOwed(Ticked(p, s, w)) + OneIf(item, HasOutcome()) + OneIf(item, IsOverwrite())
  {
    match s.op
    case ToQueue(r) => QueueingAccountsTotal(p, s, w, r);
    case Deciding(r, d, phase) => DecidingAccountsTotal(s, r, d, phase);
    case ToDecide(_, _) =>
    case _ => SimpleTickAccountsTotal(p, s, w);
  }

  lemma OrdinaryAccountsTotal(p: Policy, s: State, step: Step)
    requires OpFits(s) && KeysFit(s) && !step.Fail? && !step.Crash?
    ensures var item := Emitted(p, s, step);
            TotalOwed(s) + OneIf(item, IsIntent())
            == TotalOwed(Next(p, s, step)) + OneIf(item, HasOutcome()) + OneIf(item, IsOverwrite())
  {
    if step.Tick? {
      TickAccountsTotal(p, s, step.world);
    }
  }

  lemma DisjointSizes(a: set<RequestId>, b: set<RequestId>, c: set<RequestId>)
    requires a !! b && (a + b) !! c
    ensures |a + b + c| == |a| + |b| + |c|
  {
  }

  // The rejection under way, if its file is written.
  function RejectedOnDisk(s: State): set<RequestId> {
    if RejectingAny(s.op) && !LiveRecord(s.files, s.op.request.id) then {s.op.request.id} else {}
  }

  lemma CrashParts(s: State)
    requires Fit(s)
    ensures var live, gone, rejected := UndecidedIn(s.files).Keys, Forgotten(s, Crash), RejectedOnDisk(s);
            s.pending.Keys == live + gone + rejected && live !! gone && (live + gone) !! rejected
  {
    forall id ensures id in UndecidedIn(s.files).Keys <==> LiveRecord(s.files, id) {
    }
  }

  lemma CrashSizes(s: State)
    requires Fit(s)
    ensures |s.pending| + One(s.op.Deciding? && DecisionUndone(s, Crash, s.op.request.id))
         == |UndecidedIn(s.files)| + One(RejectingAny(s.op)) + |Forgotten(s, Crash)|
  {
    var live := UndecidedIn(s.files).Keys;
    CrashParts(s);
    DisjointSizes(live, Forgotten(s, Crash), RejectedOnDisk(s));
    assert |s.pending| == |s.pending.Keys| && |UndecidedIn(s.files)| == |live|;
  }

  lemma InterruptionAccountsTotal(p: Policy, s: State, step: Step)
    requires Fit(s) && (step.Fail? || step.Crash?)
    ensures TotalOwed(s) + One(s.op.Deciding? && DecisionUndone(s, step, s.op.request.id))
         == TotalOwed(Next(p, s, step)) + One(AnsweringAny(s.op)) + |Forgotten(s, step)|
  {
    if step.Crash? {
      CrashSizes(s);
    } else {
      assert Forgotten(s, step) == {};
    }
  }

  lemma StepAccountsTotal(p: Policy, s: State, step: Step)
    requires Fit(s)
    ensures var item := Emitted(p, s, step);
            TotalOwed(s) + OneIf(item, IsIntent()) + One(s.op.Deciding? && DecisionUndone(s, step, s.op.request.id))
            == TotalOwed(Next(p, s, step)) + OneIf(item, HasOutcome()) + OneIf(item, IsOverwrite())
               + One((step.Fail? || step.Crash?) && AnsweringAny(s.op)) + |Forgotten(s, step)|
  {
    if step.Fail? || step.Crash? {
      InterruptionAccountsTotal(p, s, step);
    } else {
      OrdinaryAccountsTotal(p, s, step);
      assert Forgotten(s, step) == {};
    }
  }

  lemma {:induction false} RunAccountsTotal(p: Policy, s: State, steps: seq<Step>)
    requires Fit(s)
    ensures var t := RunOf(p, s, steps);
            Count(t.trace, IsIntent()) + Count(s.trace, HasOutcome()) + Count(s.trace, IsOverwrite())
            + TotalOwed(s) + TotalUndone(p, s, steps)
            == Count(t.trace, HasOutcome()) + Count(t.trace, IsOverwrite()) + Count(s.trace, IsIntent())
               + TotalOwed(t) + TotalLost(p, s, steps)
    decreases |steps|
  {
    if steps == [] {
    } else {
      StepKeepsAllFit(p, s, steps[0]);
      StepAccountsTotal(p, s, steps[0]);
      CountStep(p, s, steps[0], IsIntent());
      CountStep(p, s, steps[0], HasOutcome());
      CountStep(p, s, steps[0], IsOverwrite());
      RunAccountsTotal(p, Next(p, s, steps[0]), steps[1..]);
    }
  }

  // No request is submitted while its id is pending.
  predicate NoReuse(p: Policy, s: State, steps: seq<Step>)
    decreases |steps|
  {
    steps == []
    || ((steps[0].Submit? && s.op.Idle? ==> steps[0].request.id !in s.pending)
        && NoReuse(p, Next(p, s, steps[0]), steps[1..]))
  }

  predicate QueueIsFree(s: State) {
    match s.op
    case Received(r) => r.id !in s.pending
    case ToQueue(r) => r.id !in s.pending
    case _ => true
  }

  lemma FreeStep(p: Policy, s: State, step: Step)
    requires QueueIsFree(s) && (step.Submit? && s.op.Idle? ==> step.request.id !in s.pending)
    ensures QueueIsFree(Next(p, s, step)) && OneIf(Emitted(p, s, step), IsOverwrite()) == 0
  {
  }

  lemma {:induction false} NoReuseNoOverwrite(p: Policy, s: State, steps: seq<Step>)
    requires NoReuse(p, s, steps) && QueueIsFree(s)
    ensures Count(RunOf(p, s, steps).trace, IsOverwrite()) == Count(s.trace, IsOverwrite())
    decreases |steps|
  {
    if steps == [] {
    } else {
      FreeStep(p, s, steps[0]);
      CountStep(p, s, steps[0], IsOverwrite());
      NoReuseNoOverwrite(p, Next(p, s, steps[0]), steps[1..]);
    }
  }

  lemma {:induction false} OrderlyLosesNothingAtAll(p: Policy, s: State, steps: seq<Step>)
    requires Fit(s) && InSync(s) && Orderly(p, s, steps)
    ensures TotalUndone(p, s, steps) == 0 && TotalLost(p, s, steps) == 0
    decreases |steps|
  {
    if steps == [] {
    } else {
      StepKeepsAllFit(p, s, steps[0]);
      forall id ensures !DecisionUndone(s, steps[0], id) && !RequestForgotten(s, steps[0], id) {
        OrderlyStep(p, s, steps[0], id);
      }
      OrderlyStep(p, s, steps[0], "");
      assert Forgotten(s, steps[0]) == {};
      OrderlyLosesNothingAtAll(p, Next(p, s, steps[0]), steps[1..]);
    }
  }

  /**
    The whole log between operations of any run: intents and undone decisions are completions,
    failures, dry runs, operator rejections, what is pending, what was overwritten and what was
    lost. Nothing is overwritten if no request is submitted while its id is pending, and nothing
    undone or lost if no operation fails or is cut short by a crash.
  */
  lemma {:induction false} WholeLogBalances(p: Policy, steps: seq<Step>)
    requires RunOf(p, INITIAL, steps).op == Idle
    ensures var s := RunOf(p, INITIAL, steps);
            && Count(s.trace, IsIntent()) + TotalUndone(p, INITIAL, steps)
               == Count(s.trace, HasOutcome()) + |s.pending| + Count(s.trace, IsOverwrite())
                  + TotalLost(p, INITIAL, steps)
            && (NoReuse(p, INITIAL, steps) ==> Count(s.trace, IsOverwrite()) == 0)
            && (Orderly(p, INITIAL, steps) ==> TotalUndone(p, INITIAL, steps) == TotalLost(p, INITIAL, steps) == 0)
  {
    InitialFits();
    RunAccountsTotal(p, INITIAL, steps);
    if NoReuse(p, INITIAL, steps) {
      NoReuseNoOverwrite(p, INITIAL, steps);
    }
    if Orderly(p, INITIAL, steps) {
      OrderlyLosesNothingAtAll(p, INITIAL, steps);
    }
  }

  // ---------------------------------------------------------------------------
  // Authorisation, through crashes and failures.
  // ---------------------------------------------------------------------------

  function RealRunsOfRequest(r: Request): Item -> bool {
    (item: Item) => item == Ran(r) && !r.dryRun
  }

  // Intents to run the request without asking.
  function DirectIntents(r: Request): Item -> bool {
    (item: Item) => item.Logged? && item.event.Intent? && item.event.request == r && item.event.mode != AskPermission
  }

  function AskingIntents(r: Request): Item -> bool {
    (item: Item) => item == Logged(Intent(r, AskPermission))
  }

  function Approvals(r: Request): Item -> bool {
    (item: Item) => item == Logged(ApprovedBy(r))
  }

  // An authorisation that the operation under way is about to use.
  predicate Unspent(op: Op, r: Request) {
    match op
    case ToRun(x) => x == r && !r.dryRun
    case Deciding(x, d, _) => x == r && d == ActionExecution.Approved
    case _ => false
  }

  ghost predicate Holds(m: map<RequestId, Pending>, r: Request) {
    exists id :: id in m && m[id].request == r
  }

  lemma HoldsOnlyOld(m: map<RequestId, Pending>, id: RequestId, v: Pending, r: Request)
    ensures Holds(m[id := v], r) ==> Holds(m, r) || v.request == r
    ensures Holds(m - {id}, r) ==> Holds(m, r)
    ensures Holds(UndecidedIn(m), r) ==> Holds(m, r)
  {
    if Holds(m[id := v], r) {
      var k :| k in m[id := v] && m[id := v][k].request == r;
      assert k != id ==> m[k].request == r;
    }
    if Holds(m - {id}, r) {
      var k :| k in m - {id} && (m - {id})[k].request == r;
      assert m[k].request == r;
    }
    if Holds(UndecidedIn(m), r) {
      var k :| k in UndecidedIn(m) && UndecidedIn(m)[k].request == r;
      assert m[k].request == r;
    }
  }

  // Where a request that was asked about can be.
  ghost predicate Awaits(s: State, r: Request) {
    || Holds(s.pending, r)
    || Holds(s.files, r)
    || (s.op.ToQueue? && s.op.request == r)
    || (s.op.ToSave? && s.op.request == r)
    || (s.op.ToDecide? && s.op.request == r)
    || (s.op.Deciding? && s.op.request == r)
  }

  ghost predicate Authorised(p: Policy, s: State, r: Request) {
    && Count(s.trace, RealRunsOfRequest(r)) + One(Unspent(s.op, r))
       <= Count(s.trace, DirectIntents(r)) + Count(s.trace, Approvals(r))
    && (Awaits(s, r) || Count(s.trace, Approvals(r)) > 0 ==> Count(s.trace, AskingIntents(r)) > 0)
    && (ModeFor(p, r) == AskPermission ==> Count(s.trace, DirectIntents(r)) == 0)
  }

  lemma StepAuthorises(p: Policy, s: State, step: Step, r: Request)
    ensures var item, t := Emitted(p, s, step), Next(p, s, step);
            && OneIf(item, RealRunsOfRequest(r)) + One(Unspent(t.op, r))
               <= One(Unspent(s.op, r)) + OneIf(item, DirectIntents(r)) + OneIf(item, Approvals(r))
            && (ModeFor(p, r) == AskPermission ==> OneIf(item, DirectIntents(r)) == 0)
  {
  }

  lemma DecidedAwaits(s: State, x: Request, d: Decision, phase: Phase, r: Request)
    requires s.op == Deciding(x, d, phase)
    ensures Awaits(Decided(s, x, d, phase), r) ==> Awaits(s, r)
  {
    HoldsOnlyOld(s.pending, x.id, Pending(x, d), r);
    HoldsOnlyOld(s.files, x.id, Pending(x, d), r);
  }

  lemma QueuedAwaits(p: Policy, s: State, w: World, r: Request)
    requires s.op.ToQueue? || s.op.ToSave?
    ensures Awaits(Ticked(p, s, w), r) ==> Awaits(s, r)
  {
    HoldsOnlyOld(s.pending, s.op.request.id, Pending(s.op.request, Undecided), r);
    HoldsOnlyOld(s.files, s.op.request.id, Pending(s.op.request, Undecided), r);
  }

  lemma TickAwaits(p: Policy, s: State, w: World, r: Request)
    ensures var item, t := Emitted(p, s, Tick(w)), Ticked(p, s, w);
            && (Awaits(t, r) ==> Awaits(s, r) || OneIf(item, AskingIntents(r)) > 0)
            && (OneIf(item, Approvals(r)) > 0 ==> Awaits(s, r))
  {
    if s.op.ToQueue? || s.op.ToSave? {
      QueuedAwaits(p, s, w, r);
    } else if s.op.Deciding? {
      DecidedAwaits(s, s.op.request, s.op.decision, s.op.phase, r);
    }
  }

  lemma StepAwaits(p: Policy, s: State, step: Step, r: Request)
    ensures var item, t := Emitted(p, s, step), Next(p, s, step);
            && (Awaits(t, r) ==> Awaits(s, r) || OneIf(item, AskingIntents(r)) > 0)
            && (OneIf(item, Approvals(r)) > 0 ==> Awaits(s, r))
  {
    match step
    case Submit(_) =>
    case BeginApprove(id) =>
      assert id in s.pending && s.pending[id].request == r ==> Holds(s.pending, r);
    case BeginReject(id) =>
      assert id in s.pending && s.pending[id].request == r ==> Holds(s.pending, r);
    case Fail =>
    case Crash => HoldsOnlyOld(s.files, "", Pending(r, Undecided), r);
    case Tick(w) => TickAwaits(p, s, w, r);
  }

  lemma {:induction false} RunAuthorises(p: Policy, s: State, steps: seq<Step>, r: Request)
    requires Authorised(p, s, r)
    ensures Authorised(p, RunOf(p, s, steps), r)
    decreases |steps|
  {
    if steps == [] {
    } else {
      StepAuthorises(p, s, steps[0], r);
      StepAwaits(p, s, steps[0], r);
      CountStep(p, s, steps[0], RealRunsOfRequest(r));
      CountStep(p, s, steps[0], DirectIntents(r));
      CountStep(p, s, steps[0], AskingIntents(r));
      CountStep(p, s, steps[0], Approvals(r));
      RunAuthorises(p, Next(p, s, steps[0]), steps[1..], r);
    }
  }

  /**
    No unauthorised run. At every moment, through whatever crashes and failures, a request's
    handler has really run no more often than the log shows intents to run that very request
    unasked and approvals of it. An approval comes only after an intent to ask; an intent to run
    unasked only where the policy says so, and never for git-commit-and-push.
  */
  lemma NoUnauthorisedRun(p: Policy, steps: seq<Step>, k: nat, r: Request)
    requires k <= |RunOf(p, INITIAL, steps).trace|
    ensures var prefix := RunOf(p, INITIAL, steps).trace[..k];
            && Count(prefix, RealRunsOfRequest(r)) <= Count(prefix, DirectIntents(r)) + Count(prefix, Approvals(r))
            && (Count(prefix, Approvals(r)) > 0 ==> Count(prefix, AskingIntents(r)) > 0)
            && (Count(prefix, DirectIntents(r)) > 0 ==>
                  r.action != GIT_COMMIT && r.action in REGISTRY
                  && EffectiveMode(p, r.plugin, REGISTRY[r.action]) != AskPermission)
  {
    var j := PrefixReached(p, steps, k);
    RunAuthorises(p, INITIAL, steps[..j], r);
  }

  // ---------------------------------------------------------------------------
  // What the log says of the handler, and of requests.
  // ---------------------------------------------------------------------------

  // How often a step of a certain kind happens along a run.
  function Times(p: Policy, s: State, steps: seq<Step>, f: (State, Step) -> bool): nat
    decreases |steps|
  {
    if steps == [] then 0 else One(f(s, steps[0])) + Times(p, Next(p, s, steps[0]), steps[1..], f)
  }

  // The handler is called for r, and returns or raises.
  function Answers(r: Request, returned: bool): (State, Step) -> bool {
    (s: State, step: Step) => step.Tick? && s.op == ToRun(r) && step.world.handlerOk == returned
  }

  // An interruption comes between that and the log entry about it.
  function CutOff(r: Request, returned: bool): (State, Step) -> bool {
    (s: State, step: Step) => (step.Fail? || step.Crash?) && s.op == ToReport(r, returned)
  }

  function Entry(e: Event): Item -> bool {
    (item: Item) => item == Logged(e)
  }

  // The entry that is due when the handler has returned or raised.
  predicate EntryFor(e: Event, r: Request, returned: bool) {
    || (e == Completed(r) && returned && !r.dryRun)
    || (e == DryRunDone(r) && returned && r.dryRun)
    || (e == Failed(r) && !returned)
  }

  lemma StepReports(p: Policy, s: State, step: Step, e: Event, r: Request, returned: bool)
    requires EntryFor(e, r, returned)
    ensures One(Answers(r, returned)(s, step)) + One(s.op == ToReport(r, returned))
         == OneIf(Emitted(p, s, step), Entry(e)) + One(Next(p, s, step).op == ToReport(r, returned))
            + One(CutOff(r, returned)(s, step))
  {
  }

  lemma {:induction false} RunReports(p: Policy, s: State, steps: seq<Step>, e: Event, r: Request, returned: bool)
    requires EntryFor(e, r, returned)
    ensures var t := RunOf(p, s, steps);
            Times(p, s, steps, Answers(r, returned)) + One(s.op == ToReport(r, returned)) + Count(s.trace, Entry(e))
            == Count(t.trace, Entry(e)) + One(t.op == ToReport(r, returned)) + Times(p, s, steps, CutOff(r, returned))
    decreases |steps|
  {
    if steps == [] {
    } else {
      StepReports(p, s, steps[0], e, r, returned);
      CountStep(p, s, steps[0], Entry(e));
      RunReports(p, Next(p, s, steps[0]), steps[1..], e, r, returned);
    }
  }

  lemma {:induction false} NeverLogged(p: Policy, s: State, steps: seq<Step>, e: Event)
    requires (e.Completed? && e.request.dryRun) || (e.DryRunDone? && !e.request.dryRun)
    ensures Count(RunOf(p, s, steps).trace, Entry(e)) == Count(s.trace, Entry(e))
    decreases |steps|
  {
    if steps == [] {
    } else {
      CountStep(p, s, steps[0], Entry(e));
      NeverLogged(p, Next(p, s, steps[0]), steps[1..], e);
    }
  }

  /**
    The log tells the truth about the handler. At every moment of every run the completions of a
    request are the calls of its handler, not dry, that returned, its dry-run entries the dry ones
    that returned, and its failures the calls that raised; less only the one whose entry is
    about to be written, and those an interruption cut off from it.
  */
  lemma {:induction false} OutcomesAreAnswers(p: Policy, steps: seq<Step>, r: Request)
    ensures var s := RunOf(p, INITIAL, steps);
            var calls := (returned: bool) =>
                  Times(p, INITIAL, steps, Answers(r, returned)) - Times(p, INITIAL, steps, CutOff(r, returned))
                  - One(s.op == ToReport(r, returned));
            && Count(s.trace, Entry(Completed(r))) == (if r.dryRun then 0 else calls(true))
            && Count(s.trace, Entry(DryRunDone(r))) == (if r.dryRun then calls(true) else 0)
            && Count(s.trace, Entry(Failed(r))) == calls(false)
  {
    RunReports(p, INITIAL, steps, if r.dryRun then DryRunDone(r) else Completed(r), r, true);
    RunReports(p, INITIAL, steps, Failed(r), r, false);
    NeverLogged(p, INITIAL, steps, if r.dryRun then Completed(r) else DryRunDone(r));
  }

  // Every field that validation asks for, and a known action with its first argument.
  predicate Complete(r: Request) {
    && |r.action| > 0 && |r.plugin| > 0 && |r.id| > 0 && |r.requestedAt| > 0
    && r.action in REGISTRY && REGISTRY[r.action].primaryArg in r.args
  }

  // What an entry of the log says about its request and the policy.
  predicate SaysTrue(p: Policy, item: Item) {
    match item
    case Logged(Intent(r, mode)) =>
      && Complete(r)
      && mode == if r.action == GIT_COMMIT then AskPermission else EffectiveMode(p, r.plugin, REGISTRY[r.action])
    case Logged(RateLimited(r)) => Complete(r)
    case Logged(Invalid(r)) => !Complete(r)
    case _ => true
  }

  lemma StepSaysTrue(p: Policy, s: State, step: Step)
    requires forall item :: item in s.trace ==> SaysTrue(p, item)
    ensures forall item :: item in Next(p, s, step).trace ==> SaysTrue(p, item)
  {
    EmittedIsAppended(p, s, step);
  }

  /**
    Every intent in the log of any run is of a complete request and names the mode that the policy
    gives it, git-commit-and-push always asking; every request turned away as invalid is incomplete.
  */
  lemma {:induction false} LogSaysTrue(p: Policy, s: State, steps: seq<Step>)
    requires forall item :: item in s.trace ==> SaysTrue(p, item)
    ensures forall item :: item in RunOf(p, s, steps).trace ==> SaysTrue(p, item)
    decreases |steps|
  {
    if steps == [] {
    } else {
      StepSaysTrue(p, s, steps[0]);
      LogSaysTrue(p, Next(p, s, steps[0]), steps[1..]);
    }
  }
}
