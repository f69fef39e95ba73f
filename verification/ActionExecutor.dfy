/**
  The action executor (executor.py) as a machine of small steps, so that the process can crash,
  or an operation fail with an error, between any two of them. Handlers and the rate limiter are
  oracles. Callers take turns: the source does not hold its lock across approve() or reject().
*/
module ActionExecution {
  import opened Wrappers
  import opened AuthorityPolicy

  type RequestId = string

  datatype Request = Request(
    id: RequestId,
    action: string,
    plugin: string,
    target: string,
    requestedAt: string,
    args: map<string, string>,
    dryRun: bool)

  datatype Decision = Undecided | Approved | Rejected

  // An approval record, in memory or in its file.
  datatype Pending = Pending(request: Request, decision: Decision)

  datatype Event =
    | Invalid(request: Request)
    | RateLimited(request: Request)
    | Intent(request: Request, mode: Mode)
    | ApprovedBy(request: Request)
    | RejectedBy(request: Request)
    | Completed(request: Request)
    | Failed(request: Request)
    | DryRunDone(request: Request)

  // What happened, in order: the audit log, and between its entries the submissions, the
  // requests queued (`replaced` when the id was already pending) and the handler's runs.
  datatype Item =
    | Submitted(request: Request)
    | Queued(id: RequestId, replaced: bool)
    | Ran(request: Request)
    | Logged(event: Event)

  datatype Phase = Mark | Save | Pop

  // The operation under way, and the small step it does next.
  datatype Op =
    | Idle
    | Received(request: Request)
    | ToQueue(request: Request)
    | ToSave(request: Request)
    | ToRun(request: Request)
    | ToReport(request: Request, ok: bool)
    | ToDecide(request: Request, decision: Decision)
    | Deciding(request: Request, decision: Decision, phase: Phase)

  datatype State = State(
    trace: seq<Item>,
    pending: map<RequestId, Pending>,
    files: map<RequestId, Pending>,
    op: Op)

  const INITIAL := State([], map[], map[], Idle)

  // What the outside world answers during a step.
  datatype World = World(overLimit: bool, handlerOk: bool)

  datatype Step =
    | Submit(request: Request)
    | BeginApprove(id: RequestId)
    | BeginReject(id: RequestId)
    | Tick(world: World)
    | Fail
    | Crash

  // ---------------------------------------------------------------------------
  // The small steps.
  // ---------------------------------------------------------------------------

  predicate WellFormed(r: Request) {
    && r.action != "" && r.plugin != "" && r.id != "" && r.requestedAt != ""
    && r.action in REGISTRY
    && REGISTRY[r.action].primaryArg in r.args
  }

  // git-commit-and-push is forced to ask, whatever the policy says.
  function ModeFor(p: Policy, r: Request): Mode {
    if r.action == GIT_COMMIT || r.action !in REGISTRY then AskPermission
    else EffectiveMode(p, r.plugin, REGISTRY[r.action])
  }

  function Noted(s: State, item: Item, op: Op): State {
    s.(trace := s.trace + [item], op := op)
  }

  function Admitted(p: Policy, s: State, r: Request, overLimit: bool): State {
    if !WellFormed(r) then Noted(s, Logged(Invalid(r)), Idle)
    else if overLimit then Noted(s, Logged(RateLimited(r)), Idle)
    else Noted(s, Logged(Intent(r, ModeFor(p, r))),
               if ModeFor(p, r) == AskPermission && !r.dryRun then ToQueue(r) else ToRun(r))
  }

  function Report(r: Request, ok: bool): Event {
    if !ok then Failed(r) else if r.dryRun then DryRunDone(r) else Completed(r)
  }

  // approve() and reject(): mark the record in memory, write its file, drop it from memory.
  function Decided(s: State, r: Request, d: Decision, phase: Phase): State {
    match phase
    case Mark => s.(pending := s.pending[r.id := Pending(r, d)], op := Deciding(r, d, Save))
    case Save => s.(files := s.files[r.id := Pending(r, d)], op := Deciding(r, d, Pop))
    case Pop => s.(pending := s.pending - {r.id}, op := if d == Approved then ToRun(r) else Idle)
  }

  function Ticked(p: Policy, s: State, w: World): State {
    match s.op
    case Idle => s
    case Received(r) => Admitted(p, s, r, w.overLimit)
    case ToQueue(r) =>
      Noted(s, Queued(r.id, r.id in s.pending), ToSave(r)).(pending := s.pending[r.id := Pending(r, Undecided)])
    case ToSave(r) => s.(files := s.files[r.id := Pending(r, Undecided)], op := Idle)
    case ToRun(r) => Noted(s, Ran(r), ToReport(r, w.handlerOk))
    case ToReport(r, ok) => Noted(s, Logged(Report(r, ok)), Idle)
    case ToDecide(r, d) =>
      Noted(s, Logged(if d == Approved then ApprovedBy(r) else RejectedBy(r)), Deciding(r, d, Mark))
    case Deciding(r, d, phase) => Decided(s, r, d, phase)
  }

  function UndecidedIn(files: map<RequestId, Pending>): map<RequestId, Pending> {
    map id | id in files && files[id].decision == Undecided :: files[id]
  }

  // An operation starts only when none is under way; one on an unknown id raises. approve() also
  // raises on a decided record, reject() does not look.
  function Next(p: Policy, s: State, step: Step): State {
    match step
    case Submit(r) => if s.op.Idle? then Noted(s, Submitted(r), Received(r)) else s
    case BeginApprove(id) =>
      if s.op.Idle? && id in s.pending && s.pending[id].decision == Undecided
      then s.(op := ToDecide(s.pending[id].request, Approved)) else s
    case BeginReject(id) =>
      if s.op.Idle? && id in s.pending then s.(op := ToDecide(s.pending[id].request, Rejected)) else s
    case Tick(w) => Ticked(p, s, w)
    case Fail => s.(op := Idle)
    case Crash => s.(op := Idle, pending := UndecidedIn(s.files))
  }

  function RunOf(p: Policy, s: State, steps: seq<Step>): State
    decreases |steps|
  {
    if steps == [] then s else RunOf(p, Next(p, s, steps[0]), steps[1..])
  }

  // ---------------------------------------------------------------------------
  // Counting.
  // ---------------------------------------------------------------------------

  function Count(trace: seq<Item>, f: Item -> bool): nat {
    if trace == [] then 0 else Count(trace[..|trace| - 1], f) + One(f(trace[|trace| - 1]))
  }

  lemma CountAppend(trace: seq<Item>, item: Item, f: Item -> bool)
    ensures Count(trace + [item], f) == Count(trace, f) + One(f(item))
  {
    assert (trace + [item])[..|trace|] == trace;
  }

  function SubmissionsOf(id: RequestId): Item -> bool {
    (item: Item) => item.Submitted? && item.request.id == id
  }

  // Runs of the handler that are not dry.
  function RealRunsOf(id: RequestId): Item -> bool {
    (item: Item) => item.Ran? && item.request.id == id && !item.request.dryRun
  }

  // ---------------------------------------------------------------------------
  // At most one real run a submission, through crashes and failures.
  // ---------------------------------------------------------------------------

  predicate LiveRecord(m: map<RequestId, Pending>, id: RequestId) {
    id in m && m[id].decision == Undecided
  }

  // Whether `id` waits for a decision, in memory or on disk.
  predicate Waits(s: State, id: RequestId) {
    LiveRecord(s.pending, id) || LiveRecord(s.files, id)
  }

  // Whether the operation under way can come to run `id`.
  predicate UnderWay(op: Op, id: RequestId) {
    match op
    case Received(r) => r.id == id
    case ToQueue(r) => r.id == id
    case ToRun(r) => r.id == id
    case _ => false
  }

  predicate BeingApproved(op: Op, id: RequestId) {
    op.Deciding? && op.decision == Approved && op.request.id == id
  }

  // The runs of `id` that can still come without a new submission.
  function Outstanding(s: State, id: RequestId): nat {
    if BeingApproved(s.op, id) then 1 else One(Waits(s, id)) + One(UnderWay(s.op, id))
  }

  // What holds of the operation under way.
  predicate OpFits(s: State) {
    match s.op
    case ToSave(r) => r.id in s.pending && s.pending[r.id] == Pending(r, Undecided)
    case ToDecide(r, d) =>
      r.id in s.pending && d != Undecided && (d == Approved ==> s.pending[r.id].decision == Undecided)
    case Deciding(r, d, phase) =>
      && d != Undecided
      && r.id in s.pending
      && (phase != Mark ==> s.pending[r.id].decision == d)
      && (phase == Pop ==> r.id in s.files && s.files[r.id].decision == d)
      && (phase == Mark && d == Approved ==> s.pending[r.id].decision == Undecided)
    case _ => true
  }

  ghost predicate KeysFit(s: State) {
    && (forall id :: id in s.pending ==> s.pending[id].request.id == id)
    && (forall id :: id in s.files ==> s.files[id].request.id == id)
  }

  lemma DecidedKeepsFit(s: State, r: Request, d: Decision, phase: Phase)
    requires OpFits(s) && KeysFit(s) && s.op == Deciding(r, d, phase)
    ensures OpFits(Decided(s, r, d, phase)) && KeysFit(Decided(s, r, d, phase))
  {
  }

  lemma TickKeepsFit(p: Policy, s: State, w: World)
    requires OpFits(s) && KeysFit(s)
    ensures OpFits(Ticked(p, s, w)) && KeysFit(Ticked(p, s, w))
  {
    if s.op.Deciding? {
      DecidedKeepsFit(s, s.op.request, s.op.decision, s.op.phase);
    }
  }

  lemma StepKeepsFit(p: Policy, s: State, step: Step)
    requires OpFits(s) && KeysFit(s)
    ensures OpFits(Next(p, s, step)) && KeysFit(Next(p, s, step))
  {
    if step.Tick? {
      TickKeepsFit(p, s, step.world);
    }
  }

  // The item a step appends to the trace, if any.
  function Emitted(p: Policy, s: State, step: Step): Option<Item> {
    match step
    case Submit(r) => if s.op.Idle? then Some(Submitted(r)) else None
    case Tick(w) =>
      (match s.op
       case Received(r) =>
         Some(Logged(if !WellFormed(r) then Invalid(r) else if w.overLimit then RateLimited(r)
                     else Intent(r, ModeFor(p, r))))
       case ToQueue(r) => Some(Queued(r.id, r.id in s.pending))
       case ToRun(r) => Some(Ran(r))
       case ToReport(r, ok) => Some(Logged(Report(r, ok)))
       case ToDecide(r, d) => Some(Logged(if d == Approved then ApprovedBy(r) else RejectedBy(r)))
       case _ => None)
    case _ => None
  }

  lemma EmittedIsAppended(p: Policy, s: State, step: Step)
    ensures Next(p, s, step).trace
         == match Emitted(p, s, step) case None => s.trace case Some(item) => s.trace + [item]
  {
  }

  function OneIf(item: Option<Item>, f: Item -> bool): nat {
    if item.Some? then One(f(item.value)) else 0
  }

  // So a step changes a count by the item it appends.
  lemma CountStep(p: Policy, s: State, step: Step, f: Item -> bool)
    ensures Count(Next(p, s, step).trace, f) == Count(s.trace, f) + OneIf(Emitted(p, s, step), f)
  {
    EmittedIsAppended(p, s, step);
    if Emitted(p, s, step).Some? {
      CountAppend(s.trace, Emitted(p, s, step).value, f);
    }
  }

  lemma DecidedSpends(s: State, r: Request, d: Decision, phase: Phase, id: RequestId)
    requires OpFits(s) && KeysFit(s) && s.op == Deciding(r, d, phase)
    ensures Outstanding(Decided(s, r, d, phase), id) <= Outstanding(s, id)
  {
  }

  lemma TickSpends(p: Policy, s: State, w: World, id: RequestId)
    requires OpFits(s) && KeysFit(s)
    ensures Outstanding(Ticked(p, s, w), id) + OneIf(Emitted(p, s, Tick(w)), RealRunsOf(id)) <= Outstanding(s, id)
    ensures OneIf(Emitted(p, s, Tick(w)), SubmissionsOf(id)) == 0
  {
    if s.op.Deciding? {
      DecidedSpends(s, s.op.request, s.op.decision, s.op.phase, id);
    }
  }

  // A real run is one that was outstanding, and only a submission adds one to those.
  lemma StepSpends(p: Policy, s: State, step: Step, id: RequestId)
    requires OpFits(s) && KeysFit(s)
    ensures Outstanding(Next(p, s, step), id) + OneIf(Emitted(p, s, step), RealRunsOf(id))
         <= Outstanding(s, id) + OneIf(Emitted(p, s, step), SubmissionsOf(id))
  {
    if step.Tick? {
      TickSpends(p, s, step.world, id);
    }
  }

  // Over any number of steps.
  lemma {:induction false} RunSpends(p: Policy, s: State, steps: seq<Step>, id: RequestId)
    requires OpFits(s) && KeysFit(s)
    ensures var t := RunOf(p, s, steps);
            && OpFits(t) && KeysFit(t)
            && Count(t.trace, RealRunsOf(id)) + Outstanding(t, id) + Count(s.trace, SubmissionsOf(id))
               <= Count(s.trace, RealRunsOf(id)) + Outstanding(s, id) + Count(t.trace, SubmissionsOf(id))
    decreases |steps|
  {
    if steps == [] {
    } else {
      StepKeepsFit(p, s, steps[0]);
      StepSpends(p, s, steps[0], id);
      CountStep(p, s, steps[0], RealRunsOf(id));
      CountStep(p, s, steps[0], SubmissionsOf(id));
      RunSpends(p, Next(p, s, steps[0]), steps[1..], id);
    }
  }

  /**
    Whatever crashes, reloads and failures happen between whatever small steps, an id's handler
    really runs at most as often as the id was submitted, so at most once if it was submitted once.
  */
  lemma AtMostOncePerSubmission(p: Policy, steps: seq<Step>, id: RequestId)
    ensures var trace := RunOf(p, INITIAL, steps).trace;
            Count(trace, RealRunsOf(id)) <= Count(trace, SubmissionsOf(id))
  {
    RunSpends(p, INITIAL, steps, id);
  }

  lemma {:induction false} NotSubmitted(p: Policy, s: State, steps: seq<Step>, id: RequestId)
    requires forall k :: 0 <= k < |steps| ==> !(steps[k].Submit? && steps[k].request.id == id)
    ensures Count(RunOf(p, s, steps).trace, SubmissionsOf(id)) == Count(s.trace, SubmissionsOf(id))
    decreases |steps|
  {
    if steps == [] {
    } else {
      assert !(steps[0].Submit? && steps[0].request.id == id);
      CountStep(p, s, steps[0], SubmissionsOf(id));
      NotSubmitted(p, Next(p, s, steps[0]), steps[1..], id);
    }
  }

  lemma {:induction false} CountGrows(p: Policy, s: State, steps: seq<Step>, f: Item -> bool)
    ensures Count(s.trace, f) <= Count(RunOf(p, s, steps).trace, f)
    decreases |steps|
  {
    if steps == [] {
    } else {
      CountStep(p, s, steps[0], f);
      CountGrows(p, Next(p, s, steps[0]), steps[1..], f);
    }
  }

  // When reject() returns, nothing is outstanding for its id.
  lemma NothingLeft(p: Policy, s: State, w: World, id: RequestId)
    requires OpFits(s) && KeysFit(s)
    requires s.op.Deciding? && s.op.request.id == id && s.op.decision == Rejected && s.op.phase == Pop
    ensures var t := Ticked(p, s, w); t.op == Idle && Outstanding(t, id) == 0
  {
  }

  // What is not outstanding does not run until it is submitted.
  lemma {:induction false} NothingRuns(p: Policy, s: State, steps: seq<Step>, id: RequestId)
    requires OpFits(s) && KeysFit(s) && Outstanding(s, id) == 0
    requires forall k :: 0 <= k < |steps| ==> !(steps[k].Submit? && steps[k].request.id == id)
    ensures Count(RunOf(p, s, steps).trace, RealRunsOf(id)) == Count(s.trace, RealRunsOf(id))
  {
    NotSubmitted(p, s, steps, id);
    RunSpends(p, s, steps, id);
    CountGrows(p, s, steps, RealRunsOf(id));
  }

  lemma {:induction false} NothingRunsOnceRejected(p: Policy, s: State, w: World, after: seq<Step>, id: RequestId)
    requires OpFits(s) && KeysFit(s)
    requires s.op.Deciding? && s.op.request.id == id && s.op.decision == Rejected && s.op.phase == Pop
    requires forall k :: 0 <= k < |after| ==> !(after[k].Submit? && after[k].request.id == id)
    ensures var returned := Next(p, s, Tick(w));
            && returned.op == Idle
            && Count(RunOf(p, returned, after).trace, RealRunsOf(id)) == Count(returned.trace, RealRunsOf(id))
  {
    NothingLeft(p, s, w, id);
    StepKeepsFit(p, s, Tick(w));
    NothingRuns(p, Next(p, s, Tick(w)), after, id);
  }

  lemma {:induction false} RunKeepsFit(p: Policy, steps: seq<Step>)
    ensures OpFits(RunOf(p, INITIAL, steps)) && KeysFit(RunOf(p, INITIAL, steps))
  {
    RunSpends(p, INITIAL, steps, "");
  }

  /**
    Once reject() has returned, the handler never runs for that id again unless it is submitted
    again, however many crashes and reloads follow.
  */
  lemma {:induction false} RejectIsFinal(p: Policy, before: seq<Step>, w: World, after: seq<Step>, id: RequestId)
    requires var s := RunOf(p, INITIAL, before);
             s.op.Deciding? && s.op.request.id == id && s.op.decision == Rejected && s.op.phase == Pop
    requires forall k :: 0 <= k < |after| ==> !(after[k].Submit? && after[k].request.id == id)
    ensures var returned := Next(p, RunOf(p, INITIAL, before), Tick(w));
            && returned.op == Idle
            && Count(RunOf(p, returned, after).trace, RealRunsOf(id)) == Count(returned.trace, RealRunsOf(id))
  {
    RunKeepsFit(p, before);
    NothingRunsOnceRejected(p, RunOf(p, INITIAL, before), w, after, id);
  }

  // ---------------------------------------------------------------------------
  // Memory and disk agree between operations.
  // ---------------------------------------------------------------------------

  lemma {:induction false} RunInParts(p: Policy, s: State, a: seq<Step>, b: seq<Step>)
    ensures RunOf(p, s, a + b) == RunOf(p, RunOf(p, s, a), b)
    decreases |a|
  {
    if a == [] {
      assert a + b == b;
    } else {
      assert (a + b)[1..] == a[1..] + b;
      RunInParts(p, Next(p, s, a[0]), a[1..], b);
    }
  }

  lemma {:induction false} RunOneMore(p: Policy, s: State, steps: seq<Step>, last: Step)
    ensures RunOf(p, s, steps + [last]) == Next(p, RunOf(p, s, steps), last)
  {
    RunInParts(p, s, steps, [last]);
    assert [last][1..] == [];
    assert RunOf(p, RunOf(p, s, steps), [last]) == RunOf(p, Next(p, RunOf(p, s, steps), last), []);
  }

  // How the pending map relates to the approval files, as long as no operation failed halfway.
  ghost predicate InSync(s: State) {
    var onDisk := UndecidedIn(s.files);
    match s.op
    case ToSave(r) => s.pending == onDisk[r.id := Pending(r, Undecided)]
    case ToDecide(r, d) => s.pending == onDisk && r.id in onDisk && onDisk[r.id].request == r && d != Undecided
    case Deciding(r, d, phase) =>
      && d != Undecided
      && (match phase
          case Mark => s.pending == onDisk && r.id in onDisk && onDisk[r.id].request == r
          case Save => s.pending == onDisk[r.id := Pending(r, d)] && r.id in onDisk
          case Pop => s.pending == onDisk[r.id := Pending(r, d)] && r.id !in onDisk)
    case _ => s.pending == onDisk
  }

  lemma SaveUndecided(files: map<RequestId, Pending>, r: Request)
    ensures UndecidedIn(files[r.id := Pending(r, Undecided)]) == UndecidedIn(files)[r.id := Pending(r, Undecided)]
  {
  }

  lemma SaveDecided(files: map<RequestId, Pending>, r: Request, d: Decision)
    requires d != Undecided
    ensures UndecidedIn(files[r.id := Pending(r, d)]) == UndecidedIn(files) - {r.id}
  {
  }

  lemma DecidingKeepsSync(s: State, r: Request, d: Decision, phase: Phase)
    requires InSync(s) && s.op == Deciding(r, d, phase)
    ensures InSync(Decided(s, r, d, phase))
  {
    var onDisk := UndecidedIn(s.files);
    if phase == Save {
      SaveDecided(s.files, r, d);
      assert (onDisk - {r.id})[r.id := Pending(r, d)] == onDisk[r.id := Pending(r, d)];
    } else if phase == Pop {
      assert onDisk[r.id := Pending(r, d)] - {r.id} == onDisk;
    }
  }

  // The operation under way has changed memory and not yet its file, or the file and not yet
  // memory again.
  predicate MidWrite(s: State) {
    match s.op
    case ToSave(r) => !(LiveRecord(s.files, r.id) && s.files[r.id].request == r)
    case Deciding(_, _, phase) => phase != Mark
    case _ => false
  }

  // A failure leaves memory and files in agreement exactly when it does not come there.
  lemma FailureAndSync(s: State)
    requires InSync(s)
    ensures s.pending == UndecidedIn(s.files) <==> !MidWrite(s)
  {
    var onDisk := UndecidedIn(s.files);
    match s.op
    case ToSave(r) =>
      if !MidWrite(s) {
        assert onDisk[r.id] == Pending(r, Undecided);
        assert onDisk[r.id := Pending(r, Undecided)] == onDisk;
      } else {
        assert s.pending[r.id] == Pending(r, Undecided);
      }
    case Deciding(r, d, phase) =>
      if phase != Mark {
        assert s.pending[r.id].decision == d;
      }
    case _ =>
  }

  lemma StepKeepsSync(p: Policy, s: State, step: Step)
    requires KeysFit(s) && InSync(s) && !(step.Fail? && MidWrite(s))
    ensures InSync(Next(p, s, step))
  {
    if step.Fail? {
      FailureAndSync(s);
    } else if step.Tick? && s.op.ToSave? {
      SaveUndecided(s.files, s.op.request);
    } else if step.Tick? && s.op.Deciding? {
      DecidingKeepsSync(s, s.op.request, s.op.decision, s.op.phase);
    }
  }

  // No operation fails in the middle of its writes.
  predicate FailsCleanly(p: Policy, s: State, steps: seq<Step>)
    decreases |steps|
  {
    steps == [] || (!(steps[0].Fail? && MidWrite(s)) && FailsCleanly(p, Next(p, s, steps[0]), steps[1..]))
  }

  lemma {:induction false} RunKeepsSync(p: Policy, s: State, steps: seq<Step>)
    requires OpFits(s) && KeysFit(s) && InSync(s) && FailsCleanly(p, s, steps)
    ensures InSync(RunOf(p, s, steps))
    decreases |steps|
  {
    if steps == [] {
    } else {
      StepKeepsFit(p, s, steps[0]);
      StepKeepsSync(p, s, steps[0]);
      RunKeepsSync(p, Next(p, s, steps[0]), steps[1..]);
    }
  }

  // Between operations, after whatever failed before the last restart and whatever crashed, the
  // pending map is what the files say is undecided, so a crash and reload changes nothing.
  lemma {:induction false} ReloadAfterRestart(p: Policy, before: seq<Step>, steps: seq<Step>)
    requires FailsCleanly(p, Next(p, RunOf(p, INITIAL, before), Crash), steps)
    requires RunOf(p, INITIAL, before + [Crash] + steps).op == Idle
    ensures var s := RunOf(p, INITIAL, before + [Crash] + steps);
            s.pending == UndecidedIn(s.files) && Next(p, s, Crash) == s
  {
    var restarted := Next(p, RunOf(p, INITIAL, before), Crash);
    RunOneMore(p, INITIAL, before, Crash);
    RunInParts(p, INITIAL, before + [Crash], steps);
    RunKeepsFit(p, before);
    StepKeepsFit(p, RunOf(p, INITIAL, before), Crash);
    RunKeepsSync(p, restarted, steps);
  }

  lemma {:induction false} ReloadIsIdentity(p: Policy, steps: seq<Step>)
    requires FailsCleanly(p, INITIAL, steps)
    requires RunOf(p, INITIAL, steps).op == Idle
    ensures var s := RunOf(p, INITIAL, steps);
            s.pending == UndecidedIn(s.files) && Next(p, s, Crash) == s
  {
    assert UndecidedIn(map[]) == map[];
    RunKeepsSync(p, INITIAL, steps);
  }

  // One more failure, after such a run, makes a reload lose or bring back a request exactly when it
  // comes in the middle of a write.
  lemma {:induction false} ReloadAfterFailure(p: Policy, steps: seq<Step>)
    requires FailsCleanly(p, INITIAL, steps)
    ensures var s := Next(p, RunOf(p, INITIAL, steps), Fail);
            Next(p, s, Crash) == s <==> !MidWrite(RunOf(p, INITIAL, steps))
  {
    assert UndecidedIn(map[]) == map[];
    RunKeepsSync(p, INITIAL, steps);
    FailureAndSync(RunOf(p, INITIAL, steps));
  }

  // ---------------------------------------------------------------------------
  // The executor itself: each call does all the small steps of one operation.
  // ---------------------------------------------------------------------------

  // The steps an operation still has to do.
  function StepsLeft(op: Op): nat {
    match op
    case Idle => 0
    case Received(_) => 3
    case ToQueue(_) => 2
    case ToSave(_) => 1
    case ToRun(_) => 2
    case ToReport(_, _) => 1
    case ToDecide(_, _) => 6
    case Deciding(_, _, phase) => if phase == Mark then 5 else if phase == Save then 4 else 3
  }

  // The operation under way, done to the end.
  function Finished(p: Policy, s: State, w: World): State
    decreases StepsLeft(s.op)
  {
    if s.op.Idle? then s else Finished(p, Ticked(p, s, w), w)
  }

  lemma {:induction false} IdleTicks(p: Policy, s: State, w: World, n: nat)
    requires s.op == Idle
    ensures RunOf(p, s, seq(n, _ => Tick(w))) == s
  {
    if n > 0 {
      assert seq(n, _ => Tick(w))[1..] == seq(n - 1, _ => Tick(w));
      IdleTicks(p, s, w, n - 1);
    }
  }

  lemma TicksInParts(w: World, a: nat, b: nat)
    ensures seq(a + b + 1, _ => Tick(w))[1..] == seq(a, _ => Tick(w)) + seq(b, _ => Tick(w))
    ensures seq(a + b + 1, _ => Tick(w))[0] == Tick(w)
  {
  }

  // It is a run of small steps, so what holds of all of those holds of calls.
  lemma {:induction false} FinishedIsRun(p: Policy, s: State, w: World)
    ensures Finished(p, s, w) == RunOf(p, s, seq(StepsLeft(s.op), _ => Tick(w)))
    ensures Finished(p, s, w).op == Idle
    decreases StepsLeft(s.op)
  {
    if !s.op.Idle? {
      var t := Ticked(p, s, w);
      var left, idle := StepsLeft(t.op), StepsLeft(s.op) - 1 - StepsLeft(t.op);
      FinishedIsRun(p, t, w);
      IdleTicks(p, Finished(p, t, w), w, idle);
      TicksInParts(w, left, idle);
      RunInParts(p, t, seq(left, _ => Tick(w)), seq(idle, _ => Tick(w)));
    }
  }

  // What the remaining steps come to, from where they branch.
  lemma RunFinishes(p: Policy, s: State, r: Request, w: World)
    requires s.op == ToRun(r)
    ensures Finished(p, s, w) == s.(trace := s.trace + [Ran(r), Logged(Report(r, w.handlerOk))], op := Idle)
  {
    var s1 := Ticked(p, s, w);
    var s2 := Ticked(p, s1, w);
    assert Finished(p, s1, w) == Finished(p, s2, w) == s2;
    assert s.trace + [Ran(r)] + [Logged(Report(r, w.handlerOk))] == s.trace + [Ran(r), Logged(Report(r, w.handlerOk))];
  }

  lemma QueueFinishes(p: Policy, s: State, r: Request, w: World)
    requires s.op == ToQueue(r)
    ensures Finished(p, s, w) == s.(trace := s.trace + [Queued(r.id, r.id in s.pending)],
                                    pending := s.pending[r.id := Pending(r, Undecided)],
                                    files := s.files[r.id := Pending(r, Undecided)], op := Idle)
  {
    var s1 := Ticked(p, s, w);
    assert Finished(p, s1, w) == Finished(p, Ticked(p, s1, w), w);
  }

  lemma DecisionFinishes(p: Policy, s: State, r: Request, d: Decision, w: World)
    requires s.op == ToDecide(r, d)
    ensures Finished(p, s, w)
         == Finished(p, State(s.trace + [Logged(if d == Approved then ApprovedBy(r) else RejectedBy(r))],
                              s.pending[r.id := Pending(r, d)] - {r.id}, s.files[r.id := Pending(r, d)],
                              if d == Approved then ToRun(r) else Idle), w)
  {
    var s1 := Ticked(p, s, w);
    var s2 := Ticked(p, s1, w);
    var s3 := Ticked(p, s2, w);
    assert Finished(p, s1, w) == Finished(p, s2, w) == Finished(p, s3, w) == Finished(p, Ticked(p, s3, w), w);
  }

  datatype Status = Executed | ApprovedPending | RejectedStatus | FailedStatus | SkippedRateLimit | SkippedDryRun

  // The status a call reports, by the last thing it left in the trace.
  function StatusOf(last: Item): Option<Status> {
    match last
    case Queued(_, _) => Some(ApprovedPending)
    case Logged(Invalid(_)) => Some(FailedStatus)
    case Logged(RateLimited(_)) => Some(SkippedRateLimit)
    case Logged(RejectedBy(_)) => Some(RejectedStatus)
    case Logged(Completed(_)) => Some(Executed)
    case Logged(Failed(_)) => Some(FailedStatus)
    case Logged(DryRunDone(_)) => Some(SkippedDryRun)
    case _ => None
  }

  class ActionExecutor {
    const policy: Policy
    var trace: seq<Item>
    var pending: map<RequestId, Pending>
    var approvalFiles: map<RequestId, Pending>

    ghost function View(): State
      reads this
    {
      State(trace, pending, approvalFiles, Idle)
    }

    // Starts on an empty trace, but reads back the approval files of an earlier process.
    constructor (policy: Policy, approvalFiles: map<RequestId, Pending>)
      ensures this.policy == policy && trace == [] && this.approvalFiles == approvalFiles
      ensures pending == UndecidedIn(approvalFiles)
    {
      this.policy := policy;
      this.approvalFiles := approvalFiles;
      trace := [];
      pending := map id | id in approvalFiles && approvalFiles[id].decision == Undecided :: approvalFiles[id];
    }

    method Log(e: Event)
      modifies this`trace
      ensures trace == old(trace) + [Logged(e)]
    {
      trace := trace + [Logged(e)];
    }

    // The handler, and the log entry about how it went.
    method RunHandler(r: Request, w: World) returns (status: Status)
      modifies this`trace
      ensures View() == Finished(policy, old(View()).(op := ToRun(r)), w)
      ensures trace != [] && StatusOf(trace[|trace| - 1]) == Some(status)
      ensures status == if !w.handlerOk then FailedStatus else if r.dryRun then SkippedDryRun else Executed
    {
      RunFinishes(policy, View().(op := ToRun(r)), r, w);
      trace := trace + [Ran(r)];
      if !w.handlerOk {
        Log(Failed(r));
        return FailedStatus;
      }
      if r.dryRun {
        Log(DryRunDone(r));
        return SkippedDryRun;
      }
      Log(Completed(r));
      return Executed;
    }

    method EnqueueForApproval(r: Request, ghost w: World) returns (status: Status)
      modifies this`trace, this`pending, this`approvalFiles
      ensures View() == Finished(policy, old(View()).(op := ToQueue(r)), w)
      ensures trace != [] && StatusOf(trace[|trace| - 1]) == Some(status)
      ensures status == ApprovedPending
    {
      QueueFinishes(policy, View().(op := ToQueue(r)), r, w);
      trace := trace + [Queued(r.id, r.id in pending)];
      pending := pending[r.id := Pending(r, Undecided)];
      approvalFiles := approvalFiles[r.id := Pending(r, Undecided)];
      return ApprovedPending;
    }

    method Execute(r: Request, w: World) returns (status: Status)
      modifies this
      ensures View() == Finished(policy, Next(policy, old(View()), Submit(r)), w)
      ensures trace != [] && StatusOf(trace[|trace| - 1]) == Some(status)
      ensures WellFormed(r) ==> r.action in REGISTRY
      ensures status ==
              if !WellFormed(r) then FailedStatus
              else if w.overLimit then SkippedRateLimit
              else if !r.dryRun && (r.action == GIT_COMMIT ||
                                    EffectiveMode(policy, r.plugin, REGISTRY[r.action]) == AskPermission)
              then ApprovedPending
              else if !w.handlerOk then FailedStatus
              else if r.dryRun then SkippedDryRun
              else Executed
    {
      trace := trace + [Submitted(r)];
      if !WellFormed(r) {
        Log(Invalid(r));
        return FailedStatus;
      }
      var resolution := Resolve(policy, r.plugin, REGISTRY[r.action]);
      if w.overLimit {
        Log(RateLimited(r));
        return SkippedRateLimit;
      }
      if r.action == GIT_COMMIT && resolution.mode != AskPermission {
        resolution := resolution.(mode := AskPermission);
      }
      Log(Intent(r, resolution.mode));
      if resolution.mode == AskPermission && !r.dryRun {
        status := EnqueueForApproval(r, w);
      } else {
        status := RunHandler(r, w);
      }
    }

    // Marks the record, writes its file and drops it from memory.
    method Decide(r: Request, d: Decision)
      modifies this`pending, this`approvalFiles
      ensures pending == old(pending)[r.id := Pending(r, d)] - {r.id}
      ensures approvalFiles == old(approvalFiles)[r.id := Pending(r, d)]
    {
      pending := pending[r.id := Pending(r, d)];
      approvalFiles := approvalFiles[r.id := Pending(r, d)];
      pending := pending - {r.id};
    }

    // Raises (ok == false) when nothing is pending under that id, or it is decided already.
    method Approve(id: RequestId, w: World) returns (ok: bool, status: Status)
      modifies this
      ensures ok <==> id in old(pending) && old(pending)[id].decision == Undecided
      ensures View() == Finished(policy, Next(policy, old(View()), BeginApprove(id)), w)
      ensures ok ==> trace != [] && StatusOf(trace[|trace| - 1]) == Some(status)
      ensures ok ==>
                status == if !w.handlerOk then FailedStatus
                          else if old(pending)[id].request.dryRun then SkippedDryRun
                          else Executed
    {
      if id !in pending || pending[id].decision != Undecided {
        return false, FailedStatus;
      }
      var r := pending[id].request;
      DecisionFinishes(policy, View().(op := ToDecide(r, Approved)), r, Approved, w);
      Log(ApprovedBy(r));
      Decide(r, Approved);
      status := RunHandler(r, w);
      ok := true;
    }

    // Raises (ok == false) when nothing is pending under that id. Never runs the handler.
    method Reject(id: RequestId, ghost w: World) returns (ok: bool)
      modifies this
      ensures ok <==> id in old(pending)
      ensures View() == Finished(policy, Next(policy, old(View()), BeginReject(id)), w)
      ensures ok ==> trace == old(trace) + [Logged(RejectedBy(old(pending)[id].request))]
    {
      if id !in pending {
        return false;
      }
      var r := pending[id].request;
      DecisionFinishes(policy, View().(op := ToDecide(r, Rejected)), r, Rejected, w);
      Log(RejectedBy(r));
      Decide(r, Rejected);
      return true;
    }
  }
}
