/**
  The cascade propagation loop (cascade_loop.py) under the shared driver (base_loop.py).

  `Listing` is the specification: the level-order listing of the cascade tree, cut at the
  maximum depth. It knows nothing of the queue, the budget or the iteration cap. The class
  below is the queue-driven loop, and `Run` is proved to execute a prefix of that listing.

  The analyzer, the executor and the trigger derivation are oracles. Each takes the number
  of actions executed before the call, so they may keep state of their own.
*/
module Cascade {
  import opened Wrappers
  import opened BaseLoop

  datatype Action = Action(actionId: string, target: string, requestId: string)

  type Trigger = string

  datatype Outcome = Outcome(status: string)

  // One call of execute(): `called` is false when building the ActionRequest already raised.
  datatype Attempt = Raised(called: bool) | Returned(result: Option<Outcome>)

  datatype Derivation = DerivationRaised | NoTrigger | Derived(trigger: Trigger)

  // What the analyzer answers; an item that is not a dict is None.
  datatype Analysis = AnalyzerRaised | NotAList | Items(items: seq<Option<Action>>)

  datatype Env = Env(
    analyze: (nat, Trigger) -> Analysis,
    structured: (nat, Action) -> Attempt,
    fallback: (nat, Action) -> Attempt,
    derive: (nat, Outcome) -> Derivation,
    pausedDuring: nat -> bool)

  datatype Queued = Queued(depth: int, action: Action)

  datatype Record =
    | Analyzed
    | AnalyzerFailed(depth: int)
    | SkippedDepth(depth: int, action: Action)
    | SkippedBudget(depth: int, action: Action)
    | Ran(depth: int, action: Action, failed: bool)

  // ---------------------------------------------------------------------------
  // Specification: the cascade tree in level order.
  // ---------------------------------------------------------------------------

  // The actions that an analysis contributes, in order; anything that is not a dict is dropped.
  function Actions(items: seq<Option<Action>>): seq<Action> {
    if items == [] then []
    else (if items[0].Some? then [items[0].value] else []) + Actions(items[1..])
  }

  function Contributed(a: Analysis): seq<Action> {
    if a.Items? then Actions(a.items) else []
  }

  // The result of an attempt: the structured call, or the plain call when that one raised.
  function Invoke(env: Env, n: nat, a: Action): Attempt {
    if env.structured(n, a).Returned? then env.structured(n, a) else env.fallback(n, a)
  }

  function CallsMade(env: Env, n: nat, a: Action): nat {
    match env.structured(n, a)
    case Returned(_) => 1
    case Raised(called) => if called then 2 else 1
  }

  // The trigger that executing `a` as the n-th action gives rise to.
  function TriggerOf(env: Env, n: nat, a: Action): Option<Trigger> {
    match Invoke(env, n, a)
    case Raised(_) => None
    case Returned(None) => None
    case Returned(Some(outcome)) =>
      match env.derive(n, outcome)
      case Derived(t) => Some(t)
      case _ => None
  }

  // The children of `a` in the cascade tree.
  function Children(env: Env, n: nat, a: Action): seq<Action> {
    match TriggerOf(env, n, a)
    case None => []
    case Some(t) => Contributed(env.analyze(n + 1, t))
  }

  // The children of a whole level, whose first member is the n-th action of the listing.
  function ChildrenOfAll(env: Env, n: nat, level: seq<Action>): seq<Action>
    decreases |level|
  {
    if level == [] then [] else Children(env, n, level[0]) + ChildrenOfAll(env, n + 1, level[1..])
  }

  function AtDepth(d: int, level: seq<Action>): seq<Queued> {
    seq(|level|, i requires 0 <= i < |level| => Queued(d, level[i]))
  }

  // The levels from depth `d` on, where `level` is level `d` and starts at position `n`.
  function Levels(env: Env, maxDepth: int, d: int, n: nat, level: seq<Action>): seq<Queued>
    decreases maxDepth - d
  {
    if d > maxDepth then []
    else AtDepth(d, level) + Levels(env, maxDepth, d + 1, n + |level|, ChildrenOfAll(env, n, level))
  }

  function Roots(env: Env, trigger: Trigger): seq<Action> {
    Contributed(env.analyze(0, trigger))
  }

  function Listing(env: Env, trigger: Trigger, maxDepth: int): seq<Queued> {
    Levels(env, maxDepth, 1, 0, Roots(env, trigger))
  }

  function Shown(r: Record): seq<Queued> {
    if r.Ran? then [Queued(r.depth, r.action)] else []
  }

  // The actions a trace shows as handed to the executor, with their depths.
  function Executed(trace: seq<Record>): seq<Queued> {
    if trace == [] then [] else Executed(trace[..|trace| - 1]) + Shown(trace[|trace| - 1])
  }

  lemma Associate(a: seq<Action>, b: seq<Action>, c: seq<Action>)
    ensures a + (b + c) == (a + b) + c
  {
  }

  lemma {:induction false} ActionsAppend(items: seq<Option<Action>>, last: Option<Action>)
    ensures Actions(items + [last]) == Actions(items) + (if last.Some? then [last.value] else [])
  {
    if items == [] {
    } else {
      assert (items + [last])[1..] == items[1..] + [last];
      ActionsAppend(items[1..], last);
      Associate(if items[0].Some? then [items[0].value] else [], Actions(items[1..]),
                if last.Some? then [last.value] else []);
    }
  }

  // No level below an empty one holds anything.
  lemma {:induction false} NothingBelowEmpty(env: Env, maxDepth: int, d: int, n: nat)
    ensures Levels(env, maxDepth, d, n, []) == []
    decreases maxDepth - d
  {
    if d <= maxDepth {
      NothingBelowEmpty(env, maxDepth, d + 1, n);
    }
  }

  lemma SamePrefix(a: seq<Queued>, b: seq<Queued>, c: seq<Queued>)
    requires b <= c
    ensures a + b <= a + c
  {
  }

  // Cutting deeper only appends: a shallower listing is a prefix of a deeper one.
  lemma {:induction false} DeeperExtends(env: Env, shallow: int, deep: int, d: int, n: nat, level: seq<Action>)
    requires shallow <= deep
    ensures Levels(env, shallow, d, n, level) <= Levels(env, deep, d, n, level)
    decreases shallow - d
  {
    if d <= shallow {
      var next := ChildrenOfAll(env, n, level);
      DeeperExtends(env, shallow, deep, d + 1, n + |level|, next);
      var here := AtDepth(d, level);
      SamePrefix(here, Levels(env, shallow, d + 1, n + |level|, next), Levels(env, deep, d + 1, n + |level|, next));
      assert Levels(env, deep, d, n, level) == here + Levels(env, deep, d + 1, n + |level|, next);
    }
  }

  // Appending a record appends its action, if it shows one handed to the executor.
  lemma LastRecord(trace: seq<Record>, r: Record)
    ensures Executed(trace + [r]) == Executed(trace) + Shown(r)
  {
    assert (trace + [r])[..|trace|] == trace;
  }

  // ---------------------------------------------------------------------------
  // The loop as a state machine: one function per method of the class below.
  // ---------------------------------------------------------------------------

  const BUDGET_EXHAUSTED := "budget-exhausted"

  datatype Config = Config(env: Env, trigger: Trigger, maxDepth: int, budget: int)

  datatype State = State(
    status: LoopStatus,
    iteration: nat,
    trace: seq<Record>,
    pending: seq<Queued>,
    executed: nat,
    initialized: bool,
    reason: Option<string>,
    calls: nat)

  const Start := State(Running, 0, [], [], 0, false, None, 0)

  function Tree(c: Config): seq<Queued> {
    Listing(c.env, c.trigger, c.maxDepth)
  }

  // should_terminate(): whether to stop, and the reason it records on the way.
  predicate Stops(c: Config, s: State) {
    s.reason.Some? || (s.initialized && (s.pending == [] || s.executed >= c.budget))
  }

  function ReasonGiven(c: Config, s: State): Option<string> {
    if s.reason == None && s.initialized && s.pending != [] && s.executed >= c.budget
    then Some(BUDGET_EXHAUSTED) else s.reason
  }

  function Expanded(c: Config, s: State, t: Trigger, depth: int, call: nat): State {
    var output := c.env.analyze(call, t);
    s.(pending := s.pending + AtDepth(depth, Contributed(output)),
       trace := if output.AnalyzerRaised? then s.trace + [AnalyzerFailed(depth)] else s.trace)
  }

  predicate ExecutionFails(c: Config, n: nat, a: Action) {
    match Invoke(c.env, n, a)
    case Raised(_) => true
    case Returned(None) => false
    case Returned(Some(outcome)) => c.env.derive(n, outcome).DerivationRaised?
  }

  // Executes a dequeued action within depth and budget, and enqueues what it gives rise to.
  function ExecutedAction(c: Config, s: State, head: Queued): (State, Record) {
    var n := s.executed;
    var s1 := s.(executed := n + 1, calls := s.calls + CallsMade(c.env, n, head.action));
    var t := TriggerOf(c.env, n, head.action);
    (if t.Some? && head.depth < c.maxDepth then Expanded(c, s1, t.value, head.depth + 1, n + 1) else s1,
     Ran(head.depth, head.action, ExecutionFails(c, n, head.action)))
  }

  // step(): the source pops the queue, and raises when nothing is pending.
  function StepOf(c: Config, s: State): (State, Record)
    requires s.initialized ==> s.pending != []
  {
    if !s.initialized then
      (Expanded(c, s.(initialized := true), c.trigger, 1, 0), Analyzed)
    else
      var head, s1 := s.pending[0], s.(pending := s.pending[1..]);
      if head.depth > c.maxDepth then
        (s1, SkippedDepth(head.depth, head.action))
      else if s.executed >= c.budget then
        (s1.(reason := Some(BUDGET_EXHAUSTED)), SkippedBudget(head.depth, head.action))
      else
        ExecutedAction(c, s1, head)
  }

  function Recorded(c: Config, stepped: (State, Record)): State {
    var (s, record) := stepped;
    s.(trace := s.trace + [record], status := if c.env.pausedDuring(s.iteration) then Paused else s.status)
  }

  // One turn of the driver. Another thread may pause the loop while the step runs.
  function Turn(c: Config, s: State): State {
    var s0 := s.(reason := ReasonGiven(c, s));
    if Stops(c, s) then
      s0.(status := Completed)
    else if s.iteration >= c.budget + 1 then
      s0.(status := MaxIterationsHit)
    else
      Recorded(c, StepOf(c, s0.(iteration := s.iteration + 1)))
  }

  function RunOf(c: Config, s: State): State
    decreases if s.status == Running && s.iteration <= c.budget then c.budget + 1 - s.iteration else 0,
              if s.status == Running then 1 else 0
  {
    if s.status == Running then RunOf(c, Turn(c, s)) else s
  }

  // ---------------------------------------------------------------------------
  // The queue and the tree.
  // ---------------------------------------------------------------------------

  // Where the queue stands: `tree` is what was executed, then what is queued at depth `level`,
  // then the levels below, the next of which starts with the queued `back`.
  ghost predicate InTree(env: Env, maxDepth: int, tree: seq<Queued>, executed: seq<Queued>,
                         level: int, front: seq<Action>, back: seq<Action>)
  {
    && 1 <= level <= maxDepth
    && (level == maxDepth ==> back == [])
    && tree == executed + AtDepth(level, front)
               + Levels(env, maxDepth, level + 1, |executed| + |front|,
                        back + ChildrenOfAll(env, |executed|, front))
  }

  // With a maximum depth below 1 the roots are dropped one at a time.
  ghost predicate Draining(roots: nat, level: int, front: seq<Action>, back: seq<Action>, iteration: nat) {
    level == 1 && back == [] && |front| <= roots && iteration == 1 + roots - |front|
  }

  lemma StartOfTree(env: Env, trigger: Trigger, maxDepth: int)
    requires 1 <= maxDepth
    ensures InTree(env, maxDepth, Listing(env, trigger, maxDepth), [], 1, Roots(env, trigger), [])
  {
    var roots := Roots(env, trigger);
    assert [] + ChildrenOfAll(env, 0, roots) == ChildrenOfAll(env, 0, roots);
    assert [] + AtDepth(1, roots) == AtDepth(1, roots);
  }

  lemma {:induction false} LevelThenBelow(env: Env, maxDepth: int, tree: seq<Queued>, done: seq<Queued>, d: int,
                                          level: seq<Action>)
    requires d <= maxDepth && tree == done + Levels(env, maxDepth, d, |done|, level)
    ensures tree == done + AtDepth(d, level)
                    + Levels(env, maxDepth, d + 1, |done| + |level|, ChildrenOfAll(env, |done|, level))
  {
    var below := Levels(env, maxDepth, d + 1, |done| + |level|, ChildrenOfAll(env, |done|, level));
    assert Levels(env, maxDepth, d, |done|, level) == AtDepth(d, level) + below;
    assert done + (AtDepth(d, level) + below) == done + AtDepth(d, level) + below;
  }

  lemma NothingBefore(s: seq<Action>)
    ensures [] + s == s
  {
  }

  lemma {:induction false} QueueAtStart(env: Env, maxDepth: int, tree: seq<Queued>, executed: seq<Queued>, level: int,
                                        front: seq<Action>, kids: seq<Action>)
    requires 1 <= level <= maxDepth && kids == ChildrenOfAll(env, |executed|, front)
    requires tree == executed + AtDepth(level, front)
                     + Levels(env, maxDepth, level + 1, |executed| + |front|, kids)
    ensures InTree(env, maxDepth, tree, executed, level, front, [])
  {
    NothingBefore(kids);
  }

  lemma {:induction false} IntoNextLevel(env: Env, maxDepth: int, tree: seq<Queued>, executed: seq<Queued>, level: int,
                                         front: seq<Action>)
    requires 1 <= level <= maxDepth && tree == executed + Levels(env, maxDepth, level, |executed|, front)
    ensures InTree(env, maxDepth, tree, executed, level, front, [])
  {
    LevelThenBelow(env, maxDepth, tree, executed, level, front);
    QueueAtStart(env, maxDepth, tree, executed, level, front, ChildrenOfAll(env, |executed|, front));
  }

  lemma NothingBehind(s: seq<Queued>)
    ensures s + [] == s
  {
  }

  lemma {:induction false} LevelWorkedOff(env: Env, maxDepth: int, tree: seq<Queued>, executed: seq<Queued>,
                                          level: int, back: seq<Action>)
    requires InTree(env, maxDepth, tree, executed, level, [], back)
    ensures tree == executed + Levels(env, maxDepth, level + 1, |executed|, back)
  {
    NothingBehind(executed);
    assert AtDepth(level, []) == [] && back + [] == back;
  }

  // When a level has been worked off, the queue goes on with the next one.
  lemma {:induction false} NextLevel(env: Env, maxDepth: int, tree: seq<Queued>, executed: seq<Queued>, level: int,
                                     back: seq<Action>)
    requires InTree(env, maxDepth, tree, executed, level, [], back)
    ensures back == [] ==> tree == executed
    ensures back != [] ==> InTree(env, maxDepth, tree, executed, level + 1, back, [])
  {
    LevelWorkedOff(env, maxDepth, tree, executed, level, back);
    if back == [] {
      NothingBelowEmpty(env, maxDepth, level + 1, |executed|);
      NothingBehind(executed);
    } else {
      IntoNextLevel(env, maxDepth, tree, executed, level + 1, back);
    }
  }

  lemma Regroup(executed: seq<Queued>, level: int, front: seq<Action>)
    requires front != []
    ensures (executed + [Queued(level, front[0])]) + AtDepth(level, front[1..]) == executed + AtDepth(level, front)
  {
  }

  // The children of a level whose head has been executed, behind what is queued already.
  lemma {:induction false} ChildrenMoved(env: Env, n: nat, front: seq<Action>, back: seq<Action>)
    requires front != []
    ensures back + ChildrenOfAll(env, n, front)
         == (back + Children(env, n, front[0])) + ChildrenOfAll(env, n + 1, front[1..])
  {
    assert ChildrenOfAll(env, n, front) == Children(env, n, front[0]) + ChildrenOfAll(env, n + 1, front[1..]);
    Associate(back, Children(env, n, front[0]), ChildrenOfAll(env, n + 1, front[1..]));
  }

  // Executing the head of the queue moves it from the queue to the executed prefix.
  lemma {:induction false} ExecuteHead(env: Env, maxDepth: int, tree: seq<Queued>, executed: seq<Queued>,
                                       level: int, front: seq<Action>, back: seq<Action>)
    requires InTree(env, maxDepth, tree, executed, level, front, back)
    requires front != []
    ensures InTree(env, maxDepth, tree, executed + [Queued(level, front[0])], level, front[1..],
                   back + (if level < maxDepth then Children(env, |executed|, front[0]) else []))
  {
    var n, below := |executed|, Levels(env, maxDepth, level + 1, |executed| + |front|,
                                       back + ChildrenOfAll(env, |executed|, front));
    var done := executed + [Queued(level, front[0])];
    Regroup(executed, level, front);
    if level < maxDepth {
      ChildrenMoved(env, n, front, back);
      assert tree == done + AtDepth(level, front[1..]) + below;
    } else {
      assert below == [];
      assert tree == done + AtDepth(level, front[1..]) + [];
    }
  }

  // ---------------------------------------------------------------------------
  // What every turn keeps.
  // ---------------------------------------------------------------------------

  // What holds of the counters in every state.
  ghost predicate CountersAgree(c: Config, s: State) {
    && s.executed == |Executed(s.trace)|
    && s.executed <= s.calls <= 2 * s.executed
    && (s.executed == 0 || s.executed <= c.budget)
    && (s.iteration == 0 || s.iteration <= c.budget + 1)
    && (s.reason.Some? ==> s.reason == Some(BUDGET_EXHAUSTED) && s.pending != [] && s.executed == c.budget)
    && (!s.initialized ==> s == Start.(status := s.status))
    && (s.initialized ==> 0 <= c.budget)
  }

  // What holds of the queue, once there is one: it is the part of the tree that comes next.
  ghost predicate QueueInTree(c: Config, s: State, level: int, front: seq<Action>, back: seq<Action>) {
    && s.pending == AtDepth(level, front) + AtDepth(level + 1, back)
    && if c.maxDepth < 1
       then s.executed == 0 && Draining(|Roots(c.env, c.trigger)|, level, front, back, s.iteration)
       else s.iteration == 1 + s.executed
            && InTree(c.env, c.maxDepth, Tree(c), Executed(s.trace), level, front, back)
  }

  // The states that `Run`, pauses and resumptions lead to.
  ghost predicate Consistent(c: Config, s: State) {
    && CountersAgree(c, s)
    && (s.initialized ==> exists level, front, back :: QueueInTree(c, s, level, front, back))
  }

  lemma AtDepthParts(level: int, front: seq<Action>, back: seq<Action>)
    ensures AtDepth(level, []) + AtDepth(level + 1, back) == AtDepth(level + 1, back) + AtDepth(level + 2, [])
    ensures front != [] ==>
              (AtDepth(level, front) + AtDepth(level + 1, back))[1..]
              == AtDepth(level, front[1..]) + AtDepth(level + 1, back)
  {
  }

  lemma QueueGrows(level: int, front: seq<Action>, back: seq<Action>, kids: seq<Action>, pending: seq<Queued>)
    requires front != [] && pending == AtDepth(level, front) + AtDepth(level + 1, back)
    ensures pending[1..] + AtDepth(level + 1, kids) == AtDepth(level, front[1..]) + AtDepth(level + 1, back + kids)
  {
  }

  // A queue that is not empty can be described so that its head belongs to `front`.
  lemma HeadInFront(c: Config, s: State, level: int, front: seq<Action>, back: seq<Action>)
    returns (l: int, f: seq<Action>, b: seq<Action>)
    requires QueueInTree(c, s, level, front, back)
    ensures QueueInTree(c, s, l, f, b)
    ensures f == [] <==> s.pending == []
    ensures 1 <= c.maxDepth && s.pending == [] ==> Executed(s.trace) == Tree(c)
  {
    l, f, b := level, front, back;
    AtDepthParts(level, front, back);
    if c.maxDepth >= 1 && front == [] {
      NextLevel(c.env, c.maxDepth, Tree(c), Executed(s.trace), level, back);
      if back != [] {
        l, f, b := level + 1, back, [];
      }
    }
  }

  // The first turn analyzes the triggering event.
  lemma FirstTurn(c: Config, s: State)
    requires CountersAgree(c, s) && !s.initialized && s.status == Running && 0 <= c.budget
    ensures var t := Turn(c, s);
            t.initialized && CountersAgree(c, t) && QueueInTree(c, t, 1, Roots(c.env, c.trigger), [])
  {
    var t := Turn(c, s);
    var roots := Roots(c.env, c.trigger);
    assert AtDepth(1, roots) + AtDepth(2, []) == AtDepth(1, roots) == [] + AtDepth(1, roots);
    var s1 := Expanded(c, s.(initialized := true, iteration := 1), c.trigger, 1, 0);
    LastRecord([], AnalyzerFailed(1));
    LastRecord(s1.trace, Analyzed);
    if 1 <= c.maxDepth {
      StartOfTree(c.env, c.trigger, c.maxDepth);
    }
  }

  // What a later turn does to a queue within depth and budget.
  lemma ExecutingTurn(c: Config, s: State)
    requires s.initialized && s.status == Running && s.pending != []
    requires !Stops(c, s) && s.iteration < c.budget + 1
    requires s.pending[0].depth <= c.maxDepth
    ensures Turn(c, s) == Recorded(c, ExecutedAction(c, s.(pending := s.pending[1..], iteration := s.iteration + 1),
                                                     s.pending[0]))
  {
  }

  lemma NothingAfter(pending: seq<Queued>, d: int)
    ensures pending + AtDepth(d, []) == pending
  {
  }

  function KidsQueued(c: Config, n: nat, level: int, a: Action): seq<Action> {
    if level < c.maxDepth then Children(c.env, n, a) else []
  }

  lemma {:induction false} ExecutedQueue(c: Config, s: State, head: Queued)
    ensures ExecutedAction(c, s, head).0.pending
         == s.pending + AtDepth(head.depth + 1, KidsQueued(c, s.executed, head.depth, head.action))
  {
    NothingAfter(s.pending, head.depth + 1);
  }

  // An analysis on the way does not count as an execution.
  lemma {:induction false} ExpandedTrace(c: Config, s: State, head: Queued)
    ensures Executed(ExecutedAction(c, s, head).0.trace) == Executed(s.trace)
  {
    LastRecord(s.trace, AnalyzerFailed(head.depth + 1));
  }

  lemma {:induction false} ExecutedTrace(c: Config, s: State, head: Queued)
    ensures Executed(Recorded(c, ExecutedAction(c, s, head)).trace) == Executed(s.trace) + [head]
  {
    var (t, record) := ExecutedAction(c, s, head);
    ExpandedTrace(c, s, head);
    LastRecord(t.trace, record);
  }

  // What it does when the maximum depth is below 1: the head is dropped.
  lemma {:induction false} SkippingTurn(c: Config, s: State)
    requires s.initialized && s.status == Running && s.pending != []
    requires !Stops(c, s) && s.iteration < c.budget + 1
    requires s.pending[0].depth > c.maxDepth
    ensures var t := Turn(c, s);
            && Executed(t.trace) == Executed(s.trace)
            && t.(trace := s.trace, status := Running) == s.(pending := s.pending[1..], iteration := s.iteration + 1)
  {
    var record := SkippedDepth(s.pending[0].depth, s.pending[0].action);
    LastRecord(s.trace, record);
    NothingBehind(Executed(s.trace));
    assert Turn(c, s).trace == s.trace + [record];
  }

  lemma {:induction false} TurnTrace(c: Config, s: State)
    requires s.initialized && s.status == Running && s.pending != []
    requires !Stops(c, s) && s.iteration < c.budget + 1 && s.pending[0].depth <= c.maxDepth
    ensures Executed(Turn(c, s).trace) == Executed(s.trace) + [s.pending[0]]
  {
    ExecutingTurn(c, s);
    ExecutedTrace(c, s.(pending := s.pending[1..], iteration := s.iteration + 1), s.pending[0]);
  }

  lemma {:induction false} TurnCounters(c: Config, s: State)
    requires s.initialized && s.status == Running && s.pending != []
    requires !Stops(c, s) && s.iteration < c.budget + 1 && s.pending[0].depth <= c.maxDepth
    ensures var t := Turn(c, s);
            && t.initialized && t.reason == s.reason && t.iteration == s.iteration + 1
            && t.executed == s.executed + 1 && s.calls + 1 <= t.calls <= s.calls + 2
  {
    ExecutingTurn(c, s);
  }

  // What executing the head of the queue does to the queue, the trace and the counters.
  lemma {:induction false} TurnQueue(c: Config, s: State)
    requires s.initialized && s.status == Running && s.pending != []
    requires !Stops(c, s) && s.iteration < c.budget + 1 && s.pending[0].depth <= c.maxDepth
    ensures var head := s.pending[0];
            Turn(c, s).pending
            == s.pending[1..] + AtDepth(head.depth + 1, KidsQueued(c, s.executed, head.depth, head.action))
  {
    ExecutingTurn(c, s);
    ExecutedQueue(c, s.(pending := s.pending[1..], iteration := s.iteration + 1), s.pending[0]);
  }

  lemma {:induction false} TurnQueueAt(c: Config, s: State, level: int, a: Action)
    requires s.initialized && s.status == Running && s.pending != [] && s.pending[0] == Queued(level, a)
    requires !Stops(c, s) && s.iteration < c.budget + 1 && level <= c.maxDepth
    ensures Turn(c, s).pending == s.pending[1..] + AtDepth(level + 1, KidsQueued(c, s.executed, level, a))
  {
    TurnQueue(c, s);
  }

  lemma {:induction false} QueueAfter(c: Config, s: State, level: int, front: seq<Action>, back: seq<Action>)
    requires s.initialized && s.status == Running && s.pending != [] && front != []
    requires s.pending == AtDepth(level, front) + AtDepth(level + 1, back)
    requires s.pending[0] == Queued(level, front[0])
    requires !Stops(c, s) && s.iteration < c.budget + 1 && level <= c.maxDepth
    ensures var kids := KidsQueued(c, s.executed, level, front[0]);
            Turn(c, s).pending == AtDepth(level, front[1..]) + AtDepth(level + 1, back + kids)
  {
    var kids := KidsQueued(c, s.executed, level, front[0]);
    TurnQueueAt(c, s, level, front[0]);
    QueueGrows(level, front, back, kids, s.pending);
  }

  lemma {:induction false} TreeAfter(c: Config, s: State, level: int, front: seq<Action>, back: seq<Action>)
    requires s.initialized && s.status == Running && s.pending != [] && front != []
    requires s.pending[0] == Queued(level, front[0]) && s.executed == |Executed(s.trace)|
    requires !Stops(c, s) && s.iteration < c.budget + 1
    requires InTree(c.env, c.maxDepth, Tree(c), Executed(s.trace), level, front, back)
    ensures var kids := KidsQueued(c, s.executed, level, front[0]);
            InTree(c.env, c.maxDepth, Tree(c), Executed(Turn(c, s).trace), level, front[1..], back + kids)
  {
    TurnTrace(c, s);
    ExecuteHead(c.env, c.maxDepth, Tree(c), Executed(s.trace), level, front, back);
  }

  lemma {:induction false} LaterTurnInTree(c: Config, s: State, level: int, front: seq<Action>, back: seq<Action>)
    requires CountersAgree(c, s) && s.initialized && s.status == Running
    requires QueueInTree(c, s, level, front, back) && front != []
    requires !Stops(c, s) && s.iteration < c.budget + 1 && 1 <= c.maxDepth
    requires s.pending[0] == Queued(level, front[0])
    ensures var t := Turn(c, s);
            && t.initialized && CountersAgree(c, t)
            && QueueInTree(c, t, level, front[1..], back + KidsQueued(c, s.executed, level, front[0]))
  {
    TurnCounters(c, s);
    TurnTrace(c, s);
    QueueAfter(c, s, level, front, back);
    TreeAfter(c, s, level, front, back);
  }

  // So a later turn that does not stop the loop works off the head of the queue.
  lemma LaterTurn(c: Config, s: State, level: int, front: seq<Action>, back: seq<Action>)
    returns (b: seq<Action>)
    requires CountersAgree(c, s) && s.initialized && s.status == Running
    requires QueueInTree(c, s, level, front, back) && front != []
    requires !Stops(c, s) && s.iteration < c.budget + 1
    ensures var t := Turn(c, s); t.initialized && CountersAgree(c, t) && QueueInTree(c, t, level, front[1..], b)
  {
    AtDepthParts(level, front, back);
    assert s.pending[0] == Queued(level, front[0]);
    if c.maxDepth < 1 {
      b := back;
      SkippingTurn(c, s);
    } else {
      b := back + KidsQueued(c, s.executed, level, front[0]);
      LaterTurnInTree(c, s, level, front, back);
    }
  }

  // ---------------------------------------------------------------------------
  // Whole runs.
  // ---------------------------------------------------------------------------

  function FirstOf(listing: seq<Queued>, budget: int): seq<Queued>
    requires 0 <= budget
  {
    if |listing| <= budget then listing else listing[..budget]
  }

  // What a loop has done when it stops by itself.
  ghost predicate DoneByTree(c: Config, s: State) {
    if c.maxDepth < 1 then
      && Executed(s.trace) == []
      && (c.budget == 0 || |Roots(c.env, c.trigger)| <= c.budget)
    else
      && 0 <= c.budget
      && Executed(s.trace) == FirstOf(Tree(c), c.budget)
      && s.reason == (if |Tree(c)| > c.budget then Some(BUDGET_EXHAUSTED) else None)
  }

  // When the driver gives up: the budget is negative, or there are too many roots to drop.
  predicate OutOfIterations(c: Config) {
    c.budget < 0 || (c.maxDepth < 1 && c.budget != 0 && |Roots(c.env, c.trigger)| > c.budget)
  }

  lemma StopsInTree(c: Config, s: State, level: int, front: seq<Action>, back: seq<Action>)
    requires CountersAgree(c, s) && s.initialized && QueueInTree(c, s, level, front, back)
    requires front == [] <==> s.pending == []
    requires s.pending == [] ==> Executed(s.trace) == Tree(c)
    requires 1 <= c.maxDepth
    requires Stops(c, s) || s.iteration >= c.budget + 1
    ensures Stops(c, s) && DoneByTree(c, s.(reason := ReasonGiven(c, s)))
  {
    if s.pending != [] {
      assert |Tree(c)| > |Executed(s.trace)| == c.budget;
      assert Executed(s.trace) == Tree(c)[..c.budget];
    }
  }

  // A turn that stops the loop.
  lemma StoppingTurn(c: Config, s: State)
    requires Consistent(c, s) && s.status == Running
    requires Stops(c, s) || s.iteration >= c.budget + 1
    ensures var t := Turn(c, s);
            && Consistent(c, t)
            && (t.status == Completed ==> DoneByTree(c, t) && !OutOfIterations(c))
            && (t.status == MaxIterationsHit ==> OutOfIterations(c))
            && t.status in {Completed, MaxIterationsHit}
  {
    var t := Turn(c, s);
    if s.initialized {
      var level, front, back :| QueueInTree(c, s, level, front, back);
      var l, f, b := HeadInFront(c, s, level, front, back);
      assert QueueInTree(c, t, l, f, b);
      if 1 <= c.maxDepth {
        StopsInTree(c, s, l, f, b);
      }
    }
  }

  // A turn that does not stop it.
  lemma WorkingTurn(c: Config, s: State)
    requires Consistent(c, s) && s.status == Running
    requires !Stops(c, s) && s.iteration < c.budget + 1
    ensures var t := Turn(c, s);
            && Consistent(c, t)
            && t.status == (if c.env.pausedDuring(t.iteration) then Paused else Running)
            && t.iteration == s.iteration + 1
  {
    var t := Turn(c, s);
    if s.initialized {
      var level, front, back :| QueueInTree(c, s, level, front, back);
      var l, f, b := HeadInFront(c, s, level, front, back);
      var b' := LaterTurn(c, s, l, f, b);
      assert QueueInTree(c, t, l, f[1..], b');
    } else {
      FirstTurn(c, s);
    }
  }

  /**
    A loop in any consistent state, fresh or resumed after a pause, runs until another thread
    pauses it or until it stops by itself. If it completes it has executed exactly the first
    `budget` actions of the level-order listing; the iteration cap ends it only when the
    budget is negative or, with a depth limit below 1, when the roots outnumber it.
  */
  lemma {:induction false} RunFollowsTree(c: Config, s: State)
    requires Consistent(c, s)
    ensures Consistent(c, RunOf(c, s))
    ensures s.status == Running ==>
              var r := RunOf(c, s);
              && r.status in {Completed, MaxIterationsHit, Paused}
              && (r.status == Completed ==> DoneByTree(c, r) && !OutOfIterations(c))
              && (r.status == MaxIterationsHit ==> OutOfIterations(c))
              && (r.status == Paused ==> c.env.pausedDuring(r.iteration))
    decreases if s.status == Running && s.iteration <= c.budget then c.budget + 1 - s.iteration else 0,
              if s.status == Running then 1 else 0
  {
    if s.status == Running {
      if Stops(c, s) || s.iteration >= c.budget + 1 {
        StoppingTurn(c, s);
      } else {
        WorkingTurn(c, s);
        RunFollowsTree(c, Turn(c, s));
      }
    }
  }

  // At every moment the executed actions are a prefix of the listing, each attempted once or twice.
  lemma ExecutedIsPrefix(c: Config, s: State)
    requires Consistent(c, s)
    ensures Executed(s.trace) <= Tree(c)
    ensures |Executed(s.trace)| <= s.calls <= 2 * |Executed(s.trace)|
    ensures s.initialized ==> |Executed(s.trace)| <= c.budget
  {
    if s.initialized && 1 <= c.maxDepth {
      var level, front, back :| QueueInTree(c, s, level, front, back);
    }
  }

  // The control hooks keep a loop consistent, so `Run` may be called again after any of them.
  lemma HooksKeepConsistent(c: Config, s: State, status: LoopStatus)
    requires Consistent(c, s)
    ensures Consistent(c, s.(status := status))
  {
    if s.initialized {
      var level, front, back :| QueueInTree(c, s, level, front, back);
      assert QueueInTree(c, s.(status := status), level, front, back);
    }
  }

  // Together: a fresh loop that nobody pauses.
  lemma FreshRun(c: Config)
    requires forall i: nat :: !c.env.pausedDuring(i)
    ensures var r := RunOf(c, Start);
            && r.status == (if OutOfIterations(c) then MaxIterationsHit else Completed)
            && (1 <= c.maxDepth && 0 <= c.budget ==>
                  && Executed(r.trace) == FirstOf(Tree(c), c.budget)
                  && (r.reason == Some(BUDGET_EXHAUSTED) <==> |Tree(c)| > c.budget))
  {
    RunFollowsTree(c, Start);
  }

  // ---------------------------------------------------------------------------
  // What the oracles' answers mean for the tree, and what the trace says about them.
  // ---------------------------------------------------------------------------

  // An analysis contributes its dicts in order; one that raised or is no list contributes nothing.
  lemma {:induction false} ContributedInParts(a: seq<Option<Action>>, b: seq<Option<Action>>, x: Action)
    ensures Contributed(Items(a + b)) == Contributed(Items(a)) + Contributed(Items(b))
    ensures Contributed(Items([Some(x)])) == [x] && Contributed(Items([None])) == [] == Contributed(Items([]))
    ensures Contributed(AnalyzerRaised) == [] == Contributed(NotAList)
    decreases |a|
  {
    var none: seq<Option<Action>> := [None];
    assert [Some(x)][1..] == [] && none[1..] == [];
    if a == [] {
      assert a + b == b;
    } else {
      assert (a + b)[1..] == a[1..] + b;
      ContributedInParts(a[1..], b, x);
      Associate(if a[0].Some? then [a[0].value] else [], Actions(a[1..]), Actions(b));
    }
  }

  // What the executor answers for the n-th action: the structured call, or if that raises the plain
  // one. None when both raise, and when the answer is None.
  predicate Answers(env: Env, n: nat, a: Action, outcome: Outcome) {
    || env.structured(n, a) == Returned(Some(outcome))
    || (env.structured(n, a).Raised? && env.fallback(n, a) == Returned(Some(outcome)))
  }

  // An action has children exactly if it is answered and the answer gives rise to a trigger: those
  // that the analysis of that trigger contributes.
  lemma ChildrenMeaning(env: Env, n: nat, a: Action)
    ensures forall outcome, t :: Answers(env, n, a, outcome) && env.derive(n, outcome) == Derived(t) ==>
              Children(env, n, a) == Contributed(env.analyze(n + 1, t))
    ensures Children(env, n, a) != [] ==>
              exists outcome :: Answers(env, n, a, outcome) && env.derive(n, outcome).Derived?
  {
    if Children(env, n, a) != [] {
      assert Answers(env, n, a, Invoke(env, n, a).result.value);
    }
  }

  // An action fails when both calls raise, or when deriving a trigger from the answer does.
  ghost predicate Fails(env: Env, n: nat, a: Action) {
    || (env.structured(n, a).Raised? && env.fallback(n, a).Raised?)
    || exists outcome :: Answers(env, n, a, outcome) && env.derive(n, outcome).DerivationRaised?
  }

  lemma FailsMeaning(c: Config, n: nat, a: Action)
    ensures ExecutionFails(c, n, a) <==> Fails(c.env, n, a)
  {
    var attempt := Invoke(c.env, n, a);
    if attempt.Returned? && attempt.result.Some? {
      assert Answers(c.env, n, a, attempt.result.value);
    }
  }

  // The analysis of what it gives rise to raises.
  ghost predicate AnalysisFails(env: Env, n: nat, a: Action) {
    exists outcome, t :: Answers(env, n, a, outcome) && env.derive(n, outcome) == Derived(t)
                         && env.analyze(n + 1, t).AnalyzerRaised?
  }

  lemma AnalysisFailsMeaning(env: Env, n: nat, a: Action)
    ensures AnalysisFails(env, n, a) <==>
            TriggerOf(env, n, a).Some? && env.analyze(n + 1, TriggerOf(env, n, a).value).AnalyzerRaised?
  {
    var attempt := Invoke(env, n, a);
    if attempt.Returned? && attempt.result.Some? {
      assert Answers(env, n, a, attempt.result.value);
    }
  }

  // What a record, made after n executions, tells of the oracles; `noted` says whether the one just
  // before it is about a raising analyzer.
  ghost predicate Tells(c: Config, r: Record, n: nat, noted: bool) {
    match r
    case Ran(d, a, failed) =>
      (failed <==> Fails(c.env, n, a)) && (noted <==> d < c.maxDepth && AnalysisFails(c.env, n, a))
    case Analyzed => noted <==> c.env.analyze(0, c.trigger).AnalyzerRaised?
    case _ => !noted
  }

  predicate NotedBefore(trace: seq<Record>, k: nat)
    requires k <= |trace|
  {
    k > 0 && trace[k - 1].AnalyzerFailed?
  }

  ghost predicate TrueAt(c: Config, trace: seq<Record>, k: nat)
    requires k < |trace|
  {
    Tells(c, trace[k], |Executed(trace[..k])|, NotedBefore(trace, k))
  }

  ghost predicate RecordsTrue(c: Config, trace: seq<Record>) {
    forall k: nat :: k < |trace| ==> TrueAt(c, trace, k)
  }

  // The calls that were made for those actions: one each, unless building the structured request
  // raised, and one more for each whose structured attempt raised.
  function Calls(env: Env, executed: seq<Queued>): nat {
    if executed == [] then 0
    else
      var n := |executed| - 1;
      var structured := env.structured(n, executed[n].action);
      Calls(env, executed[..n]) + One(structured != Raised(false)) + One(structured.Raised?)
  }

  // The account a loop gives of its calls.
  ghost predicate Accounts(c: Config, s: State) {
    && s.executed == |Executed(s.trace)|
    && s.calls == Calls(c.env, Executed(s.trace))
    && RecordsTrue(c, s.trace)
    && !NotedBefore(s.trace, |s.trace|)
  }

  lemma {:induction false} SameAccounts(c: Config, s: State, t: State)
    requires Accounts(c, s) && t.trace == s.trace && t.executed == s.executed && t.calls == s.calls
    ensures Accounts(c, t)
  {
  }

  lemma {:induction false} StillTrue(c: Config, trace: seq<Record>, r: Record, k: nat)
    requires k < |trace| && TrueAt(c, trace, k)
    ensures TrueAt(c, trace + [r], k)
  {
    var all := trace + [r];
    assert all[..k] == trace[..k] && all[k] == trace[k];
    assert NotedBefore(all, k) == NotedBefore(trace, k);
  }

  lemma {:induction false} TrueAtLast(c: Config, trace: seq<Record>, r: Record)
    requires Tells(c, r, |Executed(trace)|, NotedBefore(trace, |trace|))
    ensures TrueAt(c, trace + [r], |trace|)
  {
    var all := trace + [r];
    assert all[..|trace|] == trace && all[|trace|] == r;
    assert NotedBefore(all, |trace|) == NotedBefore(trace, |trace|);
  }

  lemma {:induction false} RecordAppended(c: Config, trace: seq<Record>, r: Record)
    requires RecordsTrue(c, trace) && Tells(c, r, |Executed(trace)|, NotedBefore(trace, |trace|))
    ensures RecordsTrue(c, trace + [r])
  {
    forall k: nat | k < |trace + [r]| ensures TrueAt(c, trace + [r], k) {
      if k < |trace| {
        StillTrue(c, trace, r, k);
      } else {
        TrueAtLast(c, trace, r);
      }
    }
  }

  // The trace with a note about a raising analyzer, if there is to be one.
  function Noted(trace: seq<Record>, depth: int, note: bool): seq<Record> {
    if note then trace + [AnalyzerFailed(depth)] else trace
  }

  lemma {:induction false} NoteAppended(c: Config, trace: seq<Record>, depth: int, note: bool, r: Record)
    requires RecordsTrue(c, trace) && !NotedBefore(trace, |trace|) && !r.AnalyzerFailed?
    requires Tells(c, r, |Executed(trace)|, note)
    ensures RecordsTrue(c, Noted(trace, depth, note) + [r])
    ensures Executed(Noted(trace, depth, note) + [r]) == Executed(trace) + Shown(r)
    ensures !NotedBefore(Noted(trace, depth, note) + [r], |Noted(trace, depth, note) + [r]|)
  {
    var before := Noted(trace, depth, note);
    if note {
      RecordAppended(c, trace, AnalyzerFailed(depth));
      LastRecord(trace, AnalyzerFailed(depth));
      NothingBehind(Executed(trace));
    }
    RecordAppended(c, before, r);
    LastRecord(before, r);
  }

  // A turn that executes nothing.
  lemma {:induction false} OtherAccounts(c: Config, s: State, t: State, depth: int, note: bool, r: Record)
    requires Accounts(c, s) && !r.Ran? && !r.AnalyzerFailed? && Tells(c, r, s.executed, note)
    requires t.trace == Noted(s.trace, depth, note) + [r] && t.executed == s.executed && t.calls == s.calls
    ensures Accounts(c, t)
  {
    NoteAppended(c, s.trace, depth, note, r);
    NothingBehind(Executed(s.trace));
  }

  // One that executes an action.
  lemma {:induction false} RanAccounts(c: Config, s: State, t: State, depth: int, note: bool, r: Record)
    requires Accounts(c, s) && r.Ran? && Tells(c, r, s.executed, note)
    requires t.trace == Noted(s.trace, depth, note) + [r] && t.executed == s.executed + 1
    requires t.calls == s.calls + CallsMade(c.env, s.executed, r.action)
    ensures Accounts(c, t)
  {
    NoteAppended(c, s.trace, depth, note, r);
    var before := Executed(s.trace);
    assert (before + Shown(r))[..|before|] == before;
  }

  lemma {:induction false} ActionTrace(c: Config, s: State, head: Queued)
    ensures var n, a := s.executed, head.action;
            var (u, r) := ExecutedAction(c, s, head);
            var note := head.depth < c.maxDepth && AnalysisFails(c.env, n, a);
            && u.trace == Noted(s.trace, head.depth + 1, note)
            && r.Ran? && r.action == a && Tells(c, r, n, note)
            && u.executed == n + 1 && u.calls == s.calls + CallsMade(c.env, n, a)
  {
    FailsMeaning(c, s.executed, head.action);
    AnalysisFailsMeaning(c.env, s.executed, head.action);
  }

  lemma {:induction false} ActionAccounts(c: Config, s: State, head: Queued)
    requires Accounts(c, s)
    ensures Accounts(c, Recorded(c, ExecutedAction(c, s, head)))
  {
    var note := head.depth < c.maxDepth && AnalysisFails(c.env, s.executed, head.action);
    var (u, r) := ExecutedAction(c, s, head);
    ActionTrace(c, s, head);
    RanAccounts(c, s, Recorded(c, (u, r)), head.depth + 1, note, r);
  }

  lemma {:induction false} StepAccounts(c: Config, s: State)
    requires Accounts(c, s) && (s.initialized ==> s.pending != [])
    ensures Accounts(c, Recorded(c, StepOf(c, s)))
  {
    var t := Recorded(c, StepOf(c, s));
    if !s.initialized {
      OtherAccounts(c, s, t, 1, c.env.analyze(0, c.trigger).AnalyzerRaised?, Analyzed);
    } else {
      var head, s1 := s.pending[0], s.(pending := s.pending[1..]);
      if head.depth <= c.maxDepth && s.executed < c.budget {
        SameAccounts(c, s, s1);
        ActionAccounts(c, s1, head);
      } else {
        OtherAccounts(c, s, t, 0, false, StepOf(c, s).1);
      }
    }
  }

  lemma WorkingTurnIsStep(c: Config, s: State)
    requires s.status == Running && !Stops(c, s) && s.iteration < c.budget + 1
    ensures var s1 := s.(reason := ReasonGiven(c, s), iteration := s.iteration + 1);
            (s1.initialized ==> s1.pending != []) && Turn(c, s) == Recorded(c, StepOf(c, s1))
  {
  }

  lemma {:induction false} TurnAccounts(c: Config, s: State)
    requires Accounts(c, s) && s.status == Running
    ensures Accounts(c, Turn(c, s))
  {
    if !Stops(c, s) && s.iteration < c.budget + 1 {
      var s1 := s.(reason := ReasonGiven(c, s), iteration := s.iteration + 1);
      WorkingTurnIsStep(c, s);
      SameAccounts(c, s, s1);
      StepAccounts(c, s1);
    } else {
      SameAccounts(c, s, Turn(c, s));
    }
  }

  lemma TurnAdvances(c: Config, s: State)
    requires s.status == Running && Turn(c, s).status == Running
    ensures s.iteration <= c.budget && Turn(c, s).iteration == s.iteration + 1
  {
    if !Stops(c, s) && s.iteration < c.budget + 1 {
      WorkingTurnIsStep(c, s);
    }
  }

  lemma {:induction false} StartAccounts(c: Config)
    ensures Accounts(c, Start)
  {
  }

  /**
    What a run records is true. However a loop is run, paused and resumed, every record of an
    executed action says that it failed exactly if it did and follows a note about the analyzer
    exactly if that raised, and the calls made are those that the executed actions took.
  */
  lemma {:induction false} RunAccounts(c: Config, s: State)
    requires Accounts(c, s)
    ensures Accounts(c, RunOf(c, s))
    decreases if s.status == Running && s.iteration <= c.budget then c.budget + 1 - s.iteration else 0,
              if s.status == Running then 1 else 0
  {
    if s.status == Running {
      var t := Turn(c, s);
      TurnAccounts(c, s);
      if t.status == Running {
        TurnAdvances(c, s);
      }
      RunAccounts(c, t);
      assert RunOf(c, s) == RunOf(c, t);
    }
  }

  // ---------------------------------------------------------------------------
  // The loop itself.
  // ---------------------------------------------------------------------------

  class CascadeLoop {
    const config: Config
    const maxIterations: int

    var status: LoopStatus
    var iteration: nat
    var auditTrace: seq<Record>
    var pending: seq<Queued>
    var actionsExecuted: nat
    var initialized: bool
    var terminatedReason: Option<string>
    ghost var executeCalls: nat

    ghost function View(): State
      reads this
    {
      State(status, iteration, auditTrace, pending, actionsExecuted, initialized, terminatedReason, executeCalls)
    }

    ghost predicate Valid() {
      maxIterations == config.budget + 1
    }

    constructor (env: Env, triggerEvent: Trigger, maxDepth: int := 5, actionBudget: int := 50)
      ensures Valid() && View() == Start
      ensures config == Config(env, triggerEvent, maxDepth, actionBudget)
    {
      config := Config(env, triggerEvent, maxDepth, actionBudget);
      maxIterations := actionBudget + 1;
      status, iteration, auditTrace := Running, 0, [];
      pending, actionsExecuted, initialized, terminatedReason := [], 0, false, None;
      executeCalls := 0;
    }

    method ShouldTerminate() returns (stop: bool)
      modifies this`terminatedReason
      ensures stop == Stops(config, old(View()))
      ensures View() == old(View()).(reason := ReasonGiven(config, old(View())))
    {
      if terminatedReason != None {
        return true;
      }
      if !initialized {
        return false;
      }
      if pending == [] {
        return true;
      }
      if actionsExecuted >= config.budget {
        terminatedReason := Some(BUDGET_EXHAUSTED);
        return true;
      }
      return false;
    }

    // Enqueues what the analyzer derives from `trigger`; a raising analyzer leaves a record.
    method Expand(trigger: Trigger, depth: int, call: nat)
      modifies this`pending, this`auditTrace
      ensures View() == Expanded(config, old(View()), trigger, depth, call)
    {
      var output := config.env.analyze(call, trigger);
      if output.AnalyzerRaised? {
        auditTrace := auditTrace + [AnalyzerFailed(depth)];
        return;
      }
      if output.NotAList? {
        return;
      }
      ghost var before := pending;
      for i := 0 to |output.items|
        invariant pending == before + AtDepth(depth, Actions(output.items[..i]))
        invariant auditTrace == old(auditTrace)
      {
        ActionsAppend(output.items[..i], output.items[i]);
        assert output.items[..i + 1] == output.items[..i] + [output.items[i]];
        if output.items[i].Some? {
          pending := pending + [Queued(depth, output.items[i].value)];
        }
      }
      assert output.items[..|output.items|] == output.items;
    }

    // One attempt: execute(request), and execute(action) when that raised.
    method InvokeExecutor(action: Action) returns (attempt: Attempt)
      modifies this`executeCalls
      ensures attempt == Invoke(config.env, actionsExecuted, action)
      ensures executeCalls == old(executeCalls) + CallsMade(config.env, actionsExecuted, action)
    {
      attempt := config.env.structured(actionsExecuted, action);
      executeCalls := executeCalls + (if attempt == Raised(false) then 0 else 1);
      if attempt.Raised? {
        attempt := config.env.fallback(actionsExecuted, action);
        executeCalls := executeCalls + 1;
      }
    }

    method ExecuteAction(head: Queued) returns (record: Record)
      modifies this`pending, this`auditTrace, this`actionsExecuted, this`executeCalls
      ensures (View(), record) == ExecutedAction(config, old(View()), head)
    {
      var n := actionsExecuted;
      var attempt := InvokeExecutor(head.action);
      actionsExecuted := actionsExecuted + 1;
      var failed := attempt.Raised?;
      var derived: Option<Trigger> := None;
      if attempt.Returned? && attempt.result.Some? {
        match config.env.derive(n, attempt.result.value) {
          case DerivationRaised => failed := true;
          case NoTrigger =>
          case Derived(t) => derived := Some(t);
        }
      }
      if derived.Some? && head.depth < config.maxDepth {
        Expand(derived.value, head.depth + 1, n + 1);
      }
      record := Ran(head.depth, head.action, failed);
    }

    method Step() returns (record: Record)
      requires initialized ==> pending != []
      modifies this
      ensures (View(), record) == StepOf(config, old(View()))
    {
      if !initialized {
        initialized := true;
        Expand(config.trigger, 1, 0);
        return Analyzed;
      }
      var head := pending[0];
      pending := pending[1..];
      if head.depth > config.maxDepth {
        return SkippedDepth(head.depth, head.action);
      }
      if actionsExecuted >= config.budget {
        terminatedReason := Some(BUDGET_EXHAUSTED);
        return SkippedBudget(head.depth, head.action);
      }
      record := ExecuteAction(head);
    }

    // One pass of the driver's loop.
    method TakeTurn()
      requires Valid() && status == Running
      modifies this
      ensures View() == Turn(config, old(View()))
    {
      var stop := ShouldTerminate();
      if stop {
        status := Completed;
      } else if iteration >= maxIterations {
        status := MaxIterationsHit;
      } else {
        iteration := iteration + 1;
        var record := Step();
        auditTrace := auditTrace + [record];
        if config.env.pausedDuring(iteration) {
          status := Paused;
        }
      }
    }

    method Run()
      requires Valid()
      modifies this
      ensures View() == RunOf(config, old(View()))
    {
      ghost var whole := RunOf(config, View());
      while status == Running
        invariant RunOf(config, View()) == whole
        decreases if status == Running && iteration <= config.budget then config.budget + 1 - iteration else 0,
                  if status == Running then 1 else 0
      {
        TakeTurn();
      }
    }

    method Resume()
      modifies this`status
      ensures View() == old(View()).(status := Resumed(old(status)))
      ensures status == if old(status) == Paused || old(status) == AwaitingUser then Running else old(status)
    {
      if status in {Paused, AwaitingUser} {
        status := Running;
      }
    }
  }
}
