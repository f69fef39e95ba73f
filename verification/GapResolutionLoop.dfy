/**
  The gap-resolution loop (gap_resolution.py) under the shared driver (base_loop.py).

  `Plan` is the specification, and reads like the module's own description: for each gap in
  turn, attempt remediation until an attempt verifies or the retry limit is reached. The loop
  instead makes one attempt per iteration, on the first open gap of a list it updates in
  place, under an iteration cap; it is proved to carry out the plan.

  Attempts are numbered across the whole run, and the executor, the verifier and the user
  broker are oracles of that number, so they may behave differently every time.
*/
module GapResolution {
  import opened Wrappers
  import opened BaseLoop

  datatype GapStatus = Open | Resolved | NeedsHuman

  // `prompts` counts the prompts emitted for the gap; `escalated` is the flag the loop leaves.
  datatype Gap = Gap(status: GapStatus, attempts: nat, prompts: nat, escalated: Option<bool>)

  const FRESH := Gap(Open, 0, 0, None)

  // One call of execute(): `called` is false when building the ActionRequest already raised,
  // and `some` is false when the call returned None.
  datatype Attempt = Raised(called: bool) | Returned(some: bool)

  datatype Verdict = Verified | NotVerified | VerifierRaised

  datatype Env = Env(
    structured: nat -> Attempt,
    fallback: nat -> Attempt,
    verify: nat -> Verdict,
    emitRaises: nat -> bool,
    pausedDuring: nat -> bool)

  datatype Config = Config(env: Env, gapCount: nat, maxRetries: int, givenCap: Option<int>, hasBroker: bool)

  function Invoke(env: Env, i: nat): Attempt {
    if env.structured(i).Returned? then env.structured(i) else env.fallback(i)
  }

  function CallsMade(env: Env, i: nat): nat {
    if env.structured(i) == Raised(true) then 2 else 1
  }

  // Whether attempt `i` closes its gap as resolved.
  predicate Resolves(env: Env, i: nat) {
    Invoke(env, i) == Returned(true) && env.verify(i) == Verified
  }

  // The attempts a gap can get. A limit below 1 still allows the first attempt.
  function Limit(maxRetries: int): nat {
    if maxRetries < 1 then 1 else maxRetries
  }

  function Max(a: int, b: int): int {
    if a < b then b else a
  }

  // `max_iterations or default_cap`: a given cap of 0 counts as not given.
  function Cap(c: Config): int {
    if c.givenCap.Some? && c.givenCap.value != 0 then c.givenCap.value
    else Max(1, c.gapCount * (c.maxRetries + 1) + 1)
  }

  // ---------------------------------------------------------------------------
  // Specification: each gap in turn.
  // ---------------------------------------------------------------------------

  // The attempts spent on a gap that starts with attempt `i` and may get `left` of them.
  function Tries(env: Env, i: nat, left: nat): (n: nat)
    requires 1 <= left
    ensures 1 <= n <= left
    decreases left
  {
    if Resolves(env, i) || left == 1 then 1 else 1 + Tries(env, i + 1, left - 1)
  }

  // How a gap looks after attempt `i` closed it as its n-th.
  function Closed(c: Config, i: nat, n: nat): Gap {
    if Resolves(c.env, i) then Gap(Resolved, n, 0, None)
    else if c.hasBroker then Gap(NeedsHuman, n, 1, Some(!c.env.emitRaises(i)))
    else Gap(NeedsHuman, n, 0, Some(true))
  }

  // The `k` gaps that are worked on from attempt `i` on.
  function Plan(c: Config, k: nat, i: nat): (gaps: seq<Gap>)
    ensures |gaps| == k
  {
    if k == 0 then []
    else
      var n := Tries(c.env, i, Limit(c.maxRetries));
      [Closed(c, i + n - 1, n)] + Plan(c, k - 1, i + n)
  }

  function TotalTries(c: Config, k: nat, i: nat): nat {
    if k == 0 then 0
    else
      var n := Tries(c.env, i, Limit(c.maxRetries));
      n + TotalTries(c, k - 1, i + n)
  }

  // The last of a gap's attempts verified or exhausted the limit, and no earlier one verified.
  lemma {:induction false} TriesMeaning(env: Env, i: nat, left: nat)
    requires 1 <= left
    ensures var n := Tries(env, i, left);
            && (Resolves(env, i + n - 1) || n == left)
            && forall j :: i <= j < i + n - 1 ==> !Resolves(env, j)
    decreases left
  {
    if !Resolves(env, i) && left > 1 {
      TriesMeaning(env, i + 1, left - 1);
    }
  }

  lemma {:induction false} TriesResume(env: Env, i: nat, left: nat, a: nat)
    requires a < left
    requires forall j :: i <= j < i + a ==> !Resolves(env, j)
    ensures Tries(env, i, left) == a + Tries(env, i + a, left - a)
    decreases left
  {
    if a > 0 {
      assert !Resolves(env, i);
      TriesResume(env, i + 1, left - 1, a - 1);
    }
  }

  // A gap that ended resolved, or escalated with the retries used up and the user prompted once.
  predicate WellClosed(c: Config, g: Gap) {
    && 1 <= g.attempts <= Limit(c.maxRetries)
    && match g.status
       case Open => false
       case Resolved => g.prompts == 0 && g.escalated == None
       case NeedsHuman =>
         && g.attempts == Limit(c.maxRetries)
         && g.prompts == (if c.hasBroker then 1 else 0)
         && g.escalated.Some?
  }

  lemma {:induction false} PlanCloses(c: Config, k: nat, i: nat)
    ensures forall g :: 0 <= g < k ==> WellClosed(c, Plan(c, k, i)[g])
  {
    if k > 0 {
      var n := Tries(c.env, i, Limit(c.maxRetries));
      TriesMeaning(c.env, i, Limit(c.maxRetries));
      PlanCloses(c, k - 1, i + n);
      assert WellClosed(c, Closed(c, i + n - 1, n));
    }
  }

  lemma {:induction false} TotalBounds(c: Config, k: nat, i: nat)
    ensures k <= TotalTries(c, k, i) <= k * Limit(c.maxRetries)
  {
    if k > 0 {
      var n := Tries(c.env, i, Limit(c.maxRetries));
      TotalBounds(c, k - 1, i + n);
      assert k * Limit(c.maxRetries) == (k - 1) * Limit(c.maxRetries) + Limit(c.maxRetries);
    }
  }

  // ---------------------------------------------------------------------------
  // The loop as a state machine.
  // ---------------------------------------------------------------------------

  datatype State = State(status: LoopStatus, iteration: nat, gaps: seq<Gap>, calls: nat)

  function FreshGaps(n: nat): seq<Gap> {
    seq(n, _ => FRESH)
  }

  function Start(c: Config): State {
    State(Running, 0, FreshGaps(c.gapCount), 0)
  }

  // The position of the first open gap, or the length if there is none.
  function FirstOpen(gaps: seq<Gap>): (i: nat)
    ensures i <= |gaps|
    ensures i < |gaps| ==> gaps[i].status == Open
    ensures forall j :: 0 <= j < i ==> gaps[j].status != Open
  {
    if gaps == [] || gaps[0].status == Open then 0 else 1 + FirstOpen(gaps[1..])
  }

  // A gap after the attempt numbered `i`.
  function Attempted(c: Config, i: nat, g: Gap): Gap {
    var n := g.attempts + 1;
    if Resolves(c.env, i) then g.(attempts := n, status := Resolved)
    else if n >= c.maxRetries then
      g.(attempts := n, status := NeedsHuman,
         prompts := if c.hasBroker then g.prompts + 1 else g.prompts,
         escalated := Some(!c.hasBroker || !c.env.emitRaises(i)))
    else g.(attempts := n)
  }

  // One iteration: an attempt on the first open gap. The attempt's number is the count of earlier ones.
  function StepOf(c: Config, s: State): State {
    var i := FirstOpen(s.gaps);
    if i == |s.gaps| then s.(iteration := s.iteration + 1)
    else s.(iteration := s.iteration + 1,
            gaps := s.gaps[i := Attempted(c, s.iteration, s.gaps[i])],
            calls := s.calls + CallsMade(c.env, s.iteration))
  }

  predicate Stops(s: State) {
    FirstOpen(s.gaps) == |s.gaps|
  }

  function Turn(c: Config, s: State): State {
    if Stops(s) then s.(status := Completed)
    else if s.iteration >= Cap(c) then s.(status := MaxIterationsHit)
    else
      var t := StepOf(c, s);
      t.(status := if c.env.pausedDuring(s.iteration) then Paused else s.status)
  }

  function RunOf(c: Config, s: State): State
    decreases if s.status == Running && s.iteration < Cap(c) then Cap(c) - s.iteration else 0,
              if s.status == Running then 1 else 0
  {
    if s.status == Running then RunOf(c, Turn(c, s)) else s
  }

  // ---------------------------------------------------------------------------
  // What every turn keeps.
  // ---------------------------------------------------------------------------

  /**
    The closed gaps are a prefix, and are as the plan says; the first open gap has had `a`
    attempts, all fruitless and from attempt `start` on; the others have had none.
  */
  ghost predicate OnPlan(c: Config, s: State, done: seq<Gap>, start: nat, a: nat) {
    && |done| <= c.gapCount
    && Plan(c, c.gapCount, 0) == done + Plan(c, c.gapCount - |done|, start)
    && TotalTries(c, c.gapCount, 0) == start + TotalTries(c, c.gapCount - |done|, start)
    && (forall g :: 0 <= g < |done| ==> done[g].status != Open)
    && s.iteration == start + a
    && a < Limit(c.maxRetries)
    && (forall j :: start <= j < start + a ==> !Resolves(c.env, j))
    && s.gaps == (if |done| == c.gapCount then done
                  else done + [FRESH.(attempts := a)] + FreshGaps(c.gapCount - |done| - 1))
    && (|done| == c.gapCount ==> a == 0)
  }

  ghost predicate Consistent(c: Config, s: State) {
    && s.iteration <= s.calls <= 2 * s.iteration
    && (s.iteration == 0 || s.iteration <= Cap(c))
    && exists done: seq<Gap>, start: nat, a: nat :: OnPlan(c, s, done, start, a)
  }

  lemma FirstOpenOnPlan(c: Config, s: State, done: seq<Gap>, start: nat, a: nat)
    requires OnPlan(c, s, done, start, a)
    ensures FirstOpen(s.gaps) == |done| && |s.gaps| == c.gapCount
    ensures |done| < c.gapCount ==> s.gaps[|done|] == FRESH.(attempts := a)
  {
    assert forall j :: 0 <= j < |done| ==> s.gaps[j] == done[j];
    if |done| < c.gapCount {
      assert s.gaps[|done|].status == Open;
    }
  }

  lemma Associate(a: seq<Gap>, b: seq<Gap>, c: seq<Gap>)
    ensures a + (b + c) == (a + b) + c
  {
  }

  // The attempt that closes the gap, as the plan says.
  lemma {:induction false} ClosingAttempt(c: Config, s: State, done: seq<Gap>, start: nat, a: nat)
    requires OnPlan(c, s, done, start, a) && |done| < c.gapCount
    requires Resolves(c.env, s.iteration) || a + 1 == Limit(c.maxRetries)
    ensures var g := Attempted(c, s.iteration, FRESH.(attempts := a));
            && g.status != Open
            && Plan(c, c.gapCount, 0) == (done + [g]) + Plan(c, c.gapCount - |done| - 1, start + a + 1)
            && TotalTries(c, c.gapCount, 0) == start + a + 1 + TotalTries(c, c.gapCount - |done| - 1, start + a + 1)
  {
    TriesResume(c.env, start, Limit(c.maxRetries), a);
    var g, k := Attempted(c, s.iteration, FRESH.(attempts := a)), c.gapCount - |done|;
    assert Tries(c.env, start, Limit(c.maxRetries)) == a + 1;
    assert g == Closed(c, s.iteration, a + 1);
    assert Plan(c, k, start) == [g] + Plan(c, k - 1, start + a + 1);
    Associate(done, [g], Plan(c, k - 1, start + a + 1));
  }

  lemma ReplaceOpen(done: seq<Gap>, a: nat, rest: nat, g: Gap)
    ensures (done + [FRESH.(attempts := a)] + FreshGaps(rest))[|done| := g] == done + [g] + FreshGaps(rest)
    ensures rest == 0 ==> done + [g] + FreshGaps(rest) == done + [g]
    ensures rest > 0 ==> done + [g] + FreshGaps(rest) == (done + [g]) + [FRESH.(attempts := 0)] + FreshGaps(rest - 1)
  {
  }

  lemma {:induction false} StepAtOpen(c: Config, s: State, done: seq<Gap>, start: nat, a: nat)
    requires OnPlan(c, s, done, start, a) && |done| < c.gapCount
    ensures var g, k := Attempted(c, s.iteration, FRESH.(attempts := a)), c.gapCount - |done| - 1;
            StepOf(c, s).gaps == done + [g] + FreshGaps(k)
  {
    FirstOpenOnPlan(c, s, done, start, a);
    ReplaceOpen(done, a, c.gapCount - |done| - 1, Attempted(c, s.iteration, FRESH.(attempts := a)));
  }

  lemma {:induction false} ClosesOnPlan(c: Config, s: State, done: seq<Gap>, start: nat, a: nat)
    requires OnPlan(c, s, done, start, a) && |done| < c.gapCount
    requires Resolves(c.env, s.iteration) || a + 1 == Limit(c.maxRetries)
    ensures var g := Attempted(c, s.iteration, FRESH.(attempts := a));
            g.status != Open && OnPlan(c, StepOf(c, s), done + [g], start + a + 1, 0)
  {
    var g := Attempted(c, s.iteration, FRESH.(attempts := a));
    FirstOpenOnPlan(c, s, done, start, a);
    StepAtOpen(c, s, done, start, a);
    ClosingAttempt(c, s, done, start, a);
    ReplaceOpen(done, a, c.gapCount - |done| - 1, g);
  }

  lemma {:induction false} StaysOnPlan(c: Config, s: State, done: seq<Gap>, start: nat, a: nat)
    requires OnPlan(c, s, done, start, a) && |done| < c.gapCount
    requires !Resolves(c.env, s.iteration) && a + 1 != Limit(c.maxRetries)
    ensures var g := Attempted(c, s.iteration, FRESH.(attempts := a));
            g == FRESH.(attempts := a + 1) && OnPlan(c, StepOf(c, s), done, start, a + 1)
  {
    FirstOpenOnPlan(c, s, done, start, a);
    StepAtOpen(c, s, done, start, a);
  }

  // An attempt either closes the gap, as the plan says, or adds to its fruitless attempts.
  lemma {:induction false} AttemptOnPlan(c: Config, s: State, done: seq<Gap>, start: nat, a: nat)
    requires OnPlan(c, s, done, start, a) && |done| < c.gapCount
    ensures var g := Attempted(c, s.iteration, FRESH.(attempts := a));
            if Resolves(c.env, s.iteration) || a + 1 == Limit(c.maxRetries)
            then g.status != Open && OnPlan(c, StepOf(c, s), done + [g], start + a + 1, 0)
            else g == FRESH.(attempts := a + 1) && OnPlan(c, StepOf(c, s), done, start, a + 1)
  {
    if Resolves(c.env, s.iteration) || a + 1 == Limit(c.maxRetries) {
      ClosesOnPlan(c, s, done, start, a);
    } else {
      StaysOnPlan(c, s, done, start, a);
    }
  }

  // ---------------------------------------------------------------------------
  // Whole runs.
  // ---------------------------------------------------------------------------

  lemma StartConsistent(c: Config)
    ensures Consistent(c, Start(c))
  {
    assert [] + Plan(c, c.gapCount, 0) == Plan(c, c.gapCount, 0);
    assert FreshGaps(c.gapCount) == if c.gapCount == 0 then [] else [] + [FRESH] + FreshGaps(c.gapCount - 1);
    assert OnPlan(c, Start(c), [], 0, 0);
  }

  // A turn that works makes one attempt, which is one call of execute() or two.
  lemma WorkingTurn(c: Config, s: State)
    requires Consistent(c, s) && s.status == Running
    requires !Stops(s) && s.iteration < Cap(c)
    ensures var t := Turn(c, s);
            && Consistent(c, t)
            && t.status == (if c.env.pausedDuring(s.iteration) then Paused else Running)
            && t.iteration == s.iteration + 1
  {
    var t := Turn(c, s);
    var done: seq<Gap>, start: nat, a: nat :| OnPlan(c, s, done, start, a);
    FirstOpenOnPlan(c, s, done, start, a);
    AttemptOnPlan(c, s, done, start, a);
    var g := Attempted(c, s.iteration, FRESH.(attempts := a));
    if g.status != Open {
      assert OnPlan(c, t, done + [g], start + a + 1, 0);
    } else {
      assert OnPlan(c, t, done, start, a + 1);
    }
  }

  // A turn that stops the loop: because every gap is closed, or at the cap with work left to do.
  lemma StoppingTurn(c: Config, s: State)
    requires Consistent(c, s) && s.status == Running
    requires Stops(s) || s.iteration >= Cap(c)
    ensures var t := Turn(c, s);
            && Consistent(c, t)
            && t.status in {Completed, MaxIterationsHit}
            && (t.status == Completed ==>
                  t.gaps == Plan(c, c.gapCount, 0) && t.iteration == TotalTries(c, c.gapCount, 0))
            && (t.status == MaxIterationsHit ==>
                  0 < c.gapCount && Cap(c) < TotalTries(c, c.gapCount, 0))
  {
    var t := Turn(c, s);
    var done: seq<Gap>, start: nat, a: nat :| OnPlan(c, s, done, start, a);
    assert OnPlan(c, t, done, start, a);
    FirstOpenOnPlan(c, s, done, start, a);
    if Stops(s) {
      assert Plan(c, 0, start) == [];
      assert done + [] == done;
    } else {
      TriesResume(c.env, start, Limit(c.maxRetries), a);
    }
  }

  // How a run may end: complete with the gaps exactly as planned, at the cap only when the plan
  // takes more attempts than that, or paused by someone.
  ghost predicate EndsAsPlanned(c: Config, r: State) {
    && r.status in {Completed, MaxIterationsHit, Paused}
    && (r.status == Completed ==>
          r.gaps == Plan(c, c.gapCount, 0) && r.iteration == TotalTries(c, c.gapCount, 0))
    && (r.status == MaxIterationsHit ==>
          0 < c.gapCount && Cap(c) < TotalTries(c, c.gapCount, 0))
    && (r.status == Paused ==> r.iteration > 0 && c.env.pausedDuring(r.iteration - 1))
  }

  lemma {:induction false} StoppedAsPlanned(c: Config, s: State)
    requires Consistent(c, s) && s.status == Running && (Stops(s) || s.iteration >= Cap(c))
    ensures var t := Turn(c, s); Consistent(c, t) && t.status != Running && EndsAsPlanned(c, t)
  {
    StoppingTurn(c, s);
  }

  // A turn leads to a consistent state, which has ended as planned unless it is still running.
  lemma {:induction false} TurnFollowsPlan(c: Config, s: State)
    requires Consistent(c, s) && s.status == Running
    ensures var t := Turn(c, s); Consistent(c, t) && (t.status == Running || EndsAsPlanned(c, t))
    ensures Stops(s) || s.iteration >= Cap(c) ==> Turn(c, s).status != Running
  {
    if Stops(s) || s.iteration >= Cap(c) {
      StoppedAsPlanned(c, s);
    } else {
      WorkingTurn(c, s);
    }
  }

  /**
    A loop in any consistent state, fresh or resumed, runs until someone pauses it or it stops
    by itself, as planned.
  */
  lemma {:induction false} RunFollowsPlan(c: Config, s: State)
    requires Consistent(c, s)
    ensures Consistent(c, RunOf(c, s))
    ensures s.status == Running ==> EndsAsPlanned(c, RunOf(c, s))
    decreases if s.status == Running && s.iteration < Cap(c) then Cap(c) - s.iteration else 0,
              if s.status == Running then 1 else 0
  {
    if s.status == Running {
      TurnFollowsPlan(c, s);
      if !Stops(s) && s.iteration < Cap(c) {
        WorkingTurn(c, s);
      }
      RunFollowsPlan(c, Turn(c, s));
    }
  }

  lemma MulMonotone(k: nat, a: int, b: int)
    requires a <= b
    ensures k * a <= k * b
  {
  }

  // The default cap is never what stops the loop, unless the retry limit is negative and there
  // are several gaps: then it allows one attempt.
  lemma DefaultCap(c: Config)
    requires c.givenCap == None || c.givenCap == Some(0)
    ensures (c.gapCount == 0 || TotalTries(c, c.gapCount, 0) <= Cap(c)) <==> 0 <= c.maxRetries || c.gapCount <= 1
  {
    TotalBounds(c, c.gapCount, 0);
    if 0 <= c.maxRetries {
      assert c.gapCount * Limit(c.maxRetries) <= c.gapCount * (c.maxRetries + 1) by {
        MulMonotone(c.gapCount, Limit(c.maxRetries), c.maxRetries + 1);
      }
    } else {
      MulMonotone(c.gapCount, c.maxRetries + 1, 0);
    }
  }

  /**
    With the default cap and retries of 0 or more, a fresh loop that nobody pauses always
    completes, with every gap resolved or escalated. The same holds of a negative retry limit
    when there is at most one gap, and of no other loop with the default cap.
  */
  lemma FreshRun(c: Config)
    requires forall i: nat :: !c.env.pausedDuring(i)
    requires c.givenCap == None || c.givenCap == Some(0)
    ensures var r := RunOf(c, Start(c));
            && (r.status == Completed <==> 0 <= c.maxRetries || c.gapCount <= 1)
            && (r.status == Completed ==>
                  |r.gaps| == c.gapCount && forall g :: 0 <= g < c.gapCount ==> WellClosed(c, r.gaps[g]))
  {
    StartConsistent(c);
    RunFollowsPlan(c, Start(c));
    DefaultCap(c);
    PlanCloses(c, c.gapCount, 0);
  }

  // A cap that is given, and not 0, counts instead: the loop completes exactly if the plan's attempts
  // are no more than that, and never makes more.
  lemma GivenCap(c: Config)
    requires forall i: nat :: !c.env.pausedDuring(i)
    requires c.givenCap.Some? && c.givenCap.value != 0
    ensures var r := RunOf(c, Start(c));
            && (r.status == Completed <==> c.gapCount == 0 || TotalTries(c, c.gapCount, 0) <= c.givenCap.value)
            && (r.status != Completed ==> r.status == MaxIterationsHit)
            && (r.iteration == 0 || r.iteration <= c.givenCap.value)
  {
    StartConsistent(c);
    RunFollowsPlan(c, Start(c));
    TotalBounds(c, c.gapCount, 0);
  }

  /**
    In every state on the way: the closed gaps are a prefix and well closed, only the gap after
    them can have attempts, fewer than the limit, and every attempt took one or two calls.
  */
  lemma ShapeOnTheWay(c: Config, s: State)
    requires Consistent(c, s)
    ensures var k := FirstOpen(s.gaps);
            && |s.gaps| == c.gapCount
            && (forall g :: 0 <= g < k ==> WellClosed(c, s.gaps[g]))
            && (k < c.gapCount ==> s.gaps[k].attempts < Limit(c.maxRetries) && s.gaps[k].prompts == 0)
            && (forall g :: k < g < c.gapCount ==> s.gaps[g] == FRESH)
    ensures s.iteration <= s.calls <= 2 * s.iteration
  {
    var done: seq<Gap>, start: nat, a: nat :| OnPlan(c, s, done, start, a);
    FirstOpenOnPlan(c, s, done, start, a);
    PlanCloses(c, c.gapCount, 0);
    assert forall g :: 0 <= g < |done| ==> s.gaps[g] == Plan(c, c.gapCount, 0)[g];
  }

  // ---------------------------------------------------------------------------
  // What the oracles' answers mean for a gap, and for the calls made.
  // ---------------------------------------------------------------------------

  // An attempt succeeds when the executor answers something, to the structured call or, if that
  // raises, to the plain one, and the verifier then says yes; one that raises says no.
  predicate Succeeds(env: Env, i: nat) {
    && (env.structured(i) == Returned(true) || (env.structured(i).Raised? && env.fallback(i) == Returned(true)))
    && env.verify(i) == Verified
  }

  lemma SuccessResolves(env: Env, i: nat)
    ensures Succeeds(env, i) <==> Resolves(env, i)
  {
  }

  // How a gap looks whose attempts start with `first`.
  ghost predicate EndsFrom(c: Config, gap: Gap, first: nat) {
    && 1 <= gap.attempts <= Limit(c.maxRetries)
    && (forall j :: first <= j < first + gap.attempts - 1 ==> !Succeeds(c.env, j))
    && (gap.status == Resolved <==> Succeeds(c.env, first + gap.attempts - 1))
    && (gap.status != Resolved ==>
          && gap.status == NeedsHuman && gap.attempts == Limit(c.maxRetries)
          && gap.escalated == Some(c.hasBroker ==> !c.env.emitRaises(first + gap.attempts - 1)))
  }

  lemma {:induction false} ClosedEnds(c: Config, i: nat)
    ensures var n := Tries(c.env, i, Limit(c.maxRetries)); EndsFrom(c, Closed(c, i + n - 1, n), i)
  {
    var n := Tries(c.env, i, Limit(c.maxRetries));
    TriesMeaning(c.env, i, Limit(c.maxRetries));
    SuccessResolves(c.env, i + n - 1);
    forall j: nat | i <= j < i + n - 1 ensures !Succeeds(c.env, j) {
      SuccessResolves(c.env, j);
    }
  }

  /**
    What becomes of each gap of a plan. Its attempts are the next ones after those of the gaps before
    it, at most as many as the limit; it is resolved if and only if one of them succeeds, and then
    with the first that does. Otherwise it has had them all and is escalated, a prompt that could
    not be emitted excepted.
  */
  lemma {:induction false} PlanMeaning(c: Config, k: nat, i: nat, g: nat)
    requires g < k
    ensures EndsFrom(c, Plan(c, k, i)[g], i + TotalTries(c, g, i))
    decreases g
  {
    var n := Tries(c.env, i, Limit(c.maxRetries));
    if g == 0 {
      ClosedEnds(c, i);
    } else {
      PlanMeaning(c, k - 1, i + n, g - 1);
      assert Plan(c, k, i)[g] == Plan(c, k - 1, i + n)[g - 1];
    }
  }

  // The calls that the first n attempts take: one each, unless building the structured request
  // raised, and one more for each whose structured attempt raised.
  function Calls(env: Env, n: nat): nat {
    if n == 0 then 0
    else Calls(env, n - 1) + One(env.structured(n - 1) != Raised(false)) + One(env.structured(n - 1).Raised?)
  }

  lemma {:induction false} TurnCalls(c: Config, s: State)
    requires s.calls == Calls(c.env, s.iteration)
    ensures Turn(c, s).calls == Calls(c.env, Turn(c, s).iteration)
  {
  }

  // Over every run, however paused and resumed, the calls made are those of its attempts.
  lemma {:induction false} RunCalls(c: Config, s: State)
    requires s.calls == Calls(c.env, s.iteration)
    ensures RunOf(c, s).calls == Calls(c.env, RunOf(c, s).iteration)
    decreases if s.status == Running && s.iteration < Cap(c) then Cap(c) - s.iteration else 0,
              if s.status == Running then 1 else 0
  {
    if s.status == Running {
      TurnCalls(c, s);
      RunCalls(c, Turn(c, s));
      assert RunOf(c, s) == RunOf(c, Turn(c, s));
    }
  }

  // ---------------------------------------------------------------------------
  // The loop itself.
  // ---------------------------------------------------------------------------

  class GapResolutionLoop {
    const config: Config
    const maxIterations: int

    var status: LoopStatus
    var iteration: nat
    var gaps: seq<Gap>
    ghost var executeCalls: nat

    ghost function View(): State
      reads this
    {
      State(status, iteration, gaps, executeCalls)
    }

    ghost predicate Valid()
      reads this
    {
      maxIterations == Cap(config)
    }

    constructor (env: Env, gapCount: nat, hasBroker: bool, maxRetries: int := 3, givenCap: Option<int> := None)
      ensures Valid() && config == Config(env, gapCount, maxRetries, givenCap, hasBroker)
      ensures View() == Start(config)
    {
      var defaultCap := Max(1, gapCount * (maxRetries + 1) + 1);
      config := Config(env, gapCount, maxRetries, givenCap, hasBroker);
      maxIterations := match givenCap case None => defaultCap case Some(k) => if k == 0 then defaultCap else k;
      status, iteration, executeCalls := Running, 0, 0;
      gaps := seq(gapCount, _ => Gap(Open, 0, 0, None));
      new;
      assert gaps == FreshGaps(gapCount);
    }

    method ShouldTerminate() returns (stop: bool)
      ensures stop == Stops(View())
      ensures stop <==> forall g :: 0 <= g < |gaps| ==> gaps[g].status in {Resolved, NeedsHuman}
    {
      for i := 0 to |gaps|
        invariant forall g :: 0 <= g < i ==> gaps[g].status in {Resolved, NeedsHuman}
      {
        if gaps[i].status !in {Resolved, NeedsHuman} {
          return false;
        }
      }
      return true;
    }

    method NextOpenGap() returns (i: nat)
      ensures i == FirstOpen(gaps)
    {
      i := 0;
      while i < |gaps|
        invariant i <= FirstOpen(gaps)
      {
        if gaps[i].status == Open {
          return;
        }
        i := i + 1;
      }
    }

    // execute(request), and execute(action) when that raised.
    method InvokeExecutor(i: nat) returns (attempt: Attempt)
      modifies this`executeCalls
      ensures attempt == Invoke(config.env, i)
      ensures executeCalls == old(executeCalls) + CallsMade(config.env, i)
    {
      attempt := config.env.structured(i);
      executeCalls := executeCalls + (if attempt == Raised(false) then 0 else 1);
      if attempt.Raised? {
        attempt := config.env.fallback(i);
        executeCalls := executeCalls + 1;
      }
    }

    method SurfaceToUser(g: nat, i: nat)
      requires g < |gaps|
      modifies this`gaps
      ensures gaps == old(gaps)[g := old(gaps)[g].(
                prompts := if config.hasBroker then old(gaps)[g].prompts + 1 else old(gaps)[g].prompts,
                escalated := Some(!config.hasBroker || !config.env.emitRaises(i)))]
    {
      if !config.hasBroker {
        gaps := gaps[g := gaps[g].(escalated := Some(true))];
        return;
      }
      gaps := gaps[g := gaps[g].(prompts := gaps[g].prompts + 1)];
      gaps := gaps[g := gaps[g].(escalated := Some(!config.env.emitRaises(i)))];
    }

    // One iteration; the driver has already counted it.
    method Step()
      requires 1 <= iteration
      modifies this`gaps, this`executeCalls
      ensures View() == StepOf(config, old(View()).(iteration := old(iteration) - 1))
    {
      var g := NextOpenGap();
      if g == |gaps| {
        return;
      }
      var i := iteration - 1;
      gaps := gaps[g := gaps[g].(attempts := gaps[g].attempts + 1)];
      var attempt := InvokeExecutor(i);
      var verified := false;
      if attempt == Returned(true) {
        verified := config.env.verify(i) == Verified;
      }
      if verified {
        gaps := gaps[g := gaps[g].(status := Resolved)];
      } else if gaps[g].attempts >= config.maxRetries {
        gaps := gaps[g := gaps[g].(status := NeedsHuman)];
        SurfaceToUser(g, i);
      }
    }

    // One pass of the driver's loop.
    method TakeTurn()
      requires Valid() && status == Running
      modifies this
      ensures View() == Turn(config, old(View()))
    {
      var stop := ShouldTerminate();
      if stop {
        status := Completed;
      } else if iteration >= maxIterations {
        status := MaxIterationsHit;
      } else {
        iteration := iteration + 1;
        Step();
        if config.env.pausedDuring(iteration - 1) {
          status := Paused;
        }
      }
    }

    method Run()
      requires Valid()
      modifies this
      ensures View() == RunOf(config, old(View()))
    {
      ghost var whole := RunOf(config, View());
      while status == Running
        invariant RunOf(config, View()) == whole
        decreases if status == Running && iteration < maxIterations then maxIterations - iteration else 0,
                  if status == Running then 1 else 0
      {
        TakeTurn();
      }
    }

    method Resume()
      modifies this`status
      ensures View() == old(View()).(status := Resumed(old(status)))
      ensures status == if old(status) == Paused || old(status) == AwaitingUser then Running else old(status)
    {
      if status in {Paused, AwaitingUser} {
        status := Running;
      }
    }
  }

  // The control hooks keep a loop consistent, so `Run` may be called again after any of them.
  lemma HooksKeepConsistent(c: Config, s: State, status: LoopStatus)
    requires Consistent(c, s)
    ensures Consistent(c, s.(status := status))
  {
    var done: seq<Gap>, start: nat, a: nat :| OnPlan(c, s, done, start, a);
    assert OnPlan(c, s.(status := status), done, start, a);
  }
}
