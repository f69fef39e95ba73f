/**
  The executor together with its day files and its rate limiter (executor.py, safety.py): the
  limiter's answer is no longer an oracle but counted in the log that the run itself has written.
  Crashes and failures come between any two small steps; the log stays on disk.
*/
module RateLimitedRuns {
  import opened Wrappers
  import opened AuthorityPolicy
  import opened AuditLog
  import A = ActionExecution

  // A small step with the readings of the clock it makes, if it makes any: one to ask the limiter,
  // one to stamp an event, one to choose its file.
  datatype Timed = Timed(step: A.Step, checked: int, stamped: int, written: int)

  datatype State = State(exec: A.State, log: Log)

  const START := State(A.INITIAL, [])

  function LimitOf(p: Policy, action: string): Option<int> {
    if action in REGISTRY then EffectiveLimit(p, REGISTRY[action]) else None
  }

  function LimitsOf(p: Policy): Limits {
    (_: string, action: string) => LimitOf(p, action)
  }

  // The step with the limiter's own answer.
  function Answered(p: Policy, s: State, t: Timed): A.Step {
    if t.step.Tick? && s.exec.op.Received? then
      var r := s.exec.op.request;
      A.Tick(t.step.world.(overLimit := OverLimit(s.log, r.plugin, r.action, LimitOf(p, r.action), t.checked)))
    else t.step
  }

  // The event the step writes to the log, if any.
  function EventOf(p: Policy, s: State, t: Timed): Option<A.Event> {
    match A.Emitted(p, s.exec, Answered(p, s, t))
    case Some(Logged(e)) => Some(e)
    case _ => None
  }

  function EntryOf(e: A.Event, stamped: int): Entry {
    Entry(e.request.plugin, e.request.action, e.Intent?, stamped)
  }

  function Next(p: Policy, s: State, t: Timed): State {
    State(A.Next(p, s.exec, Answered(p, s, t)),
          match EventOf(p, s, t)
          case None => s.log
          case Some(e) => Written(s.log, DayOf(t.written), EntryOf(e, t.stamped)))
  }

  function RunOf(p: Policy, s: State, ts: seq<Timed>): State
    decreases |ts|
  {
    if ts == [] then s else RunOf(p, Next(p, s, ts[0]), ts[1..])
  }

  // The clock never goes back, crashes or not.
  predicate ClockRuns(now: int, ts: seq<Timed>)
    decreases |ts|
  {
    ts == [] || (now <= ts[0].checked <= ts[0].stamped <= ts[0].written && ClockRuns(ts[0].written, ts[1..]))
  }

  // ---------------------------------------------------------------------------
  // It is a run of the executor, and writes what a run of the limiter writes.
  // ---------------------------------------------------------------------------

  function StepsOf(p: Policy, s: State, ts: seq<Timed>): seq<A.Step>
    decreases |ts|
  {
    if ts == [] then [] else [Answered(p, s, ts[0])] + StepsOf(p, Next(p, s, ts[0]), ts[1..])
  }

  // So whatever holds of all runs of the executor holds of these.
  lemma {:induction false} RunIsExecutorRun(p: Policy, s: State, ts: seq<Timed>)
    ensures RunOf(p, s, ts).exec == A.RunOf(p, s.exec, StepsOf(p, s, ts))
    decreases |ts|
  {
    if ts == [] {
    } else {
      var steps := StepsOf(p, s, ts);
      assert steps[0] == Answered(p, s, ts[0]) && steps[1..] == StepsOf(p, Next(p, s, ts[0]), ts[1..]);
      RunIsExecutorRun(p, Next(p, s, ts[0]), ts[1..]);
    }
  }

  // What the step is to the limiter: an attempt, which it lets through or not, or another event.
  function OpOf(e: A.Event, t: Timed): Op {
    if e.Intent? || e.RateLimited?
    then Attempt(e.request.plugin, e.request.action, t.checked, t.stamped, t.written)
    else OtherEvent(e.request.plugin, e.request.action, t.stamped, t.written)
  }

  lemma EventIsOp(p: Policy, s: State, t: Timed)
    requires EventOf(p, s, t).Some?
    ensures Next(p, s, t).log == Apply(s.log, OpOf(EventOf(p, s, t).value, t), LimitsOf(p))
  {
  }

  function OpsOf(p: Policy, s: State, ts: seq<Timed>): seq<Op>
    decreases |ts|
  {
    if ts == [] then []
    else
      match EventOf(p, s, ts[0])
      case None => OpsOf(p, Next(p, s, ts[0]), ts[1..])
      case Some(e) => [OpOf(e, ts[0])] + OpsOf(p, Next(p, s, ts[0]), ts[1..])
  }

  lemma {:induction false} RunIsLimiterRun(p: Policy, s: State, ts: seq<Timed>)
    ensures RunOf(p, s, ts).log == ApplyAll(s.log, OpsOf(p, s, ts), LimitsOf(p))
    decreases |ts|
  {
    if ts == [] {
    } else {
      var rest := OpsOf(p, Next(p, s, ts[0]), ts[1..]);
      RunIsLimiterRun(p, Next(p, s, ts[0]), ts[1..]);
      if EventOf(p, s, ts[0]).Some? {
        var op := OpOf(EventOf(p, s, ts[0]).value, ts[0]);
        EventIsOp(p, s, ts[0]);
        assert ([op] + rest)[1..] == rest;
      }
    }
  }

  lemma EarlierClock(earlier: int, now: int, ops: seq<Op>)
    requires earlier <= now && MonotoneFrom(now, ops)
    ensures MonotoneFrom(earlier, ops)
  {
  }

  lemma {:induction false} OpsAreMonotone(p: Policy, s: State, now: int, ts: seq<Timed>)
    requires ClockRuns(now, ts)
    ensures MonotoneFrom(now, OpsOf(p, s, ts))
    decreases |ts|
  {
    if ts == [] {
    } else {
      var rest := OpsOf(p, Next(p, s, ts[0]), ts[1..]);
      OpsAreMonotone(p, Next(p, s, ts[0]), ts[0].written, ts[1..]);
      if EventOf(p, s, ts[0]).Some? {
        assert ([OpOf(EventOf(p, s, ts[0]).value, ts[0])] + rest)[1..] == rest;
      } else {
        EarlierClock(now, ts[0].written, rest);
      }
    }
  }

  /**
    Whatever is submitted, approved or rejected, and whatever fails or crashes in between: in any
    one hour the log of the run holds at most `limit` intents of a plugin and action.
  */
  lemma {:induction false} WindowHolds(p: Policy, now: int, ts: seq<Timed>, plugin: string, action: string, start: int)
    requires ClockRuns(now, ts) && LimitOf(p, action).Some?
    ensures InHour(RunOf(p, START, ts).log, plugin, action, start) <= Cap(LimitOf(p, action).value)
  {
    RunIsLimiterRun(p, START, ts);
    OpsAreMonotone(p, START, now, ts);
    SlidingWindow(now, OpsOf(p, START, ts), LimitsOf(p), plugin, action, start);
  }

  // ---------------------------------------------------------------------------
  // The log is that of the executor, and the limiter refuses exactly when it must.
  // ---------------------------------------------------------------------------

  function IntentEntries(plugin: string, action: string): Entry -> bool {
    (e: Entry) => e.isIntent && e.plugin == plugin && e.action == action
  }

  function IntentItems(plugin: string, action: string): A.Item -> bool {
    (item: A.Item) =>
      item.Logged? && item.event.Intent? && item.event.request.plugin == plugin && item.event.request.action == action
  }

  lemma {:induction false} StepLogsIntents(p: Policy, s: State, t: Timed, plugin: string, action: string)
    requires Count(s.log, IntentEntries(plugin, action)) == A.Count(s.exec.trace, IntentItems(plugin, action))
    ensures var u := Next(p, s, t);
            Count(u.log, IntentEntries(plugin, action)) == A.Count(u.exec.trace, IntentItems(plugin, action))
  {
    A.CountStep(p, s.exec, Answered(p, s, t), IntentItems(plugin, action));
    if EventOf(p, s, t).Some? {
      var e := EntryOf(EventOf(p, s, t).value, t.stamped);
      CountWritten(s.log, DayOf(t.written), e, IntentEntries(plugin, action));
    }
  }

  // The day files hold exactly the intents of the executor's trace.
  lemma {:induction false} LogHoldsIntents(p: Policy, s: State, ts: seq<Timed>, plugin: string, action: string)
    requires Count(s.log, IntentEntries(plugin, action)) == A.Count(s.exec.trace, IntentItems(plugin, action))
    ensures var u := RunOf(p, s, ts);
            Count(u.log, IntentEntries(plugin, action)) == A.Count(u.exec.trace, IntentItems(plugin, action))
    decreases |ts|
  {
    if ts == [] {
    } else {
      StepLogsIntents(p, s, ts[0], plugin, action);
      LogHoldsIntents(p, Next(p, s, ts[0]), ts[1..], plugin, action);
    }
  }

  function LastReading(now: int, ts: seq<Timed>): int {
    if ts == [] then now else ts[|ts| - 1].written
  }

  lemma {:induction false} RunIsChronological(p: Policy, s: State, now: int, ts: seq<Timed>)
    requires Chronological(s.log, now) && ClockRuns(now, ts)
    ensures Chronological(RunOf(p, s, ts).log, LastReading(now, ts))
    decreases |ts|
  {
    if ts == [] {
    } else {
      var t := ts[0];
      if EventOf(p, s, t).Some? {
        WriteKeepsChronology(s.log, now, EntryOf(EventOf(p, s, t).value, t.stamped), t.written);
      } else {
        LaterChronology(s.log, now, t.written);
      }
      RunIsChronological(p, Next(p, s, t), t.written, ts[1..]);
      assert LastReading(now, ts) == LastReading(t.written, ts[1..]);
    }
  }

  // Asked about a well-formed request, the limiter turns it away when the log is over the limit.
  lemma TurnsAway(p: Policy, s: State, t: Timed, r: A.Request)
    requires s.exec.op == A.Received(r) && A.WellFormed(r) && t.step.Tick?
    ensures EventOf(p, s, t) == Some(A.RateLimited(r)) <==>
            OverLimit(s.log, r.plugin, r.action, LimitOf(p, r.action), t.checked)
  {
  }

  lemma {:induction false} RunKeepsTime(p: Policy, now: int, ts: seq<Timed>, later: int)
    requires ClockRuns(now, ts) && LastReading(now, ts) <= later
    ensures Chronological(RunOf(p, START, ts).log, later)
  {
    RunIsChronological(p, START, now, ts);
    LaterChronology(RunOf(p, START, ts).log, LastReading(now, ts), later);
  }

  lemma TurnsAwayWhenFull(p: Policy, s: State, t: Timed, r: A.Request)
    requires Chronological(s.log, t.checked)
    requires s.exec.op == A.Received(r) && A.WellFormed(r) && t.step.Tick?
    ensures EventOf(p, s, t) == Some(A.RateLimited(r)) <==>
            var limit := LimitOf(p, r.action);
            limit.Some? && InHour(s.log, r.plugin, r.action, t.checked - HOUR) >= limit.value
  {
    RefusesWhenHourIsFull(s.log, t.checked, r.plugin, r.action, LimitOf(p, r.action));
    TurnsAway(p, s, t, r);
  }

  /**
    And after any such run a well-formed request is turned away exactly when the hour before it
    already holds `limit` intents of its plugin and action.
  */
  lemma {:induction false} TurnedAwayWhenFull(p: Policy, now: int, ts: seq<Timed>, t: Timed, r: A.Request)
    requires ClockRuns(now, ts) && LastReading(now, ts) <= t.checked
    requires RunOf(p, START, ts).exec.op == A.Received(r) && A.WellFormed(r) && t.step.Tick?
    ensures var s, limit := RunOf(p, START, ts), LimitOf(p, r.action);
            EventOf(p, s, t) == Some(A.RateLimited(r)) <==>
            limit.Some? && InHour(s.log, r.plugin, r.action, t.checked - HOUR) >= limit.value
  {
    RunKeepsTime(p, now, ts, t.checked);
    TurnsAwayWhenFull(p, RunOf(p, START, ts), t, r);
  }
}
