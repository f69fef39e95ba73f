/**
  The audit log in day files, and the hourly rate limiter that counts in it (safety.py), with
  the part of execute() that asks it (executor.py). Times are whole seconds, as the log keeps
  them; an entry is stamped at one reading of the clock and put into a file by a later one.
*/
module AuditLog {
  import opened Wrappers

  const HOUR: int := 3600
  const DAY: int := 86400

  datatype Entry = Entry(plugin: string, action: string, isIntent: bool, timestamp: int)

  datatype DayFile = DayFile(day: int, entries: seq<Entry>)

  // The directory, in the order of the file names.
  type Log = seq<DayFile>

  function DayOf(t: int): int {
    t / DAY
  }

  // Appends an entry to the file of a day, which is created in its place if need be.
  function Written(log: Log, day: int, e: Entry): Log {
    if log == [] then [DayFile(day, [e])]
    else if log[0].day == day then [DayFile(day, log[0].entries + [e])] + log[1..]
    else if day < log[0].day then [DayFile(day, [e])] + log
    else [log[0]] + Written(log[1..], day, e)
  }

  // The files that recent_events() looks at: `[-2:]` of the sorted names.
  function LastTwo(log: Log): Log {
    if |log| <= 2 then log else log[|log| - 2..]
  }

  // ---------------------------------------------------------------------------
  // Counting.
  // ---------------------------------------------------------------------------

  function CountEntries(entries: seq<Entry>, f: Entry -> bool): nat {
    if entries == [] then 0 else CountEntries(entries[..|entries| - 1], f) + One(f(entries[|entries| - 1]))
  }

  // How many entries of the whole log satisfy f.
  function Count(log: Log, f: Entry -> bool): nat {
    if log == [] then 0 else CountEntries(log[0].entries, f) + Count(log[1..], f)
  }

  function IntentsSince(plugin: string, action: string, since: int): Entry -> bool {
    (e: Entry) => e.isIntent && e.plugin == plugin && e.action == action && since <= e.timestamp
  }

  function IntentsWithin(plugin: string, action: string, lo: int, hi: int): Entry -> bool {
    (e: Entry) => e.isIntent && e.plugin == plugin && e.action == action && lo <= e.timestamp <= hi
  }

  lemma {:induction false} CountWritten(log: Log, day: int, e: Entry, f: Entry -> bool)
    ensures Count(Written(log, day, e), f) == Count(log, f) + One(f(e))
  {
    if log == [] {
      assert [e][..0] == [];
    } else if log[0].day == day {
      assert (log[0].entries + [e])[..|log[0].entries|] == log[0].entries;
    } else if day < log[0].day {
      assert [e][..|[e]| - 1] == [];
      assert CountEntries([e], f) == One(f(e));
      assert ([DayFile(day, [e])] + log)[1..] == log;
    } else {
      CountWritten(log[1..], day, e, f);
    }
  }

  lemma {:induction false} CountEntriesMonotone(entries: seq<Entry>, f: Entry -> bool, g: Entry -> bool)
    requires forall e :: f(e) ==> g(e)
    ensures CountEntries(entries, f) <= CountEntries(entries, g)
  {
    if entries == [] {
    } else {
      CountEntriesMonotone(entries[..|entries| - 1], f, g);
    }
  }

  lemma {:induction false} CountMonotone(log: Log, f: Entry -> bool, g: Entry -> bool)
    requires forall e :: f(e) ==> g(e)
    ensures Count(log, f) <= Count(log, g)
  {
    if log == [] {
    } else {
      CountEntriesMonotone(log[0].entries, f, g);
      CountMonotone(log[1..], f, g);
    }
  }

  lemma {:induction false} CountNone(entries: seq<Entry>, f: Entry -> bool)
    requires forall e :: e in entries ==> !f(e)
    ensures CountEntries(entries, f) == 0
  {
    if entries == [] {
    } else {
      assert entries[|entries| - 1] in entries;
      CountNone(entries[..|entries| - 1], f);
    }
  }

  // ---------------------------------------------------------------------------
  // The last two files are enough.
  // ---------------------------------------------------------------------------

  predicate Ordered(log: Log) {
    forall i, j :: 0 <= i < j < |log| ==> log[i].day < log[j].day
  }

  // A file of a day that has come, with entries of that day or earlier.
  predicate FileFits(f: DayFile, now: int) {
    f.day <= DayOf(now) && forall e :: e in f.entries ==> e.timestamp <= now && DayOf(e.timestamp) <= f.day
  }

  // A log written under a clock that never went back, and now shows `now`.
  ghost predicate Chronological(log: Log, now: int) {
    Ordered(log) && forall f :: f in log ==> FileFits(f, now)
  }

  // A write keeps every file after a given day, if it is for a later day itself.
  lemma {:induction false} WrittenAfter(log: Log, day: int, e: Entry, lo: int)
    requires lo < day && forall f :: f in log ==> lo < f.day
    ensures forall f :: f in Written(log, day, e) ==> lo < f.day
  {
    if log == [] {
    } else {
      assert log[0] in log;
      if log[0].day < day {
        WrittenAfter(log[1..], day, e, lo);
      }
    }
  }

  lemma {:induction false} WrittenOrdered(log: Log, day: int, e: Entry)
    requires Ordered(log)
    ensures Ordered(Written(log, day, e))
  {
    if log == [] {
    } else if log[0].day < day {
      var rest := Written(log[1..], day, e);
      WrittenOrdered(log[1..], day, e);
      WrittenAfter(log[1..], day, e, log[0].day);
      assert forall k :: 0 <= k < |rest| ==> rest[k] in rest;
    }
  }

  lemma {:induction false} WrittenFits(log: Log, e: Entry, written: int)
    requires forall f :: f in log ==> FileFits(f, written)
    requires e.timestamp <= written
    ensures forall f :: f in Written(log, DayOf(written), e) ==> FileFits(f, written)
  {
    if log != [] && log[0].day < DayOf(written) {
      WrittenFits(log[1..], e, written);
    } else if log != [] {
      assert FileFits(log[0], written);
    }
  }

  lemma LaterChronology(log: Log, now: int, later: int)
    requires Chronological(log, now) && now <= later
    ensures Chronological(log, later)
  {
    forall f | f in log
      ensures FileFits(f, later)
    {
      assert FileFits(f, now);
    }
  }

  lemma WriteKeepsChronology(log: Log, now: int, e: Entry, written: int)
    requires Chronological(log, now) && now <= e.timestamp <= written
    ensures Chronological(Written(log, DayOf(written), e), written)
  {
    LaterChronology(log, now, written);
    WrittenOrdered(log, DayOf(written), e);
    WrittenFits(log, e, written);
  }

  lemma {:induction false} DaysApart(log: Log, i: nat, j: nat)
    requires Ordered(log) && i <= j < |log|
    ensures log[i].day + (j - i) <= log[j].day
  {
    if i < j {
      DaysApart(log, i, j - 1);
    }
  }

  // Counting what is at most an hour old in the last two files counts all of it.
  lemma {:induction false} LastTwoSuffice(log: Log, now: int, plugin: string, action: string)
    requires Chronological(log, now)
    ensures Count(LastTwo(log), IntentsSince(plugin, action, now - HOUR))
         == Count(log, IntentsSince(plugin, action, now - HOUR))
    decreases |log|
  {
    if |log| > 2 {
      var f := IntentsSince(plugin, action, now - HOUR);
      DaysApart(log, 0, |log| - 1);
      assert FileFits(log[0], now) && FileFits(log[|log| - 1], now);
      assert log[0].day <= DayOf(now) - 2;
      forall e | e in log[0].entries
        ensures !f(e)
      {
        assert DayOf(e.timestamp) <= DayOf(now) - 2;
      }
      CountNone(log[0].entries, f);
      LastTwoSuffice(log[1..], now, plugin, action);
      assert LastTwo(log) == LastTwo(log[1..]);
    }
  }

  // ---------------------------------------------------------------------------
  // Whole runs.
  // ---------------------------------------------------------------------------

  // Readings of the clock: `stamped` for the entry, `written` for its file. An attempt reads it
  // once more before, to ask the limiter.
  datatype Op =
    | Attempt(plugin: string, action: string, checked: int, stamped: int, written: int)
    | OtherEvent(plugin: string, action: string, stamped: int, written: int)

  type Limits = (string, string) -> Option<int>

  predicate OverLimit(log: Log, plugin: string, action: string, limit: Option<int>, now: int) {
    limit.Some? && Count(LastTwo(log), IntentsSince(plugin, action, now - HOUR)) >= limit.value
  }

  // An attempt over the limit leaves another event; one within it its intent.
  function Apply(log: Log, op: Op, limits: Limits): Log {
    match op
    case OtherEvent(plugin, action, stamped, written) =>
      Written(log, DayOf(written), Entry(plugin, action, false, stamped))
    case Attempt(plugin, action, checked, stamped, written) =>
      Written(log, DayOf(written),
              Entry(plugin, action, !OverLimit(log, plugin, action, limits(plugin, action), checked), stamped))
  }

  function ApplyAll(log: Log, ops: seq<Op>, limits: Limits): Log
    decreases |ops|
  {
    if ops == [] then log else ApplyAll(Apply(log, ops[0], limits), ops[1..], limits)
  }

  // The clock never goes back.
  predicate MonotoneFrom(now: int, ops: seq<Op>)
    decreases |ops|
  {
    ops == []
    || (&& now <= ops[0].stamped <= ops[0].written
        && (ops[0].Attempt? ==> now <= ops[0].checked <= ops[0].stamped)
        && MonotoneFrom(ops[0].written, ops[1..]))
  }

  function Cap(limit: int): nat {
    if limit < 0 then 0 else limit
  }

  // The intents of a plugin and action in the hour from `start` on.
  function InHour(log: Log, plugin: string, action: string, start: int): nat {
    Count(log, IntentsWithin(plugin, action, start, start + HOUR))
  }

  // No hour holds more of them than the limit.
  ghost predicate WithinLimit(log: Log, plugin: string, action: string, limit: int) {
    forall start :: InHour(log, plugin, action, start) <= Cap(limit)
  }

  lemma AttemptStaysWithin(log: Log, now: int, op: Op, limits: Limits, start: int)
    requires Chronological(log, now) && MonotoneFrom(now, [op]) && op.Attempt?
    requires limits(op.plugin, op.action).Some?
    requires !OverLimit(log, op.plugin, op.action, limits(op.plugin, op.action), op.checked)
    requires start <= op.stamped <= start + HOUR
    ensures InHour(log, op.plugin, op.action, start) < limits(op.plugin, op.action).value
  {
    var f := IntentsWithin(op.plugin, op.action, start, start + HOUR);
    var g := IntentsSince(op.plugin, op.action, op.checked - HOUR);
    LaterChronology(log, now, op.checked);
    LastTwoSuffice(log, op.checked, op.plugin, op.action);
    CountMonotone(log, f, g);
  }

  lemma StepWithinLimit(log: Log, now: int, op: Op, limits: Limits, plugin: string, action: string, limit: int)
    requires Chronological(log, now) && MonotoneFrom(now, [op])
    requires limits(plugin, action) == Some(limit) && WithinLimit(log, plugin, action, limit)
    ensures Chronological(Apply(log, op, limits), op.written)
    ensures WithinLimit(Apply(log, op, limits), plugin, action, limit)
  {
    var isIntent := op.Attempt? && !OverLimit(log, op.plugin, op.action, limits(op.plugin, op.action), op.checked);
    var e := Entry(op.plugin, op.action, isIntent, op.stamped);
    assert Apply(log, op, limits) == Written(log, DayOf(op.written), e);
    WriteKeepsChronology(log, now, e, op.written);
    forall start
      ensures InHour(Apply(log, op, limits), plugin, action, start) <= Cap(limit)
    {
      var f := IntentsWithin(plugin, action, start, start + HOUR);
      CountWritten(log, DayOf(op.written), e, f);
      assert InHour(log, plugin, action, start) <= Cap(limit);
      if f(e) {
        AttemptStaysWithin(log, now, op, limits, start);
      }
    }
  }

  lemma {:induction false} RunWithinLimit(log: Log, now: int, ops: seq<Op>, limits: Limits,
                                          plugin: string, action: string, limit: int)
    requires Chronological(log, now) && MonotoneFrom(now, ops)
    requires limits(plugin, action) == Some(limit) && WithinLimit(log, plugin, action, limit)
    ensures WithinLimit(ApplyAll(log, ops, limits), plugin, action, limit)
    decreases |ops|
  {
    if ops == [] {
    } else {
      assert MonotoneFrom(ops[0].written, []);
      StepWithinLimit(log, now, ops[0], limits, plugin, action, limit);
      RunWithinLimit(Apply(log, ops[0], limits), ops[0].written, ops[1..], limits, plugin, action, limit);
    }
  }

  /**
    The limiter is a sliding window: under a clock that never goes back, whatever is attempted
    and logged in between, any hour holds at most `limit` intents of a plugin and action. A
    limit of zero or less allows none.
  */
  lemma SlidingWindow(now: int, ops: seq<Op>, limits: Limits, plugin: string, action: string, start: int)
    requires MonotoneFrom(now, ops) && limits(plugin, action).Some?
    ensures InHour(ApplyAll([], ops, limits), plugin, action, start) <= Cap(limits(plugin, action).value)
  {
    RunWithinLimit([], now, ops, limits, plugin, action, limits(plugin, action).value);
  }

  lemma {:induction false} CountAgree(entries: seq<Entry>, f: Entry -> bool, g: Entry -> bool)
    requires forall e :: e in entries ==> f(e) == g(e)
    ensures CountEntries(entries, f) == CountEntries(entries, g)
  {
    if entries == [] {
    } else {
      assert entries[|entries| - 1] in entries;
      CountAgree(entries[..|entries| - 1], f, g);
    }
  }

  // Nor is it stricter than that: it refuses exactly when the last hour is full.
  lemma {:induction false} SinceIsWithin(log: Log, now: int, plugin: string, action: string)
    requires forall f :: f in log ==> FileFits(f, now)
    ensures Count(log, IntentsSince(plugin, action, now - HOUR)) == InHour(log, plugin, action, now - HOUR)
  {
    if log == [] {
    } else {
      assert FileFits(log[0], now);
      CountAgree(log[0].entries, IntentsSince(plugin, action, now - HOUR),
                 IntentsWithin(plugin, action, now - HOUR, now));
      SinceIsWithin(log[1..], now, plugin, action);
    }
  }

  lemma RefusesWhenHourIsFull(log: Log, now: int, plugin: string, action: string, limit: Option<int>)
    requires Chronological(log, now)
    ensures OverLimit(log, plugin, action, limit, now)
       <==> limit.Some? && InHour(log, plugin, action, now - HOUR) >= limit.value
  {
    LastTwoSuffice(log, now, plugin, action);
    SinceIsWithin(log, now, plugin, action);
  }

  // ---------------------------------------------------------------------------
  // The logger and the limiter.
  // ---------------------------------------------------------------------------

  // The entries of the given files that are not older than `since`, in order.
  function NotOlder(entries: seq<Entry>, since: int): seq<Entry> {
    if entries == [] then []
    else NotOlder(entries[..|entries| - 1], since)
         + (if entries[|entries| - 1].timestamp >= since then [entries[|entries| - 1]] else [])
  }

  function AllNotOlder(files: Log, since: int): seq<Entry> {
    if files == [] then [] else NotOlder(files[0].entries, since) + AllNotOlder(files[1..], since)
  }

  function IntentsOf(plugin: string, action: string): Entry -> bool {
    (e: Entry) => e.isIntent && e.plugin == plugin && e.action == action
  }

  lemma {:induction false} CountConcat(a: seq<Entry>, b: seq<Entry>, f: Entry -> bool)
    ensures CountEntries(a + b, f) == CountEntries(a, f) + CountEntries(b, f)
  {
    if b == [] {
      assert a + b == a;
    } else {
      assert (a + b)[..|a + b| - 1] == a + b[..|b| - 1];
      CountConcat(a, b[..|b| - 1], f);
    }
  }

  // Counting intents among the recent entries is counting recent intents.
  lemma {:induction false} CountNotOlder(entries: seq<Entry>, since: int, plugin: string, action: string)
    ensures CountEntries(NotOlder(entries, since), IntentsOf(plugin, action))
         == CountEntries(entries, IntentsSince(plugin, action, since))
  {
    if entries == [] {
    } else {
      var before, e := entries[..|entries| - 1], entries[|entries| - 1];
      CountNotOlder(before, since, plugin, action);
      CountConcat(NotOlder(before, since), if e.timestamp >= since then [e] else [], IntentsOf(plugin, action));
      assert [e][..|[e]| - 1] == [];
      assert CountEntries([e], IntentsOf(plugin, action)) == One(IntentsOf(plugin, action)(e));
    }
  }

  lemma {:induction false} CountAllNotOlder(files: Log, since: int, plugin: string, action: string)
    ensures CountEntries(AllNotOlder(files, since), IntentsOf(plugin, action))
         == Count(files, IntentsSince(plugin, action, since))
  {
    if files == [] {
    } else {
      CountNotOlder(files[0].entries, since, plugin, action);
      CountAllNotOlder(files[1..], since, plugin, action);
      CountConcat(NotOlder(files[0].entries, since), AllNotOlder(files[1..], since), IntentsOf(plugin, action));
    }
  }

  lemma {:induction false} AllNotOlderFrom(files: Log, i: nat, since: int, out: seq<Entry>)
    requires i < |files|
    ensures out + AllNotOlder(files[i..], since)
         == (out + NotOlder(files[i].entries, since)) + AllNotOlder(files[i + 1..], since)
  {
    assert files[i..][1..] == files[i + 1..];
    var here, later := NotOlder(files[i].entries, since), AllNotOlder(files[i + 1..], since);
    assert out + (here + later) == (out + here) + later;
  }

  lemma {:induction false} WrittenFurther(files: Log, i: nat, day: int, e: Entry)
    requires i < |files| && files[i].day < day
    ensures files[..i] + Written(files[i..], day, e) == files[..i + 1] + Written(files[i + 1..], day, e)
  {
    assert files[i..][1..] == files[i + 1..];
    var later := Written(files[i + 1..], day, e);
    assert files[..i] + ([files[i]] + later) == files[..i + 1] + later;
  }

  lemma {:induction false} WrittenHere(files: Log, i: nat, day: int, e: Entry)
    requires i <= |files| && (i < |files| ==> day <= files[i].day)
    ensures files[..i] + Written(files[i..], day, e)
         == if i < |files| && files[i].day == day
            then files[..i] + [DayFile(day, files[i].entries + [e])] + files[i + 1..]
            else files[..i] + [DayFile(day, [e])] + files[i..]
  {
    if i < |files| {
      assert files[i..][1..] == files[i + 1..];
    } else {
      assert files[i..] == [] && [DayFile(day, [e])] + files[i..] == [DayFile(day, [e])];
    }
  }

  class AuditLogger {
    var files: Log

    constructor ()
      ensures files == []
    {
      files := [];
    }

    method Write(e: Entry, written: int)
      modifies this
      ensures files == Written(old(files), DayOf(written), e)
    {
      var day := written / DAY;
      var i := 0;
      while i < |files| && files[i].day < day
        invariant i <= |files| && files == old(files)
        invariant files[..i] + Written(files[i..], day, e) == Written(files, day, e)
      {
        WrittenFurther(files, i, day, e);
        i := i + 1;
      }
      WrittenHere(files, i, day, e);
      if i < |files| && files[i].day == day {
        files := files[..i] + [DayFile(day, files[i].entries + [e])] + files[i + 1..];
      } else {
        files := files[..i] + [DayFile(day, [e])] + files[i..];
      }
    }

    // The lines of one file.
    method RecentIn(entries: seq<Entry>, since: int) returns (out: seq<Entry>)
      ensures out == NotOlder(entries, since)
    {
      out := [];
      for j := 0 to |entries|
        invariant out == NotOlder(entries[..j], since)
      {
        assert entries[..j + 1][..j] == entries[..j];
        if entries[j].timestamp >= since {
          out := out + [entries[j]];
        }
      }
      assert entries[..|entries|] == entries;
    }

    method RecentEvents(since: int) returns (out: seq<Entry>)
      ensures out == AllNotOlder(LastTwo(files), since)
    {
      out := [];
      var dayFiles := if |files| <= 2 then files else files[|files| - 2..];
      ghost var whole := AllNotOlder(dayFiles, since);
      for i := 0 to |dayFiles|
        invariant out + AllNotOlder(dayFiles[i..], since) == whole
      {
        AllNotOlderFrom(dayFiles, i, since, out);
        var recent := RecentIn(dayFiles[i].entries, since);
        out := out + recent;
      }
    }

    method CountRecent(plugin: string, action: string, now: int) returns (n: nat)
      ensures n == Count(LastTwo(files), IntentsSince(plugin, action, now - HOUR))
    {
      var recent := RecentEvents(now - HOUR);
      n := 0;
      for i := 0 to |recent|
        invariant n == CountEntries(recent[..i], IntentsOf(plugin, action))
      {
        assert recent[..i + 1][..i] == recent[..i];
        if recent[i].plugin == plugin && recent[i].action == action {
          if recent[i].isIntent {
            n := n + 1;
          }
        }
      }
      assert recent[..|recent|] == recent;
      CountAllNotOlder(LastTwo(files), now - HOUR, plugin, action);
    }

    method IsOverLimit(plugin: string, action: string, limit: Option<int>, now: int) returns (over: bool)
      ensures over == OverLimit(files, plugin, action, limit, now)
      ensures Chronological(files, now) ==>
                (over <==> limit.Some? && InHour(files, plugin, action, now - HOUR) >= limit.value)
    {
      assert Chronological(files, now) ==> (OverLimit(files, plugin, action, limit, now) <==>
               limit.Some? && InHour(files, plugin, action, now - HOUR) >= limit.value) by {
        if Chronological(files, now) {
          RefusesWhenHourIsFull(files, now, plugin, action, limit);
        }
      }
      if limit == None {
        return false;
      }
      var n := CountRecent(plugin, action, now);
      return n >= limit.value;
    }
  }
}
