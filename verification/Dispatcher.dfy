/**
  The Jules dispatcher (jules/dispatcher.py): enqueue, the dispatch pass, the polling pass, the
  failure tree and terminal resolution, over whole runs. The REST client and the playbook
  directory are oracles.
*/
module Dispatch {
  import opened Wrappers
  import opened FlaggedIssues

  const PLAYBOOK_NAMES: set<string> := {
    "framework-drift", "test-coverage-gap", "dep-bump", "citation-drift",
    "markdown-lint", "new-plugin-scaffold", "link-toc", "prohibited-content-sweep"
  }

  // ---------------------------------------------------------------------------
  // The dispatch queue.
  // ---------------------------------------------------------------------------

  function PriorityRank(p: string): int {
    if p == "high" then 0 else if p == "low" then 2 else 1
  }

  // The sort key (priority, created_at), compared lexicographically.
  predicate KeyLess(a: Issue, b: Issue) {
    PriorityRank(a.priority) < PriorityRank(b.priority)
    || (PriorityRank(a.priority) == PriorityRank(b.priority) && a.createdAt < b.createdAt)
  }

  // Before in the queue: a smaller key, or an equal one and earlier in the listing.
  predicate Precedes(a: Issue, b: Issue) {
    KeyLess(a, b) || (!KeyLess(b, a) && a.id < b.id)
  }

  // Stable sorting: an issue goes before the first one whose key is not smaller.
  function InsertByKey(i: Issue, queue: seq<Issue>): seq<Issue> {
    if queue == [] || !KeyLess(queue[0], i) then [i] + queue
    else [queue[0]] + InsertByKey(i, queue[1..])
  }

  function SortByKey(queue: seq<Issue>): seq<Issue> {
    if queue == [] then [] else InsertByKey(queue[0], SortByKey(queue[1..]))
  }

  // How many issues of the queue precede `d`.
  function Ahead(queue: seq<Issue>, d: Issue): nat {
    if queue == [] then 0 else One(Precedes(queue[0], d)) + Ahead(queue[1..], d)
  }

  lemma {:induction false} InsertFacts(i: Issue, queue: seq<Issue>, d: Issue)
    ensures forall x :: x in InsertByKey(i, queue) <==> x == i || x in queue
    ensures |InsertByKey(i, queue)| == |queue| + 1
    ensures Ahead(InsertByKey(i, queue), d) == One(Precedes(i, d)) + Ahead(queue, d)
  {
    if queue != [] && KeyLess(queue[0], i) {
      InsertFacts(i, queue[1..], d);
      assert InsertByKey(i, queue)[1..] == InsertByKey(i, queue[1..]);
    } else {
      assert InsertByKey(i, queue)[1..] == queue;
    }
  }

  lemma {:induction false} SortFacts(queue: seq<Issue>, d: Issue)
    ensures forall x :: x in SortByKey(queue) <==> x in queue
    ensures |SortByKey(queue)| == |queue|
    ensures Ahead(SortByKey(queue), d) == Ahead(queue, d)
  {
    if queue == [] {
    } else {
      SortFacts(queue[1..], d);
      InsertFacts(queue[0], SortByKey(queue[1..]), d);
    }
  }

  ghost predicate InOrder(queue: seq<Issue>) {
    forall i, j :: 0 <= i < j < |queue| ==> Precedes(queue[i], queue[j])
  }

  lemma {:induction false} InsertInOrder(i: Issue, queue: seq<Issue>)
    requires InOrder(queue)
    requires forall x :: x in queue ==> i.id < x.id
    ensures InOrder(InsertByKey(i, queue))
  {
    if queue != [] && KeyLess(queue[0], i) {
      var rest := InsertByKey(i, queue[1..]);
      InsertInOrder(i, queue[1..]);
      InsertFacts(i, queue[1..], i);
      forall k | 0 <= k < |rest|
        ensures Precedes(queue[0], rest[k])
      {
        assert rest[k] in rest;
      }
    } else {
      forall k | 0 <= k < |queue|
        ensures Precedes(i, queue[k])
      {
        assert queue[k] in queue;
        if k > 0 {
          assert Precedes(queue[0], queue[k]);
        }
      }
    }
  }

  // Sorting a listing puts it in queue order.
  lemma {:induction false} SortInOrder(queue: seq<Issue>)
    requires Sorted(queue)
    ensures InOrder(SortByKey(queue))
  {
    if queue == [] {
    } else {
      SortInOrder(queue[1..]);
      SortFacts(queue[1..], queue[0]);
      InsertInOrder(queue[0], SortByKey(queue[1..]));
    }
  }

  lemma {:induction false} NoneAhead(queue: seq<Issue>, d: Issue)
    requires forall x :: x in queue ==> Precedes(d, x)
    ensures Ahead(queue, d) == 0
  {
    if queue == [] {
    } else {
      assert queue[0] in queue;
      NoneAhead(queue[1..], d);
    }
  }

  // In a queue in order, as many issues precede one as come before it.
  lemma {:induction false} AheadIsPosition(queue: seq<Issue>, k: nat)
    requires InOrder(queue) && k < |queue|
    ensures Ahead(queue, queue[k]) == k
  {
    if k == 0 {
      NoneAhead(queue[1..], queue[0]);
    } else {
      AheadIsPosition(queue[1..], k - 1);
    }
  }

  // The issues a dispatch pass goes through.
  function Taken(store: Store, slots: nat): seq<Issue> {
    var sorted := SortByKey(InState(store, Queued));
    if slots <= |sorted| then sorted[..slots] else sorted
  }

  // So the first `slots` issues of the sorted queue are those with fewer than `slots` ahead.
  lemma FirstSlots(store: Store, slots: nat, d: Issue)
    requires Sorted(store) && d in store && d.state == Queued
    ensures d in Taken(store, slots) <==> Ahead(InState(store, Queued), d) < slots
  {
    var queue := InState(store, Queued);
    InStateMembers(store, Queued);
    SortFacts(queue, d);
    SortInOrder(queue);
    var sorted := SortByKey(queue);
    var k :| 0 <= k < |sorted| && sorted[k] == d;
    AheadIsPosition(sorted, k);
    if k < slots {
      assert Taken(store, slots)[k] == d;
    }
    if d in Taken(store, slots) {
      var j :| 0 <= j < |Taken(store, slots)| && sorted[j] == d;
      AheadIsPosition(sorted, j);
    }
  }

  function Slots(store: Store, maxParallel: int): nat {
    Positive(maxParallel - CountActive(store))
  }

  // ---------------------------------------------------------------------------
  // Dispatching.
  // ---------------------------------------------------------------------------

  // What an attempt to create a session comes to; `Crashed` is any error the pass does not catch,
  // in a dry run one about the playbook file or the payload.
  datatype Session = PlaybookMissing | ApiError | Crashed | Created(sessionId: string)

  function DispatchEffect(i: Issue, dryRun: bool, s: Session): Effect {
    match s
    case PlaybookMissing => LeftAlone
    case ApiError => LeftAlone
    case Crashed => Raises
    case Created(sessionId) =>
      if dryRun then LeftAlone
      else match Moved(i.(sessionId := Some(sessionId)), Dispatched)
        case None => Raises
        case Some(d) => Saved(d)
  }

  function Dispatching(dryRun: bool, sessions: int -> Session): Issue -> Effect {
    (i: Issue) => DispatchEffect(i, dryRun, sessions(i.id))
  }

  function DispatchPass(store: Store, maxParallel: int, dryRun: bool, sessions: int -> Session): Store {
    WorkThrough(store, Taken(store, Slots(store, maxParallel)), Dispatching(dryRun, sessions))
  }

  // ---------------------------------------------------------------------------
  // Polling.
  // ---------------------------------------------------------------------------

  // An activity: its lower-cased kind, its pull-request link, and how its reason is classified.
  datatype Activity = Activity(kind: string, url: Option<string>, retriable: bool)

  // The feed of a session; `FeedCrashed` is any error the poll does not catch, whether in fetching
  // the feed or in reading an item of the wrong shape.
  datatype Feed = FeedError | FeedCrashed | Activities(items: seq<Activity>)

  predicate Contains(s: string, sub: string) {
    |sub| <= |s| && (s[..|sub|] == sub || (s != [] && Contains(s[1..], sub)))
  }

  predicate SaysPullRequest(kind: string) {
    Contains(kind, "pullrequest") || Contains(kind, "pr-opened") || kind == "pr"
  }

  predicate SaysFailure(kind: string) {
    Contains(kind, "failure") || Contains(kind, "failed")
  }

  // handle_terminal_failure(): retry, or escalate and leave an audit event.
  function FailureHandled(i: Issue, retriable: bool, maxRetries: int): Option<Issue> {
    if retriable && i.retryCount < maxRetries then
      Moved(i.(retryCount := i.retryCount + 1), Queued)
    else match Moved(i, Escalated)
      case None => None
      case Some(e) => Some(e.(audited := true))
  }

  // What one activity does: the issue afterwards, whether its state changed, and whether the
  // rest of the feed is ignored. None when a forbidden transition was attempted.
  datatype Reaction = Reaction(issue: Issue, advanced: bool, stop: bool)

  function Started(i: Issue, kind: string): Option<Reaction> {
    if i.state == Dispatched && kind != "" && kind != "setup" then
      match Moved(i, InProgress)
      case None => None
      case Some(j) => Some(Reaction(j, true, false))
    else Some(Reaction(i, false, false))
  }

  function PullRequestSeen(r: Reaction, a: Activity): Option<Reaction> {
    if !SaysPullRequest(a.kind) then Some(r)
    else
      var i := if a.url.Some? && a.url.value != "" then r.issue.(prUrl := a.url) else r.issue;
      if i.state == InProgress then
        match Moved(i, DraftPr)
        case None => None
        case Some(j) => Some(Reaction(j, true, false))
      else Some(r.(issue := i))
  }

  function FailureSeen(r: Reaction, a: Activity, maxRetries: int): Option<Reaction> {
    if SaysFailure(a.kind) && r.issue.state in {Dispatched, InProgress, DraftPr} then
      match Moved(r.issue, Failed)
      case None => None
      case Some(f) =>
        match FailureHandled(f, a.retriable, maxRetries)
        case None => None
        case Some(j) => Some(Reaction(j, true, true))
    else Some(r)
  }

  function React(i: Issue, a: Activity, maxRetries: int): Option<Reaction> {
    match Started(i, a.kind)
    case None => None
    case Some(r1) =>
      match PullRequestSeen(r1, a)
      case None => None
      case Some(r2) => FailureSeen(r2, a, maxRetries)
  }

  // _advance_from_activities(): the issue after the feed, and whether it advanced.
  function Advanced(i: Issue, items: seq<Activity>, maxRetries: int): Option<(Issue, bool)>
    decreases |items|
  {
    if items == [] then Some((i, false))
    else match React(i, items[0], maxRetries)
      case None => None
      case Some(r) =>
        if r.stop then Some((r.issue, r.advanced))
        else match Advanced(r.issue, items[1..], maxRetries)
          case None => None
          case Some((j, more)) => Some((j, r.advanced || more))
  }

  function PollEffect(i: Issue, feed: Feed, maxRetries: int): Effect {
    if i.sessionId == None || i.sessionId == Some("") then LeftAlone
    else match feed
      case FeedError => LeftAlone
      case FeedCrashed => Raises
      case Activities(items) =>
        match Advanced(i, items, maxRetries)
        case None => Raises
        case Some((j, advanced)) => if advanced then Saved(j) else LeftAlone
  }

  function ActiveOnes(store: Store): seq<Issue> {
    InState(store, Dispatched) + InState(store, InProgress)
  }

  function Polling(maxRetries: int, feeds: int -> Feed): Issue -> Effect {
    (i: Issue) => PollEffect(i, feeds(i.id), maxRetries)
  }

  function PollPass(store: Store, maxRetries: int, feeds: int -> Feed): Store {
    WorkThrough(store, ActiveOnes(store), Polling(maxRetries, feeds))
  }

  // ---------------------------------------------------------------------------
  // Enqueueing, and resolving a session by hand.
  // ---------------------------------------------------------------------------

  predicate Enqueueable(i: Issue) {
    i.state == Flagged && i.playbook in PLAYBOOK_NAMES && i.targetRepo != ""
  }

  function FindSession(store: Store, session: string): Option<Issue> {
    if store == [] then None
    else if store[0].sessionId == Some(session) then Some(store[0])
    else FindSession(store[1..], session)
  }

  // handle_terminal() on the issue it found; None when it raises.
  function Finished(i: Issue, outcome: IssueState): Option<Issue>
    requires outcome in TERMINAL_STATES
  {
    var routed := if outcome == Merged && i.state == DraftPr then Moved(i, Reviewed)
                  else if outcome == Escalated && i.state != Failed && Failed in Allowed(i.state) then Moved(i, Failed)
                  else Some(i);
    match routed
    case None => None
    case Some(r) =>
      match Moved(r, outcome)
      case None => None
      case Some(f) => Some(f.(audited := true))
  }

  function Resolved(store: Store, session: string, outcome: IssueState): Store {
    if outcome !in TERMINAL_STATES then store
    else match FindSession(store, session)
      case None => store
      case Some(i) =>
        match Finished(i, outcome)
        case None => store
        case Some(f) => Save(store, f)
  }

  datatype Op =
    | Enqueue(issue: Issue)
    | Dispatch(dryRun: bool, sessions: int -> Session)
    | Poll(feeds: int -> Feed)
    | Resolve(session: string, outcome: IssueState)
    | Archive(id: int)

  function Apply(store: Store, op: Op, maxParallel: int, maxRetries: int): Store {
    match op
    case Enqueue(i) => if Enqueueable(i) then Save(store, Moved(i, Queued).value) else store
    case Dispatch(dryRun, sessions) => DispatchPass(store, maxParallel, dryRun, sessions)
    case Poll(feeds) => PollPass(store, maxRetries, feeds)
    case Resolve(session, outcome) => Resolved(store, session, outcome)
    case Archive(id) =>
      if Lookup(store, id).Some? && Lookup(store, id).value.state in TERMINAL_STATES then Without(store, id) else store
  }

  function ApplyAll(store: Store, ops: seq<Op>, maxParallel: int, maxRetries: int): Store
    decreases |ops|
  {
    if ops == [] then store
    else ApplyAll(Apply(store, ops[0], maxParallel, maxRetries), ops[1..], maxParallel, maxRetries)
  }

  // ---------------------------------------------------------------------------
  // What each operation keeps.
  // ---------------------------------------------------------------------------

  // The issues a feed is applied to: dispatched and not yet decided.
  predicate UnderWay(i: Issue, maxRetries: int) {
    WellKept(i, maxRetries) && i.state in {Dispatched, InProgress, DraftPr}
  }

  // What a stage of handling an activity leaves, as long as no failure was seen.
  predicate GoesOn(before: Issue, r: Option<Reaction>, maxRetries: int) {
    && r.Some? && !r.value.stop
    && r.value.issue.id == before.id
    && UnderWay(r.value.issue, maxRetries)
    && (!r.value.advanced ==> r.value.issue.state == before.state)
  }

  lemma {:induction false} StartedAllowed(i: Issue, kind: string, maxRetries: int)
    requires UnderWay(i, maxRetries)
    ensures GoesOn(i, Started(i, kind), maxRetries)
  {
  }

  lemma {:induction false} PullRequestAllowed(before: Issue, r: Reaction, a: Activity, maxRetries: int)
    requires GoesOn(before, Some(r), maxRetries)
    ensures GoesOn(before, PullRequestSeen(r, a), maxRetries)
  {
  }

  // A well-kept issue that was under way and has just failed.
  predicate JustFailed(f: Issue, maxRetries: int) {
    && f.state == Failed && f.finalState == None && f.sessionId.Some?
    && f.bornRetries <= f.retryCount <= (if f.bornRetries < maxRetries then maxRetries else f.bornRetries)
    && f.dispatches == f.retryCount - f.bornRetries + 1
    && f.moves + Life(f, maxRetries) <= 5 * Positive(maxRetries - f.bornRetries) + 6
  }

  lemma FailureAllowed(i: Issue, maxRetries: int)
    requires UnderWay(i, maxRetries)
    ensures var f := Moved(i, Failed); f.Some? && f.value.id == i.id && JustFailed(f.value, maxRetries)
  {
  }

  lemma RetryKept(f: Issue, maxRetries: int)
    requires JustFailed(f, maxRetries) && f.retryCount < maxRetries
    ensures var j := Moved(f.(retryCount := f.retryCount + 1), Queued);
            j.Some? && j.value.id == f.id && WellKept(j.value, maxRetries)
  {
  }

  lemma EscalationKept(f: Issue, maxRetries: int)
    requires JustFailed(f, maxRetries)
    ensures var j := Moved(f, Escalated);
            j.Some? && j.value.id == f.id && WellKept(j.value.(audited := true), maxRetries)
  {
  }

  lemma FailureHandledAllowed(i: Issue, retriable: bool, maxRetries: int)
    requires UnderWay(i, maxRetries)
    ensures Moved(i, Failed).Some?
    ensures var j := FailureHandled(Moved(i, Failed).value, retriable, maxRetries);
            j.Some? && j.value.id == i.id && WellKept(j.value, maxRetries)
  {
    FailureAllowed(i, maxRetries);
    var f := Moved(i, Failed).value;
    if retriable && f.retryCount < maxRetries {
      RetryKept(f, maxRetries);
    } else {
      EscalationKept(f, maxRetries);
    }
  }

  lemma {:induction false} FailureSeenAllowed(before: Issue, r: Reaction, a: Activity, maxRetries: int)
    requires GoesOn(before, Some(r), maxRetries)
    ensures var seen := FailureSeen(r, a, maxRetries);
            && seen.Some? && seen.value.issue.id == before.id && WellKept(seen.value.issue, maxRetries)
            && (seen.value.stop ==> seen.value.advanced)
            && (!seen.value.stop ==> seen.value == r)
  {
    FailureHandledAllowed(r.issue, a.retriable, maxRetries);
  }

  // Whatever one activity says, no forbidden transition is attempted.
  lemma {:induction false} ReactAllowed(i: Issue, a: Activity, maxRetries: int)
    requires UnderWay(i, maxRetries)
    ensures var r := React(i, a, maxRetries);
            && r.Some? && r.value.issue.id == i.id
            && WellKept(r.value.issue, maxRetries)
            && (!r.value.stop ==> UnderWay(r.value.issue, maxRetries))
            && (!r.value.advanced ==> !r.value.stop && r.value.issue.state == i.state)
  {
    StartedAllowed(i, a.kind, maxRetries);
    var r1 := Started(i, a.kind).value;
    PullRequestAllowed(i, r1, a, maxRetries);
    FailureSeenAllowed(i, PullRequestSeen(r1, a).value, a, maxRetries);
  }

  // Whatever a whole feed says: polling never attempts a forbidden transition.
  lemma {:induction false} FeedAllowed(i: Issue, items: seq<Activity>, maxRetries: int)
    requires UnderWay(i, maxRetries)
    ensures var r := Advanced(i, items, maxRetries);
            && r.Some? && r.value.0.id == i.id
            && WellKept(r.value.0, maxRetries)
            && (!r.value.1 ==> r.value.0.state == i.state)
    decreases |items|
  {
    if items == [] {
    } else {
      ReactAllowed(i, items[0], maxRetries);
      var r := React(i, items[0], maxRetries).value;
      if !r.stop {
        FeedAllowed(r.issue, items[1..], maxRetries);
      }
    }
  }

  ghost predicate Inv(store: Store, maxParallel: int, maxRetries: int) {
    Sorted(store) && AllKept(store, maxRetries) && CountActive(store) <= Positive(maxParallel)
  }

  lemma DispatchEffectKeeps(w: Issue, dryRun: bool, session: Session, maxRetries: int)
    requires WellKept(w, maxRetries) && w.state == Queued
    ensures var e := DispatchEffect(w, dryRun, session);
            && (e.Saved? ==> e.issue.id == w.id && WellKept(e.issue, maxRetries))
            && (e.Raises? ==> session.Crashed?)
  {
  }

  lemma TakenFacts(store: Store, slots: nat)
    requires Sorted(store)
    ensures |Taken(store, slots)| <= slots
    ensures forall w :: w in Taken(store, slots) ==> w in store && w.state == Queued
    ensures Distinct(Taken(store, slots))
  {
    var queue := InState(store, Queued);
    var sorted := SortByKey(queue);
    InStateMembers(store, Queued);
    SortInOrder(queue);
    forall d | d in sorted
      ensures d in queue
    {
      SortFacts(queue, d);
    }
    forall i, j | 0 <= i < j < |sorted|
      ensures sorted[i].id != sorted[j].id
    {
      assert Precedes(sorted[i], sorted[j]);
      assert sorted[i] in queue && sorted[j] in queue;
      LookupMeaning(store, sorted[i].id);
    }
  }

  lemma {:induction false} DispatchKeeps(store: Store, maxParallel: int, maxRetries: int, dryRun: bool,
                                         sessions: int -> Session)
    requires Inv(store, maxParallel, maxRetries)
    ensures Inv(Apply(store, Dispatch(dryRun, sessions), maxParallel, maxRetries), maxParallel, maxRetries)
  {
    var work := Taken(store, Slots(store, maxParallel));
    TakenFacts(store, Slots(store, maxParallel));
    var effect := Dispatching(dryRun, sessions);
    forall w | w in work && effect(w).Saved?
      ensures WellKept(effect(w).issue, maxRetries)
    {
      DispatchEffectKeeps(w, dryRun, sessions(w.id), maxRetries);
    }
    WorkThroughKeeps(store, work, effect, maxRetries);
  }

  lemma ActiveOnesFacts(store: Store)
    requires Sorted(store)
    ensures Distinct(ActiveOnes(store))
    ensures forall w :: w in ActiveOnes(store) ==> Active(w) && w in store && Lookup(store, w.id) == Some(w)
  {
    var a, b := InState(store, Dispatched), InState(store, InProgress);
    InStateMembers(store, Dispatched);
    InStateMembers(store, InProgress);
    forall w | w in ActiveOnes(store)
      ensures Active(w) && w in store && Lookup(store, w.id) == Some(w)
    {
      LookupMeaning(store, w.id);
    }
    forall i, j | 0 <= i < j < |ActiveOnes(store)|
      ensures ActiveOnes(store)[i].id != ActiveOnes(store)[j].id
    {
      if i < |a| <= j {
        assert a[i] in a && b[j - |a|] in b;
        LookupMeaning(store, a[i].id);
      }
    }
  }

  lemma {:induction false} PollKeeps(store: Store, maxParallel: int, maxRetries: int, feeds: int -> Feed)
    requires Inv(store, maxParallel, maxRetries)
    ensures Inv(Apply(store, Poll(feeds), maxParallel, maxRetries), maxParallel, maxRetries)
  {
    var work := ActiveOnes(store);
    var effect := Polling(maxRetries, feeds);
    ActiveOnesFacts(store);
    forall w | w in work && effect(w).Saved?
      ensures WellKept(effect(w).issue, maxRetries) && effect(w).issue.id == w.id
    {
      assert effect(w) == PollEffect(w, feeds(w.id), maxRetries);
      FeedAllowed(w, feeds(w.id).items, maxRetries);
    }
    WorkThroughKeeps(store, work, effect, maxRetries);
    WorkThroughActive(store, work, effect);
  }

  lemma {:induction false} FindSessionFacts(store: Store, session: string)
    ensures FindSession(store, session).Some? ==> FindSession(store, session).value in store
  {
    if store == [] {
    } else if store[0].sessionId != Some(session) {
      FindSessionFacts(store[1..], session);
    }
  }

  lemma FinishedKept(i: Issue, outcome: IssueState, maxRetries: int)
    requires outcome in TERMINAL_STATES && WellKept(i, maxRetries) && Finished(i, outcome).Some?
    ensures var f := Finished(i, outcome).value; f.id == i.id && WellKept(f, maxRetries) && !Active(f)
  {
  }

  lemma {:induction false} ResolveKeeps(store: Store, maxParallel: int, maxRetries: int, session: string,
                                        outcome: IssueState)
    requires Inv(store, maxParallel, maxRetries)
    ensures Inv(Apply(store, Resolve(session, outcome), maxParallel, maxRetries), maxParallel, maxRetries)
  {
    FindSessionFacts(store, session);
    var found := FindSession(store, session);
    if outcome in TERMINAL_STATES && found.Some? && Finished(found.value, outcome).Some? {
      var i, f := found.value, Finished(found.value, outcome).value;
      FinishedKept(i, outcome, maxRetries);
      LookupMeaning(store, i.id);
      SaveSorted(store, f);
      SaveMembers(store, f);
      SaveCount(store, f);
    }
  }

  lemma {:induction false} EnqueueKeeps(store: Store, maxParallel: int, maxRetries: int, i: Issue)
    requires Inv(store, maxParallel, maxRetries) && NewIssue(i)
    ensures Inv(Apply(store, Enqueue(i), maxParallel, maxRetries), maxParallel, maxRetries)
  {
    var q := Moved(i, Queued).value;
    assert WellKept(q, maxRetries);
    SaveSorted(store, q);
    SaveMembers(store, q);
    SaveCount(store, q);
  }

  lemma {:induction false} ArchiveKeeps(store: Store, maxParallel: int, maxRetries: int, id: int)
    requires Inv(store, maxParallel, maxRetries)
    ensures Inv(Apply(store, Archive(id), maxParallel, maxRetries), maxParallel, maxRetries)
  {
    WithoutFacts(store, id);
  }

  lemma {:induction false} ApplyKeeps(store: Store, op: Op, maxParallel: int, maxRetries: int)
    requires Inv(store, maxParallel, maxRetries)
    requires op.Enqueue? ==> NewIssue(op.issue)
    ensures Inv(Apply(store, op, maxParallel, maxRetries), maxParallel, maxRetries)
  {
    match op
    case Enqueue(i) => EnqueueKeeps(store, maxParallel, maxRetries, i);
    case Dispatch(dryRun, sessions) => DispatchKeeps(store, maxParallel, maxRetries, dryRun, sessions);
    case Poll(feeds) => PollKeeps(store, maxParallel, maxRetries, feeds);
    case Resolve(session, outcome) => ResolveKeeps(store, maxParallel, maxRetries, session, outcome);
    case Archive(id) => ArchiveKeeps(store, maxParallel, maxRetries, id);
  }

  // ---------------------------------------------------------------------------
  // Whole runs.
  // ---------------------------------------------------------------------------

  lemma {:induction false} RunKeeps(store: Store, ops: seq<Op>, maxParallel: int, maxRetries: int)
    requires Inv(store, maxParallel, maxRetries)
    requires forall k :: 0 <= k < |ops| && ops[k].Enqueue? ==> NewIssue(ops[k].issue)
    ensures Inv(ApplyAll(store, ops, maxParallel, maxRetries), maxParallel, maxRetries)
    decreases |ops|
  {
    if ops == [] {
    } else {
      ApplyKeeps(store, ops[0], maxParallel, maxRetries);
      RunKeeps(Apply(store, ops[0], maxParallel, maxRetries), ops[1..], maxParallel, maxRetries);
    }
  }

  // However enqueueing, dispatching, polling and resolving are mixed, the dispatched and
  // in-progress issues never exceed the parallelism limit.
  lemma ParallelismBound(ops: seq<Op>, maxParallel: int, maxRetries: int)
    requires forall k :: 0 <= k < |ops| && ops[k].Enqueue? ==> NewIssue(ops[k].issue)
    ensures var store := ApplyAll([], ops, maxParallel, maxRetries);
            |InState(store, Dispatched)| + |InState(store, InProgress)| <= Positive(maxParallel)
  {
    RunKeeps([], ops, maxParallel, maxRetries);
    ActiveIsDispatchedOrInProgress(ApplyAll([], ops, maxParallel, maxRetries));
  }

  /**
    The state graph has a cycle, but every issue has a finite life: it is dispatched at most
    once more than it may still be retried, and makes at most five transitions a dispatch and
    one more.
  */
  lemma FiniteLives(ops: seq<Op>, maxParallel: int, maxRetries: int, i: Issue)
    requires forall k :: 0 <= k < |ops| && ops[k].Enqueue? ==> NewIssue(ops[k].issue)
    requires i in ApplyAll([], ops, maxParallel, maxRetries)
    ensures i.dispatches <= Positive(maxRetries - i.bornRetries) + 1
    ensures i.moves <= 5 * (Positive(maxRetries - i.bornRetries) + 1) + 1
    ensures i.finalState.Some? <==> i.state in TERMINAL_STATES
  {
    RunKeeps([], ops, maxParallel, maxRetries);
    assert WellKept(i, maxRetries);
  }

  // The issues a pass comes to before its k-th are the queued ones that precede that one.
  lemma {:induction false} TakenBefore(store: Store, slots: nat, k: nat, j: nat)
    requires Sorted(store) && j < k < |Taken(store, slots)|
    ensures var w := Taken(store, slots)[j];
            w in store && w.state == Queued && Precedes(w, Taken(store, slots)[k])
  {
    var queue := InState(store, Queued);
    InStateMembers(store, Queued);
    SortInOrder(queue);
    SortFacts(queue, Taken(store, slots)[j]);
    assert SortByKey(queue)[j] in SortByKey(queue);
  }

  lemma {:induction false} PrecedingIsTaken(store: Store, slots: nat, k: nat, w: Issue) returns (j: nat)
    requires Sorted(store) && k < |Taken(store, slots)|
    requires w in store && w.state == Queued && Precedes(w, Taken(store, slots)[k])
    ensures j < k && Taken(store, slots)[j] == w
  {
    var queue := InState(store, Queued);
    InStateMembers(store, Queued);
    SortInOrder(queue);
    SortFacts(queue, w);
    j :| 0 <= j < |SortByKey(queue)| && SortByKey(queue)[j] == w;
    assert k < j ==> Precedes(SortByKey(queue)[k], SortByKey(queue)[j]);
  }

  // No queued issue that precedes d makes the pass crash.
  ghost predicate ReachedBy(store: Store, sessions: int -> Session, d: Issue) {
    forall w :: w in store && w.state == Queued && Precedes(w, d) ==> !sessions(w.id).Crashed?
  }

  lemma QueuedCrash(store: Store, slots: nat, dryRun: bool, sessions: int -> Session, w: Issue)
    requires Sorted(store) && w in Taken(store, slots)
    ensures var e := Dispatching(dryRun, sessions)(w);
            (e.Raises? <==> sessions(w.id).Crashed?) && (e.Saved? ==> e.issue.id == w.id)
  {
    TakenFacts(store, slots);
    assert Dispatching(dryRun, sessions)(w) == DispatchEffect(w, dryRun, sessions(w.id));
  }

  lemma ReachedUninterrupted(store: Store, slots: nat, dryRun: bool, sessions: int -> Session, k: nat)
    requires Sorted(store) && k < |Taken(store, slots)|
    ensures Uninterrupted(Taken(store, slots), Dispatching(dryRun, sessions), k) <==>
            ReachedBy(store, sessions, Taken(store, slots)[k])
  {
    var work, effect := Taken(store, slots), Dispatching(dryRun, sessions);
    if Uninterrupted(work, effect, k) {
      forall w | w in store && w.state == Queued && Precedes(w, work[k]) ensures !sessions(w.id).Crashed? {
        var j := PrecedingIsTaken(store, slots, k, w);
        assert !effect(work[j]).Raises?;
        QueuedCrash(store, slots, dryRun, sessions, w);
      }
    }
    if ReachedBy(store, sessions, work[k]) {
      forall j | 0 <= j < k ensures !effect(work[j]).Raises? {
        TakenBefore(store, slots, k, j);
        QueuedCrash(store, slots, dryRun, sessions, work[j]);
      }
    }
  }

  lemma TakenUpTo(store: Store, slots: nat, dryRun: bool, sessions: int -> Session, k: nat)
    requires Sorted(store) && k < |Taken(store, slots)|
    ensures var work, effect := Taken(store, slots), Dispatching(dryRun, sessions);
            Lookup(WorkThrough(store, work, effect), work[k].id)
            == if Uninterrupted(work, effect, k) && effect(work[k]).Saved?
               then Some(effect(work[k]).issue) else Lookup(store, work[k].id)
  {
    var work, effect := Taken(store, slots), Dispatching(dryRun, sessions);
    TakenFacts(store, slots);
    forall w | w in work && effect(w).Saved?
      ensures effect(w).issue.id == w.id
    {
      QueuedCrash(store, slots, dryRun, sessions, w);
    }
    WorkThroughUpTo(store, work, effect, k);
  }

  lemma TakenIsQueued(store: Store, slots: nat, k: nat)
    requires Sorted(store) && k < |Taken(store, slots)|
    ensures var d := Taken(store, slots)[k]; d in store && d.state == Queued && Lookup(store, d.id) == Some(d)
  {
    var d := Taken(store, slots)[k];
    TakenFacts(store, slots);
    assert d in Taken(store, slots);
    LookupMeaning(store, d.id);
  }

  lemma QueuedDispatch(d: Issue, dryRun: bool, sessions: int -> Session)
    requires d.state == Queued
    ensures var e, s := Dispatching(dryRun, sessions)(d), sessions(d.id);
            && (e.Saved? <==> !dryRun && s.Created?)
            && (e.Saved? ==> Some(e.issue) == Moved(d.(sessionId := Some(s.sessionId)), Dispatched))
  {
    assert Dispatching(dryRun, sessions)(d) == DispatchEffect(d, dryRun, sessions(d.id));
  }

  lemma DoneToTaken(store: Store, slots: nat, dryRun: bool, sessions: int -> Session, k: nat)
    requires Sorted(store) && k < |Taken(store, slots)|
    ensures var d := Taken(store, slots)[k];
            && d in store && d.state == Queued
            && Lookup(WorkThrough(store, Taken(store, slots), Dispatching(dryRun, sessions)), d.id)
               == if !dryRun && sessions(d.id).Created? && ReachedBy(store, sessions, d)
                  then Moved(d.(sessionId := Some(sessions(d.id).sessionId)), Dispatched) else Some(d)
  {
    TakenIsQueued(store, slots, k);
    QueuedDispatch(Taken(store, slots)[k], dryRun, sessions);
    TakenUpTo(store, slots, dryRun, sessions, k);
    ReachedUninterrupted(store, slots, dryRun, sessions, k);
  }

  lemma NotTaken(store: Store, slots: nat, dryRun: bool, sessions: int -> Session, d: Issue)
    requires Sorted(store) && d in store && d !in Taken(store, slots)
    ensures Lookup(WorkThrough(store, Taken(store, slots), Dispatching(dryRun, sessions)), d.id) == Some(d)
  {
    var work, effect := Taken(store, slots), Dispatching(dryRun, sessions);
    TakenFacts(store, slots);
    LookupMeaning(store, d.id);
    forall w | w in work && effect(w).Saved?
      ensures effect(w).issue.id == w.id
    {
      assert effect(w) == DispatchEffect(w, dryRun, sessions(w.id));
    }
    WorkThroughOthers(store, work, effect, d.id);
  }

  /**
    What a dispatch pass does to every issue, whether or not an error interrupts it: it dispatches
    exactly the queued ones that have fewer than `slots` issues ahead of them in (priority,
    created_at) order, for which a session was created, and with no issue ahead of them at which
    the pass crashed. All others stay as they are.
  */
  lemma InterruptedDispatchSelects(store: Store, maxParallel: int, dryRun: bool, sessions: int -> Session, d: Issue)
    requires Sorted(store) && d in store
    ensures var ahead := Ahead(InState(store, Queued), d);
            Lookup(DispatchPass(store, maxParallel, dryRun, sessions), d.id)
            == if && d.state == Queued && ahead < Slots(store, maxParallel)
                  && !dryRun && sessions(d.id).Created? && ReachedBy(store, sessions, d)
               then Moved(d.(sessionId := Some(sessions(d.id).sessionId)), Dispatched)
               else Some(d)
  {
    var slots := Slots(store, maxParallel);
    if d in Taken(store, slots) {
      var k :| 0 <= k < |Taken(store, slots)| && Taken(store, slots)[k] == d;
      DoneToTaken(store, slots, dryRun, sessions, k);
    } else {
      NotTaken(store, slots, dryRun, sessions, d);
    }
    if d.state == Queued {
      FirstSlots(store, slots, d);
    }
  }

  // So without an error it dispatches all of the first `slots` that got a session.
  lemma DispatchSelects(store: Store, maxParallel: int, dryRun: bool, sessions: int -> Session, d: Issue)
    requires Sorted(store) && d in store
    requires dryRun || forall i :: i in store ==> !sessions(i.id).Crashed?
    ensures var ahead := Ahead(InState(store, Queued), d);
            Lookup(DispatchPass(store, maxParallel, dryRun, sessions), d.id)
            == if d.state == Queued && ahead < Slots(store, maxParallel) && !dryRun && sessions(d.id).Created?
               then Moved(d.(sessionId := Some(sessions(d.id).sessionId)), Dispatched)
               else Some(d)
  {
    InterruptedDispatchSelects(store, maxParallel, dryRun, sessions, d);
  }

  // Whose turn is first, by priority and time of creation alone: "high" before the rest, "low" after
  // it, any other text in between; then the earlier created, then the earlier in the store.
  predicate GoesFirst(a: Issue, b: Issue) {
    || (a.priority == "high" && b.priority != "high")
    || (a.priority != "low" && b.priority == "low")
    || (((a.priority == "high") == (b.priority == "high")) && ((a.priority == "low") == (b.priority == "low"))
        && (a.createdAt < b.createdAt || (a.createdAt == b.createdAt && a.id < b.id)))
  }

  lemma PrecedesMeaning(a: Issue, b: Issue)
    ensures Precedes(a, b) <==> GoesFirst(a, b)
  {
    assert "high" != "low";
  }

  lemma {:induction false} FewerAhead(queue: seq<Issue>, a: Issue, b: Issue)
    requires Precedes(a, b)
    ensures Ahead(queue, a) <= Ahead(queue, b)
  {
    if queue == [] {
    } else {
      FewerAhead(queue[1..], a, b);
    }
  }

  /**
    What priority means. If a pass dispatches an issue, it dispatches every queued one whose turn is
    before that one's and for which a session is created: all "high" ones before any other, the
    "low" ones only after all others, and otherwise the earlier created first.
  */
  lemma {:induction false} PriorityIsKept(store: Store, maxParallel: int, dryRun: bool, sessions: int -> Session,
                                          a: Issue, b: Issue)
    requires Sorted(store) && a in store && b in store && a.state == Queued && GoesFirst(a, b)
    requires Lookup(DispatchPass(store, maxParallel, dryRun, sessions), b.id) != Some(b)
    requires sessions(a.id).Created?
    ensures var after := Lookup(DispatchPass(store, maxParallel, dryRun, sessions), a.id);
            && after.Some? && after.value.state == Dispatched
            && after.value.sessionId == Some(sessions(a.id).sessionId)
  {
    PrecedesMeaning(a, b);
    InterruptedDispatchSelects(store, maxParallel, dryRun, sessions, a);
    InterruptedDispatchSelects(store, maxParallel, dryRun, sessions, b);
    FewerAhead(InState(store, Queued), a, b);
    forall w | w in store && w.state == Queued && Precedes(w, a) ensures !sessions(w.id).Crashed? {
      assert Precedes(w, b);
    }
  }

  // A dispatch pass comes to its end exactly when no issue among the first `slots` makes it crash.
  lemma {:induction false} DispatchCompletes(store: Store, maxParallel: int, dryRun: bool, sessions: int -> Session)
    requires Sorted(store)
    ensures var queue, slots := InState(store, Queued), Slots(store, maxParallel);
            Completes(Taken(store, slots), Dispatching(dryRun, sessions)) <==>
            forall d :: d in queue && Ahead(queue, d) < slots ==> !sessions(d.id).Crashed?
  {
    var queue, slots := InState(store, Queued), Slots(store, maxParallel);
    var work, effect := Taken(store, slots), Dispatching(dryRun, sessions);
    CompletesMeaning(work, effect);
    TakenFacts(store, slots);
    InStateMembers(store, Queued);
    forall d | d in queue ensures d in work <==> Ahead(queue, d) < slots {
      FirstSlots(store, slots, d);
    }
    forall w | w in work ensures w in queue && (effect(w).Raises? <==> sessions(w.id).Crashed?) {
      assert effect(w) == DispatchEffect(w, dryRun, sessions(w.id));
    }
  }

  // A poll comes to its end exactly when fetching the feed of no polled issue crashes.
  lemma {:induction false} PollCompletes(store: Store, maxParallel: int, maxRetries: int, feeds: int -> Feed)
    requires Inv(store, maxParallel, maxRetries)
    ensures Completes(ActiveOnes(store), Polling(maxRetries, feeds)) <==>
            forall d :: d in ActiveOnes(store) && d.sessionId != Some("") ==> !feeds(d.id).FeedCrashed?
  {
    var work, effect := ActiveOnes(store), Polling(maxRetries, feeds);
    CompletesMeaning(work, effect);
    ActiveOnesFacts(store);
    forall w | w in work ensures effect(w).Raises? <==> w.sessionId != Some("") && feeds(w.id).FeedCrashed? {
      assert WellKept(w, maxRetries) && effect(w) == PollEffect(w, feeds(w.id), maxRetries);
      if feeds(w.id).Activities? {
        FeedAllowed(w, feeds(w.id).items, maxRetries);
      }
    }
  }

  // ---------------------------------------------------------------------------
  // What a feed, and a resolution, come to.
  // ---------------------------------------------------------------------------

  // Contains is what its name says.
  lemma {:induction false} ContainsMeaning(s: string, sub: string)
    ensures Contains(s, sub) <==> exists k: nat :: k + |sub| <= |s| && s[k..][..|sub|] == sub
    decreases |s|
  {
    if Contains(s, sub) {
      if s[..|sub|] == sub {
        assert s[0..][..|sub|] == sub;
      } else {
        ContainsMeaning(s[1..], sub);
        var k: nat :| k + |sub| <= |s[1..]| && s[1..][k..][..|sub|] == sub;
        assert s[k + 1..] == s[1..][k..];
      }
    } else {
      forall k: nat | k + |sub| <= |s| ensures s[k..][..|sub|] != sub {
        if k == 0 {
          assert s[0..] == s;
        } else {
          ContainsMeaning(s[1..], sub);
          assert s[k..] == s[1..][k - 1..];
        }
      }
    }
  }

  // A kind that says anything of the sort is neither empty nor "setup".
  lemma {:induction false} TellingKinds(kind: string)
    ensures SaysPullRequest(kind) || SaysFailure(kind) ==> kind != "" && kind != "setup"
  {
    if kind == "setup" {
      assert kind[1..] == "etup" && kind[1..][1..] == "tup";
    }
  }

  // An activity that reports no failure.
  lemma {:induction false} ReactQuietly(i: Issue, a: Activity, maxRetries: int)
    requires UnderWay(i, maxRetries) && !SaysFailure(a.kind)
    ensures var r := React(i, a, maxRetries);
            && r.Some? && !r.value.stop && UnderWay(r.value.issue, maxRetries)
            && r.value.issue.retryCount == i.retryCount
            && r.value.issue.state == (if SaysPullRequest(a.kind) then DraftPr
                                       else if i.state == Dispatched && a.kind !in {"", "setup"} then InProgress
                                       else i.state)
            && (r.value.advanced <==> r.value.issue.state != i.state)
  {
    TellingKinds(a.kind);
    StartedAllowed(i, a.kind, maxRetries);
    PullRequestAllowed(i, Started(i, a.kind).value, a, maxRetries);
  }

  lemma {:induction false} FailureSeenDecides(r: Reaction, a: Activity, maxRetries: int)
    requires UnderWay(r.issue, maxRetries) && SaysFailure(a.kind)
    ensures var seen := FailureSeen(r, a, maxRetries);
            && seen.Some? && seen.value.stop && seen.value.advanced
            && var j := seen.value.issue;
               if a.retriable && r.issue.retryCount < maxRetries
               then j.state == Queued && j.retryCount == r.issue.retryCount + 1
               else j.state == Escalated && j.retryCount == r.issue.retryCount && j.audited
                    && j.finalState == Some(Escalated)
  {
    FailureAllowed(r.issue, maxRetries);
  }

  // One that does.
  lemma {:induction false} ReactToFailure(i: Issue, a: Activity, maxRetries: int)
    requires UnderWay(i, maxRetries) && SaysFailure(a.kind)
    ensures var r := React(i, a, maxRetries);
            && r.Some? && r.value.stop && r.value.advanced
            && (if a.retriable && i.retryCount < maxRetries
                then r.value.issue.state == Queued && r.value.issue.retryCount == i.retryCount + 1
                else r.value.issue.state == Escalated && r.value.issue.retryCount == i.retryCount
                     && r.value.issue.audited && r.value.issue.finalState == Some(Escalated))
  {
    StartedAllowed(i, a.kind, maxRetries);
    var r1 := Started(i, a.kind).value;
    PullRequestAllowed(i, r1, a, maxRetries);
    assert r1.issue.retryCount == i.retryCount;
    FailureSeenDecides(PullRequestSeen(r1, a).value, a, maxRetries);
  }

  // Item k is the first of a feed to report a failure.
  predicate FirstFailure(items: seq<Activity>, k: nat) {
    k < |items| && SaysFailure(items[k].kind) && forall j :: 0 <= j < k ==> !SaysFailure(items[j].kind)
  }

  /**
    What a feed decides. If an item reports a failure, the first that does decides: a retriable one
    puts the issue back in the queue with one more retry, as long as it has any left, and any other
    escalates it. Nothing before or after that item matters.
  */
  lemma {:induction false} FailureDecides(i: Issue, items: seq<Activity>, k: nat, maxRetries: int)
    requires UnderWay(i, maxRetries) && FirstFailure(items, k)
    ensures var r := Advanced(i, items, maxRetries);
            && r.Some? && r.value.1
            && var j := r.value.0;
               if items[k].retriable && i.retryCount < maxRetries
               then j.state == Queued && j.retryCount == i.retryCount + 1
               else j.state == Escalated && j.retryCount == i.retryCount && j.audited && j.finalState == Some(Escalated)
    decreases k
  {
    if k == 0 {
      ReactToFailure(i, items[0], maxRetries);
    } else {
      assert !SaysFailure(items[0].kind);
      ReactQuietly(i, items[0], maxRetries);
      assert FirstFailure(items[1..], k - 1);
      FailureDecides(React(i, items[0], maxRetries).value.issue, items[1..], k - 1, maxRetries);
    }
  }

  // Otherwise a pull request anywhere in it makes the issue a draft one; and failing that anything
  // but set-up starts its work.
  lemma {:induction false} QuietFeedDecides(i: Issue, items: seq<Activity>, maxRetries: int)
    requires UnderWay(i, maxRetries) && forall a :: a in items ==> !SaysFailure(a.kind)
    ensures var r := Advanced(i, items, maxRetries);
            && r.Some?
            && var (j, advanced) := r.value;
               && j.retryCount == i.retryCount
               && j.state == (if exists a :: a in items && SaysPullRequest(a.kind) then DraftPr
                              else if i.state == Dispatched && exists a :: a in items && a.kind !in {"", "setup"}
                              then InProgress
                              else i.state)
               && (advanced <==> j.state != i.state)
    decreases |items|
  {
    if items == [] {
    } else {
      assert items[0] in items && items == [items[0]] + items[1..];
      ReactQuietly(i, items[0], maxRetries);
      QuietFeedDecides(React(i, items[0], maxRetries).value.issue, items[1..], maxRetries);
      TellingKinds(items[0].kind);
    }
  }

  lemma {:induction false} PolledQuietly(store: Store, maxRetries: int, feeds: int -> Feed, w: Issue)
    requires AllKept(store, maxRetries) && w in store && Active(w) && !feeds(w.id).FeedCrashed?
    ensures var e := Polling(maxRetries, feeds)(w); !e.Raises? && (e.Saved? ==> e.issue.id == w.id)
  {
    if feeds(w.id).Activities? {
      FeedAllowed(w, feeds(w.id).items, maxRetries);
    }
  }

  lemma {:induction false} ActiveOnesMembers(store: Store, d: Issue)
    ensures d in ActiveOnes(store) <==> d in store && Active(d)
  {
    InStateMembers(store, Dispatched);
    InStateMembers(store, InProgress);
  }

  lemma {:induction false} PolledRecord(store: Store, maxRetries: int, feeds: int -> Feed, d: Issue)
    requires Sorted(store) && d in store
    requires forall w :: w in ActiveOnes(store) ==>
               !Polling(maxRetries, feeds)(w).Raises?
               && (Polling(maxRetries, feeds)(w).Saved? ==> Polling(maxRetries, feeds)(w).issue.id == w.id)
    ensures Lookup(PollPass(store, maxRetries, feeds), d.id)
         == if Active(d) && Polling(maxRetries, feeds)(d).Saved? then Some(Polling(maxRetries, feeds)(d).issue)
            else Some(d)
  {
    var work, effect := ActiveOnes(store), Polling(maxRetries, feeds);
    ActiveOnesFacts(store);
    ActiveOnesMembers(store, d);
    LookupMeaning(store, d.id);
    if Active(d) {
      var k :| 0 <= k < |work| && work[k] == d;
      WorkThroughUpTo(store, work, effect, k);
    } else {
      WorkThroughOthers(store, work, effect, d.id);
    }
  }

  // What a poll that reads every feed does to a record: an active one with a session, whose feed
  // has arrived and changed its state, is saved as the feed leaves it.
  lemma {:induction false} PollDecides(store: Store, maxParallel: int, maxRetries: int, feeds: int -> Feed, d: Issue)
    requires Inv(store, maxParallel, maxRetries) && d in store
    requires forall w :: w in store ==> !feeds(w.id).FeedCrashed?
    ensures var feed := feeds(d.id);
            Lookup(PollPass(store, maxRetries, feeds), d.id)
            == if && Active(d) && d.sessionId != Some("") && feed.Activities?
                  && Advanced(d, feed.items, maxRetries).Some? && Advanced(d, feed.items, maxRetries).value.1
               then Some(Advanced(d, feed.items, maxRetries).value.0)
               else Some(d)
  {
    ActiveOnesFacts(store);
    forall w | w in ActiveOnes(store)
      ensures !Polling(maxRetries, feeds)(w).Raises?
      ensures Polling(maxRetries, feeds)(w).Saved? ==> Polling(maxRetries, feeds)(w).issue.id == w.id
    {
      PolledQuietly(store, maxRetries, feeds, w);
    }
    PolledRecord(store, maxRetries, feeds, d);
    assert Active(d) ==> WellKept(d, maxRetries) && d.sessionId.Some?;
    assert Polling(maxRetries, feeds)(d) == PollEffect(d, feeds(d.id), maxRetries);
  }

  predicate GivesUrl(a: Activity) {
    SaysPullRequest(a.kind) && a.url.Some? && a.url.value != ""
  }

  lemma {:induction false} ReactKeepsUrl(i: Issue, a: Activity, maxRetries: int)
    requires UnderWay(i, maxRetries) && !SaysFailure(a.kind)
    ensures var r := React(i, a, maxRetries);
            r.Some? && r.value.issue.prUrl == if GivesUrl(a) then a.url else i.prUrl
  {
    StartedAllowed(i, a.kind, maxRetries);
    PullRequestAllowed(i, Started(i, a.kind).value, a, maxRetries);
  }

  // The link an issue keeps is the last one that a pull request of its feed gave, if any.
  lemma {:induction false} LastUrlStays(i: Issue, items: seq<Activity>, k: nat, maxRetries: int)
    requires UnderWay(i, maxRetries) && forall a :: a in items ==> !SaysFailure(a.kind)
    requires k <= |items| && (k > 0 ==> GivesUrl(items[k - 1]))
    requires forall j :: k <= j < |items| ==> !GivesUrl(items[j])
    ensures var r := Advanced(i, items, maxRetries);
            r.Some? && r.value.0.prUrl == if k > 0 then items[k - 1].url else i.prUrl
    decreases |items|
  {
    if items == [] {
    } else {
      assert items[0] in items && items == [items[0]] + items[1..];
      ReactQuietly(i, items[0], maxRetries);
      ReactKeepsUrl(i, items[0], maxRetries);
      var next := React(i, items[0], maxRetries).value.issue;
      var rest, m := items[1..], if k > 0 then k - 1 else 0;
      forall a | a in rest ensures !SaysFailure(a.kind) {
        assert a in items;
      }
      forall j | m <= j < |rest| ensures !GivesUrl(rest[j]) {
        assert rest[j] == items[j + 1];
      }
      assert m > 0 ==> rest[m - 1] == items[k - 1];
      LastUrlStays(next, rest, m, maxRetries);
    }
  }

  // A resolution takes the first record in the listing with the session; there may be none.
  lemma {:induction false} FirstOfSession(store: Store, session: string) returns (k: nat)
    ensures k <= |store| && forall j :: 0 <= j < k ==> store[j].sessionId != Some(session)
    ensures FindSession(store, session) == if k < |store| then Some(store[k]) else None
    ensures k < |store| ==> store[k].sessionId == Some(session)
  {
    if store == [] || store[0].sessionId == Some(session) {
      k := 0;
    } else {
      k := FirstOfSession(store[1..], session);
      k := k + 1;
    }
  }

  // Which outcomes can be recorded by hand, and how that leaves the issue.
  lemma FinishedMeaning(i: Issue, outcome: IssueState)
    requires outcome in TERMINAL_STATES
    ensures Finished(i, outcome).Some? <==>
            || (outcome == Merged && i.state in {DraftPr, Reviewed})
            || (outcome == Rejected && i.state == DraftPr)
            || (outcome == Escalated && i.state in {Dispatched, InProgress, DraftPr, Failed})
    ensures Finished(i, outcome).Some? ==>
              var f := Finished(i, outcome).value;
              f.state == outcome && f.finalState == Some(outcome) && f.audited && f.retryCount == i.retryCount
  {
  }

  // A resolution closes that record, if it can be, and touches no other.
  lemma {:induction false} ResolveDecides(store: Store, session: string, outcome: IssueState, id: int)
    ensures var found, after := FindSession(store, session), Lookup(Resolved(store, session, outcome), id);
            if outcome in TERMINAL_STATES && found.Some? && found.value.id == id && Finished(found.value, outcome).Some?
            then after.Some? && after.value.state == outcome && after.value.finalState == Some(outcome)
                 && after.value.audited
            else after == Lookup(store, id)
  {
    var found := FindSession(store, session);
    if outcome in TERMINAL_STATES && found.Some? && Finished(found.value, outcome).Some? {
      FinishedMeaning(found.value, outcome);
      SaveLookup(store, Finished(found.value, outcome).value, id);
    }
  }

  // Archiving takes a terminal record out of the store, and nothing else.
  lemma {:induction false} ArchiveDecides(store: Store, id: int, other: int, maxParallel: int, maxRetries: int)
    requires Sorted(store)
    ensures var gone := other == id && Lookup(store, id).Some? && Lookup(store, id).value.state in TERMINAL_STATES;
            Lookup(Apply(store, Archive(id), maxParallel, maxRetries), other)
            == if gone then None else Lookup(store, other)
  {
    WithoutLookup(store, id, other);
  }

  // ---------------------------------------------------------------------------
  // The dispatcher itself. A method returns ok == false where the source raises.
  // ---------------------------------------------------------------------------

  // The rest of a feed, given that the part before it advanced the issue or not.
  function Continued(rest: Option<(Issue, bool)>, advanced: bool): Option<(Issue, bool)> {
    match rest
    case None => None
    case Some((i, more)) => Some((i, advanced || more))
  }

  class Dispatcher {
    const maxRetries: int
    const hasClient: bool
    var store: Store

    constructor (hasClient: bool, maxRetries: int := 2)
      ensures this.maxRetries == maxRetries && this.hasClient == hasClient && store == []
    {
      this.maxRetries := maxRetries;
      this.hasClient := hasClient;
      store := [];
    }

    method SaveIssue(issue: FlaggedIssue)
      modifies this
      ensures store == Save(old(store), issue.data)
    {
      store := Save(store, issue.data);
    }

    method EmitAuditLog(issue: FlaggedIssue)
      modifies this, issue
      ensures issue.data == old(issue.data).(audited := true)
      ensures store == Save(old(store), issue.data)
    {
      issue.data := issue.data.(audited := true);
      SaveIssue(issue);
    }

    method EnqueueIssue(issue: FlaggedIssue) returns (ok: bool)
      modifies this, issue
      ensures var i := old(issue.data);
              ok <==> i.state == Flagged && i.playbook in PLAYBOOK_NAMES && i.targetRepo != ""
      ensures ok ==> issue.data.state == Queued && Lookup(store, issue.data.id) == Some(issue.data)
      ensures !ok ==> store == old(store)
      ensures forall maxParallel :: store == Apply(old(store), Enqueue(old(issue.data)), maxParallel, maxRetries)
    {
      if issue.data.state != Flagged || issue.data.playbook !in PLAYBOOK_NAMES || issue.data.targetRepo == "" {
        return false;
      }
      ok := issue.Transition(Queued);
      SaveLookup(store, issue.data, issue.data.id);
      SaveIssue(issue);
    }

    // The attempt to dispatch one issue; the caller stops at the first one that raises.
    method DispatchOne(i: Issue, dryRun: bool, session: Session) returns (ok: bool)
      modifies this
      ensures var e := DispatchEffect(i, dryRun, session);
              ok == !e.Raises? && store == if e.Saved? then Save(old(store), e.issue) else old(store)
    {
      if session.PlaybookMissing? {
        return true;
      }
      if session.Crashed? {
        return false;
      }
      if dryRun || session.ApiError? {
        return true;
      }
      var issue := new FlaggedIssue.FromRecord(i.(sessionId := Some(session.sessionId)));
      ok := issue.Transition(Dispatched);
      if ok {
        SaveIssue(issue);
      }
    }

    // The loop of a pass over the issues it takes.
    method DispatchEach(work: seq<Issue>, dryRun: bool, sessions: int -> Session) returns (ok: bool)
      modifies this
      ensures store == WorkThrough(old(store), work, Dispatching(dryRun, sessions))
      ensures ok <==> Completes(work, Dispatching(dryRun, sessions))
    {
      ghost var effect := Dispatching(dryRun, sessions);
      ghost var whole, completes := WorkThrough(store, work, effect), Completes(work, effect);
      for k := 0 to |work|
        invariant WorkThrough(store, work[k..], effect) == whole && Completes(work[k..], effect) == completes
      {
        assert work[k..][1..] == work[k + 1..];
        ok := DispatchOne(work[k], dryRun, sessions(work[k].id));
        if !ok {
          return;
        }
      }
      return true;
    }

    // Without a client every pass is a dry run.
    method DispatchQueued(maxParallel: int, dryRun: bool, sessions: int -> Session) returns (ok: bool)
      modifies this
      ensures store == Apply(old(store), Dispatch(dryRun || !hasClient, sessions), maxParallel, maxRetries)
      ensures ok <==> Completes(Taken(old(store), Slots(old(store), maxParallel)),
                                Dispatching(dryRun || !hasClient, sessions))
    {
      var active := InState(store, Dispatched) + InState(store, InProgress);
      ActiveIsDispatchedOrInProgress(store);
      var slots := if maxParallel < |active| then 0 else maxParallel - |active|;
      var queued := SortByKey(InState(store, Queued));
      ok := DispatchEach(if slots <= |queued| then queued[..slots] else queued, dryRun || !hasClient, sessions);
    }

    method HandleTerminalFailure(issue: FlaggedIssue, retriable: bool) returns (ok: bool)
      modifies this, issue
      ensures issue.data.id == old(issue.data).id
      ensures var handled := FailureHandled(old(issue.data), retriable, maxRetries);
              && ok == handled.Some?
              && (ok ==> issue.data == handled.value && store == Save(old(store), issue.data))
              && (!ok ==> store == old(store))
    {
      if retriable && issue.data.retryCount < maxRetries {
        issue.data := issue.data.(retryCount := issue.data.retryCount + 1);
        ok := issue.Transition(Queued);
        if ok {
          SaveIssue(issue);
        }
        return;
      }
      ok := issue.Transition(Escalated);
      if !ok {
        return;
      }
      SaveIssue(issue);
      SaveTwice(old(store), issue.data, issue.data.(audited := true));
      EmitAuditLog(issue);
    }

    // An activity that reports a pull request.
    method NotePullRequest(issue: FlaggedIssue, a: Activity) returns (ok: bool, advanced: bool)
      modifies issue
      ensures forall before ::
                var r := PullRequestSeen(Reaction(old(issue.data), before, false), a);
                ok == r.Some? && (ok ==> r.value == Reaction(issue.data, before || advanced, false))
    {
      ok, advanced := true, false;
      if SaysPullRequest(a.kind) {
        if a.url.Some? && a.url.value != "" {
          issue.data := issue.data.(prUrl := a.url);
        }
        if issue.data.state == InProgress {
          ok := issue.Transition(DraftPr);
          advanced := true;
        }
      }
    }

    // One activity. Stops the feed when a failure was handled, which also saves the issue.
    method ReactTo(issue: FlaggedIssue, a: Activity) returns (ok: bool, advanced: bool, stop: bool)
      modifies this, issue
      ensures var r := React(old(issue.data), a, maxRetries);
              && ok == r.Some?
              && (ok ==> r.value == Reaction(issue.data, advanced, stop))
              && store == if ok && stop then Save(old(store), issue.data) else old(store)
    {
      ok, advanced, stop := true, false, false;
      if issue.data.state == Dispatched && a.kind != "" && a.kind != "setup" {
        ok := issue.Transition(InProgress);
        advanced := true;
      }
      ghost var r1 := Reaction(issue.data, advanced, false);
      assert ok && Started(old(issue.data), a.kind) == Some(r1);
      var moved;
      ok, moved := NotePullRequest(issue, a);
      advanced := advanced || moved;
      ghost var r2 := Reaction(issue.data, advanced, false);
      assert ok && PullRequestSeen(r1, a) == Some(r2);
      if SaysFailure(a.kind) && issue.data.state in {Dispatched, InProgress, DraftPr} {
        ok := issue.Transition(Failed);
        advanced := true;
        ok := HandleTerminalFailure(issue, a.retriable);
        stop := true;
      }
    }

    method AdvanceFromActivities(issue: FlaggedIssue, items: seq<Activity>) returns (ok: bool, advanced: bool)
      modifies this, issue
      ensures var r := Advanced(old(issue.data), items, maxRetries);
              && ok == r.Some?
              && (ok ==> r.value == (issue.data, advanced))
              && (ok && store != old(store) ==> advanced && store == Save(old(store), issue.data))
              && (!ok ==> store == old(store))
    {
      ok, advanced := true, false;
      for k := 0 to |items|
        invariant ok && store == old(store)
        invariant Continued(Advanced(issue.data, items[k..], maxRetries), advanced)
               == Advanced(old(issue.data), items, maxRetries)
      {
        assert items[k..][1..] == items[k + 1..];
        var moved, stop;
        ok, moved, stop := ReactTo(issue, items[k]);
        advanced := advanced || moved;
        if !ok || stop {
          return;
        }
      }
    }

    // Polls one active issue; the caller stops at the first one that raises.
    method PollOne(i: Issue, feed: Feed) returns (ok: bool)
      modifies this
      ensures var e := PollEffect(i, feed, maxRetries);
              ok == !e.Raises? && store == if e.Saved? then Save(old(store), e.issue) else old(store)
    {
      if i.sessionId == None || i.sessionId == Some("") || feed.FeedError? {
        return true;
      }
      if feed.FeedCrashed? {
        return false;
      }
      var issue := new FlaggedIssue.FromRecord(i);
      var advanced;
      ok, advanced := AdvanceFromActivities(issue, feed.items);
      if ok && advanced {
        SaveTwice(old(store), issue.data, issue.data);
        SaveIssue(issue);
      }
    }

    // Without a client nothing is polled.
    method PollInProgress(feeds: int -> Feed) returns (ok: bool)
      modifies this
      ensures forall maxParallel ::
                store == if hasClient then Apply(old(store), Poll(feeds), maxParallel, maxRetries) else old(store)
      ensures ok <==> !hasClient || Completes(ActiveOnes(old(store)), Polling(maxRetries, feeds))
    {
      if !hasClient {
        return true;
      }
      var work := InState(store, Dispatched) + InState(store, InProgress);
      ghost var effect := Polling(maxRetries, feeds);
      ghost var whole, completes := WorkThrough(store, work, effect), Completes(work, effect);
      for k := 0 to |work|
        invariant WorkThrough(store, work[k..], effect) == whole && Completes(work[k..], effect) == completes
      {
        assert work[k..][1..] == work[k + 1..];
        ok := PollOne(work[k], feeds(work[k].id));
        if !ok {
          return;
        }
      }
      return true;
    }

    method HandleTerminal(session: string, outcome: IssueState) returns (ok: bool)
      modifies this
      ensures forall maxParallel :: store == Apply(old(store), Resolve(session, outcome), maxParallel, maxRetries)
      ensures ok <==> && outcome in TERMINAL_STATES && FindSession(old(store), session).Some?
                      && Finished(FindSession(old(store), session).value, outcome).Some?
    {
      if outcome !in TERMINAL_STATES {
        return false;
      }
      var found := FindSession(store, session);
      if found == None {
        return false;
      }
      var resolved := new FlaggedIssue.FromRecord(found.value);
      if outcome == Merged && resolved.data.state == DraftPr {
        ok := resolved.Transition(Reviewed);
      }
      if outcome == Escalated && resolved.data.state != Failed && Failed in Allowed(resolved.data.state) {
        ok := resolved.Transition(Failed);
      }
      ok := resolved.Transition(outcome);
      if ok {
        SaveIssue(resolved);
        SaveTwice(old(store), resolved.data, resolved.data.(audited := true));
        EmitAuditLog(resolved);
      }
    }

    method ArchiveIssue(id: int) returns (ok: bool)
      modifies this
      ensures forall maxParallel :: store == Apply(old(store), Archive(id), maxParallel, maxRetries)
      ensures ok <==> Lookup(old(store), id).Some? && Lookup(old(store), id).value.state in TERMINAL_STATES
    {
      var issue := Lookup(store, id);
      ok := issue.Some? && issue.value.state in TERMINAL_STATES;
      if ok {
        store := Without(store, id);
      }
    }
  }
}
