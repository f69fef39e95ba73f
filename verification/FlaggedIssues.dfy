/**
  Flagged issues and their store (jules/dispatcher.py): the state graph, the transitions along
  it, and the directory of records in listing order.
*/
module FlaggedIssues {
  import opened Wrappers

  datatype IssueState =
    Flagged | Queued | Dispatched | InProgress | DraftPr | Reviewed | Merged | Failed | Escalated | Rejected

  const TERMINAL_STATES: set<IssueState> := {Merged, Rejected, Escalated}

  function Allowed(s: IssueState): set<IssueState> {
    match s
    case Flagged => {Queued}
    case Queued => {Dispatched}
    case Dispatched => {InProgress, Failed}
    case InProgress => {DraftPr, Failed}
    case DraftPr => {Reviewed, Rejected, Failed}
    case Reviewed => {Merged}
    case Failed => {Queued, Escalated}
    case Merged | Rejected | Escalated => {}
  }

  // `id` stands for the record's file name, of which only the sort order matters, and
  // `createdAt` for its timestamp. The last three fields are bookkeeping that the source does not
  // keep: the retry count at birth, and the dispatches and transitions so far.
  datatype Issue = Issue(
    id: int,
    playbook: string,
    targetRepo: string,
    priority: string,
    createdAt: int,
    state: IssueState,
    retryCount: int,
    sessionId: Option<string>,
    prUrl: Option<string>,
    finalState: Option<IssueState>,
    audited: bool,
    bornRetries: int,
    dispatches: nat,
    moves: nat)

  // transition(): None when it raises.
  function Moved(i: Issue, target: IssueState): Option<Issue> {
    if target !in Allowed(i.state) then None
    else Some(i.(state := target,
                 finalState := if target in TERMINAL_STATES then Some(target) else i.finalState,
                 dispatches := if target == Dispatched then i.dispatches + 1 else i.dispatches,
                 moves := i.moves + 1))
  }

  // Dispatched or in progress: an issue that holds a slot.
  predicate Active(i: Issue) {
    i.state in {Dispatched, InProgress}
  }

  // ---------------------------------------------------------------------------
  // The lifecycle measure.
  // ---------------------------------------------------------------------------

  function Positive(n: int): nat {
    if n < 0 then 0 else n
  }

  function StateRank(s: IssueState): nat {
    match s
    case Flagged => 6
    case Queued => 5
    case Dispatched => 4
    case InProgress => 3
    case DraftPr => 2
    case Reviewed | Failed => 1
    case Merged | Rejected | Escalated => 0
  }

  // The transitions an issue can still make.
  function Life(i: Issue, maxRetries: int): nat {
    5 * Positive(maxRetries - i.retryCount) + StateRank(i.state)
  }

  // Every transition but a retry shortens the life of an issue; a retry needs its count raised.
  lemma MoveShortensLife(i: Issue, target: IssueState, maxRetries: int)
    requires target in Allowed(i.state)
    ensures i.state != Failed || target != Queued ==> Life(Moved(i, target).value, maxRetries) < Life(i, maxRetries)
    ensures i.state == Failed && target == Queued && i.retryCount < maxRetries ==>
              Life(Moved(i.(retryCount := i.retryCount + 1), target).value, maxRetries) < Life(i, maxRetries)
  {
  }

  // What holds of every record the dispatcher keeps.
  predicate WellKept(i: Issue, maxRetries: int) {
    && i.state !in {Flagged, Failed}
    && i.bornRetries <= i.retryCount <= (if i.bornRetries < maxRetries then maxRetries else i.bornRetries)
    && i.dispatches == i.retryCount - i.bornRetries + (if i.state == Queued then 0 else 1)
    && i.moves + Life(i, maxRetries) <= 5 * Positive(maxRetries - i.bornRetries) + 6
    && i.finalState == (if i.state in TERMINAL_STATES then Some(i.state) else None)
    && (i.state != Queued ==> i.sessionId.Some?)
  }

  // An issue as its caller first hands it over.
  predicate NewIssue(i: Issue) {
    i.state == Flagged && i.bornRetries == i.retryCount && i.dispatches == 0 && i.moves == 0 && i.finalState == None
  }

  // ---------------------------------------------------------------------------
  // The store, in listing order.
  // ---------------------------------------------------------------------------

  type Store = seq<Issue>

  predicate Sorted(store: Store) {
    forall i, j :: 0 <= i < j < |store| ==> store[i].id < store[j].id
  }

  function Lookup(store: Store, id: int): Option<Issue> {
    if store == [] then None
    else if store[0].id == id then Some(store[0])
    else Lookup(store[1..], id)
  }

  // save(): replaces the record of that name, or adds one in its place in the listing.
  function Save(store: Store, i: Issue): Store {
    if store == [] then [i]
    else if store[0].id == i.id then [i] + store[1..]
    else if i.id < store[0].id then [i] + store
    else [store[0]] + Save(store[1..], i)
  }

  // archive(): the record leaves the directory of flagged issues.
  function Without(store: Store, id: int): Store {
    if store == [] then []
    else if store[0].id == id then store[1..]
    else [store[0]] + Without(store[1..], id)
  }

  function InState(store: Store, s: IssueState): seq<Issue> {
    if store == [] then []
    else (if store[0].state == s then [store[0]] else []) + InState(store[1..], s)
  }

  function CountActive(store: Store): nat {
    if store == [] then 0 else (if Active(store[0]) then 1 else 0) + CountActive(store[1..])
  }

  lemma {:induction false} SaveMembers(store: Store, i: Issue)
    ensures forall x :: x in Save(store, i) ==> x == i || x in store
  {
    if store == [] {
    } else if store[0].id < i.id {
      SaveMembers(store[1..], i);
    }
  }

  lemma {:induction false} SaveSorted(store: Store, i: Issue)
    requires Sorted(store)
    ensures Sorted(Save(store, i))
  {
    if store == [] {
    } else if store[0].id < i.id {
      SaveSorted(store[1..], i);
      SaveMembers(store[1..], i);
      var rest := Save(store[1..], i);
      forall k | 0 <= k < |rest|
        ensures store[0].id < rest[k].id
      {
        assert rest[k] in rest;
      }
    }
  }

  lemma {:induction false} SaveLookup(store: Store, i: Issue, id: int)
    ensures Lookup(Save(store, i), id) == if id == i.id then Some(i) else Lookup(store, id)
  {
    if store == [] {
    } else if store[0].id < i.id {
      SaveLookup(store[1..], i, id);
    }
  }

  lemma {:induction false} LookupMeaning(store: Store, id: int)
    requires Sorted(store)
    ensures Lookup(store, id).Some? ==> Lookup(store, id).value in store && Lookup(store, id).value.id == id
    ensures forall x :: x in store && x.id == id ==> Lookup(store, id) == Some(x)
  {
    if store == [] {
    } else if store[0].id != id {
      LookupMeaning(store[1..], id);
    }
  }

  // Saving a record changes the number of active issues by that record alone.
  lemma {:induction false} SaveCount(store: Store, i: Issue)
    requires Sorted(store)
    ensures CountActive(Save(store, i)) + One(Lookup(store, i.id).Some? && Active(Lookup(store, i.id).value))
         == CountActive(store) + One(Active(i))
  {
    if store == [] {
    } else {
      if store[0].id < i.id {
        SaveCount(store[1..], i);
      } else if i.id < store[0].id {
        LookupMeaning(store, i.id);
      }
    }
  }

  lemma OthersInTail(store: Store)
    requires Sorted(store) && store != []
    ensures forall x :: x in store[1..] <==> x in store && x.id != store[0].id
  {
    assert forall x :: x in store <==> x == store[0] || x in store[1..];
  }

  lemma {:induction false} WithoutMembers(store: Store, id: int)
    requires Sorted(store)
    ensures forall x :: x in Without(store, id) <==> x in store && x.id != id
  {
    if store == [] {
    } else if store[0].id == id {
      OthersInTail(store);
    } else {
      WithoutMembers(store[1..], id);
      assert forall x :: x in store <==> x == store[0] || x in store[1..];
    }
  }

  lemma {:induction false} WithoutSorted(store: Store, id: int)
    requires Sorted(store)
    ensures Sorted(Without(store, id))
  {
    if store == [] {
    } else if store[0].id != id {
      var rest := Without(store[1..], id);
      WithoutSorted(store[1..], id);
      WithoutMembers(store[1..], id);
      forall k | 0 <= k < |rest|
        ensures store[0].id < rest[k].id
      {
        assert rest[k] in store[1..];
      }
    }
  }

  lemma {:induction false} WithoutCount(store: Store, id: int)
    ensures CountActive(Without(store, id)) <= CountActive(store)
  {
    if store == [] {
    } else if store[0].id != id {
      WithoutCount(store[1..], id);
    }
  }

  // Exactly the record of that id is gone.
  lemma {:induction false} WithoutFacts(store: Store, id: int)
    requires Sorted(store)
    ensures Sorted(Without(store, id))
    ensures forall x :: x in Without(store, id) <==> x in store && x.id != id
    ensures CountActive(Without(store, id)) <= CountActive(store)
  {
    WithoutMembers(store, id);
    WithoutSorted(store, id);
    WithoutCount(store, id);
  }

  lemma {:induction false} WithoutLookup(store: Store, id: int, other: int)
    requires Sorted(store)
    ensures Lookup(Without(store, id), other) == if other == id then None else Lookup(store, other)
  {
    WithoutFacts(store, id);
    LookupMeaning(store, other);
    LookupMeaning(Without(store, id), other);
  }

  lemma {:induction false} InStateMembers(store: Store, s: IssueState)
    ensures forall x :: x in InState(store, s) <==> x in store && x.state == s
    ensures Sorted(store) ==> Sorted(InState(store, s))
  {
    if store == [] {
    } else {
      InStateMembers(store[1..], s);
      forall k | 0 <= k < |InState(store[1..], s)| && Sorted(store)
        ensures store[0].id < InState(store[1..], s)[k].id
      {
        assert InState(store[1..], s)[k] in store[1..];
      }
    }
  }

  lemma {:induction false} ActiveIsDispatchedOrInProgress(store: Store)
    ensures CountActive(store) == |InState(store, Dispatched)| + |InState(store, InProgress)|
  {
    if store == [] {
    } else {
      ActiveIsDispatchedOrInProgress(store[1..]);
    }
  }

  // A pass works through records it has listed: each is left alone, saved anew, or raises.
  datatype Effect = LeftAlone | Saved(issue: Issue) | Raises

  function WorkThrough(store: Store, work: seq<Issue>, effect: Issue -> Effect): Store
    decreases |work|
  {
    if work == [] then store
    else match effect(work[0])
      case LeftAlone => WorkThrough(store, work[1..], effect)
      case Saved(i) => WorkThrough(Save(store, i), work[1..], effect)
      case Raises => store
  }

  ghost predicate Distinct(work: seq<Issue>) {
    forall i, j :: 0 <= i < j < |work| ==> work[i].id != work[j].id
  }

  ghost predicate KeepsIds(work: seq<Issue>, effect: Issue -> Effect) {
    forall w :: w in work && effect(w).Saved? ==> effect(w).issue.id == w.id
  }

  // Whether or not something interrupts it, a pass only touches the records it goes through.
  lemma {:induction false} WorkThroughOthers(store: Store, work: seq<Issue>, effect: Issue -> Effect, id: int)
    requires KeepsIds(work, effect)
    requires forall w :: w in work ==> w.id != id
    ensures Lookup(WorkThrough(store, work, effect), id) == Lookup(store, id)
    decreases |work|
  {
    if work == [] {
    } else {
      assert work[0] in work;
      if effect(work[0]).Saved? {
        SaveLookup(store, effect(work[0]).issue, id);
      }
      var next := if effect(work[0]).Saved? then Save(store, effect(work[0]).issue) else store;
      WorkThroughOthers(next, work[1..], effect, id);
    }
  }

  // No record before the k-th raises.
  ghost predicate Uninterrupted(work: seq<Issue>, effect: Issue -> Effect, k: nat)
    requires k <= |work|
  {
    forall j :: 0 <= j < k ==> !effect(work[j]).Raises?
  }

  lemma UninterruptedTail(work: seq<Issue>, effect: Issue -> Effect, k: nat)
    requires 0 < k <= |work|
    ensures Uninterrupted(work, effect, k) <==> !effect(work[0]).Raises? && Uninterrupted(work[1..], effect, k - 1)
  {
    if Uninterrupted(work[1..], effect, k - 1) {
      assert forall j :: 1 <= j < k ==> work[j] == work[1..][j - 1];
    }
  }

  lemma {:induction false} WorkThroughFirst(store: Store, work: seq<Issue>, effect: Issue -> Effect)
    requires Distinct(work) && KeepsIds(work, effect) && work != []
    ensures Lookup(WorkThrough(store, work, effect), work[0].id)
         == if effect(work[0]).Saved? then Some(effect(work[0]).issue) else Lookup(store, work[0].id)
  {
    assert work[0] in work;
    if effect(work[0]).Saved? {
      var next := Save(store, effect(work[0]).issue);
      SaveLookup(store, effect(work[0]).issue, work[0].id);
      WorkThroughOthers(next, work[1..], effect, work[0].id);
    } else if effect(work[0]).LeftAlone? {
      WorkThroughOthers(store, work[1..], effect, work[0].id);
    }
  }

  // Interrupted or not, a pass has its own effect on each record up to the first one that raises,
  // and none from there on.
  lemma {:induction false} WorkThroughUpTo(store: Store, work: seq<Issue>, effect: Issue -> Effect, k: nat)
    requires Distinct(work) && KeepsIds(work, effect) && k < |work|
    ensures Lookup(WorkThrough(store, work, effect), work[k].id)
         == if Uninterrupted(work, effect, k) && effect(work[k]).Saved?
            then Some(effect(work[k]).issue) else Lookup(store, work[k].id)
    decreases |work|
  {
    if k == 0 {
      WorkThroughFirst(store, work, effect);
    } else {
      UninterruptedTail(work, effect, k);
      assert work[0] in work && work[k] == work[1..][k - 1];
      match effect(work[0])
      case Raises =>
      case LeftAlone => WorkThroughUpTo(store, work[1..], effect, k - 1);
      case Saved(i) =>
        SaveLookup(store, i, work[k].id);
        WorkThroughUpTo(Save(store, i), work[1..], effect, k - 1);
    }
  }

  // Whether a pass comes to its end.
  predicate Completes(work: seq<Issue>, effect: Issue -> Effect)
    decreases |work|
  {
    work == [] || (!effect(work[0]).Raises? && Completes(work[1..], effect))
  }

  lemma {:induction false} CompletesMeaning(work: seq<Issue>, effect: Issue -> Effect)
    ensures Completes(work, effect) <==> forall w :: w in work ==> !effect(w).Raises?
    decreases |work|
  {
    if work == [] {
    } else {
      CompletesMeaning(work[1..], effect);
      assert forall w :: w in work <==> w == work[0] || w in work[1..];
    }
  }

  ghost predicate AllKept(store: Store, maxRetries: int) {
    forall i :: i in store ==> WellKept(i, maxRetries)
  }

  // Saving well-kept records, a pass keeps a well-kept store; each save adds at most one active issue.
  lemma {:induction false} WorkThroughKeeps(store: Store, work: seq<Issue>, effect: Issue -> Effect, maxRetries: int)
    requires Sorted(store) && AllKept(store, maxRetries)
    requires forall w :: w in work && effect(w).Saved? ==> WellKept(effect(w).issue, maxRetries)
    ensures var t := WorkThrough(store, work, effect);
            Sorted(t) && AllKept(t, maxRetries) && CountActive(t) <= CountActive(store) + |work|
    decreases |work|
  {
    if work == [] {
    } else {
      assert work[0] in work;
      if effect(work[0]).Saved? {
        var i := effect(work[0]).issue;
        SaveSorted(store, i);
        SaveMembers(store, i);
        SaveCount(store, i);
        WorkThroughKeeps(Save(store, i), work[1..], effect, maxRetries);
      } else {
        WorkThroughKeeps(store, work[1..], effect, maxRetries);
      }
    }
  }

  // A pass over active records cannot add to their number.
  lemma {:induction false} WorkThroughActive(store: Store, work: seq<Issue>, effect: Issue -> Effect)
    requires Sorted(store) && Distinct(work) && KeepsIds(work, effect)
    requires forall w :: w in work ==> Active(w) && Lookup(store, w.id) == Some(w)
    ensures CountActive(WorkThrough(store, work, effect)) <= CountActive(store)
    decreases |work|
  {
    if work == [] {
    } else {
      assert work[0] in work;
      if effect(work[0]).Saved? {
        var i := effect(work[0]).issue;
        SaveSorted(store, i);
        SaveCount(store, i);
        forall w | w in work[1..]
          ensures Lookup(Save(store, i), w.id) == Some(w)
        {
          SaveLookup(store, i, w.id);
        }
        WorkThroughActive(Save(store, i), work[1..], effect);
      } else {
        WorkThroughActive(store, work[1..], effect);
      }
    }
  }

  lemma {:induction false} SaveTwice(store: Store, i: Issue, j: Issue)
    requires i.id == j.id
    ensures Save(Save(store, i), j) == Save(store, j)
  {
    if store == [] {
    } else if store[0].id < i.id {
      SaveTwice(store[1..], i, j);
    }
  }

  // An issue in memory, loaded from its record or handed over by a caller.
  class FlaggedIssue {
    var data: Issue

    constructor FromRecord(data: Issue)
      ensures this.data == data
    {
      this.data := data;
    }

    // Leaves the issue as it is, and the source raises, when the transition is forbidden.
    method Transition(target: IssueState) returns (ok: bool)
      modifies this
      ensures ok <==> target in Allowed(old(data).state)
      ensures Moved(old(data), target) == if ok then Some(data) else None
      ensures !ok ==> data == old(data)
    {
      if target !in Allowed(data.state) {
        return false;
      }
      data := data.(state := target, moves := data.moves + 1);
      if target == Dispatched {
        data := data.(dispatches := data.dispatches + 1);
      }
      if target in TERMINAL_STATES {
        data := data.(finalState := Some(target));
      }
      return true;
    }
  }
}
