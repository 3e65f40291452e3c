/**
  A `JobGroup` scope: spawns, completions, done-callbacks in event-loop order, the three join
  modes, every way out of `__aexit__`, and the final settling of local tasks.
 */
module Scopes {
  import opened Records

  datatype Mode = CancelSiblings | Ignore | Collect

  /** How one waiter task ended: `jobCancelled` tells JobCancelled from any other exception. */
  datatype Ending = Returned | Raised(jobCancelled: bool) | Dropped

  datatype Child = Child(id: JobId, ending: Option<Ending>)

  /** One `call_soon` entry: the spawn-time `_job_finished`, or the current wait's own callback. */
  datatype Callback = Ledger(child: nat) | Notice(child: nat)

  datatype Cause =
    | Normal
    | BodyError
    | Deadline
    | OwnerCancelled
    | EmptyWait                    // asyncio.wait refuses an empty set with ValueError
    | Group(failures: seq<nat>)    // BaseExceptionGroup of these children's failures

  datatype Place =
    | Outside
    | Body
    | Joining
    | Draining
    | Cancelling(cause: Cause)
    | Settling(cause: Cause)
    | Exited(cause: Cause, interrupted: bool)

  datatype Fanout = NoFanout | Fanout(ids: seq<JobId>, done: bool, awaited: bool)

  datatype Scope = Scope(
    mode: Mode,
    handles: seq<JobId>,          // _handles
    children: seq<Child>,         // _waiters, in spawn order
    failures: seq<nat>,           // _failures, by child
    cancelling: bool,             // _cancelling
    fanout: Fanout,               // _fanout
    ready: seq<Callback>,         // callbacks scheduled and not yet run
    noticed: set<nat>,            // children the current wait has accounted for
    failureSeen: bool,            // the current FIRST_EXCEPTION wait has seen a failure
    dropping: bool,               // some gather or _settle has cancelled the waiters
    requests: seq<seq<JobId>>,    // cancel requests this scope awaited itself
    place: Place,
    order: seq<nat>)              // history: children whose _job_finished has run, in order

  function NewScope(mode: Mode): Scope {
    Scope(mode, [], [], [], false, NoFanout, [], {}, false, false, [], Outside, [])
  }

  // ---- children ----

  predicate IsChild(s: Scope, i: nat) {
    i < |s.children|
  }

  predicate IsDone(s: Scope, i: nat) {
    i < |s.children| && s.children[i].ending.Some?
  }

  predicate Failed(cs: seq<Child>, i: nat) {
    i < |cs| && cs[i].ending.Some? && cs[i].ending.value.Raised?
  }

  predicate FailedForReal(cs: seq<Child>, i: nat) {
    Failed(cs, i) && !cs[i].ending.value.jobCancelled
  }

  /** The ids of the children that are not done, in spawn order. */
  function StillRunning(cs: seq<Child>): seq<JobId> {
    if cs == [] then []
    else (if cs[0].ending.None? then [cs[0].id] else []) + StillRunning(cs[1..])
  }

  /** `picks` are the children that are not done, in spawn order. */
  predicate PicksPending(cs: seq<Child>, picks: seq<nat>) {
    && (forall k, m :: 0 <= k < m < |picks| ==> picks[k] < picks[m])
    && (forall i: nat :: i < |cs| ==> (i in picks <==> cs[i].ending.None?))
    && (forall k :: 0 <= k < |picks| ==> picks[k] < |cs|)
  }

  /** One id for each child that is not done, in spawn order, and no other. */
  ghost predicate ListsPending(cs: seq<Child>, ids: seq<JobId>) {
    exists picks: seq<nat> ::
      PicksPending(cs, picks) && |ids| == |picks| && forall k :: 0 <= k < |ids| ==> ids[k] == cs[picks[k]].id
  }

  function Pending(cs: seq<Child>, from: nat): seq<nat>
    decreases |cs| - from
  {
    if from >= |cs| then [] else (if cs[from].ending.None? then [from] else []) + Pending(cs, from + 1)
  }

  lemma {:induction false} PendingInOrder(cs: seq<Child>, from: nat)
    ensures forall k, m :: 0 <= k < m < |Pending(cs, from)| ==> Pending(cs, from)[k] < Pending(cs, from)[m]
    ensures forall i: nat :: i in Pending(cs, from) <==> from <= i < |cs| && cs[i].ending.None?
    decreases |cs| - from
  {
    if from < |cs| {
      PendingInOrder(cs, from + 1);
      var rest := Pending(cs, from + 1);
      assert forall k :: 0 <= k < |rest| ==> rest[k] in rest;
    }
  }

  lemma {:induction false} RunningPicks(cs: seq<Child>, from: nat)
    requires from <= |cs|
    ensures |StillRunning(cs[from..])| == |Pending(cs, from)|
    ensures forall k :: 0 <= k < |Pending(cs, from)| ==>
              Pending(cs, from)[k] < |cs| && StillRunning(cs[from..])[k] == cs[Pending(cs, from)[k]].id
    decreases |cs| - from
  {
    if from < |cs| {
      assert cs[from..][1..] == cs[from + 1..];
      RunningPicks(cs, from + 1);
    }
  }

  lemma {:induction false} RunningListsPending(cs: seq<Child>)
    ensures ListsPending(cs, StillRunning(cs))
    ensures forall x :: x in StillRunning(cs) <==> exists i :: 0 <= i < |cs| && cs[i].ending.None? && cs[i].id == x
  {
    var ids := StillRunning(cs);
    var picks := Pending(cs, 0);
    PendingInOrder(cs, 0);
    RunningPicks(cs, 0);
    assert cs[0..] == cs;
    assert forall k :: 0 <= k < |picks| ==> picks[k] in picks;
    assert PicksPending(cs, picks);
    forall x
      ensures x in ids <==> exists i :: 0 <= i < |cs| && cs[i].ending.None? && cs[i].id == x
    {
      if x in ids {
        var k: nat :| k < |ids| && ids[k] == x;
        assert picks[k] in picks && cs[picks[k]].ending.None? && cs[picks[k]].id == x;
      }
      if i :| 0 <= i < |cs| && cs[i].ending.None? && cs[i].id == x {
        assert i in picks;
        var k: nat :| k < |picks| && picks[k] == i;
        assert ids[k] == x;
      }
    }
  }

  function DoneSet(s: Scope): set<nat> {
    set i | 0 <= i < |s.children| && s.children[i].ending.Some?
  }

  predicate AllNoticed(s: Scope) {
    forall i :: 0 <= i < |s.children| ==> i in s.noticed
  }

  predicate AllDone(s: Scope) {
    forall i :: 0 <= i < |s.children| ==> s.children[i].ending.Some?
  }

  // ---- steps ----

  datatype Step =
    | SpawnOutside(id: JobId)
    | Enter
    | Spawn(id: JobId)
    | Finish(child: nat, ending: Ending)
    | RunCallback
    | FanoutDone
    | BodyEnds(raised: bool)
    | JoinResumes
    | DrainResumes
    | Interrupted(deadline: bool)
    | CancelEnds
    | SettleEnds
    | SettleInterrupted

  predicate Waiting(p: Place) {
    p.Joining? || p.Draining? || p.Cancelling? || p.Settling?
  }

  predicate Enabled(s: Scope, step: Step) {
    match step
    case SpawnOutside(_) => s.place.Outside?
    case Enter => s.place.Outside?
    case Spawn(_) => s.place.Body?
    case Finish(i, e) => IsChild(s, i) && !IsDone(s, i) && (e.Dropped? ==> s.dropping)
    case RunCallback => s.ready != []
    case FanoutDone => s.fanout.Fanout?
    case BodyEnds(_) => s.place.Body?
    case JoinResumes => s.place.Joining? && (AllNoticed(s) || (s.mode.CancelSiblings? && s.failureSeen))
    case DrainResumes => s.place.Draining? && AllNoticed(s)
    case Interrupted(_) => s.place.Joining? || s.place.Draining?
    case CancelEnds => s.place.Cancelling?
    case SettleEnds => s.place.Settling? && AllNoticed(s) && (s.fanout.Fanout? && s.fanout.awaited ==> s.fanout.done)
    case SettleInterrupted => s.place.Settling?
  }

  /** Which callbacks a completion schedules: the ledger's first, then the current wait's. */
  function Schedules(s: Scope, i: nat): seq<Callback> {
    (if s.mode.CancelSiblings? then [Ledger(i)] else []) + (if Waiting(s.place) then [Notice(i)] else [])
  }

  function Finishes(s: Scope, i: nat, e: Ending): Scope
    requires i < |s.children|
  {
    s.(children := s.children[i := s.children[i].(ending := Some(e))], ready := s.ready + Schedules(s, i))
  }

  /** `_job_finished`. */
  function JobFinished(s: Scope, i: nat): Scope {
    var t := s.(order := s.order + [i]);
    if !Failed(s.children, i) then t
    else if s.cancelling && !FailedForReal(s.children, i) then t
    else if s.cancelling then t.(failures := s.failures + [i])
    else t.(
      failures := s.failures + [i],
      cancelling := true,
      fanout := Fanout(StillRunning(s.children), false, false))
  }

  function Runs(s: Scope): Scope
    requires s.ready != []
  {
    var t := s.(ready := s.ready[1..]);
    match s.ready[0]
    case Ledger(i) => JobFinished(t, i)
    case Notice(i) => t.(noticed := t.noticed + {i}, failureSeen := t.failureSeen || Failed(t.children, i))
  }

  /** Notices for children that are already done, in spawn order. */
  function DoneNotices(s: Scope, from: nat): seq<Callback>
    decreases |s.children| - from
  {
    if from >= |s.children| then []
    else (if s.children[from].ending.Some? then [Notice(from)] else []) + DoneNotices(s, from + 1)
  }

  /** asyncio.wait: a done future's callback is scheduled behind what is already ready. */
  function BeginWait(s: Scope, p: Place): Scope {
    s.(place := p, noticed := {}, failureSeen := false, ready := s.ready + DoneNotices(s, 0))
  }

  /** asyncio.gather: a done future is accounted for at once. */
  function BeginGather(s: Scope, p: Place): Scope {
    s.(place := p, noticed := DoneSet(s), failureSeen := false)
  }

  /** `_settle`: cancel every waiter that is not done and gather them with the fan-out as it is now. */
  function Settle(s: Scope, cause: Cause): Scope {
    BeginGather(s, Settling(cause)).(
      dropping := true,
      fanout := if s.fanout.Fanout? then s.fanout.(awaited := true) else s.fanout)
  }

  /** `cancel_all_jobs`: request every handle's cancellation, then wait for the waiters, if any. */
  function CancelAll(s: Scope, cause: Cause): Scope {
    var t := s.(requests := s.requests + [s.handles]);
    if s.children == [] then Settle(t, cause) else BeginWait(t, Cancelling(cause))
  }

  function ExitsBody(s: Scope, raised: bool): Scope {
    if raised then CancelAll(s, BodyError)
    else if s.handles == [] then Settle(s, Normal)
    else if !s.mode.CancelSiblings? then BeginGather(s, Joining)
    else if s.children == [] then Settle(s, EmptyWait)
    else BeginWait(s, Joining)
  }

  function Verdict(s: Scope, failures: seq<nat>): Cause {
    if failures == [] then Normal else Group(failures)
  }

  /** Collect mode's list: every result that is an exception, in spawn order. */
  function Exceptions(cs: seq<Child>, from: nat): seq<nat>
    decreases |cs| - from
  {
    if from >= |cs| then []
    else (if cs[from].ending.Some? && !cs[from].ending.value.Returned? then [from] else []) + Exceptions(cs, from + 1)
  }

  function ResumesJoin(s: Scope): Scope {
    match s.mode
    case Ignore => Settle(s, Normal)
    case Collect => Settle(s, Verdict(s, Exceptions(s.children, 0)))
    case CancelSiblings =>
      if AllDone(s) then Settle(s, Verdict(s, s.failures))
      else
        BeginGather(
          if s.cancelling then s
          else s.(cancelling := true, requests := s.requests + [StillRunning(s.children)]),
          Draining)
  }

  function Apply(s: Scope, step: Step): Scope
    requires Enabled(s, step)
  {
    match step
    case SpawnOutside(id) => s.(handles := s.handles + [id])
    case Enter => s.(place := Body)
    case Spawn(id) => s.(handles := s.handles + [id], children := s.children + [Child(id, None)])
    case Finish(i, e) => Finishes(s, i, e)
    case RunCallback => Runs(s)
    case FanoutDone => s.(fanout := s.fanout.(done := true))
    case BodyEnds(raised) => ExitsBody(s, raised)
    case JoinResumes => ResumesJoin(s)
    case DrainResumes => Settle(s, Verdict(s, s.failures))
    case Interrupted(deadline) =>
      CancelAll(s.(dropping := s.dropping || !s.mode.CancelSiblings? || s.place.Draining?),
                if deadline then Deadline else OwnerCancelled)
    case CancelEnds => Settle(s, s.place.cause)
    case SettleEnds => s.(place := Exited(s.place.cause, false))
    case SettleInterrupted => s.(place := Exited(s.place.cause, true))
  }

  predicate ValidRun(s: Scope, steps: seq<Step>)
    decreases steps
  {
    steps == [] || (Enabled(s, steps[0]) && ValidRun(Apply(s, steps[0]), steps[1..]))
  }

  function Exec(s: Scope, steps: seq<Step>): Scope
    requires ValidRun(s, steps)
    decreases steps
  {
    if steps == [] then s else Exec(Apply(s, steps[0]), steps[1..])
  }

  // ---- the failure ledger, stated on its own ----

  function Failing(cs: seq<Child>, order: seq<nat>): seq<nat> {
    if order == [] then []
    else (if Failed(cs, order[0]) then [order[0]] else []) + Failing(cs, order[1..])
  }

  function ForReal(cs: seq<Child>, picks: seq<nat>): seq<nat> {
    if picks == [] then []
    else (if FailedForReal(cs, picks[0]) then [picks[0]] else []) + ForReal(cs, picks[1..])
  }

  /** The first failure of any kind, then every later failure that is not a JobCancelled. */
  function LedgerOf(cs: seq<Child>, order: seq<nat>): seq<nat> {
    var failing := Failing(cs, order);
    if failing == [] then [] else [failing[0]] + ForReal(cs, failing[1..])
  }

  lemma {:induction false} FailingAppend(cs: seq<Child>, order: seq<nat>, i: nat)
    ensures Failing(cs, order + [i]) == Failing(cs, order) + (if Failed(cs, i) then [i] else [])
  {
    if order == [] {
      assert (order + [i])[1..] == [];
    } else {
      assert (order + [i])[1..] == order[1..] + [i];
      FailingAppend(cs, order[1..], i);
    }
  }

  lemma {:induction false} ForRealAppend(cs: seq<Child>, picks: seq<nat>, i: nat)
    ensures ForReal(cs, picks + [i]) == ForReal(cs, picks) + (if FailedForReal(cs, i) then [i] else [])
  {
    if picks == [] {
      assert (picks + [i])[1..] == [];
    } else {
      assert (picks + [i])[1..] == picks[1..] + [i];
      ForRealAppend(cs, picks[1..], i);
    }
  }

  lemma {:induction false} LedgerAppend(cs: seq<Child>, order: seq<nat>, i: nat)
    ensures LedgerOf(cs, order + [i]) ==
            LedgerOf(cs, order) +
            if (if LedgerOf(cs, order) == [] then Failed(cs, i) else FailedForReal(cs, i)) then [i] else []
  {
    var f := Failing(cs, order);
    FailingAppend(cs, order, i);
    if !Failed(cs, i) {
      assert f + [] == f;
    } else if f == [] {
      assert [] + [i] == [i];
    } else {
      assert (f + [i])[1..] == f[1..] + [i];
      ForRealAppend(cs, f[1..], i);
    }
  }

  predicate SameEndings(a: seq<Child>, b: seq<Child>, picks: seq<nat>) {
    forall i :: i in picks ==> (i < |a| && i < |b| && a[i].ending == b[i].ending)
  }

  lemma {:induction false} FailingFrame(a: seq<Child>, b: seq<Child>, order: seq<nat>)
    requires SameEndings(a, b, order)
    ensures Failing(a, order) == Failing(b, order)
    ensures forall i :: i in Failing(a, order) ==> i in order
  {
    if order != [] {
      assert forall i :: i in order[1..] ==> i in order;
      FailingFrame(a, b, order[1..]);
    }
  }

  lemma {:induction false} ForRealFrame(a: seq<Child>, b: seq<Child>, picks: seq<nat>)
    requires SameEndings(a, b, picks)
    ensures ForReal(a, picks) == ForReal(b, picks)
  {
    if picks != [] {
      assert forall i :: i in picks[1..] ==> i in picks;
      ForRealFrame(a, b, picks[1..]);
    }
  }

  lemma {:induction false} LedgerFrame(a: seq<Child>, b: seq<Child>, order: seq<nat>)
    requires SameEndings(a, b, order)
    ensures LedgerOf(a, order) == LedgerOf(b, order)
  {
    FailingFrame(a, b, order);
    var f := Failing(a, order);
    if f != [] {
      assert forall i :: i in f[1..] ==> i in f;
      ForRealFrame(a, b, f[1..]);
    }
  }

  lemma {:induction false} EmptyLedgerMeansNoFailure(cs: seq<Child>, order: seq<nat>, i: nat)
    requires LedgerOf(cs, order) == [] && i in order
    ensures !Failed(cs, i)
  {
    if order[0] != i {
      assert Failing(cs, order) == Failing(cs, order[1..]);
      EmptyLedgerMeansNoFailure(cs, order[1..], i);
    }
  }

  // ---- invariant ----

  /** The wait that is in progress learns of completions through callbacks only, behind the ledger's. */
  predicate ThroughCallbacks(p: Place) {
    p.Joining? || p.Cancelling?
  }

  predicate ChildOk(s: Scope, i: nat) {
    && (i in s.order || i in s.noticed ==> IsDone(s, i))
    && (s.mode.CancelSiblings? && IsDone(s, i) ==> i in s.order || Ledger(i) in s.ready)
    && (s.mode.CancelSiblings? && ThroughCallbacks(s.place) && i in s.noticed ==> i in s.order)
    && (IsDone(s, i) && !s.dropping ==> !s.children[i].ending.value.Dropped?)
    && (IsDone(s, i) && Waiting(s.place) ==> i in s.noticed || Notice(i) in s.ready)
  }

  predicate CallbackOk(s: Scope, k: nat) {
    k < |s.ready| ==>
      match s.ready[k]
      case Ledger(i) => IsDone(s, i) && s.mode.CancelSiblings? && i !in s.order && Ledger(i) !in s.ready[..k]
      case Notice(i) => IsDone(s, i) && (s.mode.CancelSiblings? ==> i in s.order || Ledger(i) in s.ready[..k])
  }

  predicate LedgerOk(s: Scope) {
    && s.failures == LedgerOf(s.children, s.order)
    && (s.cancelling <==> s.failures != [])
    && (s.fanout.Fanout? <==> s.cancelling)
    && (!s.mode.CancelSiblings? ==> s.order == [])
    && (s.place.Joining? && s.mode.CancelSiblings? && s.failureSeen ==> s.cancelling)
  }

  predicate AllReturned(s: Scope) {
    forall i :: 0 <= i < |s.children| ==> s.children[i].ending == Some(Returned)
  }

  /** What a scope leaving for this reason can rely on. */
  predicate CauseOk(s: Scope, cause: Cause) {
    match cause
    case Normal => if s.mode.Ignore? then AllDone(s) else AllReturned(s)
    case EmptyWait => s.mode.CancelSiblings? && s.children == [] && s.handles != []
    case Group(fs) => fs != [] && forall i :: i in fs ==> IsDone(s, i) && !s.children[i].ending.value.Returned?
    case _ => s.handles in s.requests
  }

  predicate PlaceOk(s: Scope) {
    match s.place
    case Outside => s.children == [] && s.ready == [] && !s.dropping && s.requests == []
    case Body => !s.dropping && s.requests == [] && |s.children| <= |s.handles|
    case Joining => !s.dropping && s.requests == [] && (s.mode.CancelSiblings? ==> s.children != [])
    case Draining => s.cancelling && s.mode.CancelSiblings? && s.requests == []
    case Cancelling(cause) =>
      CauseOk(s, cause) && s.children != [] && (cause.BodyError? || cause.Deadline? || cause.OwnerCancelled?)
    case Settling(cause) => CauseOk(s, cause) && s.dropping
    case Exited(cause, interrupted) =>
      CauseOk(s, cause) && s.dropping && (!interrupted ==> AllDone(s) && (s.fanout.Fanout? && s.fanout.awaited ==> s.fanout.done))
  }

  /** Everything but where the scope stands. */
  ghost predicate CoreOk(s: Scope) {
    && (forall i: nat :: ChildOk(s, i))
    && (forall k: nat :: CallbackOk(s, k))
    && LedgerOk(s)
  }

  ghost predicate ScopeOk(s: Scope) {
    CoreOk(s) && PlaceOk(s)
  }

  lemma {:induction false} OrderFrame(s: Scope, t: Scope)
    requires forall i: nat :: ChildOk(s, i)
    requires t.order == s.order && |s.children| <= |t.children|
    requires forall i: nat :: IsDone(s, i) ==> t.children[i].ending == s.children[i].ending
    ensures LedgerOf(t.children, t.order) == LedgerOf(s.children, s.order)
  {
    forall i | i in s.order
      ensures i < |s.children| && i < |t.children| && s.children[i].ending == t.children[i].ending
    {
      assert ChildOk(s, i);
    }
    LedgerFrame(s.children, t.children, s.order);
  }

  lemma {:induction false} SpawnOk(s: Scope, step: Step)
    requires ScopeOk(s) && Enabled(s, step) && (step.SpawnOutside? || step.Enter? || step.Spawn? || step.FanoutDone?)
    ensures ScopeOk(Apply(s, step))
  {
    var t := Apply(s, step);
    OrderFrame(s, t);
    forall i: nat ensures ChildOk(t, i) {
      assert ChildOk(s, i);
    }
    forall k: nat ensures CallbackOk(t, k) {
      assert CallbackOk(s, k);
    }
  }

  lemma {:induction false} FinishCallbacks(s: Scope, i: nat, e: Ending, k: nat)
    requires (forall j: nat :: CallbackOk(s, j)) && ChildOk(s, i) && Enabled(s, Finish(i, e))
    ensures CallbackOk(Finishes(s, i, e), k)
  {
    var t := Finishes(s, i, e);
    assert CallbackOk(s, k);
    forall j: nat | j < |s.ready| ensures s.ready[j] != Ledger(i) {
      assert CallbackOk(s, j);
    }
    if k < |s.ready| {
      assert t.ready[..k] == s.ready[..k];
    } else if k == |s.ready| {
      assert t.ready[..k] == s.ready;
    } else if k < |t.ready| {
      assert t.ready[k - 1] == Ledger(i);
      assert t.ready[k - 1] in t.ready[..k];
    }
  }

  lemma {:induction false} FinishChildren(s: Scope, i: nat, e: Ending, x: nat)
    requires ChildOk(s, x) && Enabled(s, Finish(i, e))
    ensures ChildOk(Finishes(s, i, e), x)
  {
    var t, added := Finishes(s, i, e), Schedules(s, i);
    assert s.mode.CancelSiblings? ==> added[0] == Ledger(i);
    assert Waiting(s.place) ==> added[|added| - 1] == Notice(i);
    assert forall c :: c in t.ready <==> c in s.ready || c in added;
  }

  lemma {:induction false} FinishOk(s: Scope, i: nat, e: Ending)
    requires ScopeOk(s) && Enabled(s, Finish(i, e))
    ensures ScopeOk(Finishes(s, i, e))
  {
    var t := Finishes(s, i, e);
    OrderFrame(s, t);
    forall x: nat ensures ChildOk(t, x) {
      FinishChildren(s, i, e, x);
    }
    forall k: nat ensures CallbackOk(t, k) {
      FinishCallbacks(s, i, e, k);
    }
    assert PlaceOk(t);
  }

  lemma {:induction false} RunsLedgerOk(s: Scope, i: nat)
    requires ScopeOk(s) && s.ready != [] && s.ready[0] == Ledger(i)
    ensures LedgerOk(Runs(s))
  {
    var t := Runs(s);
    assert CallbackOk(s, 0);
    assert t.children == s.children;
    LedgerAppend(s.children, s.order, i);
  }

  lemma {:induction false} RunsNoticeOk(s: Scope, i: nat)
    requires ScopeOk(s) && s.ready != [] && s.ready[0] == Notice(i)
    ensures LedgerOk(Runs(s))
  {
    assert CallbackOk(s, 0);
    if Failed(s.children, i) && s.mode.CancelSiblings? && LedgerOf(s.children, s.order) == [] {
      EmptyLedgerMeansNoFailure(s.children, s.order, i);
    }
  }

  /** What running one callback leaves alone, and the one set it extends. */
  predicate RanOne(s: Scope, t: Scope) {
    && s.ready != [] && t.ready == s.ready[1..]
    && t.children == s.children && t.mode == s.mode && t.place == s.place && t.dropping == s.dropping
    && t.handles == s.handles && t.requests == s.requests
    && t.order == s.order + (if s.ready[0].Ledger? then [s.ready[0].child] else [])
    && t.noticed == s.noticed + (if s.ready[0].Notice? then {s.ready[0].child} else {})
  }

  lemma {:induction false} RunsOne(s: Scope)
    requires s.ready != []
    ensures RanOne(s, Runs(s))
    ensures Runs(s).fanout == s.fanout || (s.ready[0].Ledger? && !s.cancelling && Runs(s).cancelling)
  {
  }

  lemma {:induction false} RanCallbackOk(s: Scope, t: Scope, k: nat)
    requires RanOne(s, t) && CallbackOk(s, k + 1)
    ensures CallbackOk(t, k)
  {
    if k < |t.ready| {
      assert s.ready[..k + 1] == [s.ready[0]] + t.ready[..k];
    }
  }

  lemma {:induction false} RanChildOk(s: Scope, t: Scope, i: nat)
    requires RanOne(s, t) && ChildOk(s, i) && CallbackOk(s, 0)
    ensures ChildOk(t, i)
  {
    assert forall c :: c in s.ready ==> c == s.ready[0] || c in t.ready;
    assert forall x :: x in t.order <==> x in s.order || s.ready[0] == Ledger(x);
  }

  lemma {:induction false} RanPlaceOk(s: Scope, t: Scope)
    requires RanOne(s, t) && PlaceOk(s) && (s.cancelling ==> t.cancelling)
    requires t.fanout == s.fanout || (!s.fanout.Fanout? && t.fanout.Fanout? && !t.fanout.awaited)
    ensures PlaceOk(t)
  {
  }

  lemma {:induction false} RunsOk(s: Scope)
    requires ScopeOk(s) && s.ready != []
    ensures ScopeOk(Runs(s))
  {
    var t := Runs(s);
    assert CallbackOk(s, 0);
    assert LedgerOk(t) by {
      if s.ready[0].Ledger? {
        RunsLedgerOk(s, s.ready[0].child);
      } else {
        RunsNoticeOk(s, s.ready[0].child);
      }
    }
    RunsOne(s);
    forall i: nat ensures ChildOk(t, i) {
      RanChildOk(s, t, i);
    }
    forall k: nat ensures CallbackOk(t, k) {
      RanCallbackOk(s, t, k);
    }
    RanPlaceOk(s, t);
  }

  // ---- entering and leaving waits ----

  lemma {:induction false} DoneNoticesEffect(s: Scope, from: nat)
    ensures forall c :: c in DoneNotices(s, from) <==> c.Notice? && from <= c.child && IsDone(s, c.child)
    decreases |s.children| - from
  {
    if from < |s.children| {
      DoneNoticesEffect(s, from + 1);
    }
  }

  lemma {:induction false} NoneDone(s: Scope, from: nat)
    requires forall i :: 0 <= i < |s.children| ==> s.children[i].ending.None?
    ensures DoneNotices(s, from) == []
    decreases |s.children| - from
  {
    if from < |s.children| {
      NoneDone(s, from + 1);
    }
  }

  lemma {:induction false} BeginWaitOk(s: Scope, p: Place)
    requires CoreOk(s) && ThroughCallbacks(p)
    requires PlaceOk(BeginWait(s, p))
    ensures ScopeOk(BeginWait(s, p))
  {
    var t, added := BeginWait(s, p), DoneNotices(s, 0);
    DoneNoticesEffect(s, 0);
    forall i: nat ensures ChildOk(t, i) {
      assert ChildOk(s, i);
      assert IsDone(s, i) ==> Notice(i) in added;
      assert forall c :: c in t.ready <==> c in s.ready || c in added;
    }
    forall k: nat ensures CallbackOk(t, k) {
      assert CallbackOk(s, k);
      if k < |s.ready| {
        assert t.ready[..k] == s.ready[..k];
      } else if k < |t.ready| {
        assert t.ready[k] in added;
        assert ChildOk(s, t.ready[k].child);
        assert s.ready <= t.ready[..k];
      }
    }
  }

  lemma {:induction false} BeginGatherOk(s: Scope, t: Scope)
    requires CoreOk(s) && (t.place.Settling? || t.place.Draining? || (t.place.Joining? && !s.mode.CancelSiblings?))
    requires t == BeginGather(s, t.place).(dropping := t.dropping, fanout := t.fanout)
    requires s.dropping ==> t.dropping
    requires t.fanout == s.fanout || (s.fanout.Fanout? && t.fanout == s.fanout.(awaited := true))
    requires PlaceOk(t)
    ensures ScopeOk(t)
  {
    forall i: nat ensures ChildOk(t, i) {
      assert ChildOk(s, i);
    }
    forall k: nat ensures CallbackOk(t, k) {
      assert CallbackOk(s, k);
    }
  }

  lemma {:induction false} SettleOk(s: Scope, cause: Cause)
    requires CoreOk(s) && CauseOk(s, cause)
    ensures ScopeOk(Settle(s, cause))
  {
    BeginGatherOk(s, Settle(s, cause));
  }

  /** Logging a cancel request, or recording that a gather cancelled the waiters, disturbs nothing else. */
  lemma {:induction false} LoggedOk(s: Scope, t: Scope)
    requires CoreOk(s) && t == s.(requests := t.requests, dropping := t.dropping) && (s.dropping ==> t.dropping)
    ensures CoreOk(t)
  {
    forall i: nat ensures ChildOk(t, i) {
      assert ChildOk(s, i);
    }
    forall k: nat ensures CallbackOk(t, k) {
      assert CallbackOk(s, k);
    }
  }

  lemma {:induction false} CancelAllOk(s: Scope, drop: bool, cause: Cause)
    requires CoreOk(s) && (cause.BodyError? || cause.Deadline? || cause.OwnerCancelled?)
    ensures ScopeOk(CancelAll(s.(dropping := s.dropping || drop), cause))
  {
    var t := s.(dropping := s.dropping || drop, requests := s.requests + [s.handles]);
    assert t.requests[|s.requests|] == s.handles;
    LoggedOk(s, t);
    if s.children == [] {
      SettleOk(t, cause);
    } else {
      BeginWaitOk(t, Cancelling(cause));
    }
  }

  lemma {:induction false} ExitsBodyOk(s: Scope, raised: bool)
    requires ScopeOk(s) && s.place.Body?
    ensures ScopeOk(ExitsBody(s, raised))
  {
    if raised {
      assert s == s.(dropping := s.dropping || false);
      CancelAllOk(s, false, BodyError);
    } else if s.handles == [] {
      SettleOk(s, Normal);
    } else if !s.mode.CancelSiblings? {
      BeginGatherOk(s, BeginGather(s, Joining));
    } else if s.children == [] {
      SettleOk(s, EmptyWait);
    } else {
      BeginWaitOk(s, Joining);
    }
  }

  /** Collect mode's group is in spawn order, each child at most once. */
  lemma {:induction false} ExceptionsInOrder(cs: seq<Child>, from: nat)
    ensures forall k, m :: 0 <= k < m < |Exceptions(cs, from)| ==> Exceptions(cs, from)[k] < Exceptions(cs, from)[m]
    ensures forall i :: i in Exceptions(cs, from) ==> from <= i < |cs|
    decreases |cs| - from
  {
    if from < |cs| {
      ExceptionsInOrder(cs, from + 1);
      var rest := Exceptions(cs, from + 1);
      assert forall k :: 0 <= k < |rest| ==> rest[k] in rest;
    }
  }

  lemma {:induction false} ExceptionsEffect(cs: seq<Child>, from: nat)
    ensures forall i :: i in Exceptions(cs, from) <==>
                        from <= i < |cs| && cs[i].ending.Some? && !cs[i].ending.value.Returned?
    decreases |cs| - from
  {
    if from < |cs| {
      ExceptionsEffect(cs, from + 1);
    }
  }

  lemma {:induction false} ForRealMembers(cs: seq<Child>, picks: seq<nat>)
    ensures forall i :: i in ForReal(cs, picks) ==> i in picks && FailedForReal(cs, i)
  {
    if picks != [] {
      ForRealMembers(cs, picks[1..]);
    }
  }

  lemma {:induction false} FailingMembers(cs: seq<Child>, order: seq<nat>)
    ensures forall i :: i in Failing(cs, order) ==> i in order && Failed(cs, i)
  {
    if order != [] {
      FailingMembers(cs, order[1..]);
    }
  }

  lemma {:induction false} LedgerMembers(cs: seq<Child>, order: seq<nat>)
    ensures forall i :: i in LedgerOf(cs, order) ==> i in order && Failed(cs, i)
  {
    FailingMembers(cs, order);
    var f := Failing(cs, order);
    if f != [] {
      ForRealMembers(cs, f[1..]);
    }
  }

  lemma {:induction false} NoticedAreDone(s: Scope)
    requires CoreOk(s) && AllNoticed(s)
    ensures AllDone(s)
  {
    forall i | 0 <= i < |s.children| ensures s.children[i].ending.Some? {
      assert ChildOk(s, i);
    }
  }

  /** Nothing failed and every completion is on the ledger, so every child returned. */
  lemma {:induction false} CleanJoin(s: Scope)
    requires ScopeOk(s) && Enabled(s, JoinResumes) && s.mode.CancelSiblings? && s.failures == []
    ensures AllReturned(s)
  {
    forall i | 0 <= i < |s.children|
      ensures s.children[i].ending == Some(Returned)
    {
      assert ChildOk(s, i) && i in s.order;
      EmptyLedgerMeansNoFailure(s.children, s.order, i);
    }
  }

  /** Were the backstop needed, it would ask exactly the children that are not done. */
  lemma {:induction false} BackstopIsExact(s: Scope)
    requires Enabled(s, JoinResumes) && s.mode.CancelSiblings? && !AllDone(s) && !s.cancelling
    ensures var t := ResumesJoin(s);
            && |t.requests| == |s.requests| + 1 && s.requests <= t.requests
            && ListsPending(s.children, t.requests[|s.requests|]) && t.cancelling
  {
    RunningListsPending(s.children);
  }

  /** The join never has to issue the fan-out itself: by the time it resumes, the callback has. */
  lemma {:induction false} BackstopNeverFires(s: Scope)
    requires ScopeOk(s) && Enabled(s, JoinResumes) && s.mode.CancelSiblings? && !AllDone(s)
    ensures s.cancelling && s.fanout.Fanout? && ResumesJoin(s).requests == s.requests
  {
    if AllNoticed(s) {
      NoticedAreDone(s);
    }
  }

  lemma {:induction false} JoinResumesOk(s: Scope)
    requires ScopeOk(s) && Enabled(s, JoinResumes)
    ensures ScopeOk(ResumesJoin(s))
  {
    match s.mode
    case Ignore =>
      NoticedAreDone(s);
      SettleOk(s, Normal);
    case Collect =>
      NoticedAreDone(s);
      ExceptionsEffect(s.children, 0);
      SettleOk(s, Verdict(s, Exceptions(s.children, 0)));
    case CancelSiblings =>
      if !AllDone(s) {
        BackstopNeverFires(s);
        BeginGatherOk(s, BeginGather(s, Draining));
      } else {
        if s.failures == [] {
          CleanJoin(s);
        }
        LedgerMembers(s.children, s.order);
        SettleOk(s, Verdict(s, s.failures));
      }
  }

  lemma {:induction false} LeavesOk(s: Scope, step: Step)
    requires ScopeOk(s) && Enabled(s, step)
    requires step.DrainResumes? || step.Interrupted? || step.CancelEnds? || step.SettleEnds? || step.SettleInterrupted?
    ensures ScopeOk(Apply(s, step))
  {
    if step.DrainResumes? {
      LedgerMembers(s.children, s.order);
      SettleOk(s, Verdict(s, s.failures));
    } else if step.Interrupted? {
      CancelAllOk(s, !s.mode.CancelSiblings? || s.place.Draining?, if step.deadline then Deadline else OwnerCancelled);
    } else if step.CancelEnds? {
      SettleOk(s, s.place.cause);
    } else if step.SettleEnds? {
      NoticedAreDone(s);
      LeftOk(s, Exited(s.place.cause, false));
    } else {
      LeftOk(s, Exited(s.place.cause, true));
    }
  }

  lemma {:induction false} LeftOk(s: Scope, p: Place)
    requires CoreOk(s) && p.Exited? && PlaceOk(s.(place := p))
    ensures ScopeOk(s.(place := p))
  {
    var t := s.(place := p);
    forall i: nat ensures ChildOk(t, i) {
      assert ChildOk(s, i);
    }
    forall k: nat ensures CallbackOk(t, k) {
      assert CallbackOk(s, k);
    }
  }

  lemma {:induction false} StepOk(s: Scope, step: Step)
    requires ScopeOk(s) && Enabled(s, step)
    ensures ScopeOk(Apply(s, step))
  {
    match step
    case Finish(i, e) => FinishOk(s, i, e);
    case RunCallback => RunsOk(s);
    case BodyEnds(raised) => ExitsBodyOk(s, raised);
    case JoinResumes => JoinResumesOk(s);
    case SpawnOutside(_) => SpawnOk(s, step);
    case Enter => SpawnOk(s, step);
    case Spawn(_) => SpawnOk(s, step);
    case FanoutDone => SpawnOk(s, step);
    case _ => LeavesOk(s, step);
  }

  lemma {:induction false} RunOk(s: Scope, steps: seq<Step>)
    requires ScopeOk(s) && ValidRun(s, steps)
    ensures ScopeOk(Exec(s, steps))
    decreases steps
  {
    if steps != [] {
      StepOk(s, steps[0]);
      RunOk(Apply(s, steps[0]), steps[1..]);
    }
  }

  lemma {:induction false} ReachableOk(mode: Mode, steps: seq<Step>)
    requires ValidRun(NewScope(mode), steps)
    ensures ScopeOk(Exec(NewScope(mode), steps))
  {
    var s := NewScope(mode);
    forall i: nat ensures ChildOk(s, i) {
    }
    forall k: nat ensures CallbackOk(s, k) {
    }
    RunOk(s, steps);
  }

  // ---- what every scope guarantees ----

  /** For every order of completions and callbacks, the failures are exactly the ledger of what has run. */
  lemma {:induction false} FailFastLedger(mode: Mode, steps: seq<Step>)
    requires ValidRun(NewScope(mode), steps)
    ensures var s := Exec(NewScope(mode), steps);
            && s.failures == LedgerOf(s.children, s.order)
            && (s.cancelling <==> exists i :: i in s.order && Failed(s.children, i))
            && (s.fanout.Fanout? <==> s.cancelling)
  {
    ReachableOk(mode, steps);
    var s := Exec(NewScope(mode), steps);
    LedgerMembers(s.children, s.order);
    if s.failures != [] {
      assert s.failures[0] in s.failures;
    } else {
      forall i | i in s.order ensures !Failed(s.children, i) {
        EmptyLedgerMeansNoFailure(s.children, s.order, i);
      }
    }
  }

  /** A fan-out is issued at most once, by the first failing callback, to exactly the children not yet done. */
  lemma {:induction false} FanoutIsOneShotAndExact(s: Scope, step: Step)
    requires ScopeOk(s) && Enabled(s, step)
    ensures var t := Apply(s, step);
            if s.fanout.Fanout? then t.fanout.Fanout? && t.fanout.ids == s.fanout.ids
            else t.fanout.Fanout? ==>
                   && step.RunCallback? && s.ready[0].Ledger? && Failed(s.children, s.ready[0].child)
                   && t.fanout.ids == StillRunning(s.children) && ListsPending(s.children, t.fanout.ids) && s.failures == []
  {
    RunningListsPending(s.children);
    if step.RunCallback? {
      RunsOne(s);
    } else if step.Finish? {
      assert Apply(s, step).fanout == s.fanout;
    }
  }

  /** The step turns the failure it processes into a fan-out. */
  predicate Issues(s: Scope, step: Step) {
    Enabled(s, step) && !s.fanout.Fanout? && Apply(s, step).fanout.Fanout?
  }

  /** Any point of a run splits it in two. */
  lemma {:induction false} PrefixRun(s: Scope, steps: seq<Step>, i: nat)
    requires ValidRun(s, steps) && i <= |steps|
    ensures ValidRun(s, steps[..i]) && ValidRun(Exec(s, steps[..i]), steps[i..])
    ensures Exec(Exec(s, steps[..i]), steps[i..]) == Exec(s, steps)
    decreases steps
  {
    if i == 0 {
      assert steps[..0] == [] && steps[0..] == steps;
    } else {
      assert steps[..i][1..] == steps[1..][..i - 1] && steps[i..] == steps[1..][i - 1..];
      PrefixRun(Apply(s, steps[0]), steps[1..], i - 1);
    }
  }

  lemma {:induction false} FanoutStays(s: Scope, steps: seq<Step>)
    requires ScopeOk(s) && ValidRun(s, steps) && s.fanout.Fanout?
    ensures Exec(s, steps).fanout.Fanout? && Exec(s, steps).fanout.ids == s.fanout.ids
    decreases steps
  {
    if steps != [] {
      FanoutIsOneShotAndExact(s, steps[0]);
      StepOk(s, steps[0]);
      FanoutStays(Apply(s, steps[0]), steps[1..]);
    }
  }

  /** A fan-out issued at step `i` is the one the run ends with. */
  lemma {:induction false} IssuedAt(mode: Mode, steps: seq<Step>, i: nat)
    requires ValidRun(NewScope(mode), steps) && i < |steps|
    requires ValidRun(NewScope(mode), steps[..i]) && Issues(Exec(NewScope(mode), steps[..i]), steps[i])
    ensures forall j: nat | i < j <= |steps| ::
              ValidRun(NewScope(mode), steps[..j]) && Exec(NewScope(mode), steps[..j]).fanout.Fanout?
              && Exec(NewScope(mode), steps[..j]).fanout.ids == StillRunning(Exec(NewScope(mode), steps[..i]).children)
  {
    var init := NewScope(mode);
    var s := Exec(init, steps[..i]);
    ReachableOk(mode, steps[..i]);
    FanoutIsOneShotAndExact(s, steps[i]);
    StepOk(s, steps[i]);
    forall j: nat | i < j <= |steps|
      ensures ValidRun(init, steps[..j]) && Exec(init, steps[..j]).fanout.Fanout?
              && Exec(init, steps[..j]).fanout.ids == StillRunning(s.children)
    {
      PrefixRun(init, steps, j);
      PrefixRun(init, steps[..j], i);
      assert steps[..j][..i] == steps[..i] && steps[..j][i..][0] == steps[i];
      FanoutStays(Apply(s, steps[i]), steps[..j][i..][1..]);
    }
  }

  /**
    Over a whole run at most one step issues a fan-out: the callback of the first failure. Its ids are the
    children spawned by then and not done, and the run keeps them.
   */
  lemma {:induction false} OneFanoutPerRun(mode: Mode, steps: seq<Step>, i: nat, j: nat)
    requires ValidRun(NewScope(mode), steps) && i < |steps| && j < |steps|
    ensures ValidRun(NewScope(mode), steps[..i]) && ValidRun(NewScope(mode), steps[..j])
    ensures var s, t := Exec(NewScope(mode), steps[..i]), Exec(NewScope(mode), steps[..j]);
            && (Issues(s, steps[i]) && Issues(t, steps[j]) ==> i == j)
            && (Issues(s, steps[i]) ==>
                  && steps[i].RunCallback? && s.ready[0].Ledger? && Failed(s.children, s.ready[0].child) && s.failures == []
                  && Exec(NewScope(mode), steps).fanout.Fanout?
                  && ListsPending(s.children, Exec(NewScope(mode), steps).fanout.ids)
                  && (forall x :: x in Exec(NewScope(mode), steps).fanout.ids <==>
                        exists k :: 0 <= k < |s.children| && s.children[k].ending.None? && s.children[k].id == x))
  {
    var init := NewScope(mode);
    PrefixRun(init, steps, i);
    PrefixRun(init, steps, j);
    if Issues(Exec(init, steps[..i]), steps[i]) {
      ReachableOk(mode, steps[..i]);
      FanoutIsOneShotAndExact(Exec(init, steps[..i]), steps[i]);
      RunningListsPending(Exec(init, steps[..i]).children);
      IssuedAt(mode, steps, i);
      assert steps[..|steps|] == steps;
    }
    if Issues(Exec(init, steps[..j]), steps[j]) {
      IssuedAt(mode, steps, j);
    }
  }

  /** What leaving a scope means, for each way of leaving it. */
  lemma {:induction false} ScopeExitSafety(mode: Mode, steps: seq<Step>)
    requires ValidRun(NewScope(mode), steps) && Exec(NewScope(mode), steps).place.Exited?
    ensures var s := Exec(NewScope(mode), steps);
            var cause := s.place.cause;
            && (cause.Normal? && !mode.Ignore? ==> AllReturned(s))
            && (cause.Normal? && mode.Ignore? ==> AllDone(s))
            && (cause.BodyError? || cause.Deadline? || cause.OwnerCancelled? ==> s.handles in s.requests)
            && (cause.Group? ==> cause.failures != [] && forall i :: i in cause.failures ==>
                                 IsDone(s, i) && s.children[i].ending != Some(Returned))
            && (!s.place.interrupted ==> AllDone(s) && (s.fanout.Fanout? && s.fanout.awaited ==> s.fanout.done))
            && (cause.EmptyWait? ==> mode.CancelSiblings? && s.children == [] && s.handles != [])
  {
    ReachableOk(mode, steps);
    ModeIsFixed(NewScope(mode), steps);
  }

  lemma {:induction false} ModeIsFixed(s: Scope, steps: seq<Step>)
    requires ValidRun(s, steps)
    ensures Exec(s, steps).mode == s.mode
    decreases steps
  {
    if steps != [] {
      if steps[0].RunCallback? {
        RunsOne(s);
      }
      ModeIsFixed(Apply(s, steps[0]), steps[1..]);
    }
  }

  // ---- what the scope does not guarantee, and exactly when ----

  lemma {:induction false} ForRealComplete(cs: seq<Child>, picks: seq<nat>, i: nat)
    requires i in picks && FailedForReal(cs, i)
    ensures i in ForReal(cs, picks)
  {
    if picks[0] != i {
      ForRealComplete(cs, picks[1..], i);
    }
  }

  lemma {:induction false} FailingComplete(cs: seq<Child>, order: seq<nat>, i: nat)
    requires i in order && Failed(cs, i)
    ensures i in Failing(cs, order)
  {
    if order[0] != i {
      FailingComplete(cs, order[1..], i);
    }
  }

  /** A real failure is among the recorded ones iff its callback has run by then. */
  lemma {:induction false} RecordedIffCallbackRan(s: Scope, i: nat)
    requires ScopeOk(s) && FailedForReal(s.children, i)
    ensures i in s.failures <==> i in s.order
  {
    LedgerMembers(s.children, s.order);
    if i in s.order {
      FailingComplete(s.children, s.order, i);
      var f := Failing(s.children, s.order);
      if f[0] != i {
        ForRealComplete(s.children, f[1..], i);
      }
    }
  }

  /** One more step at the end of a run. */
  lemma {:induction false} Snoc(s: Scope, steps: seq<Step>, step: Step)
    requires ValidRun(s, steps) && Enabled(Exec(s, steps), step)
    ensures ValidRun(s, steps + [step]) && Exec(s, steps + [step]) == Apply(Exec(s, steps), step)
    decreases steps
  {
    if steps == [] {
      assert steps + [step] == [step] && [step][1..] == [];
    } else {
      assert (steps + [step])[1..] == steps[1..] + [step];
      Snoc(Apply(s, steps[0]), steps[1..], step);
    }
  }

  predicate Incomplete(s: Scope, i: nat) {
    s.place.Exited? && s.place.cause.Group? && FailedForReal(s.children, i) && i !in s.place.cause.failures
  }

  /** A scope that spawned two children and joins them. */
  lemma {:induction false} TwoChildren(a: JobId, b: JobId) returns (steps: seq<Step>)
    ensures ValidRun(NewScope(CancelSiblings), steps)
    ensures var s := Exec(NewScope(CancelSiblings), steps);
            s == NewScope(CancelSiblings).(handles := [a, b], children := [Child(a, None), Child(b, None)], place := Joining)
  {
    var init := NewScope(CancelSiblings);
    var s := Apply(Apply(Apply(init, Enter), Spawn(a)), Spawn(b));
    Snoc(init, [], Enter);
    Snoc(init, [] + [Enter], Spawn(a));
    Snoc(init, [] + [Enter] + [Spawn(a)], Spawn(b));
    steps := [] + [Enter] + [Spawn(a)] + [Spawn(b)];
    assert s.children == [Child(a, None), Child(b, None)] && s.handles == [a, b];
    NoneDone(s, 0);
    Snoc(init, steps, BodyEnds(false));
    steps := steps + [BodyEnds(false)];
  }

  /** The same scope once its join has been woken by the first failure and not yet resumed. */
  lemma {:induction false} WokenJoin(a: JobId, b: JobId) returns (steps: seq<Step>)
    ensures ValidRun(NewScope(CancelSiblings), steps)
    ensures var s := Exec(NewScope(CancelSiblings), steps);
            && s.place.Joining? && s.mode.CancelSiblings? && s.failureSeen && s.ready == []
            && s.children == [Child(a, Some(Raised(false))), Child(b, None)]
            && s.failures == [0] && s.order == [0] && s.fanout.Fanout? && s.cancelling
  {
    var init, e := NewScope(CancelSiblings), Raised(false);
    steps := TwoChildren(a, b);
    Snoc(init, steps, Finish(0, e));
    steps := steps + [Finish(0, e)];
    assert Exec(init, steps).ready == [Ledger(0), Notice(0)];
    Snoc(init, steps, RunCallback);
    steps := steps + [RunCallback];
    assert Exec(init, steps).ready == [Notice(0)];
    Snoc(init, steps, RunCallback);
    steps := steps + [RunCallback];
  }

  /** A child that fails after the join was woken but before it resumes is missing from the raised group. */
  lemma {:induction false} LateFailureIsMissing(a: JobId, b: JobId)
    ensures exists steps, i: nat ::
              ValidRun(NewScope(CancelSiblings), steps) && Incomplete(Exec(NewScope(CancelSiblings), steps), i)
  {
    var init, e := NewScope(CancelSiblings), Raised(false);
    var steps := WokenJoin(a, b);
    Snoc(init, steps, Finish(1, e));
    steps := steps + [Finish(1, e)];
    Snoc(init, steps, JoinResumes);
    steps := steps + [JoinResumes];
    Snoc(init, steps, FanoutDone);
    steps := steps + [FanoutDone];
    Snoc(init, steps, SettleEnds);
    steps := steps + [SettleEnds];
    assert Incomplete(Exec(init, steps), 1);
  }

  /** Some child failed for a reason of its own and its callback is still to run. */
  ghost predicate FailurePending(s: Scope) {
    exists i: nat :: FailedForReal(s.children, i) && Ledger(i) in s.ready
  }

  /** Every child that failed for a reason of its own is among these. */
  ghost predicate Complete(cs: seq<Child>, failures: seq<nat>) {
    forall i: nat :: FailedForReal(cs, i) ==> i in failures
  }

  /** When the default join resumes with every child done, its failures are complete iff no callback of one is pending. */
  lemma {:induction false} RecordedIffNonePending(s: Scope)
    requires ScopeOk(s) && s.mode.CancelSiblings? && AllDone(s)
    ensures Complete(s.children, s.failures) <==> !FailurePending(s)
  {
    forall i: nat | FailedForReal(s.children, i)
      ensures i in s.failures <==> Ledger(i) !in s.ready
    {
      assert ChildOk(s, i);
      RecordedIffCallbackRan(s, i);
      if Ledger(i) in s.ready {
        var k: nat :| k < |s.ready| && s.ready[k] == Ledger(i);
        assert CallbackOk(s, k);
      }
    }
  }

  /** The pending callback at `k` is of a child the current gather has already accounted for. */
  predicate Stale(s: Scope, k: nat) {
    k < |s.ready| && s.ready[k].Ledger? && s.ready[k].child in s.noticed
  }

  /** Child `p` was pending when the drain began, so its notice comes behind every callback pending then. */
  ghost predicate Guards(s: Scope, p: nat) {
    IsChild(s, p) && forall k: nat :: Stale(s, k) ==> p !in s.noticed && Notice(p) !in s.ready[..k]
  }

  ghost predicate DrainOk(s: Scope) {
    s.place.Draining? ==> exists p: nat :: Guards(s, p)
  }

  lemma {:induction false} DrainBegins(s: Scope)
    requires ScopeOk(s) && Enabled(s, JoinResumes)
    ensures DrainOk(ResumesJoin(s))
  {
    var t := ResumesJoin(s);
    if t.place.Draining? {
      var p: nat :| p < |s.children| && s.children[p].ending.None?;
      forall j: nat | j < |s.ready|
        ensures s.ready[j] != Notice(p)
      {
        assert CallbackOk(s, j);
      }
      assert Guards(t, p);
    }
  }

  lemma {:induction false} FinishKeepsGuard(s: Scope, i: nat, e: Ending, p: nat)
    requires ScopeOk(s) && Enabled(s, Finish(i, e)) && Guards(s, p)
    ensures Guards(Finishes(s, i, e), p)
  {
    var t := Finishes(s, i, e);
    assert ChildOk(s, i);
    forall k: nat | |s.ready| <= k < |t.ready|
      ensures !Stale(t, k)
    {
      assert t.ready[k] == Schedules(s, i)[k - |s.ready|];
    }
    forall k: nat | Stale(t, k)
      ensures p !in t.noticed && Notice(p) !in t.ready[..k]
    {
      assert k < |s.ready|;
      assert Stale(s, k) && t.ready[..k] == s.ready[..k];
    }
  }

  lemma {:induction false} CallbackKeepsGuard(s: Scope, p: nat)
    requires ScopeOk(s) && s.ready != [] && Guards(s, p)
    ensures Guards(Runs(s), p)
  {
    var t := Runs(s);
    RunsOne(s);
    assert CallbackOk(s, 0);
    forall k: nat | Stale(t, k)
      ensures p !in t.noticed && Notice(p) !in t.ready[..k]
    {
      assert t.ready[k] == s.ready[k + 1] && CallbackOk(s, k + 1);
      assert s.ready[..k + 1] == [s.ready[0]] + t.ready[..k];
      assert Stale(s, k + 1);
      assert s.ready[0] in s.ready[..k + 1];
    }
  }

  lemma {:induction false} DrainStep(s: Scope, step: Step)
    requires ScopeOk(s) && DrainOk(s) && Enabled(s, step)
    ensures DrainOk(Apply(s, step))
  {
    if step.JoinResumes? {
      DrainBegins(s);
    } else if s.place.Draining? {
      var p: nat :| Guards(s, p);
      match step
      case Finish(i, e) => FinishKeepsGuard(s, i, e, p);
      case RunCallback => CallbackKeepsGuard(s, p); RunsOne(s);
      case FanoutDone =>
        assert forall k: nat :: Stale(Apply(s, step), k) ==> Stale(s, k);
        assert Guards(Apply(s, step), p);
      case _ =>
    } else if step.RunCallback? {
      RunsOne(s);
    }
  }

  /** A drained join has run every callback, so its failures are always complete. */
  lemma {:induction false} DrainIsComplete(s: Scope)
    requires ScopeOk(s) && DrainOk(s) && Enabled(s, DrainResumes)
    ensures AllDone(s) && !FailurePending(s) && Complete(s.children, s.failures)
  {
    NoticedAreDone(s);
    var p: nat :| Guards(s, p);
    forall i: nat | Ledger(i) in s.ready
      ensures false
    {
      var k: nat :| k < |s.ready| && s.ready[k] == Ledger(i);
      assert CallbackOk(s, k);
      assert Stale(s, k);
    }
    RecordedIffNonePending(s);
  }

  // ---- exactly when a raised group is complete ----

  /** The scope is leaving, or has left, by raising a group of these failures. */
  predicate Raises(s: Scope, failures: seq<nat>) {
    (s.place.Settling? || s.place.Exited?) && s.place.cause == Group(failures)
  }

  predicate InOrder(picks: seq<nat>) {
    forall k, m :: 0 <= k < m < |picks| ==> picks[k] < picks[m]
  }

  /** The step at which the scope decides to raise. */
  predicate Decides(s: Scope, step: Step, failures: seq<nat>) {
    Enabled(s, step) && (step.JoinResumes? || step.DrainResumes?) && Raises(Apply(s, step), failures)
  }

  /** At that step every child is done, and the group is complete iff no callback of a failure is pending; it never is after a drain. */
  lemma {:induction false} DecidedGroup(s: Scope, step: Step, failures: seq<nat>)
    requires ScopeOk(s) && DrainOk(s) && Decides(s, step, failures)
    ensures AllDone(s) && Apply(s, step).children == s.children
    ensures Complete(s.children, failures) <==> !FailurePending(s)
    ensures step.DrainResumes? || s.mode.Collect? ==> Complete(s.children, failures)
    ensures !s.mode.Ignore? && failures != []
    ensures s.mode.CancelSiblings? ==> failures == LedgerOf(s.children, s.order)
    ensures s.mode.Collect? ==> InOrder(failures)
    ensures s.mode.Collect? ==> forall i: nat :: i in failures <==> i < |s.children| && s.children[i].ending != Some(Returned)
  {
    ExceptionsInOrder(s.children, 0);
    ExceptionsEffect(s.children, 0);
    if step.DrainResumes? {
      DrainIsComplete(s);
    } else if s.mode.Collect? {
      NoticedAreDone(s);
      forall k: nat | k < |s.ready|
        ensures !s.ready[k].Ledger?
      {
        assert CallbackOk(s, k);
      }
    } else {
      RecordedIffNonePending(s);
    }
  }

  /** With every child done, nothing changes a decided group or any child. */
  lemma {:induction false} GroupStays(s: Scope, step: Step, failures: seq<nat>)
    requires Enabled(s, step) && AllDone(s) && Raises(s, failures)
    ensures Raises(Apply(s, step), failures) && Apply(s, step).children == s.children
  {
    if step.RunCallback? {
      RunsOne(s);
    }
  }

  lemma {:induction false} GroupIsDecided(s: Scope, step: Step, failures: seq<nat>)
    requires ScopeOk(s) && Enabled(s, step) && !Raises(s, failures) && Raises(Apply(s, step), failures)
    ensures Decides(s, step, failures)
  {
    if step.RunCallback? {
      RunsOne(s);
    }
  }

  lemma {:induction false} ReachableDrainOk(mode: Mode, steps: seq<Step>)
    requires ValidRun(NewScope(mode), steps)
    ensures DrainOk(Exec(NewScope(mode), steps))
  {
    ReachableOk(mode, []);
    DrainRun(NewScope(mode), steps);
  }

  lemma {:induction false} DrainRun(s: Scope, steps: seq<Step>)
    requires ScopeOk(s) && DrainOk(s) && ValidRun(s, steps)
    ensures DrainOk(Exec(s, steps))
    decreases steps
  {
    if steps != [] {
      DrainStep(s, steps[0]);
      StepOk(s, steps[0]);
      DrainRun(Apply(s, steps[0]), steps[1..]);
    }
  }

  /** The last step of a run. */
  lemma {:induction false} Unsnoc(s: Scope, steps: seq<Step>)
    requires ValidRun(s, steps) && steps != []
    ensures var n := |steps| - 1;
            && ValidRun(s, steps[..n]) && Enabled(Exec(s, steps[..n]), steps[n])
            && Exec(s, steps) == Apply(Exec(s, steps[..n]), steps[n])
  {
    var n := |steps| - 1;
    PrefixRun(s, steps, n);
    assert steps[n..] == [steps[n]] && [steps[n]][1..] == [];
    assert Exec(Exec(s, steps[..n]), [steps[n]]) == Exec(Apply(Exec(s, steps[..n]), steps[n]), []);
  }

  /**
    Exactly which raised groups are complete. A scope that leaves by raising a group decided it at one step of
    the run, with every child done. The group holds every failure other than JobCancelled if and only if no
    callback of such a failure was still pending when the join resumed; after a drain, and in collect mode, it
    always does. By default it is the ledger as of then, in collect mode every child that did not return, in
    spawn order, and ignore mode never raises one.
   */
  lemma {:induction false} GroupIsCompleteIffNonePending(mode: Mode, steps: seq<Step>, failures: seq<nat>) returns (k: nat)
    requires ValidRun(NewScope(mode), steps) && Raises(Exec(NewScope(mode), steps), failures)
    ensures k < |steps| && ValidRun(NewScope(mode), steps[..k])
    ensures var s, b := Exec(NewScope(mode), steps), Exec(NewScope(mode), steps[..k]);
            && Decides(b, steps[k], failures) && s.children == b.children && AllDone(s)
            && (Complete(s.children, failures) <==> !FailurePending(b))
            && (steps[k].DrainResumes? || mode.Collect? ==> Complete(s.children, failures))
            && !mode.Ignore? && failures != []
            && (mode.CancelSiblings? ==> failures == LedgerOf(b.children, b.order))
            && (mode.Collect? ==> InOrder(failures))
            && (mode.Collect? ==> forall i: nat :: i in failures <==> i < |s.children| && s.children[i].ending != Some(Returned))
    decreases |steps|
  {
    var init, n := NewScope(mode), |steps| - 1;
    Unsnoc(init, steps);
    var b := Exec(init, steps[..n]);
    ReachableOk(mode, steps[..n]);
    if Raises(b, failures) {
      k := GroupIsCompleteIffNonePending(mode, steps[..n], failures);
      assert steps[..n][..k] == steps[..k];
      GroupStays(b, steps[n], failures);
    } else {
      k := n;
      ReachableDrainOk(mode, steps[..n]);
      GroupIsDecided(b, steps[n], failures);
      DecidedGroup(b, steps[n], failures);
      ModeIsFixed(init, steps[..n]);
    }
  }

  // ---- teardown ----

  /** The step at which `cancel_all_jobs` is called: the body raised, or a join was cut short. */
  predicate TearsDown(step: Step) {
    (step.BodyEnds? && step.raised) || step.Interrupted?
  }

  /** Teardown asks for every handle's cancellation in one call and then waits for the children before it drops any waiter. */
  lemma {:induction false} TeardownAsksThenWaits(s: Scope, step: Step)
    requires ScopeOk(s) && Enabled(s, step) && TearsDown(step)
    ensures var t := Apply(s, step);
            && t.requests == s.requests + [s.handles] && t.children == s.children
            && (s.children != [] ==> t.place.Cancelling? && Enabled(t, CancelEnds))
            && (s.children != [] && (step.BodyEnds? || (s.mode.CancelSiblings? && s.place.Joining?)) ==> !t.dropping)
            && (s.children == [] ==> t.place.Settling?)
  {
  }

  // ---- a scope with nothing to wait for ----

  /** The default join of a scope with handles and no waiters: `asyncio.wait` refuses the empty set. */
  lemma {:induction false} EmptyWaitIffNoWaiters(s: Scope, raised: bool)
    requires s.place.Body?
    ensures ExitsBody(s, raised).place == Settling(EmptyWait) <==>
            !raised && s.mode.CancelSiblings? && s.children == [] && s.handles != []
  {
  }

  /** A scope whose only job was spawned before it was entered. */
  lemma {:induction false} SpawnedOutsideOnly(a: JobId)
    ensures var steps := [SpawnOutside(a), Enter, BodyEnds(false), SettleEnds];
            && ValidRun(NewScope(CancelSiblings), steps)
            && Exec(NewScope(CancelSiblings), steps).place == Exited(EmptyWait, false)
  {
    var init := NewScope(CancelSiblings);
    Snoc(init, [], SpawnOutside(a));
    Snoc(init, [] + [SpawnOutside(a)], Enter);
    Snoc(init, [] + [SpawnOutside(a)] + [Enter], BodyEnds(false));
    Snoc(init, [] + [SpawnOutside(a)] + [Enter] + [BodyEnds(false)], SettleEnds);
    assert [] + [SpawnOutside(a)] + [Enter] + [BodyEnds(false)] + [SettleEnds] == [SpawnOutside(a), Enter, BodyEnds(false), SettleEnds];
  }

  /** Over runs: a scope leaves that way iff its body returned with handles, in the default mode, none of them its own child. */
  lemma {:induction false} EmptyWaitNeedsOutsideJobs(mode: Mode, steps: seq<Step>)
    requires ValidRun(NewScope(mode), steps) && Exec(NewScope(mode), steps).place.Body?
    ensures ExitsBody(Exec(NewScope(mode), steps), false).place == Settling(EmptyWait) <==>
            mode.CancelSiblings? && Spawned(steps) == [] && SpawnedOutside(steps) != []
  {
    var s := Exec(NewScope(mode), steps);
    ModeIsFixed(NewScope(mode), steps);
    EmptyWaitIffNoWaiters(s, false);
    SpawnsCounted(NewScope(mode), steps);
  }

  /** The ids spawned inside the scope, and before it. */
  function Spawned(steps: seq<Step>): seq<JobId> {
    if steps == [] then [] else (if steps[0].Spawn? then [steps[0].id] else []) + Spawned(steps[1..])
  }

  function SpawnedOutside(steps: seq<Step>): seq<JobId> {
    if steps == [] then [] else (if steps[0].SpawnOutside? then [steps[0].id] else []) + SpawnedOutside(steps[1..])
  }

  lemma {:induction false} SpawnCounted(s: Scope, step: Step)
    requires Enabled(s, step)
    ensures |Apply(s, step).children| == |s.children| + if step.Spawn? then 1 else 0
    ensures |Apply(s, step).handles| == |s.handles| + if step.Spawn? || step.SpawnOutside? then 1 else 0
  {
    match step
    case RunCallback => RunsOne(s); RunsKeepsHandles(s);
    case Finish(_, _) =>
    case BodyEnds(_) =>
    case JoinResumes =>
    case _ =>
  }

  lemma {:induction false} SpawnsCounted(s: Scope, steps: seq<Step>)
    requires ValidRun(s, steps)
    ensures |Exec(s, steps).children| == |s.children| + |Spawned(steps)|
    ensures |Exec(s, steps).handles| == |s.handles| + |Spawned(steps)| + |SpawnedOutside(steps)|
    decreases steps
  {
    if steps != [] {
      SpawnCounted(s, steps[0]);
      SpawnsCounted(Apply(s, steps[0]), steps[1..]);
    }
  }

  lemma {:induction false} RunsKeepsHandles(s: Scope)
    requires s.ready != []
    ensures Runs(s).handles == s.handles
  {
  }

  /** Child `i` can still make `_job_finished` issue a fan-out. */
  predicate CanStillFail(s: Scope, i: nat) {
    IsChild(s, i) && (!IsDone(s, i) || (Failed(s.children, i) && i !in s.order))
  }

  /** No failure has been recorded, and some child can still record one. */
  ghost predicate Risky(s: Scope) {
    s.mode.CancelSiblings? && !s.cancelling && exists i: nat :: CanStillFail(s, i)
  }

  /** `_settle` has taken its snapshot, and any fan-out there is belongs to it. */
  ghost predicate Contained(s: Scope) {
    && ScopeOk(s) && !Risky(s)
    && (s.place.Settling? || s.place.Exited?)
    && (s.fanout.Fanout? ==> s.fanout.awaited)
  }

  lemma {:induction false} ContainedRuns(s: Scope)
    requires Contained(s) && s.ready != []
    ensures Contained(Runs(s))
  {
    var t := Runs(s);
    RunsOk(s);
    RunsOne(s);
    assert CallbackOk(s, 0);
    if s.ready[0].Ledger? && !s.cancelling {
      assert !CanStillFail(s, s.ready[0].child);
    }
    if !t.cancelling && s.mode.CancelSiblings? {
      forall i: nat ensures !CanStillFail(t, i) {
        assert !CanStillFail(s, i);
      }
    }
  }

  lemma {:induction false} ContainedStep(s: Scope, step: Step)
    requires Contained(s) && Enabled(s, step)
    ensures Contained(Apply(s, step))
  {
    var t := Apply(s, step);
    StepOk(s, step);
    if step.RunCallback? {
      ContainedRuns(s);
    } else if step.Finish? {
      if s.mode.CancelSiblings? && !s.cancelling {
        assert CanStillFail(s, step.child);
      }
    } else {
      forall i: nat ensures CanStillFail(t, i) ==> CanStillFail(s, i) {
      }
    }
  }

  /** Unless a child can still record the first failure when `_settle` begins, no local task survives it. */
  lemma {:induction false} SettledScopeLeavesNothing(s: Scope, steps: seq<Step>)
    requires Contained(s) && ValidRun(s, steps)
    ensures Contained(Exec(s, steps))
    ensures var t := Exec(s, steps);
            t.place.Exited? && !t.place.interrupted ==> AllDone(t) && (t.fanout.Fanout? ==> t.fanout.done)
    decreases steps
  {
    if steps != [] {
      ContainedStep(s, steps[0]);
      SettledScopeLeavesNothing(Apply(s, steps[0]), steps[1..]);
    }
  }

  lemma {:induction false} Cons(s: Scope, step: Step, steps: seq<Step>)
    requires Enabled(s, step) && ValidRun(Apply(s, step), steps)
    ensures ValidRun(s, [step] + steps) && Exec(s, [step] + steps) == Exec(Apply(s, step), steps)
  {
    assert ([step] + steps)[1..] == steps;
  }

  /** Some child's failure is recorded or bound to be, and any fan-out is outside `_settle`'s snapshot. */
  ghost predicate Doomed(s: Scope) {
    && ScopeOk(s) && s.place.Settling? && s.mode.CancelSiblings?
    && (s.fanout.Fanout? ==> !s.fanout.done && !s.fanout.awaited)
    && exists i: nat :: Failed(s.children, i)
  }

  lemma {:induction false} FinishKeepsDoomed(s: Scope, i: nat)
    requires ScopeOk(s) && s.place.Settling? && s.mode.CancelSiblings? && IsChild(s, i) && !IsDone(s, i)
    requires s.fanout.Fanout? ==> !s.fanout.done && !s.fanout.awaited
    ensures Doomed(Finishes(s, i, Raised(false)))
  {
    FinishOk(s, i, Raised(false));
    assert Failed(Finishes(s, i, Raised(false)).children, i);
  }

  lemma {:induction false} FinishTheRest(s: Scope, from: nat) returns (steps: seq<Step>)
    requires Doomed(s) && from <= |s.children| && forall i :: 0 <= i < from ==> s.children[i].ending.Some?
    ensures ValidRun(s, steps) && Doomed(Exec(s, steps)) && AllDone(Exec(s, steps))
    decreases |s.children| - from
  {
    if from == |s.children| {
      steps := [];
    } else if IsDone(s, from) {
      steps := FinishTheRest(s, from + 1);
    } else {
      var step := Finish(from, Raised(false));
      FinishKeepsDoomed(s, from);
      var rest := FinishTheRest(Apply(s, step), from + 1);
      Cons(s, step, rest);
      steps := [step] + rest;
    }
  }

  lemma {:induction false} RunTheCallbacks(s: Scope) returns (steps: seq<Step>)
    requires Doomed(s) && AllDone(s)
    ensures ValidRun(s, steps) && Doomed(Exec(s, steps)) && AllDone(Exec(s, steps)) && Exec(s, steps).ready == []
    decreases |s.ready|
  {
    if s.ready == [] {
      steps := [];
    } else {
      RunsOk(s);
      RunsOne(s);
      assert CallbackOk(s, 0);
      var i: nat :| Failed(s.children, i);
      assert Failed(Runs(s).children, i);
      var rest := RunTheCallbacks(Runs(s));
      Cons(s, RunCallback, rest);
      steps := [RunCallback] + rest;
    }
  }

  ghost predicate FanoutSurvives(s: Scope) {
    s.place.Exited? && !s.place.interrupted && s.fanout.Fanout? && !s.fanout.done
  }

  lemma {:induction false} Concat(s: Scope, a: seq<Step>, b: seq<Step>)
    requires ValidRun(s, a) && ValidRun(Exec(s, a), b)
    ensures ValidRun(s, a + b) && Exec(s, a + b) == Exec(Exec(s, a), b)
    decreases a
  {
    if a == [] {
      assert a + b == b;
    } else {
      assert (a + b)[1..] == a[1..] + b;
      Concat(Apply(s, a[0]), a[1..], b);
    }
  }

  /** With every child done, every callback run and one failure, `_settle` ends beside a live fan-out. */
  lemma {:induction false} DoomedEnds(s: Scope)
    requires Doomed(s) && AllDone(s) && s.ready == []
    ensures Enabled(s, SettleEnds) && FanoutSurvives(Apply(s, SettleEnds))
  {
    forall i | 0 <= i < |s.children| ensures i in s.noticed && i in s.order {
      assert ChildOk(s, i);
    }
    var i: nat :| Failed(s.children, i);
    if s.failures == [] {
      EmptyLedgerMeansNoFailure(s.children, s.order, i);
    }
  }

  lemma {:induction false} DoomedSurvives(s: Scope) returns (steps: seq<Step>)
    requires Doomed(s)
    ensures ValidRun(s, steps) && FanoutSurvives(Exec(s, steps))
  {
    var a := FinishTheRest(s, 0);
    var t := Exec(s, a);
    var b := RunTheCallbacks(t);
    Concat(s, a, b);
    DoomedEnds(Exec(t, b));
    Snoc(s, a + b, SettleEnds);
    steps := a + b + [SettleEnds];
  }

  lemma {:induction false} RiskySurvives(s: Scope) returns (steps: seq<Step>)
    requires ScopeOk(s) && s.place.Settling? && Risky(s)
    ensures ValidRun(s, steps) && FanoutSurvives(Exec(s, steps))
  {
    var i: nat :| CanStillFail(s, i);
    if IsDone(s, i) {
      assert Doomed(s);
      steps := DoomedSurvives(s);
    } else {
      var step := Finish(i, Raised(false));
      FinishKeepsDoomed(s, i);
      var rest := DoomedSurvives(Apply(s, step));
      Cons(s, step, rest);
      steps := [step] + rest;
    }
  }

  ghost predicate SomeRunLeavesAFanout(s: Scope) {
    exists steps :: ValidRun(s, steps) && FanoutSurvives(Exec(s, steps))
  }

  /** The exact condition: a fan-out can outlive `_settle` iff the scope is risky when it begins. */
  lemma {:induction false} FanoutOutlivesSettleIffRisky(s: Scope)
    requires ScopeOk(s) && s.place.Settling? && (s.fanout.Fanout? ==> s.fanout.awaited)
    ensures Risky(s) <==> SomeRunLeavesAFanout(s)
  {
    if Risky(s) {
      var steps := RiskySurvives(s);
    } else {
      forall steps | ValidRun(s, steps) ensures !FanoutSurvives(Exec(s, steps)) {
        SettledScopeLeavesNothing(s, steps);
      }
    }
  }

  /** Reachable: the body raises, the child does not report back in time, and `_settle` begins. */
  lemma {:induction false} AFanoutCanSurvive(a: JobId)
    ensures exists steps :: ValidRun(NewScope(CancelSiblings), steps) && FanoutSurvives(Exec(NewScope(CancelSiblings), steps))
  {
    var init := NewScope(CancelSiblings);
    var s1 := Apply(Apply(init, Enter), Spawn(a));
    Snoc(init, [], Enter);
    Snoc(init, [] + [Enter], Spawn(a));
    var steps := [] + [Enter] + [Spawn(a)];
    NoneDone(s1, 0);
    Snoc(init, steps, BodyEnds(true));
    steps := steps + [BodyEnds(true)];
    Snoc(init, steps, CancelEnds);
    steps := steps + [CancelEnds];
    var s := Exec(init, steps);
    ReachableOk(CancelSiblings, steps);
    assert CanStillFail(s, 0);
    FanoutOutlivesSettleIffRisky(s);
    var more :| ValidRun(s, more) && FanoutSurvives(Exec(s, more));
    Concat(init, steps, more);
  }
}
