/**
  A claim or a delivery interleaved with everything else: between any two of a loop's own acts, other loops,
  other pools, reapers, producers, consumers and the clock may take any number of steps.
 */
module Interleaving {
  import opened Records
  import opened Stores
  import opened Places
  import opened Protocol
  import opened Invariant
  import opened Guarantees
  import opened Driving

  /** Where the loop stands with a job, None when it does not have it. */
  function Standing(a: World, w: WorkerId, id: JobId): Option<Stage> {
    if At(a, w, id) then Some(a.flight[(w, id)]) else None
  }

  predicate IsOwn(step: Step, w: WorkerId, id: JobId) {
    step.Lease? && step.w == w && step.id == id
  }

  /** What worker `w` does with job `id` in a run, in order. */
  function OwnActs(steps: seq<Step>, w: WorkerId, id: JobId): seq<LeaseAct> {
    if steps == [] then []
    else (if IsOwn(steps[0], w, id) then [steps[0].lease] else []) + OwnActs(steps[1..], w, id)
  }

  /** The run does not kill this pool. */
  predicate Spares(steps: seq<Step>, w: WorkerId) {
    forall i :: 0 <= i < |steps| ==> steps[i] != Pool(w, Crash)
  }

  ghost predicate Sole(a: World, w: WorkerId, id: JobId) {
    forall v :: At(a, v, id) ==> v == w
  }

  /** The record `r` is what is stored; only a result saved before a FAILED retry may outlive it. */
  predicate Stored(stored: Record, r: Record) {
    && stored.status == r.status && stored.error == r.error
    && stored.envelope == r.envelope && stored.attempts == r.attempts && stored.cancel == r.cancel && stored.group == r.group
    && (r.status == Completed ==> stored.result == r.result)
  }

  /** The job is live if nothing was written, else finished, with what was written last if it is still stored. */
  predicate Reads(a: World, id: JobId, r: Option<Record>) {
    if r.None? then Live(a.store, id)
    else
      && Finished(a, id) && !Live(a.store, id)
      && (id in a.store.jobs ==> Stored(a.store.jobs[id], r.value))
  }

  // ---- steps of others ----

  /** A job some loop has in flight is not in the queue. */
  lemma {:induction false} InFlightIsNotQueued(c: Config, a: World, w: WorkerId, id: JobId)
    requires Inv(c, a) && At(a, w, id)
    ensures id !in a.store.queue
  {
    assert StageOk(a, w, id, a.flight[(w, id)]);
  }

  /** Nobody else moves a loop from where it stands. */
  lemma {:induction false} OthersKeepStanding(c: Config, a: World, step: Step, w: WorkerId, id: JobId)
    requires Inv(c, a) && Enabled(c, a, step) && At(a, w, id)
    requires !IsOwn(step, w, id) && step != Pool(w, Crash)
    ensures Standing(Apply(c, a, step), w, id) == Standing(a, w, id)
  {
    InFlightIsNotQueued(c, a, w, id);
    match step
    case Lease(v, x, act) =>
    case Pool(v, act) =>
      if act.MoveCall? && a.store.queue != [] {
        assert a.store.queue[0] in a.store.queue;
      }
    case Other(act) => assert ApplyOther(c, a, act).flight == a.flight;
  }

  /** A loop takes up a job only by moving it off the queue. */
  lemma {:induction false} NewFlightIsMoved(c: Config, a: World, step: Step, v: WorkerId, id: JobId)
    requires Enabled(c, a, step) && At(Apply(c, a, step), v, id)
    ensures At(a, v, id) || id in a.store.queue
  {
    match step
    case Lease(_, _, _) =>
    case Pool(_, act) =>
      if act.MoveCall? && a.store.queue != [] {
        assert a.store.queue[0] in a.store.queue;
      }
    case Other(act) => assert ApplyOther(c, a, act).flight == a.flight;
  }

  /** While a loop has a job, no other takes it up. */
  lemma {:induction false} StaysSole(c: Config, a: World, step: Step, w: WorkerId, id: JobId)
    requires Inv(c, a) && Enabled(c, a, step) && At(a, w, id) && Sole(a, w, id)
    ensures Sole(Apply(c, a, step), w, id)
  {
    InFlightIsNotQueued(c, a, w, id);
    forall v | At(Apply(c, a, step), v, id)
      ensures v == w
    {
      NewFlightIsMoved(c, a, step, v, id);
    }
  }

  lemma {:induction false} OtherLeavesAlone(c: Config, a: World, act: OtherAct, id: JobId)
    requires RecordOk(a, id) && OtherEnabled(c, a, act) && Finished(a, id)
    ensures var b := ApplyOther(c, a, act);
            id in b.store.jobs ==> id in a.store.jobs && b.store.jobs[id] == a.store.jobs[id]
  {
    match act
    case ReapCall => ReapKeepsRecord(a.store, c.workerTtl, id);
    case Submit(_, _) =>
    case Cancel(_) =>
    case Observe(_) =>
    case TakeCall(_, _) =>
    case Expire(_) =>
    case Tick(_) =>
  }

  /** Only its own loop, a consumer or expiry touches a finished record. */
  lemma {:induction false} FinishedIsLeftAlone(c: Config, a: World, step: Step, id: JobId)
    requires RecordOk(a, id) && Enabled(c, a, step) && Finished(a, id) && !(step.Lease? && step.id == id)
    ensures var b := Apply(c, a, step);
            id in b.store.jobs ==> id in a.store.jobs && b.store.jobs[id] == a.store.jobs[id]
  {
    match step
    case Lease(v, x, act) =>
    case Pool(v, act) => PoolKeepsJobs(a, v, act);
    case Other(act) => OtherLeavesAlone(c, a, act, id);
  }

  lemma {:induction false} OthersKeepRecord(c: Config, a: World, step: Step, w: WorkerId, id: JobId, r: Option<Record>)
    requires ValidConfig(c) && Inv(c, a) && Enabled(c, a, step) && Sole(a, w, id) && Reads(a, id, r)
    requires !IsOwn(step, w, id)
    ensures Reads(Apply(c, a, step), id, r)
  {
    InvSound(c, a, step, id);
    if r.None? {
      ChangesArePublished(c, a, step, id);
    } else {
      FinishedIsLeftAlone(c, a, step, id);
      FinishedStep(c, a, step, id);
      StepInv(c, a, step);
      assert RecordOk(Apply(c, a, step), id);
    }
  }

  // ---- the loop's own steps ----

  /** The store decides nothing about where an act leads, except a claim's answer. */
  lemma {:induction false} OwnStanding(c: Config, a: World, w: WorkerId, id: JobId, act: LeaseAct)
    requires Inv(c, a) && LeaseEnabled(a, w, id, act) && act != ClaimCall(Answered)
    ensures Standing(ApplyLease(c, a, w, id, act), w, id) == Follow(a.flight[(w, id)], act)
  {
    assert StageOk(a, w, id, a.flight[(w, id)]);
  }

  lemma {:induction false} OwnRecord(c: Config, a: World, w: WorkerId, id: JobId, act: LeaseAct, r: Option<Record>)
    requires Inv(c, a) && LeaseEnabled(a, w, id, act) && Reads(a, id, r)
    ensures Reads(ApplyLease(c, a, w, id, act), id, AfterAct(r, act))
  {
    assert StageOk(a, w, id, a.flight[(w, id)]) && RecordOk(a, id);
  }

  // ---- any interleaving ----

  /** A loop alone with a job, of which it has written `r` so far. */
  ghost predicate Underway(c: Config, a: World, w: WorkerId, id: JobId, r: Option<Record>) {
    ValidConfig(c) && Inv(c, a) && At(a, w, id) && Sole(a, w, id) && Reads(a, id, r)
  }

  lemma {:induction false} OthersStep(c: Config, a: World, step: Step, w: WorkerId, id: JobId, r: Option<Record>)
    requires Underway(c, a, w, id, r) && Enabled(c, a, step) && !IsOwn(step, w, id) && step != Pool(w, Crash)
    ensures Underway(c, Apply(c, a, step), w, id, r)
    ensures Standing(Apply(c, a, step), w, id) == Standing(a, w, id)
  {
    StepInv(c, a, step);
    StaysSole(c, a, step, w, id);
    OthersKeepStanding(c, a, step, w, id);
    OthersKeepRecord(c, a, step, w, id, r);
  }

  lemma {:induction false} OwnStep(c: Config, a: World, w: WorkerId, id: JobId, act: LeaseAct, r: Option<Record>)
    requires Underway(c, a, w, id, r) && LeaseEnabled(a, w, id, act) && Follow(a.flight[(w, id)], act).Some?
    ensures Underway(c, Apply(c, a, Lease(w, id, act)), w, id, AfterAct(r, act))
    ensures Standing(Apply(c, a, Lease(w, id, act)), w, id) == Follow(a.flight[(w, id)], act)
  {
    StepInv(c, a, Lease(w, id, act));
    StaysSole(c, a, Lease(w, id, act), w, id);
    OwnStanding(c, a, w, id, act);
    OwnRecord(c, a, w, id, act, r);
  }

  lemma {:induction false} OwnFirst(steps: seq<Step>, w: WorkerId, id: JobId)
    requires steps != []
    ensures var acts := OwnActs(steps, w, id);
            if IsOwn(steps[0], w, id) then acts != [] && acts[0] == steps[0].lease && acts[1..] == OwnActs(steps[1..], w, id)
            else acts == OwnActs(steps[1..], w, id)
  {
    assert [] + OwnActs(steps[1..], w, id) == OwnActs(steps[1..], w, id);
  }

  /**
    A loop at the start of a path of acts, after any run in which its own acts are the first `k` of them:
    it stands where they lead, the next one is permitted, and the record is what they wrote.
   */
  lemma {:induction false} Interleaved(
    c: Config, a: World, w: WorkerId, id: JobId, acts: seq<LeaseAct>, r: Option<Record>, steps: seq<Step>, k: nat)
    requires Underway(c, a, w, id, r) && Path(Standing(a, w, id), acts) && k < |acts|
    requires ValidRun(c, a, steps) && Spares(steps, w) && OwnActs(steps, w, id) == acts[..k]
    ensures var b := Exec(c, a, steps);
            && Underway(c, b, w, id, Written(r, acts[..k]))
            && Standing(b, w, id) == StageAfter(Standing(a, w, id), acts[..k])
            && Permits(b.flight[(w, id)], acts[k])
    decreases steps
  {
    if steps != [] {
      OwnFirst(steps, w, id);
      var step := steps[0];
      if IsOwn(step, w, id) {
        assert step.lease == acts[0];
        assert acts[..k][1..] == acts[1..][..k - 1];
        OwnStep(c, a, w, id, acts[0], r);
        Interleaved(c, Apply(c, a, step), w, id, acts[1..], AfterAct(r, acts[0]), steps[1..], k - 1);
      } else {
        OthersStep(c, a, step, w, id, r);
        Interleaved(c, Apply(c, a, step), w, id, acts, r, steps[1..], k);
      }
    }
  }

  // ---- deliveries and claims ----

  lemma {:induction false} InHandIsUnderway(c: Config, a: World, w: WorkerId, id: JobId)
    requires ValidConfig(c) && Inv(c, a) && At(a, w, id)
    requires a.flight[(w, id)].Delivered? || a.flight[(w, id)].Moved?
    ensures Underway(c, a, w, id, None)
  {
    assert StageOk(a, w, id, a.flight[(w, id)]);
    assert Holds(a.store, w, id);
    SoleFlight(a, w, id);
  }

  /**
    The worker's code never does what the step relation forbids. From any world that satisfies the invariant
    and has the job delivered, take any run in which this worker's acts on the job are the first `k` of what
    its code does, for any outcome of body, watcher, both saves and release, and the pool does not die. Then
    the next act is enabled; a returning watcher asks only that the flag is stored by then.
   */
  lemma {:induction false} DeliveryIsAProtocolRun(
    c: Config, a: World, w: WorkerId, id: JobId, registered: bool, race: Race, first: Fate, second: Fate, release: Fate,
    steps: seq<Step>, k: nat)
    requires ValidConfig(c) && Inv(c, a) && At(a, w, id) && a.flight[(w, id)].Delivered?
    requires ValidRun(c, a, steps) && Spares(steps, w)
    requires var acts := DeliverActs(a.flight[(w, id)].copy, registered, race, first, second, release);
             k < |acts| && OwnActs(steps, w, id) == acts[..k]
    ensures var acts := DeliverActs(a.flight[(w, id)].copy, registered, race, first, second, release);
            var b := Exec(c, a, steps);
            && Inv(c, b) && At(b, w, id)
            && (LeaseEnabled(b, w, id, acts[k]) <==> (acts[k].Fire? ==> Flagged(b.store, id)))
            && (k == |acts| - 1 ==> LeaseEnabled(b, w, id, acts[k]) && !At(ApplyLease(c, b, w, id, acts[k]), w, id))
  {
    var copy := a.flight[(w, id)].copy;
    InHandIsUnderway(c, a, w, id);
    DeliverPath(copy, registered, race, first, second, release);
    NextAct(c, a, w, id, DeliverActs(copy, registered, race, first, second, release), steps, k);
  }

  /** On a path that lets go of its job at its end, the next act is enabled, and the last one lets go. */
  lemma {:induction false} NextAct(
    c: Config, a: World, w: WorkerId, id: JobId, acts: seq<LeaseAct>, steps: seq<Step>, k: nat)
    requires Underway(c, a, w, id, None) && Path(Standing(a, w, id), acts) && StageAfter(Standing(a, w, id), acts) == None
    requires ValidRun(c, a, steps) && Spares(steps, w) && k < |acts| && OwnActs(steps, w, id) == acts[..k]
    requires acts[k] != ClaimCall(Answered)
    ensures var b := Exec(c, a, steps);
            && Inv(c, b) && At(b, w, id)
            && (LeaseEnabled(b, w, id, acts[k]) <==> (acts[k].Fire? ==> Flagged(b.store, id)))
            && (k == |acts| - 1 ==> LeaseEnabled(b, w, id, acts[k]) && !At(ApplyLease(c, b, w, id, acts[k]), w, id))
  {
    var b := Exec(c, a, steps);
    Interleaved(c, a, w, id, acts, None, steps, k);
    EnabledIffPermitted(b.store, id, b.flight[(w, id)], acts[k]);
    if k == |acts| - 1 {
      LastAct(a.flight[(w, id)], acts);
      OwnStanding(c, b, w, id, acts[k]);
    }
  }

  /** Where a path lets go of its job, its last act leads nowhere and is not `Fire`. */
  lemma {:induction false} LastAct(st: Stage, acts: seq<LeaseAct>)
    requires acts != [] && Path(Some(st), acts) && StageAfter(Some(st), acts) == None
    ensures var last := |acts| - 1;
            var before := StageAfter(Some(st), acts[..last]);
            before.Some? && Follow(before.value, acts[last]) == None && !acts[last].Fire?
    decreases acts
  {
    var last := |acts| - 1;
    if last == 0 {
      assert acts[1..] == [] && acts[..0] == [];
    } else {
      assert acts[..last][1..] == acts[1..][..last - 1];
      LastAct(Follow(st, acts[0]).value, acts[1..]);
    }
  }

  /** A cancel request that lands while the body runs lets the watcher return and the job be saved as CANCELLED. */
  lemma {:induction false} CancelReachesTheBody(c: Config, a: World, w: WorkerId, id: JobId)
    requires ValidConfig(c) && Inv(c, a) && At(a, w, id) && a.flight[(w, id)].Racing?
    ensures var copy, b := a.flight[(w, id)].copy, Apply(c, a, Other(Cancel(id)));
            && LeaseEnabled(b, w, id, Fire)
            && var d, save := ApplyLease(c, b, w, id, Fire), SaveAs(copy, Cancelled, None, None, Answered);
               && LeaseEnabled(d, w, id, save)
               && id in ApplyLease(c, d, w, id, save).store.jobs
               && ApplyLease(c, d, w, id, save).store.jobs[id].status == Cancelled
  {
    assert StageOk(a, w, id, a.flight[(w, id)]);
    OthersKeepStanding(c, a, Other(Cancel(id)), w, id);
  }

  /** BLMOVE is always open to a pool that is up, and one that answers with an id leaves its loop at that id. */
  lemma {:induction false} MoveBeginsAClaim(c: Config, a: World, w: WorkerId, fate: Fate)
    requires Inv(c, a) && w in a.up
    ensures Enabled(c, a, Pool(w, MoveCall(fate)))
    ensures a.store.queue != [] ==>
              Standing(Apply(c, a, Pool(w, MoveCall(fate))), w, a.store.queue[0]) == if fate.Answered? then Some(Moved) else None
  {
    if a.store.queue != [] {
      var id := a.store.queue[0];
      assert id in a.store.queue;
      assert !At(a, w, id) by {
        if At(a, w, id) {
          InFlightIsNotQueued(c, a, w, id);
        }
      }
    }
  }

  /**
    The same for `claim` once BLMOVE has answered: whatever happens before the script and before the recovery,
    each is enabled. The script always finds the record, and its answer leaves the loop holding the lease of a
    RUNNING job with exactly the record that is then stored.
   */
  lemma {:induction false} ClaimIsAProtocolRun(
    c: Config, a: World, w: WorkerId, id: JobId, script: Fate, recovery: Fate, steps: seq<Step>, k: nat)
    requires ValidConfig(c) && Inv(c, a) && At(a, w, id) && a.flight[(w, id)].Moved?
    requires ValidRun(c, a, steps) && Spares(steps, w)
    requires k < |ClaimActs(true, script, recovery)| && OwnActs(steps, w, id) == ClaimActs(true, script, recovery)[..k]
    ensures var acts, b := ClaimActs(true, script, recovery), Exec(c, a, steps);
            && Inv(c, b) && LeaseEnabled(b, w, id, acts[k])
            && var d := ApplyLease(c, b, w, id, acts[k]);
               if acts[k] == ClaimCall(Answered)
               then Owned(d.store, w, id) && Standing(d, w, id) == Some(Delivered(d.store.jobs[id]))
               else k == |acts| - 1 ==> !At(d, w, id)
  {
    var acts, b := ClaimActs(true, script, recovery), Exec(c, a, steps);
    InHandIsUnderway(c, a, w, id);
    ClaimPath(script, recovery);
    Interleaved(c, a, w, id, acts, None, steps, k);
    EnabledIffPermitted(b.store, id, b.flight[(w, id)], acts[k]);
    assert StageOk(b, w, id, b.flight[(w, id)]);
    if acts[k] != ClaimCall(Answered) && k == |acts| - 1 {
      LastAct(Moved, acts);
      OwnStanding(c, b, w, id, acts[k]);
    }
  }

  lemma {:induction false} WrittenLast(r: Option<Record>, acts: seq<LeaseAct>)
    requires acts != []
    ensures Written(r, acts) == AfterAct(Written(r, acts[..|acts| - 1]), acts[|acts| - 1])
    decreases acts
  {
    if |acts| == 1 {
      assert acts[1..] == [] && acts[..0] == [];
    } else {
      assert acts[..|acts| - 1][1..] == acts[1..][..|acts| - 2];
      WrittenLast(AfterAct(r, acts[0]), acts[1..]);
    }
  }

  /** How a loop that let go of its job with act `last` left it: `b` and `d` are the worlds around that act. */
  predicate LeftBehind(b: World, d: World, w: WorkerId, id: JobId, last: LeaseAct, r: Option<Record>) {
    && !At(d, w, id) && Reads(d, id, r) && Known(d, id)
    && if r.Some? then !Holds(d.store, w, id) && d.store.queue == b.store.queue
       else if last == ReleaseCall(true) then
         !Holds(d.store, w, id) && d.store.queue == b.store.queue + [id] && d.store.jobs[id].status == Queued
       else Holds(d.store, w, id) && d.store.queue == b.store.queue
  }

  /**
    Every delivery, under any interleaving: it ends acked with the record its last effective save wrote (or
    that record was since consumed), or at the end of the queue after a release, or still on this worker's list.
    What that record can be is `RunOutcome`.
   */
  lemma {:induction false} DeliveryOutcome(
    c: Config, a: World, w: WorkerId, id: JobId, registered: bool, race: Race, first: Fate, second: Fate, release: Fate,
    steps: seq<Step>)
    requires ValidConfig(c) && Inv(c, a) && At(a, w, id) && a.flight[(w, id)].Delivered?
    requires ValidRun(c, a, steps) && Spares(steps, w)
    requires var acts := DeliverActs(a.flight[(w, id)].copy, registered, race, first, second, release);
             |acts| > 0 && OwnActs(steps, w, id) == acts[..|acts| - 1]
    ensures var copy := a.flight[(w, id)].copy;
            var acts, b := DeliverActs(copy, registered, race, first, second, release), Exec(c, a, steps);
            && LeaseEnabled(b, w, id, acts[|acts| - 1])
            && LeftBehind(b, ApplyLease(c, b, w, id, acts[|acts| - 1]), w, id, acts[|acts| - 1],
                          Written(None, RunActs(copy, registered, race, first, second)))
  {
    var copy, b := a.flight[(w, id)].copy, Exec(c, a, steps);
    var acts := DeliverActs(copy, registered, race, first, second, release);
    var last := acts[|acts| - 1];
    DeliveryIsAProtocolRun(c, a, w, id, registered, race, first, second, release, steps, |acts| - 1);
    InHandIsUnderway(c, a, w, id);
    DeliverPath(copy, registered, race, first, second, release);
    Interleaved(c, a, w, id, acts, None, steps, |acts| - 1);
    WrittenLast(None, acts);
    DeliverWrites(copy, registered, race, first, second, release);
    LastActShape(copy, registered, race, first, second, release);
    LastPlace(c, b, w, id, last, Written(None, acts[..|acts| - 1]));
  }

  /** Releasing writes nothing. */
  lemma {:induction false} DeliverWrites(copy: Record, registered: bool, race: Race, first: Fate, second: Fate, release: Fate)
    ensures Written(None, DeliverActs(copy, registered, race, first, second, release)) ==
            Written(None, RunActs(copy, registered, race, first, second))
  {
    var run, acts := RunActs(copy, registered, race, first, second), DeliverActs(copy, registered, race, first, second, release);
    if CutShort(run) {
      WrittenLast(None, acts);
      assert acts[..|acts| - 1] == run;
    } else {
      assert acts == run;
    }
  }

  /** A delivery ends in a save or a release. */
  lemma {:induction false} LastActShape(copy: Record, registered: bool, race: Race, first: Fate, second: Fate, release: Fate)
    ensures var acts := DeliverActs(copy, registered, race, first, second, release);
            acts != [] && (acts[|acts| - 1].SaveCall? || acts[|acts| - 1].ReleaseCall?)
  {
    var acts := RunActs(copy, registered, race, first, second);
    if !copy.cancel && registered {
      var rest := RaceActs(copy, race, first, second);
      assert acts[|acts| - 1] == rest[|rest| - 1];
    }
  }

  lemma {:induction false} LastPlace(c: Config, b: World, w: WorkerId, id: JobId, last: LeaseAct, r: Option<Record>)
    requires Inv(c, b) && LeaseEnabled(b, w, id, last) && (last.SaveCall? || last.ReleaseCall?) && Reads(b, id, r)
    requires !At(ApplyLease(c, b, w, id, last), w, id)
    ensures LeftBehind(b, ApplyLease(c, b, w, id, last), w, id, last, AfterAct(r, last))
  {
    var d := ApplyLease(c, b, w, id, last);
    assert StageOk(b, w, id, b.flight[(w, id)]) && RecordOk(b, id);
    LeaseInv(c, b, w, id, last);
    OwnRecord(c, b, w, id, last, r);
    EveryDeliveryIsAccountedFor(c, b, w, id, last);
    assert RecordOk(d, id);
  }

  // ---- what others may do while this pool awaits ----

  /**
    A step somebody else may take while one task of pool `w` awaits: anything but the pool's own lifecycle and
    the awaiting loop's own job. The pool's other loops move and handle jobs only while there are loops, and
    it beats only while upkeep runs.
   */
  predicate Theirs(step: Step, w: WorkerId, job: Option<JobId>, looping: bool, upkeep: bool) {
    match step
    case Lease(v, id, _) => v == w ==> looping && job != Some(id)
    case Pool(v, act) => v == w ==> (act.MoveCall? && looping) || (act.Beat? && upkeep)
    case Other(_) => true
  }

  predicate AllTheirs(steps: seq<Step>, w: WorkerId, job: Option<JobId>, looping: bool, upkeep: bool) {
    forall i :: 0 <= i < |steps| ==> Theirs(steps[i], w, job, looping, upkeep)
  }

  ghost predicate NoFlight(a: World, w: WorkerId) {
    forall id :: !At(a, w, id)
  }

  /** Without loops nothing comes into this pool's hands. */
  lemma {:induction false} NothingTakenUp(c: Config, a: World, step: Step, w: WorkerId, upkeep: bool, id: JobId)
    requires Enabled(c, a, step) && Theirs(step, w, None, false, upkeep) && At(Apply(c, a, step), w, id)
    ensures At(a, w, id)
  {
    match step
    case Lease(_, _, _) =>
    case Pool(_, act) =>
    case Other(act) => assert ApplyOther(c, a, act).flight == a.flight;
  }

  lemma {:induction false} TheirStep(c: Config, a: World, step: Step, w: WorkerId, job: Option<JobId>, looping: bool, upkeep: bool)
    requires Enabled(c, a, step) && Theirs(step, w, job, looping, upkeep)
    ensures var b := Apply(c, a, step);
            && (w in b.up <==> w in a.up) && (w in b.draining <==> w in a.draining)
            && (!looping && NoFlight(a, w) ==> NoFlight(b, w))
  {
    if !looping {
      forall id | At(Apply(c, a, step), w, id)
        ensures At(a, w, id)
      {
        NothingTakenUp(c, a, step, w, upkeep, id);
      }
    }
  }

  /** Others leave the awaiting loop where it stands and the pool as it is. */
  lemma {:induction false} TheirRun(
    c: Config, a: World, steps: seq<Step>, w: WorkerId, job: Option<JobId>, looping: bool, upkeep: bool)
    requires ValidConfig(c) && Inv(c, a) && ValidRun(c, a, steps) && AllTheirs(steps, w, job, looping, upkeep)
    requires job.Some? ==> At(a, w, job.value)
    ensures var b := Exec(c, a, steps);
            && Inv(c, b)
            && (job.Some? ==> Standing(b, w, job.value) == Standing(a, w, job.value) && OwnActs(steps, w, job.value) == [])
            && (w in b.up <==> w in a.up) && (w in b.draining <==> w in a.draining)
            && (!looping && NoFlight(a, w) ==> NoFlight(b, w))
    decreases steps
  {
    if steps != [] {
      StepInv(c, a, steps[0]);
      TheirStep(c, a, steps[0], w, job, looping, upkeep);
      if job.Some? {
        OthersKeepStanding(c, a, steps[0], w, job.value);
        OwnFirst(steps, w, job.value);
      }
      TheirRun(c, Apply(c, a, steps[0]), steps[1..], w, job, looping, upkeep);
    }
  }

  lemma {:induction false} RunConcat(c: Config, a: World, x: seq<Step>, y: seq<Step>)
    requires ValidRun(c, a, x) && ValidRun(c, Exec(c, a, x), y)
    ensures ValidRun(c, a, x + y) && Exec(c, a, x + y) == Exec(c, Exec(c, a, x), y)
    decreases x
  {
    if x == [] {
      assert x + y == y;
    } else {
      assert (x + y)[1..] == x[1..] + y;
      RunConcat(c, Apply(c, a, x[0]), x[1..], y);
    }
  }

  lemma {:induction false} RunSnoc(c: Config, a: World, x: seq<Step>, step: Step)
    requires ValidRun(c, a, x) && Enabled(c, Exec(c, a, x), step)
    ensures ValidRun(c, a, x + [step]) && Exec(c, a, x + [step]) == Apply(c, Exec(c, a, x), step)
  {
    var b := Exec(c, a, x);
    assert [step][1..] == [];
    assert ValidRun(c, Apply(c, b, step), []);
    RunConcat(c, a, x, [step]);
    assert Exec(c, b, [step]) == Exec(c, Apply(c, b, step), []);
  }

  lemma {:induction false} OwnConcat(x: seq<Step>, y: seq<Step>, w: WorkerId, id: JobId)
    ensures OwnActs(x + y, w, id) == OwnActs(x, w, id) + OwnActs(y, w, id)
    decreases x
  {
    if x == [] {
      assert x + y == y;
    } else {
      assert (x + y)[1..] == x[1..] + y;
      OwnConcat(x[1..], y, w, id);
    }
  }

  /** What a run so far, in two parts, and one more act of this pool on a job make together. */
  lemma {:induction false} ActExtends(c: Config, past: seq<Step>, turn: seq<Step>, w: WorkerId, job: JobId, act: LeaseAct)
    requires Reachable(c, past + turn) && LeaseEnabled(Exec(c, INIT, past + turn), w, job, act)
    ensures var a, next := Exec(c, INIT, past + turn), turn + [Lease(w, job, act)];
            && Reachable(c, past + next) && Exec(c, INIT, past + next) == ApplyLease(c, a, w, job, act)
            && OwnActs(next, w, job) == OwnActs(turn, w, job) + [act]
            && (act != ClaimCall(Answered) ==> Standing(ApplyLease(c, a, w, job, act), w, job) == Follow(a.flight[(w, job)], act))
            && ApplyLease(c, a, w, job, act).up == a.up && ApplyLease(c, a, w, job, act).draining == a.draining
  {
    var step := Lease(w, job, act);
    ReachableInv(c, past + turn);
    RunSnoc(c, INIT, past + turn, step);
    assert past + turn + [step] == past + (turn + [step]);
    if act != ClaimCall(Answered) {
      OwnStanding(c, Exec(c, INIT, past + turn), w, job, act);
    }
    OwnConcat(turn, [step], w, job);
    OwnFirst([step], w, job);
  }

  /** What a run so far, in two parts, and what others do during one await make together. */
  lemma {:induction false} AwaitExtends(
    c: Config, past: seq<Step>, turn: seq<Step>, steps: seq<Step>, w: WorkerId, job: Option<JobId>, looping: bool, upkeep: bool)
    requires Reachable(c, past + turn)
    requires ValidRun(c, Exec(c, INIT, past + turn), steps) && AllTheirs(steps, w, job, looping, upkeep)
    requires job.Some? ==> At(Exec(c, INIT, past + turn), w, job.value)
    ensures var a := Exec(c, INIT, past + turn);
            var b, next := Exec(c, a, steps), turn + steps;
            && Reachable(c, past + next) && Exec(c, INIT, past + next) == b
            && (job.Some? ==>
                  && Standing(b, w, job.value) == Standing(a, w, job.value)
                  && OwnActs(next, w, job.value) == OwnActs(turn, w, job.value))
            && (w in b.up <==> w in a.up) && (w in b.draining <==> w in a.draining)
            && (!looping && NoFlight(a, w) ==> NoFlight(b, w))
  {
    ReachableInv(c, past + turn);
    TheirRun(c, Exec(c, INIT, past + turn), steps, w, job, looping, upkeep);
    RunConcat(c, INIT, past + turn, steps);
    assert past + turn + steps == past + (turn + steps);
    if job.Some? {
      OwnConcat(turn, steps, w, job.value);
    }
  }

  /** A delivered or racing job has its record stored. */
  lemma {:induction false} InHandIsStored(c: Config, trace: seq<Step>, w: WorkerId, job: JobId)
    requires Reachable(c, trace) && At(Exec(c, INIT, trace), w, job)
    requires var st := Exec(c, INIT, trace).flight[(w, job)]; st.Delivered? || st.Racing?
    ensures job in Exec(c, INIT, trace).store.jobs
  {
    ReachableInv(c, trace);
    var a := Exec(c, INIT, trace);
    assert StageOk(a, w, job, a.flight[(w, job)]);
  }

  /** So has a job that was moved and not yet claimed. */
  lemma {:induction false} MovedIsStored(c: Config, trace: seq<Step>, w: WorkerId, job: JobId)
    requires Reachable(c, trace) && Standing(Exec(c, INIT, trace), w, job) == Some(Moved)
    ensures job in Exec(c, INIT, trace).store.jobs
  {
    ReachableInv(c, trace);
    var a := Exec(c, INIT, trace);
    assert StageOk(a, w, job, a.flight[(w, job)]);
  }

  /** The pool's lifecycle steps. */
  predicate IsLifecycle(act: PoolAct) {
    act.Register? || act.StopLoops? || act.Withdraw?
  }

  lemma {:induction false} LifecycleKeepsFlight(a: World, w: WorkerId, act: PoolAct)
    requires IsLifecycle(act)
    ensures act.StopLoops? && w in a.up && NoFlight(a, w) ==> PoolEnabled(a, w, act)
    ensures PoolEnabled(a, w, act) && NoFlight(a, w) ==> NoFlight(ApplyPool(a, w, act), w)
  {
    if NoFlight(a, w) {
      forall k | k in a.flight
        ensures k.0 != w
      {
        assert k == (k.0, k.1);
        assert !At(a, w, k.1);
      }
    }
    if PoolEnabled(a, w, act) {
      assert ApplyPool(a, w, act).flight == a.flight;
      assert forall id :: At(ApplyPool(a, w, act), w, id) ==> At(a, w, id);
    }
  }

  /** A run in which a pool's step is taken last. */
  lemma {:induction false} PoolExtends(c: Config, past: seq<Step>, turn: seq<Step>, w: WorkerId, act: PoolAct)
    requires Reachable(c, past + turn) && PoolEnabled(Exec(c, INIT, past + turn), w, act)
    ensures var next := past + (turn + [Pool(w, act)]);
            Reachable(c, next) && Exec(c, INIT, next) == ApplyPool(Exec(c, INIT, past + turn), w, act)
  {
    RunSnoc(c, INIT, past + turn, Pool(w, act));
    assert past + turn + [Pool(w, act)] == past + (turn + [Pool(w, act)]);
  }

  // ---- loops can always end ----

  /** The jobs some loop of pool `w` has in hand. */
  function InHandOf(a: World, w: WorkerId): set<JobId> {
    set k | k in a.flight && k.0 == w :: k.1
  }

  /** One act with which a loop lets go of a job, from every stage. */
  function LetGo(st: Stage): LeaseAct {
    match st
    case Moved => ClaimCall(Interrupted(false))
    case ClaimFailed => Recover(false)
    case Vanished => Discard(false)
    case Releasing => ReleaseCall(false)
    case _ => Abandon
  }

  lemma {:induction false} LettingGo(c: Config, a: World, w: WorkerId, id: JobId)
    requires At(a, w, id)
    ensures var act := LetGo(a.flight[(w, id)]);
            LeaseEnabled(a, w, id, act) && InHandOf(ApplyLease(c, a, w, id, act), w) == InHandOf(a, w) - {id}
  {
    var b := ApplyLease(c, a, w, id, LetGo(a.flight[(w, id)]));
    assert b.flight == a.flight - {(w, id)};
    forall x
      ensures x in InHandOf(b, w) <==> x in InHandOf(a, w) && x != id
    {
      assert x in InHandOf(b, w) <==> (w, x) in b.flight;
      assert x in InHandOf(a, w) <==> (w, x) in a.flight;
    }
  }

  /** From every world there is a run of this pool's loops alone after which it has nothing in hand. */
  lemma {:induction false} LoopsCanEnd(c: Config, a: World, w: WorkerId, upkeep: bool) returns (steps: seq<Step>)
    ensures ValidRun(c, a, steps) && AllTheirs(steps, w, None, true, upkeep) && NoFlight(Exec(c, a, steps), w)
    decreases InHandOf(a, w)
  {
    if id :| id in InHandOf(a, w) {
      var step := Lease(w, id, LetGo(a.flight[(w, id)]));
      LettingGo(c, a, w, id);
      var rest := LoopsCanEnd(c, Apply(c, a, step), w, upkeep);
      steps := [step] + rest;
      assert steps[1..] == rest;
    } else {
      steps := [];
      forall id
        ensures !At(a, w, id)
      {
        assert At(a, w, id) ==> id in InHandOf(a, w);
      }
    }
  }

  // ---- one job from start to finish ----

  /** The steps of a job that is submitted, claimed, completed and collected, with every call answered. */
  function RoundTrip(w: WorkerId, id: JobId, r: Record, value: Bytes): seq<Step> {
    [Pool(w, Register(Answered)), Other(Submit(id, r)), Pool(w, MoveCall(Answered)), Lease(w, id, ClaimCall(Answered)),
     Lease(w, id, Start), Lease(w, id, SaveCall(CompletedRecord(r, value), Answered)), Other(Observe(id)), Other(TakeCall(id, Answered))]
  }

  function CompletedRecord(r: Record, value: Bytes): Record {
    r.(status := Completed, attempts := 1, result := Some(value))
  }

  lemma {:induction false} RoundTripToClaim(c: Config, w: WorkerId, id: JobId, r: Record)
    requires ValidConfig(c) && Fresh(r)
    ensures var steps := RoundTrip(w, id, r, [])[..4];
            && ValidRun(c, INIT, steps)
            && Standing(Exec(c, INIT, steps), w, id) == Some(Delivered(r.(status := Running, attempts := 1)))
            && id in Exec(c, INIT, steps).store.jobs
            && Exec(c, INIT, steps).store.jobs[id] == r.(status := Running, attempts := 1)
            && Exec(c, INIT, steps).taken == []
  {
    var steps := RoundTrip(w, id, r, []);
    assert steps[..0] == [] && steps[..1] == steps[..0] + [steps[0]] && steps[..2] == steps[..1] + [steps[1]];
    assert steps[..3] == steps[..2] + [steps[2]] && steps[..4] == steps[..3] + [steps[3]];
    RunSnoc(c, INIT, steps[..0], steps[0]);
    RunSnoc(c, INIT, steps[..1], steps[1]);
    assert Exec(c, INIT, steps[..2]).store.queue == [id];
    RunSnoc(c, INIT, steps[..2], steps[2]);
    RunSnoc(c, INIT, steps[..3], steps[3]);
  }

  lemma {:induction false} RoundTripToSave(c: Config, w: WorkerId, id: JobId, r: Record, value: Bytes)
    requires ValidConfig(c) && Fresh(r)
    ensures var steps := RoundTrip(w, id, r, value)[..6];
            && ValidRun(c, INIT, steps)
            && id in Exec(c, INIT, steps).store.jobs && Exec(c, INIT, steps).store.jobs[id] == CompletedRecord(r, value)
            && Exec(c, INIT, steps).taken == []
  {
    var steps := RoundTrip(w, id, r, value);
    RoundTripToClaim(c, w, id, r);
    assert steps[..4] == RoundTrip(w, id, r, [])[..4];
    assert steps[..5] == steps[..4] + [steps[4]] && steps[..6] == steps[..5] + [steps[5]];
    RunSnoc(c, INIT, steps[..4], steps[4]);
    RunSnoc(c, INIT, steps[..5], steps[5]);
  }

  /** A job that is submitted, run and collected comes back completed, with its result, its payload and one attempt. */
  lemma {:induction false} OneJobRoundTrip(c: Config, w: WorkerId, id: JobId, r: Record, value: Bytes)
    requires ValidConfig(c) && Fresh(r)
    ensures var steps := RoundTrip(w, id, r, value);
            && Reachable(c, steps)
            && Exec(c, INIT, steps).taken == [(id, r.(status := Completed, attempts := 1, result := Some(value)))]
            && id !in Exec(c, INIT, steps).store.jobs
  {
    var steps := RoundTrip(w, id, r, value);
    RoundTripToSave(c, w, id, r, value);
    assert steps[..7] == steps[..6] + [steps[6]] && steps == steps[..7] + [steps[7]];
    RunSnoc(c, INIT, steps[..6], steps[6]);
    RunSnoc(c, INIT, steps[..7], steps[7]);
  }
}
