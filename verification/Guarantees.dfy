/** What every run of the lease protocol guarantees, and which assumptions that rests on. */
module Guarantees {
  import opened Records
  import opened Stores
  import opened Reaper
  import opened Places
  import opened Protocol
  import opened Invariant

  /** Any run from the empty store. */
  predicate Reachable(c: Config, steps: seq<Step>) {
    ValidConfig(c) && ValidRun(c, INIT, steps)
  }

  lemma {:induction false} ReachableInv(c: Config, steps: seq<Step>)
    requires Reachable(c, steps)
    ensures Inv(c, Exec(c, INIT, steps))
  {
    InitInv(c);
    RunInv(c, INIT, steps);
  }

  // ---- no job is lost or duplicated ----

  /** A non-terminal job's id occurs exactly once in the whole store, any other id nowhere. */
  lemma {:induction false} NoJobLostOrDuplicated(c: Config, steps: seq<Step>, id: JobId)
    requires Reachable(c, steps)
    ensures var s := Exec(c, INIT, steps).store; Occurrences(s, id) == if Live(s, id) then 1 else 0
  {
    ReachableInv(c, steps);
    PlacedMeansOnce(Exec(c, INIT, steps).store, id);
  }

  /** The branch of `claim` for a vanished record is never entered, and no live record ever expires. */
  lemma {:induction false} NoLiveRecordVanishes(c: Config, steps: seq<Step>, w: WorkerId, id: JobId)
    requires Reachable(c, steps)
    ensures var a := Exec(c, INIT, steps);
            && !(At(a, w, id) && a.flight[(w, id)].Vanished?)
            && (Live(a.store, id) ==> id !in a.store.expires)
            && (At(a, w, id) && a.flight[(w, id)].Moved? ==> Claim(a.store, id).1.Some?)
  {
    ReachableInv(c, steps);
    var a := Exec(c, INIT, steps);
    assert RecordOk(a, id);
  }

  // ---- every lease stays visible ----

  /** A pool that is up is registered with a fresh beat, and no lease is held outside the liveness set. */
  lemma {:induction false} EveryLeaseIsVisible(c: Config, steps: seq<Step>, w: WorkerId)
    requires Reachable(c, steps)
    ensures var a := Exec(c, INIT, steps);
            && (Leases(a.store, w) != [] ==> w in a.store.beats)
            && (w in a.up ==> w in a.store.beats && w !in Expired(a.store, c.workerTtl))
            && (forall id :: At(a, w, id) ==> w in a.up)
  {
    ReachableInv(c, steps);
  }

  // ---- terminal is absorbing ----

  predicate Finished(a: World, id: JobId) {
    id in a.retired || (id in a.store.jobs && Terminal(a.store.jobs[id].status))
  }

  /** The two facts of the invariant that single-job step lemmas rest on. */
  predicate Sound(a: World, step: Step, id: JobId) {
    RecordOk(a, id) && (ClaimsJob(step, id) ==> Live(a.store, id))
  }

  predicate ClaimsJob(step: Step, id: JobId) {
    step.Lease? && step.id == id && step.lease.ClaimCall?
  }

  lemma {:induction false} InvSound(c: Config, a: World, step: Step, id: JobId)
    requires Inv(c, a) && Enabled(c, a, step)
    ensures Sound(a, step, id)
  {
    assert RecordOk(a, id);
    if ClaimsJob(step, id) {
      assert StageOk(a, step.w, step.id, a.flight[(step.w, step.id)]);
    }
  }

  lemma {:induction false} FinishedLease(c: Config, s: Store, w: WorkerId, id: JobId, act: LeaseAct, x: JobId)
    requires x in s.jobs && !Live(s, x) && !(act.ClaimCall? && x == id)
    requires act.SaveCall? ==> Terminal(act.record.status)
    ensures x in LeaseStore(c, s, w, id, act).jobs && !Live(LeaseStore(c, s, w, id, act), x)
  {
  }

  lemma {:induction false} FinishedOther(c: Config, a: World, act: OtherAct, x: JobId)
    requires OtherEnabled(c, a, act) && Finished(a, x)
    ensures Finished(ApplyOther(c, a, act), x) && a.retired <= ApplyOther(c, a, act).retired
  {
    match act
    case ReapCall => ReapKeepsRecord(a.store, c.workerTtl, x);
    case Submit(_, _) =>
    case Cancel(_) =>
    case Observe(_) =>
    case TakeCall(_, _) =>
    case Expire(_) =>
    case Tick(_) =>
  }

  lemma {:induction false} FinishedStep(c: Config, a: World, step: Step, id: JobId)
    requires Sound(a, step, id) && Enabled(c, a, step) && Finished(a, id)
    ensures Finished(Apply(c, a, step), id)
    ensures id in a.retired ==> id in Apply(c, a, step).retired
  {
    match step
    case Lease(w, x, act) =>
      if id in a.store.jobs {
        FinishedLease(c, a.store, w, x, act, id);
      }
    case Pool(w, act) => PoolKeepsJobs(a, w, act);
    case Other(act) => FinishedOther(c, a, act, id);
  }

  lemma {:induction false} FinishedRun(c: Config, a: World, steps: seq<Step>, id: JobId)
    requires ValidConfig(c) && Inv(c, a) && ValidRun(c, a, steps) && Finished(a, id)
    ensures Finished(Exec(c, a, steps), id)
    ensures id in a.retired ==> id in Exec(c, a, steps).retired
    decreases steps
  {
    if steps != [] {
      InvSound(c, a, steps[0], id);
      FinishedStep(c, a, steps[0], id);
      StepInv(c, a, steps[0]);
      FinishedRun(c, Apply(c, a, steps[0]), steps[1..], id);
    }
  }

  /** Once terminal, a record never becomes QUEUED or RUNNING again; once gone, it never comes back. */
  lemma {:induction false} TerminalIsAbsorbing(c: Config, before: seq<Step>, after: seq<Step>, id: JobId)
    requires Reachable(c, before) && ValidRun(c, Exec(c, INIT, before), after)
    requires Finished(Exec(c, INIT, before), id)
    ensures var a, b := Exec(c, INIT, before), Exec(c, Exec(c, INIT, before), after);
            && (id in b.store.jobs ==> Terminal(b.store.jobs[id].status))
            && (id !in a.store.jobs ==> id !in b.store.jobs)
  {
    ReachableInv(c, before);
    var a := Exec(c, INIT, before);
    FinishedRun(c, a, after, id);
    RunInv(c, a, after);
    assert RecordOk(Exec(c, a, after), id);
  }

  /** No two `take_result` calls return the same job, and what one returns is always terminal. */
  lemma {:induction false} ResultsAreTakenOnce(c: Config, steps: seq<Step>, i: nat, j: nat)
    requires Reachable(c, steps) && i < |Exec(c, INIT, steps).taken| && j < |Exec(c, INIT, steps).taken|
    ensures var taken := Exec(c, INIT, steps).taken;
            && Terminal(taken[i].1.status)
            && (taken[i].0 == taken[j].0 <==> i == j)
            && taken[i].0 !in Exec(c, INIT, steps).store.jobs
  {
    ReachableInv(c, steps);
    assert RecordOk(Exec(c, INIT, steps), Exec(c, INIT, steps).taken[i].0);
  }

  // ---- attempts ----

  predicate ExecutesClaim(step: Step, id: JobId) {
    ClaimsJob(step, id) && TookEffect(step.lease.fate)
  }

  /** How many claim scripts the run executed for `id`, whether or not their replies arrived. */
  function ClaimScripts(steps: seq<Step>, id: JobId): nat {
    if steps == [] then 0
    else (if ExecutesClaim(steps[0], id) then 1 else 0)
         + ClaimScripts(steps[1..], id)
  }

  function Tally(a: World, id: JobId): nat {
    if id in a.claims then a.claims[id] else 0
  }

  lemma {:induction false} TallyStep(c: Config, a: World, step: Step, id: JobId)
    requires Sound(a, step, id) && Enabled(c, a, step)
    ensures Tally(Apply(c, a, step), id) ==
            Tally(a, id) + if ExecutesClaim(step, id) then 1 else 0
  {
  }

  lemma {:induction false} TallyRun(c: Config, a: World, steps: seq<Step>, id: JobId)
    requires ValidConfig(c) && Inv(c, a) && ValidRun(c, a, steps)
    ensures Tally(Exec(c, a, steps), id) == Tally(a, id) + ClaimScripts(steps, id)
    decreases steps
  {
    if steps != [] {
      InvSound(c, a, steps[0], id);
      TallyStep(c, a, steps[0], id);
      StepInv(c, a, steps[0]);
      TallyRun(c, Apply(c, a, steps[0]), steps[1..], id);
    }
  }

  /** `attempts` counts claim scripts exactly, and a copy about to be written back carries that count. */
  lemma {:induction false} AttemptsCountDeliveries(c: Config, steps: seq<Step>, w: WorkerId, id: JobId)
    requires Reachable(c, steps) && id in Exec(c, INIT, steps).store.jobs
    ensures var a := Exec(c, INIT, steps);
            && a.store.jobs[id].attempts == ClaimScripts(steps, id)
            && (At(a, w, id) && InHand(a.flight[(w, id)]) ==> a.flight[(w, id)].copy.attempts == ClaimScripts(steps, id))
  {
    ReachableInv(c, steps);
    InitInv(c);
    TallyRun(c, INIT, steps, id);
    var a := Exec(c, INIT, steps);
    assert RecordOk(a, id);
    assert At(a, w, id) ==> StageOk(a, w, id, a.flight[(w, id)]);
  }

  // ---- cancellation ----

  /** Some request_cancel in the run found `id` non-terminal. */
  predicate CancelAccepted(c: Config, a: World, steps: seq<Step>, id: JobId)
    requires ValidRun(c, a, steps)
    decreases steps
  {
    steps != [] &&
    ((steps[0] == Other(Cancel(id)) && Live(a.store, id)) || CancelAccepted(c, Apply(c, a, steps[0]), steps[1..], id))
  }

  lemma {:induction false} CancelledStep(c: Config, a: World, step: Step, id: JobId)
    requires Enabled(c, a, step)
    ensures id in Apply(c, a, step).cancelled <==> id in a.cancelled || (step == Other(Cancel(id)) && Live(a.store, id))
  {
  }

  lemma {:induction false} CancelledRun(c: Config, a: World, steps: seq<Step>, id: JobId)
    requires ValidRun(c, a, steps)
    ensures id in Exec(c, a, steps).cancelled <==> id in a.cancelled || CancelAccepted(c, a, steps, id)
    decreases steps
  {
    if steps != [] {
      CancelledStep(c, a, steps[0], id);
      CancelledRun(c, Apply(c, a, steps[0]), steps[1..], id);
    }
  }

  /** CANCELLED is never written without an accepted request; an accepted request stays on every live record. */
  lemma {:induction false} CancellationIsJustifiedAndDurable(c: Config, steps: seq<Step>, id: JobId)
    requires Reachable(c, steps) && id in Exec(c, INIT, steps).store.jobs
    ensures var r := Exec(c, INIT, steps).store.jobs[id];
            && (r.status == Cancelled ==> CancelAccepted(c, INIT, steps, id))
            && (!Terminal(r.status) ==> (r.cancel <==> CancelAccepted(c, INIT, steps, id)))
  {
    ReachableInv(c, steps);
    CancelledRun(c, INIT, steps, id);
    assert RecordOk(Exec(c, INIT, steps), id);
  }

  /** Whoever has `id` in hand decoded a record that already carried the cancel flag. */
  ghost predicate EveryCopyFlagged(a: World, id: JobId) {
    forall w :: At(a, w, id) && InHand(a.flight[(w, id)]) ==> a.flight[(w, id)].copy.cancel
  }

  predicate StartsBody(step: Step, id: JobId) {
    step.Lease? && step.id == id && step.lease.Start?
  }

  lemma {:induction false} FlaggedLease(c: Config, a: World, w: WorkerId, x: JobId, act: LeaseAct, id: JobId)
    requires Sound(a, Lease(w, x, act), id) && LeaseEnabled(a, w, x, act)
    requires id in a.cancelled && EveryCopyFlagged(a, id)
    ensures EveryCopyFlagged(ApplyLease(c, a, w, x, act), id)
  {
    assert forall v :: At(ApplyLease(c, a, w, x, act), v, id) ==> At(a, v, id);
  }

  lemma {:induction false} FlaggedStep(c: Config, a: World, step: Step, id: JobId)
    requires Sound(a, step, id) && Enabled(c, a, step) && id in a.cancelled && EveryCopyFlagged(a, id)
    ensures !StartsBody(step, id)
    ensures EveryCopyFlagged(Apply(c, a, step), id)
  {
    match step
    case Lease(w, x, act) => FlaggedLease(c, a, w, x, act, id);
    case Pool(w, act) =>
    case Other(act) =>
      assert ApplyOther(c, a, act).flight == a.flight;
  }

  predicate SavesAs(step: Step, id: JobId, st: Status) {
    step.Lease? && step.id == id && step.lease.SaveCall? ==> step.lease.record.status == st
  }

  lemma {:induction false} NoBodyStartsOnceFlagged(c: Config, a: World, steps: seq<Step>, id: JobId, i: nat)
    requires ValidConfig(c) && Inv(c, a) && ValidRun(c, a, steps)
    requires id in a.cancelled && EveryCopyFlagged(a, id) && i < |steps|
    ensures !StartsBody(steps[i], id) && SavesAs(steps[i], id, Cancelled)
    decreases steps
  {
    var step := steps[0];
    InvSound(c, a, step, id);
    FlaggedStep(c, a, step, id);
    CancelledStep(c, a, step, id);
    StepInv(c, a, step);
    assert step.Lease? ==> StageOk(a, step.w, step.id, a.flight[(step.w, step.id)]);
    if i > 0 {
      NoBodyStartsOnceFlagged(c, Apply(c, a, step), steps[1..], id, i - 1);
    }
  }

  /** Waiting for its next delivery: in the queue, or moved but not yet claimed. */
  ghost predicate Awaiting(a: World, id: JobId) {
    id in a.store.queue || exists w :: At(a, w, id) && a.flight[(w, id)].Moved?
  }

  /** Nobody has a job in hand while it awaits its next delivery. */
  lemma {:induction false} AwaitingIsNotInHand(c: Config, a: World, id: JobId)
    requires Inv(c, a) && Awaiting(a, id)
    ensures forall w :: At(a, w, id) ==> !InHand(a.flight[(w, id)])
  {
    assert Live(a.store, id);
    forall w | At(a, w, id)
      ensures !InHand(a.flight[(w, id)])
    {
      assert StageOk(a, w, id, a.flight[(w, id)]);
    }
  }

  /**
    Every delivery after an accepted request is cancelled without starting the body, whatever
    crashes, reaps, releases and re-claims lie in between.
   */
  lemma {:induction false} NoBodyStartsAfterCancel(c: Config, before: seq<Step>, after: seq<Step>, id: JobId, i: nat)
    requires Reachable(c, before) && CancelAccepted(c, INIT, before, id)
    requires Awaiting(Exec(c, INIT, before), id)
    requires ValidRun(c, Exec(c, INIT, before), after) && i < |after|
    ensures !StartsBody(after[i], id) && SavesAs(after[i], id, Cancelled)
  {
    var a := Exec(c, INIT, before);
    ReachableInv(c, before);
    CancelledRun(c, INIT, before, id);
    AwaitingIsNotInHand(c, a, id);
    NoBodyStartsOnceFlagged(c, a, after, id, i);
  }

  lemma {:induction false} LeasePublishes(c: Config, s: Store, w: WorkerId, x: JobId, act: LeaseAct, id: JobId)
    requires Live(s, id)
    ensures var t := LeaseStore(c, s, w, x, act);
            && id in t.jobs
            && (!Live(t, id) ==> x == id && act.SaveCall? && TookEffect(act.fate))
            && (Live(t, id) && !act.SaveCall? ==> t.jobs[id].cancel == s.jobs[id].cancel)
  {
  }

  /** The job is still live, with the cancel flag it had. */
  predicate SameFlag(s: Store, t: Store, id: JobId)
    requires id in s.jobs
  {
    Live(t, id) && t.jobs[id].cancel == s.jobs[id].cancel
  }

  lemma {:induction false} ReapPublishes(s: Store, ttl: int, id: JobId)
    requires Live(s, id)
    ensures SameFlag(s, Reap(s, ttl), id)
  {
    ReapKeepsRecord(s, ttl, id);
  }

  /** Only a finished record is ever taken or expires. */
  lemma {:induction false} RetirePublishes(c: Config, a: World, act: OtherAct, id: JobId)
    requires act.TakeCall? || act.Expire?
    requires RecordOk(a, act.id) && OtherEnabled(c, a, act) && Live(a.store, id)
    ensures SameFlag(a.store, ApplyOther(c, a, act).store, id)
  {
    assert !Live(a.store, act.id);
  }

  lemma {:induction false} OtherPublishes(c: Config, a: World, act: OtherAct, id: JobId)
    requires RecordOk(a, id) && OtherEnabled(c, a, act) && Live(a.store, id)
    ensures var t := ApplyOther(c, a, act).store;
            && Live(t, id)
            && (t.jobs[id].cancel != a.store.jobs[id].cancel ==> t.jobs[id].cancel && act == Cancel(id))
  {
    match act
    case ReapCall => ReapPublishes(a.store, c.workerTtl, id);
    case TakeCall(x, _) =>
      if x == id {
        RetirePublishes(c, a, act, id);
      }
    case Expire(x) =>
      if x == id {
        RetirePublishes(c, a, act, id);
      }
    case Submit(_, _) =>
    case Cancel(_) =>
    case Observe(_) =>
    case Tick(_) =>
  }

  lemma {:induction false} PoolKeepsJobs(a: World, w: WorkerId, act: PoolAct)
    requires PoolEnabled(a, w, act)
    ensures var b := ApplyPool(a, w, act);
            b.store.jobs == a.store.jobs && b.retired == a.retired && b.cancelled == a.cancelled
  {
    match act
    case MoveCall(_) =>
    case Beat =>
    case Register(_) =>
    case StopLoops =>
    case Withdraw(_) =>
    case Crash =>
  }

  /** What waiters watch for changes only in scripts that publish: the terminal save and the cancel request. */
  lemma {:induction false} ChangesArePublished(c: Config, a: World, step: Step, id: JobId)
    requires RecordOk(a, id) && Enabled(c, a, step) && Live(a.store, id)
    ensures var b := Apply(c, a, step);
            && id in b.store.jobs
            && (!Live(b.store, id) ==>
                  step.Lease? && step.id == id && step.lease.SaveCall? && TookEffect(step.lease.fate))
            && (Live(b.store, id) && b.store.jobs[id].cancel != a.store.jobs[id].cancel ==>
                  b.store.jobs[id].cancel && step == Other(Cancel(id)))
  {
    match step
    case Lease(w, x, act) => LeasePublishes(c, a.store, w, x, act, id);
    case Pool(w, act) => PoolKeepsJobs(a, w, act);
    case Other(act) => OtherPublishes(c, a, act, id);
  }

  // ---- every delivery is accounted for ----

  /** Acked by a terminal write, back at the end of the queue, or still on this worker's list. */
  predicate Accounted(a: World, b: World, w: WorkerId, id: JobId) {
    || (Finished(b, id) && !Holds(b.store, w, id))
    || (Live(b.store, id) && b.store.queue == a.store.queue + [id] && !Holds(b.store, w, id))
    || (Live(b.store, id) && b.store.queue == a.store.queue && Holds(b.store, w, id))
  }

  /** However a loop's handling of a job ends, the lease is accounted for. */
  lemma {:induction false} EveryDeliveryIsAccountedFor(c: Config, a: World, w: WorkerId, id: JobId, act: LeaseAct)
    requires Inv(c, a) && LeaseEnabled(a, w, id, act) && !At(ApplyLease(c, a, w, id, act), w, id)
    ensures Accounted(a, ApplyLease(c, a, w, id, act), w, id)
  {
    var b := ApplyLease(c, a, w, id, act);
    assert StageOk(a, w, id, a.flight[(w, id)]) && RecordOk(a, id);
    if act.SaveCall? && TookEffect(act.fate) && id in a.store.jobs {
      SavePlaced(c, a.store, w, id, act.record);
    } else if act.Recover? && act.effect {
      HandBackPlaced(a.store, b.store, w, id);
    } else if act.ReleaseCall? && act.effect && Live(a.store, id) {
      HandBackPlaced(a.store, b.store, w, id);
    } else {
      assert b.store.queue == a.store.queue && b.store.processing == a.store.processing;
      assert Live(b.store, id) <==> Live(a.store, id);
    }
  }

  /** A crash loses no lease either: every id the dead pool had in flight is acked or still on its list. */
  lemma {:induction false} CrashIsAccountedFor(c: Config, a: World, w: WorkerId, id: JobId)
    requires Inv(c, a) && At(a, w, id)
    ensures Accounted(a, ApplyPool(a, w, Crash), w, id)
  {
    assert StageOk(a, w, id, a.flight[(w, id)]) && RecordOk(a, id);
  }

  // ---- FIFO and bounded recovery ----

  /** The step is a BLMOVE that took an id off a non-empty queue. */
  predicate Pops(a: World, step: Step) {
    step.Pool? && step.pool.MoveCall? && TookEffect(step.pool.fate) && a.store.queue != []
  }

  /** Nothing but a BLMOVE shortens the queue, and nothing ever reorders it. */
  lemma {:induction false} QueueLease(c: Config, s: Store, w: WorkerId, id: JobId, act: LeaseAct)
    ensures var q := LeaseStore(c, s, w, id, act).queue; q == s.queue || q == s.queue + [id]
  {
  }

  lemma {:induction false} QueueOther(c: Config, a: World, act: OtherAct)
    requires OtherEnabled(c, a, act)
    ensures a.store.queue <= ApplyOther(c, a, act).store.queue
  {
    if act.ReapCall? {
      ReapMeetsItsSpec(a.store, c.workerTtl);
    }
  }

  lemma {:induction false} QueueStep(c: Config, a: World, step: Step)
    requires Enabled(c, a, step)
    ensures var q, r := a.store.queue, Apply(c, a, step).store.queue;
            if Pops(a, step) then r == q[1..] else q <= r
  {
    match step
    case Lease(w, id, act) => QueueLease(c, a.store, w, id, act);
    case Pool(w, act) =>
    case Other(act) => QueueOther(c, a, act);
  }

  /** One step moves the id at index p one place forward or leaves it where it is. */
  lemma {:induction false} QueueIndex(c: Config, a: World, step: Step, p: nat)
    requires Enabled(c, a, step) && p < |a.store.queue| && !(Pops(a, step) && p == 0)
    ensures var q, r, k := a.store.queue, Apply(c, a, step).store.queue, if Pops(a, step) then p - 1 else p;
            k < |r| && r[k] == q[p]
  {
    QueueStep(c, a, step);
  }

  function PopCount(c: Config, a: World, steps: seq<Step>): nat
    requires ValidRun(c, a, steps)
    decreases steps
  {
    if steps == [] then 0
    else (if Pops(a, steps[0]) then 1 else 0) + PopCount(c, Apply(c, a, steps[0]), steps[1..])
  }

  /** The (n+1)-th effective BLMOVE of the run takes `id`. */
  predicate LeasedByMove(c: Config, a: World, steps: seq<Step>, id: JobId, n: nat)
    requires ValidRun(c, a, steps)
    decreases steps
  {
    steps != [] &&
    if Pops(a, steps[0]) && n == 0 then a.store.queue[0] == id
    else LeasedByMove(c, Apply(c, a, steps[0]), steps[1..], id, if Pops(a, steps[0]) then n - 1 else n)
  }

  /** Whatever else runs, the id at index p stays queued for p moves and is leased by the next one. */
  lemma {:induction false} FirstInFirstOut(c: Config, a: World, steps: seq<Step>, p: nat)
    requires ValidRun(c, a, steps) && p < |a.store.queue|
    ensures var n, q := PopCount(c, a, steps), Exec(c, a, steps).store.queue;
            if n <= p then p - n < |q| && q[p - n] == a.store.queue[p]
            else LeasedByMove(c, a, steps, a.store.queue[p], p)
    decreases steps
  {
    if steps != [] && !(Pops(a, steps[0]) && p == 0) {
      QueueIndex(c, a, steps[0], p);
      FirstInFirstOut(c, Apply(c, a, steps[0]), steps[1..], if Pops(a, steps[0]) then p - 1 else p);
    }
  }

  /**
    A dead worker's lease is back in the queue after one reap past its TTL, and is leased again within
    as many BLMOVEs as the queue then holds: the old queue plus every lease reclaimed with it.
   */
  lemma {:induction false} BoundedRecovery(c: Config, a: World, w: WorkerId, id: JobId, steps: seq<Step>)
    requires ValidConfig(c) && Inv(c, a) && Holds(a.store, w, id)
    requires a.store.now >= a.store.beats[w] + c.workerTtl
    requires var b := ApplyOther(c, a, ReapCall);
             ValidRun(c, b, steps)
             && PopCount(c, b, steps) >= |a.store.queue| + |Drained(a.store, Expired(a.store, c.workerTtl))|
    ensures w !in a.up
    ensures exists p: nat :: LeasedByMove(c, ApplyOther(c, a, ReapCall), steps, id, p)
                             && |a.store.queue| <= p < |a.store.queue| + |Drained(a.store, Expired(a.store, c.workerTtl))|
  {
    var b := ApplyOther(c, a, ReapCall);
    var p := ReclaimedAt(a.store, c.workerTtl, w, id);
    FirstInFirstOut(c, b, steps, p);
  }

  lemma {:induction false} DrainedIsKept(s: Store, ws: seq<WorkerId>)
    requires Placed(s)
    ensures Kept(s.jobs, Drained(s, ws)) == Drained(s, ws)
  {
    forall x | x in Drained(s, ws)
      ensures x in s.jobs
    {
      DrainedMember(s, ws, x);
    }
    KeptLive(s.jobs, Drained(s, ws));
  }

  /** Where one reap puts a dead worker's lease: past the old queue, among the ids reclaimed. */
  lemma {:induction false} ReclaimedAt(s: Store, ttl: int, w: WorkerId, id: JobId) returns (p: nat)
    requires Placed(s) && Holds(s, w, id) && Dead(s, ttl, w)
    ensures |s.queue| <= p < |Reap(s, ttl).queue| && Reap(s, ttl).queue[p] == id
    ensures |Reap(s, ttl).queue| == |s.queue| + |Drained(s, Expired(s, ttl))|
  {
    var ws := Expired(s, ttl);
    var gained := Drained(s, ws);
    ReapMeetsItsSpec(s, ttl);
    DrainedMember(s, ws, id);
    assert w in ws;
    DrainedIsKept(s, ws);
    var k :| 0 <= k < |gained| && gained[k] == id;
    p := |s.queue| + k;
  }

  // ---- why the environment assumptions are needed ----

  const C30 := Config(30, 86400)
  const W1 := WorkerId(1)
  const W2 := WorkerId(2)
  const JOB := "job"
  const FRESH := Record(Envelope(JOB, "task", "now", []), Queued, 0, false, None, None, None)

  lemma {:induction false} AnotherMember(ws: seq<WorkerId>)
    requires NoDup(ws)
    ensures |ws| > 1 ==> exists w :: w in ws && w != ws[0]
  {
    if |ws| > 1 {
      assert ws[1] in ws;
    }
  }

  lemma {:induction false} OnlyExpired(s: Store, ttl: int, w: WorkerId)
    requires s.beats.Keys == {w} && Dead(s, ttl, w)
    ensures Expired(s, ttl) == [w]
  {
    var ws := Expired(s, ttl);
    assert w in ws;
    assert ws[0] in ws;
    AnotherMember(ws);
  }

  /**
    Without fail-stop the claim script revives a finished job: a pool stalls between BLMOVE and the
    script, is reaped, a second pool completes the job, and the first pool's script then runs.
   */
  lemma {:induction false} FailStopIsNeeded()
    ensures var s := Move(Heartbeat(Enqueue(EMPTY, JOB, FRESH).0, W1), W1).0;
            var t := Reap(s.(now := 30), 30);
            var (u, copy) := Claim(Move(Heartbeat(t, W2), W2).0, JOB);
            && copy.Some?
            && var r := copy.value.(status := Completed, result := Some([]));
               var v := Save(C30, u, W2, JOB, r, true).0;
               && v.jobs[JOB].status == Completed
               && Claim(v, JOB).0.jobs[JOB].status == Running
  {
    var s := Move(Heartbeat(Enqueue(EMPTY, JOB, FRESH).0, W1), W1).0.(now := 30);
    assert Leases(s, W1) == [JOB];
    OnlyExpired(s, 30, W1);
    ReapMeetsItsSpec(s, 30);
    DrainedCons(s, W1, []);
    assert Reap(s, 30).queue == [] + Kept(s.jobs, [JOB]) == [JOB];
    ReapKeepsRecord(s, 30, JOB);
  }

  /**
    Without one incarnation per id `take_result` can return an unfinished record: it reads a terminal
    status, another consumer takes the job, the id is enqueued again, and its own MULTI then runs.
   */
  lemma {:induction false} OneIncarnationIsNeeded(s: Store, id: JobId, again: Record)
    requires id in s.jobs && Terminal(s.jobs[id].status)
    ensures var t := Enqueue(Take(s, id).0, id, again).0;
            && Take(t, id).1 == Some(again.(status := Queued))
            && id in Take(t, id).0.queue && id !in Take(t, id).0.jobs
  {
    var t := Enqueue(Take(s, id).0, id, again).0;
    assert t.queue[|t.queue| - 1] == id;
  }
}
