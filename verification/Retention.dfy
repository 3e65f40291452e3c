/** What the stored structures keep through a run: payloads, statuses, results until they expire, and beats. */
module Retention {
  import opened Records
  import opened Stores
  import opened Reaper
  import opened Places
  import opened Protocol
  import opened Invariant
  import opened Guarantees

  // ---- how long a result is kept ----

  /** The step is a terminal save of `id` that takes effect. */
  predicate Saves(a: World, step: Step, id: JobId) {
    step.Lease? && step.id == id && step.lease.SaveCall? && TookEffect(step.lease.fate) && id in a.store.jobs
  }

  /** The second of the run's last effective save of `id`, `before` if it has none. */
  function LastSave(c: Config, a: World, steps: seq<Step>, id: JobId, before: Option<int>): Option<int>
    requires ValidRun(c, a, steps)
    decreases steps
  {
    if steps == [] then before
    else LastSave(c, Apply(c, a, steps[0]), steps[1..], id, if Saves(a, steps[0], id) then Some(a.store.now) else before)
  }

  predicate KeepsDeadline(s: Store, t: Store, id: JobId) {
    id in t.expires ==> id in s.expires && t.expires[id] == s.expires[id]
  }

  lemma {:induction false} LeaseDeadline(c: Config, s: Store, w: WorkerId, x: JobId, act: LeaseAct, id: JobId)
    ensures var t := LeaseStore(c, s, w, x, act);
            if x == id && act.SaveCall? && TookEffect(act.fate) && id in s.jobs
            then id in t.expires && t.expires[id] == s.now + c.resultTtl
            else KeepsDeadline(s, t, id)
  {
    match act
    case SaveCall(_, _) =>
    case ClaimCall(_) =>
    case Recover(_) =>
    case Discard(_) =>
    case ReleaseCall(_) =>
    case _ =>
  }

  lemma {:induction false} PoolDeadline(a: World, w: WorkerId, act: PoolAct)
    requires PoolEnabled(a, w, act)
    ensures ApplyPool(a, w, act).store.expires == a.store.expires && ApplyPool(a, w, act).store.now == a.store.now
  {
    match act
    case MoveCall(_) =>
    case Beat =>
    case Register(_) =>
    case StopLoops =>
    case Withdraw(_) =>
    case Crash =>
  }

  lemma {:induction false} OtherDeadline(c: Config, a: World, act: OtherAct, id: JobId)
    requires OtherEnabled(c, a, act)
    ensures KeepsDeadline(a.store, ApplyOther(c, a, act).store, id) && a.store.now <= ApplyOther(c, a, act).store.now
  {
    match act
    case ReapCall => ReapMeetsItsSpec(a.store, c.workerTtl);
    case Submit(_, _) =>
    case Cancel(_) =>
    case Observe(_) =>
    case TakeCall(_, _) =>
    case Expire(_) =>
    case Tick(_) =>
  }

  lemma {:induction false} DeadlineStep(c: Config, a: World, step: Step, id: JobId)
    requires Enabled(c, a, step)
    ensures var b := Apply(c, a, step);
            && a.store.now <= b.store.now
            && if Saves(a, step, id) then id in b.store.expires && b.store.expires[id] == a.store.now + c.resultTtl
               else KeepsDeadline(a.store, b.store, id)
  {
    match step
    case Lease(w, x, act) => LeaseDeadline(c, a.store, w, x, act, id);
    case Pool(w, act) => PoolDeadline(a, w, act);
    case Other(act) => OtherDeadline(c, a, act, id);
  }

  lemma {:induction false} DeadlineRun(c: Config, a: World, steps: seq<Step>, id: JobId, before: Option<int>)
    requires ValidRun(c, a, steps)
    requires id in a.store.expires ==> before.Some? && a.store.expires[id] == before.value + c.resultTtl
    ensures var s, last := Exec(c, a, steps).store, LastSave(c, a, steps, id, before);
            id in s.expires ==> last.Some? && s.expires[id] == last.value + c.resultTtl
    decreases steps
  {
    if steps != [] {
      DeadlineStep(c, a, steps[0], id);
      DeadlineRun(c, Apply(c, a, steps[0]), steps[1..], id, if Saves(a, steps[0], id) then Some(a.store.now) else before);
    }
  }

  /** A stored terminal record may expire exactly from `resultTtl` seconds after its last effective save. */
  lemma {:induction false} ExpiresAfterItsTtl(c: Config, steps: seq<Step>, id: JobId)
    requires Reachable(c, steps)
    requires id in Exec(c, INIT, steps).store.jobs && Terminal(Exec(c, INIT, steps).store.jobs[id].status)
    ensures var a, last := Exec(c, INIT, steps), LastSave(c, INIT, steps, id, None);
            && last.Some?
            && (Enabled(c, a, Other(Expire(id))) <==> a.store.now >= last.value + c.resultTtl)
  {
    ReachableInv(c, steps);
    DeadlineRun(c, INIT, steps, id, None);
    assert RecordOk(Exec(c, INIT, steps), id);
  }

  predicate Consumes(step: Step, id: JobId) {
    step.Other? && step.other.TakeCall? && step.other.id == id
  }

  lemma {:induction false} KeptStep(c: Config, a: World, step: Step, id: JobId)
    requires RecordOk(a, id) && Enabled(c, a, step) && id in a.store.jobs && !Consumes(step, id)
    ensures id in Apply(c, a, step).store.jobs || (step == Other(Expire(id)) && a.store.expires[id] <= a.store.now)
  {
    match step
    case Lease(w, x, act) => LeaseKeepsIds(c, a.store, w, x, act, id);
    case Pool(w, act) => PoolKeepsJobs(a, w, act);
    case Other(act) => OtherKeepsIds(c, a, act, id);
  }

  lemma {:induction false} LeaseKeepsIds(c: Config, s: Store, w: WorkerId, x: JobId, act: LeaseAct, id: JobId)
    requires id in s.jobs
    ensures id in LeaseStore(c, s, w, x, act).jobs
  {
  }

  lemma {:induction false} OtherKeepsIds(c: Config, a: World, act: OtherAct, id: JobId)
    requires OtherEnabled(c, a, act) && id in a.store.jobs && !Consumes(Other(act), id)
    ensures id in ApplyOther(c, a, act).store.jobs || (act == Expire(id) && a.store.expires[id] <= a.store.now)
  {
    match act
    case ReapCall => ReapKeepsRecord(a.store, c.workerTtl, id);
    case Submit(_, _) =>
    case Cancel(_) =>
    case Observe(_) =>
    case TakeCall(_, _) =>
    case Expire(_) =>
    case Tick(_) =>
  }

  /** Until a deadline `d` no record with that deadline or a later one is lost, unless somebody takes it. */
  lemma {:induction false} KeptUntil(c: Config, a: World, steps: seq<Step>, id: JobId, d: int)
    requires ValidConfig(c) && Inv(c, a) && ValidRun(c, a, steps)
    requires id in a.store.jobs && (id in a.store.expires ==> d <= a.store.expires[id])
    requires forall i :: 0 <= i < |steps| ==> !Consumes(steps[i], id)
    requires Exec(c, a, steps).store.now < d <= a.store.now + c.resultTtl
    ensures id in Exec(c, a, steps).store.jobs
    decreases steps
  {
    if steps != [] {
      var b := Apply(c, a, steps[0]);
      assert RecordOk(a, id);
      DeadlineStep(c, a, steps[0], id);
      ClockRun(c, b, steps[1..]);
      KeptStep(c, a, steps[0], id);
      StepInv(c, a, steps[0]);
      KeptUntil(c, b, steps[1..], id, d);
    }
  }

  lemma {:induction false} ClockRun(c: Config, a: World, steps: seq<Step>)
    requires ValidRun(c, a, steps)
    ensures a.store.now <= Exec(c, a, steps).store.now
    decreases steps
  {
    if steps != [] {
      DeadlineStep(c, a, steps[0], "");
      ClockRun(c, Apply(c, a, steps[0]), steps[1..]);
    }
  }

  /** A result nobody takes is still stored while fewer than `resultTtl` seconds have passed since it was saved. */
  lemma {:induction false} ResultsAreRetained(c: Config, before: seq<Step>, after: seq<Step>, id: JobId)
    requires Reachable(c, before) && ValidRun(c, Exec(c, INIT, before), after)
    requires id in Exec(c, INIT, before).store.jobs && Terminal(Exec(c, INIT, before).store.jobs[id].status)
    requires forall i :: 0 <= i < |after| ==> !Consumes(after[i], id)
    ensures var last := LastSave(c, INIT, before, id, None);
            && last.Some?
            && (Exec(c, Exec(c, INIT, before), after).store.now < last.value + c.resultTtl ==>
                  id in Exec(c, Exec(c, INIT, before), after).store.jobs)
  {
    var a := Exec(c, INIT, before);
    ReachableInv(c, before);
    ExpiresAfterItsTtl(c, before, id);
    DeadlineRun(c, INIT, before, id, None);
    SaveIsPast(c, INIT, before, id, None);
    assert RecordOk(a, id);
    if Exec(c, a, after).store.now < a.store.expires[id] {
      KeptUntil(c, a, after, id, a.store.expires[id]);
    }
  }

  lemma {:induction false} SaveIsPast(c: Config, a: World, steps: seq<Step>, id: JobId, before: Option<int>)
    requires ValidRun(c, a, steps) && (before.Some? ==> before.value <= a.store.now)
    ensures var last := LastSave(c, a, steps, id, before); last.Some? ==> last.value <= Exec(c, a, steps).store.now
    decreases steps
  {
    if steps != [] {
      DeadlineStep(c, a, steps[0], id);
      SaveIsPast(c, Apply(c, a, steps[0]), steps[1..], id, if Saves(a, steps[0], id) then Some(a.store.now) else before);
    }
  }

  /** A save that is not the last one changes the record alone: no lease, no deadline, no place in the queue. */
  lemma {:induction false} ProgressSaveKeepsTheLease(c: Config, s: Store, w: WorkerId, id: JobId, r: Record)
    ensures var (t, saved) := Save(c, s, w, id, r, false);
            && (saved <==> id in s.jobs) && t.jobs.Keys == s.jobs.Keys
            && (forall x :: x in s.jobs && x != id ==> t.jobs[x] == s.jobs[x])
            && t.processing == s.processing && t.expires == s.expires && t.queue == s.queue
            && t.beats == s.beats && t.now == s.now
  {
  }

  // ---- results ----

  /** What one step returns to a `take_result` caller, if anything. */
  function Answer(a: World, step: Step): seq<(JobId, Record)> {
    match step
    case Other(TakeCall(id, Answered)) => if id in a.store.jobs then [(id, a.store.jobs[id])] else []
    case _ => []
  }

  /** What the run's answered `take_result` calls returned, in order. */
  function Answers(c: Config, a: World, steps: seq<Step>): seq<(JobId, Record)>
    requires ValidRun(c, a, steps)
    decreases steps
  {
    if steps == [] then [] else Answer(a, steps[0]) + Answers(c, Apply(c, a, steps[0]), steps[1..])
  }

  lemma {:induction false} TakenStep(c: Config, a: World, step: Step)
    requires Enabled(c, a, step)
    ensures Apply(c, a, step).taken == a.taken + Answer(a, step)
  {
    assert a.taken + [] == a.taken;
    match step
    case Lease(_, _, _) =>
    case Pool(_, act) =>
    case Other(act) =>
  }

  lemma {:induction false} Regroup<T>(a: seq<T>, b: seq<T>, c: seq<T>)
    ensures a + b + c == a + (b + c)
  {
  }

  lemma {:induction false} TakenRun(c: Config, a: World, steps: seq<Step>)
    requires ValidRun(c, a, steps)
    ensures Exec(c, a, steps).taken == a.taken + Answers(c, a, steps)
    decreases steps
  {
    if steps != [] {
      var b, rest := Apply(c, a, steps[0]), steps[1..];
      var first := Answer(a, steps[0]);
      TakenStep(c, a, steps[0]);
      TakenRun(c, b, rest);
      Regroup(a.taken, first, Answers(c, b, rest));
    }
  }

  /** Of all answered `take_result` calls in a run no two return the same job, and each returns a terminal record. */
  lemma {:induction false} AnswersAreOncePerJob(c: Config, steps: seq<Step>, i: nat, j: nat)
    requires Reachable(c, steps) && i < |Answers(c, INIT, steps)| && j < |Answers(c, INIT, steps)|
    ensures var answers := Answers(c, INIT, steps);
            && Terminal(answers[i].1.status)
            && (answers[i].0 == answers[j].0 <==> i == j)
            && answers[i].0 !in Exec(c, INIT, steps).store.jobs
  {
    TakenRun(c, INIT, steps);
    assert INIT.taken + Answers(c, INIT, steps) == Answers(c, INIT, steps);
    ResultsAreTakenOnce(c, steps, i, j);
  }

  // ---- what was submitted is what is stored ----

  predicate Creates(a: World, step: Step, id: JobId) {
    step.Other? && step.other.Submit? && step.other.id == id && id !in a.store.jobs
  }

  /** The record whose submission created `id` in this run, `before` if none did. */
  function Submitted(c: Config, a: World, steps: seq<Step>, id: JobId, before: Option<Record>): Option<Record>
    requires ValidRun(c, a, steps)
    decreases steps
  {
    if steps == [] then before
    else
      Submitted(c, Apply(c, a, steps[0]), steps[1..], id,
                if Creates(a, steps[0], id) then Some(steps[0].other.record) else before)
  }

  /** The same job for its owner: what no step may change. */
  predicate SameJob(r: Record, submitted: Record) {
    r.envelope == submitted.envelope && r.group == submitted.group
  }

  lemma {:induction false} SameJobLease(c: Config, a: World, w: WorkerId, x: JobId, act: LeaseAct, id: JobId)
    requires Inv(c, a) && LeaseEnabled(a, w, x, act)
    ensures var t := LeaseStore(c, a.store, w, x, act);
            id in t.jobs ==> id in a.store.jobs && SameJob(t.jobs[id], a.store.jobs[id])
  {
    assert StageOk(a, w, x, a.flight[(w, x)]);
    match act
    case SaveCall(_, _) =>
    case ClaimCall(_) =>
    case Recover(_) =>
    case Discard(_) =>
    case ReleaseCall(_) =>
    case _ =>
  }

  lemma {:induction false} SameJobOther(c: Config, a: World, act: OtherAct, id: JobId)
    requires OtherEnabled(c, a, act)
    ensures var t := ApplyOther(c, a, act).store;
            && (Creates(a, Other(act), id) ==>
                  && id in t.jobs && SameJob(t.jobs[id], act.record) && t.jobs[id].status == Queued
                  && t.jobs[id].attempts == 0 && !t.jobs[id].cancel && id in t.queue)
            && (!Creates(a, Other(act), id) && id in t.jobs ==> id in a.store.jobs && SameJob(t.jobs[id], a.store.jobs[id]))
  {
    match act
    case ReapCall => ReapKeepsRecord(a.store, c.workerTtl, id);
    case Submit(x, r) => assert ApplyOther(c, a, act).store.queue == a.store.queue || ApplyOther(c, a, act).store.queue == a.store.queue + [x];
    case Cancel(_) =>
    case Observe(_) =>
    case TakeCall(_, _) =>
    case Expire(_) =>
    case Tick(_) =>
  }

  lemma {:induction false} SameJobStep(c: Config, a: World, step: Step, id: JobId)
    requires Inv(c, a) && Enabled(c, a, step)
    ensures var t := Apply(c, a, step).store;
            && (Creates(a, step, id) ==> id in t.jobs && SameJob(t.jobs[id], step.other.record))
            && (!Creates(a, step, id) && id in t.jobs ==> id in a.store.jobs && SameJob(t.jobs[id], a.store.jobs[id]))
  {
    match step
    case Lease(w, x, act) => SameJobLease(c, a, w, x, act, id);
    case Pool(w, act) => PoolKeepsJobs(a, w, act);
    case Other(act) => SameJobOther(c, a, act, id);
  }

  lemma {:induction false} SubmittedRun(c: Config, a: World, steps: seq<Step>, id: JobId, before: Option<Record>)
    requires ValidConfig(c) && Inv(c, a) && ValidRun(c, a, steps)
    requires id in a.store.jobs ==> before.Some? && SameJob(a.store.jobs[id], before.value)
    ensures var s, r := Exec(c, a, steps).store, Submitted(c, a, steps, id, before);
            id in s.jobs ==> r.Some? && SameJob(s.jobs[id], r.value)
    decreases steps
  {
    if steps != [] {
      SameJobStep(c, a, steps[0], id);
      StepInv(c, a, steps[0]);
      SubmittedRun(c, Apply(c, a, steps[0]), steps[1..], id,
                   if Creates(a, steps[0], id) then Some(steps[0].other.record) else before);
    }
  }

  /** Every stored record, and every copy in a worker's hands, still is the job that was submitted under its id. */
  lemma {:induction false} SubmittedJobSurvives(c: Config, steps: seq<Step>, w: WorkerId, id: JobId)
    requires Reachable(c, steps) && id in Exec(c, INIT, steps).store.jobs
    ensures var a, r := Exec(c, INIT, steps), Submitted(c, INIT, steps, id, None);
            && r.Some? && SameJob(a.store.jobs[id], r.value)
            && (At(a, w, id) && InHand(a.flight[(w, id)]) ==> SameJob(a.flight[(w, id)].copy, r.value))
  {
    InitInv(c);
    SubmittedRun(c, INIT, steps, id, None);
    ReachableInv(c, steps);
    var a := Exec(c, INIT, steps);
    assert At(a, w, id) ==> StageOk(a, w, id, a.flight[(w, id)]);
  }

  // ---- what a status means ----

  /** A job waiting in the queue whose record still says RUNNING. */
  predicate QueuedAsRunning(s: Store, id: JobId) {
    id in s.queue && id in s.jobs && s.jobs[id].status == Running
  }

  /** A claim's recovery of a job its script had already marked RUNNING. */
  predicate RecoversRunning(a: World, step: Step, id: JobId) {
    step.Lease? && step.id == id && step.lease == Recover(true) && id in a.store.jobs && a.store.jobs[id].status == Running
  }

  lemma {:induction false} LeaseStatus(c: Config, a: World, w: WorkerId, x: JobId, act: LeaseAct, id: JobId)
    requires Inv(c, a) && LeaseEnabled(a, w, x, act) && !QueuedAsRunning(a.store, id)
    ensures QueuedAsRunning(LeaseStore(c, a.store, w, x, act), id) <==> RecoversRunning(a, Lease(w, x, act), id)
  {
    var t := LeaseStore(c, a.store, w, x, act);
    assert StageOk(a, w, x, a.flight[(w, x)]);
    QueueLease(c, a.store, w, x, act);
    AppendedAtMost(a.store.queue, t.queue, x, id);
    match act
    case SaveCall(_, _) =>
    case ClaimCall(_) =>
    case Recover(effect) =>
      if effect {
        assert t.queue[|t.queue| - 1] == x;
      }
    case Discard(_) =>
    case ReleaseCall(_) =>
    case _ =>
  }

  lemma {:induction false} AppendedAtMost(q: seq<JobId>, r: seq<JobId>, x: JobId, id: JobId)
    requires r == q || r == q + [x]
    ensures id in r ==> id in q || id == x
  {
  }

  lemma {:induction false} OtherStatus(c: Config, a: World, act: OtherAct, id: JobId)
    requires Inv(c, a) && OtherEnabled(c, a, act) && !QueuedAsRunning(a.store, id)
    ensures !QueuedAsRunning(ApplyOther(c, a, act).store, id)
  {
    assert RecordOk(a, id);
    match act
    case ReapCall => ReapStatus(a.store, c.workerTtl, id);
    case Submit(x, r) => AppendedAtMost(a.store.queue, ApplyOther(c, a, act).store.queue, x, id);
    case Cancel(_) =>
    case Observe(_) =>
    case TakeCall(_, _) =>
    case Expire(_) =>
    case Tick(_) =>
  }

  lemma {:induction false} ReapQueueMember(s: Store, ttl: int, id: JobId)
    requires Placed(s)
    ensures id in Reap(s, ttl).queue ==> id in s.queue || HeldByTheDead(s, ttl, id)
  {
    ReapMeetsItsSpec(s, ttl);
    DrainedIsKept(s, Expired(s, ttl));
    if id in Drained(s, Expired(s, ttl)) {
      DrainedMember(s, Expired(s, ttl), id);
      var w :| w in Expired(s, ttl) && Holds(s, w, id);
      assert Dead(s, ttl, w);
    }
  }

  lemma {:induction false} ReapedIsNotRunning(s: Store, ttl: int, id: JobId)
    requires id in s.jobs
    ensures id in Reap(s, ttl).jobs
    ensures HeldByTheDead(s, ttl, id) ==> Reap(s, ttl).jobs[id].status != Running
    ensures !HeldByTheDead(s, ttl, id) ==> Reap(s, ttl).jobs[id] == s.jobs[id]
  {
    ReapMeetsItsSpec(s, ttl);
  }

  lemma {:induction false} ReapStatus(s: Store, ttl: int, id: JobId)
    requires Placed(s) && !QueuedAsRunning(s, id)
    ensures !QueuedAsRunning(Reap(s, ttl), id)
  {
    ReapKeepsRecord(s, ttl, id);
    if id in s.jobs {
      ReapQueueMember(s, ttl, id);
      ReapedIsNotRunning(s, ttl, id);
    }
  }

  lemma {:induction false} PoolStatus(a: World, w: WorkerId, act: PoolAct, id: JobId)
    requires PoolEnabled(a, w, act) && !QueuedAsRunning(a.store, id)
    ensures !QueuedAsRunning(ApplyPool(a, w, act).store, id)
  {
    PoolKeepsJobs(a, w, act);
    match act
    case MoveCall(_) =>
    case Beat =>
    case Register(_) =>
    case StopLoops =>
    case Withdraw(_) =>
    case Crash =>
  }

  /**
    A live record says QUEUED or RUNNING. It comes to say RUNNING while its id is in the queue by exactly one
    step: the recovery of a claim whose script had taken effect before it raised.
   */
  lemma {:induction false} QueuedAsRunningIff(c: Config, before: seq<Step>, step: Step, id: JobId)
    requires Reachable(c, before) && Enabled(c, Exec(c, INIT, before), step)
    ensures var a, b := Exec(c, INIT, before), Apply(c, Exec(c, INIT, before), step);
            && (Live(a.store, id) ==> a.store.jobs[id].status == Queued || a.store.jobs[id].status == Running)
            && (!QueuedAsRunning(a.store, id) ==> (QueuedAsRunning(b.store, id) <==> RecoversRunning(a, step, id)))
  {
    var a := Exec(c, INIT, before);
    ReachableInv(c, before);
    assert RecordOk(a, id);
    if !QueuedAsRunning(a.store, id) {
      match step
      case Lease(w, x, act) => LeaseStatus(c, a, w, x, act, id);
      case Pool(w, act) => PoolStatus(a, w, act, id);
      case Other(act) => OtherStatus(c, a, act, id);
    }
  }

  // ---- beats ----

  /** The step stamps `w`: a beat, or a registration that took effect. */
  predicate Stamps(step: Step, w: WorkerId) {
    step.Pool? && step.w == w && (step.pool.Beat? || (step.pool.Register? && TookEffect(step.pool.fate)))
  }

  /** The step takes `w` out of the liveness set. */
  predicate Removes(c: Config, a: World, step: Step, w: WorkerId) {
    || (step == Pool(w, Withdraw(true)) && Leases(a.store, w) == [])
    || (step == Other(ReapCall) && w in a.store.beats && a.store.beats[w] + c.workerTtl <= a.store.now)
  }

  /** A worker's beat is the second of the last step that stamped it, until a withdrawal without leases or a reap past its TTL. */
  lemma {:induction false} BeatStep(c: Config, a: World, step: Step, w: WorkerId)
    requires Enabled(c, a, step)
    ensures var s, t := a.store, Apply(c, a, step).store;
            if Stamps(step, w) then w in t.beats && t.beats[w] == s.now
            else if Removes(c, a, step, w) then w !in t.beats
            else (w in t.beats <==> w in s.beats) && (w in s.beats ==> t.beats[w] == s.beats[w])
  {
    match step
    case Lease(v, x, act) => LeaseLeavesBeats(c, a.store, v, x, act);
    case Pool(v, act) => PoolBeats(a, v, act, w);
    case Other(act) => OtherBeats(c, a, act, w);
  }

  lemma {:induction false} LeaseLeavesBeats(c: Config, s: Store, v: WorkerId, x: JobId, act: LeaseAct)
    ensures LeaseStore(c, s, v, x, act).beats == s.beats
  {
  }

  lemma {:induction false} PoolBeats(a: World, v: WorkerId, act: PoolAct, w: WorkerId)
    requires PoolEnabled(a, v, act)
    ensures var s, t := a.store, ApplyPool(a, v, act).store;
            if Stamps(Pool(v, act), w) then w in t.beats && t.beats[w] == s.now
            else if v == w && act == Withdraw(true) && Leases(s, w) == [] then w !in t.beats
            else (w in t.beats <==> w in s.beats) && (w in s.beats ==> t.beats[w] == s.beats[w])
  {
    match act
    case MoveCall(_) =>
    case Beat =>
    case Register(_) =>
    case StopLoops =>
    case Withdraw(_) =>
    case Crash =>
  }

  lemma {:induction false} OtherBeats(c: Config, a: World, act: OtherAct, w: WorkerId)
    requires OtherEnabled(c, a, act)
    ensures var s, t := a.store, ApplyOther(c, a, act).store;
            if act.ReapCall? && w in s.beats && s.beats[w] + c.workerTtl <= s.now then w !in t.beats
            else (w in t.beats <==> w in s.beats) && (w in s.beats ==> t.beats[w] == s.beats[w])
  {
    match act
    case ReapCall => ReapMeetsItsSpec(a.store, c.workerTtl); assert Dead(a.store, c.workerTtl, w) || !Dead(a.store, c.workerTtl, w);
    case Submit(_, _) =>
    case Cancel(_) =>
    case Observe(_) =>
    case TakeCall(_, _) =>
    case Expire(_) =>
    case Tick(_) =>
  }
}
