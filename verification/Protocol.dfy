/**
  The lease protocol as a step relation: producers, worker pools, reapers, consumers, crashes,
  lost replies, cancelled calls, expiry and the clock, interleaved in any order.
 */
module Protocol {
  import opened Records
  import opened Stores

  /** Where one loop of one pool stands with one job id. */
  datatype Stage =
    | Moved                                 // BLMOVE answered, claim script not yet sent
    | ClaimFailed                           // claim script raised, recovery not yet sent
    | Vanished                              // claim script found no record, LREM not yet sent
    | Delivered(copy: Record)               // claim returned a record, nothing decided yet
    | Racing(copy: Record, fired: bool)     // body running against the cancel watcher
    | Failing(copy: Record)                 // body or first save raised, FAILED save not yet sent
    | Releasing                             // interrupted, release not yet sent

  /** What became of one backend call, as its caller sees it. */
  datatype Fate = Answered | Errored(effect: bool) | Interrupted(effect: bool)

  predicate TookEffect(f: Fate) {
    f.Answered? || f.effect
  }

  datatype World = World(
    store: Store,
    up: set<WorkerId>,                        // pools whose claim loops may run
    draining: set<WorkerId>,                  // loops gathered, not yet deregistered
    flight: map<(WorkerId, JobId), Stage>,
    observed: set<JobId>,                     // ids some take_result has read as terminal
    retired: set<JobId>,                      // ids whose record was taken or expired
    claims: map<JobId, nat>,                  // history: claim scripts executed per id
    cancelled: set<JobId>,                    // history: ids a request_cancel found non-terminal
    taken: seq<(JobId, Record)>)              // history: records take_result returned

  const INIT := World(EMPTY, {}, {}, map[], {}, {}, map[], {}, [])

  /** What one claim loop does next with one job id. */
  datatype LeaseAct =
    | ClaimCall(fate: Fate)
    | Recover(effect: bool)
    | Discard(effect: bool)
    | Start
    | Fire
    | BodyRaised
    | SaveCall(record: Record, fate: Fate)
    | Interrupt
    | ReleaseCall(effect: bool)
    | Abandon

  /** What one pool does, or what happens to it. */
  datatype PoolAct =
    | MoveCall(fate: Fate)
    | Beat
    | Register(fate: Fate)
    | StopLoops
    | Withdraw(effect: bool)
    | Crash

  /** What producers, consumers, reapers and time do. */
  datatype OtherAct =
    | Submit(id: JobId, record: Record)
    | Cancel(id: JobId)
    | Observe(id: JobId)
    | TakeCall(id: JobId, fate: Fate)
    | Expire(id: JobId)
    | ReapCall
    | Tick(seconds: nat)

  datatype Step =
    | Lease(w: WorkerId, id: JobId, lease: LeaseAct)
    | Pool(w: WorkerId, pool: PoolAct)
    | Other(other: OtherAct)

  /** The record `_save` writes for a job decoded from `copy` that ended as `r.status`. */
  predicate Writes(copy: Record, r: Record) {
    && Terminal(r.status)
    && r == copy.(status := r.status, error := r.error, result := r.result)
    && (r.result.Some? <==> r.status == Completed)
    && (r.status == Failed ==> r.error.Some?)
  }

  /** Which terminal record the worker may write from which stage. */
  predicate MaySave(st: Stage, r: Record) {
    match st
    case Delivered(copy) => Writes(copy, r) && r.status == if copy.cancel then Cancelled else Failed
    case Racing(copy, fired) => Writes(copy, r) && (r.status == Completed || (fired && r.status == Cancelled))
    case Failing(copy) => Writes(copy, r) && r.status == Failed
    case _ => false
  }

  predicate At(a: World, w: WorkerId, id: JobId) {
    (w, id) in a.flight
  }

  /** A decoded job is in hand: the stages between `claim` returning and the lease being settled. */
  predicate InHand(st: Stage) {
    st.Delivered? || st.Racing? || st.Failing?
  }

  predicate ActEnabled(s: Store, id: JobId, st: Stage, act: LeaseAct) {
    match act
    case ClaimCall(_) => st.Moved?
    case Recover(_) => st.ClaimFailed?
    case Discard(_) => st.Vanished?
    case Start => st.Delivered? && !st.copy.cancel
    case Fire => st.Racing? && id in s.jobs && s.jobs[id].cancel
    case BodyRaised => st.Racing?
    case SaveCall(r, _) => MaySave(st, r)
    case Interrupt => InHand(st)
    case ReleaseCall(_) => st.Releasing?
    case Abandon => InHand(st)
  }

  predicate LeaseEnabled(a: World, w: WorkerId, id: JobId, act: LeaseAct) {
    At(a, w, id) && ActEnabled(a.store, id, a.flight[(w, id)], act)
  }

  predicate PoolEnabled(a: World, w: WorkerId, act: PoolAct) {
    match act
    case MoveCall(_) => w in a.up
    case Beat => w in a.up || w in a.draining
    case Register(_) => w !in a.up && w !in a.draining
    case StopLoops => w in a.up && forall k :: k in a.flight ==> k.0 != w
    case Withdraw(_) => w in a.draining
    case Crash => true
  }

  predicate OtherEnabled(c: Config, a: World, act: OtherAct) {
    match act
    case Submit(id, r) => Fresh(r) && id !in a.retired
    case Cancel(_) => true
    case Observe(id) => id in a.store.jobs && Terminal(a.store.jobs[id].status)
    case TakeCall(id, _) => id in a.observed
    case Expire(id) => id in a.store.expires && a.store.expires[id] <= a.store.now
    case ReapCall => true
    // A pool that is up keeps its beat younger than the TTL.
    case Tick(d) => forall w :: w in a.up && w in a.store.beats ==> a.store.now + d < a.store.beats[w] + c.workerTtl
  }

  predicate Enabled(c: Config, a: World, step: Step) {
    match step
    case Lease(w, id, act) => LeaseEnabled(a, w, id, act)
    case Pool(w, act) => PoolEnabled(a, w, act)
    case Other(act) => OtherEnabled(c, a, act)
  }

  function Drop(a: World, w: WorkerId, id: JobId): World {
    a.(flight := a.flight - {(w, id)})
  }

  function Stand(a: World, w: WorkerId, id: JobId, st: Stage): World {
    a.(flight := a.flight[(w, id) := st])
  }

  function ApplyMove(a: World, w: WorkerId, fate: Fate): World {
    if a.store.queue == [] || !TookEffect(fate) then a
    else
      var b := a.(store := Move(a.store, w).0);
      if fate.Answered? then Stand(b, w, a.store.queue[0], Moved) else b
  }

  /** Settle where (w, id) stands next: nowhere, or at one stage. */
  function Settle(a: World, w: WorkerId, id: JobId, next: Option<Stage>): World {
    var b := Drop(a, w, id);
    if next.None? then b else Stand(b, w, id, next.value)
  }

  /** The script one act of a claim loop executes, if it executes one at all. */
  function LeaseStore(c: Config, s: Store, w: WorkerId, id: JobId, act: LeaseAct): Store {
    match act
    case ClaimCall(fate) => if TookEffect(fate) then Claim(s, id).0 else s
    case Recover(effect) => if effect then Requeue(s, w, id) else s
    case Discard(effect) => if effect then Unlease(s, w, id) else s
    case SaveCall(r, fate) => if TookEffect(fate) then Save(c, s, w, id, r, true).0 else s
    case ReleaseCall(effect) => if effect then Release(s, w, id).0 else s
    case _ => s
  }

  /**
    Where the loop stands with the job afterwards, None once it has let go.
    A save that raises sends a racing job to the FAILED save and abandons any other.
   */
  function LeaseNext(s: Store, id: JobId, st: Stage, act: LeaseAct): Option<Stage>
    requires act.Start? || act.Fire? || act.BodyRaised? ==> InHand(st)
  {
    match act
    case ClaimCall(fate) =>
      var reply := Claim(s, id).1;
      if fate.Errored? then Some(ClaimFailed)
      else if fate.Interrupted? then None
      else Some(if reply.None? then Vanished else Delivered(reply.value))
    case Start => Some(Racing(st.copy, false))
    case Fire => Some(Racing(st.copy, true))
    case BodyRaised => Some(Failing(st.copy))
    case SaveCall(r, fate) =>
      if fate.Interrupted? then Some(Releasing)
      else if (fate.Errored? || id !in s.jobs) && st.Racing? then Some(Failing(st.copy))
      else None
    case Interrupt => Some(Releasing)
    case _ => None
  }

  function LeaseClaims(a: World, id: JobId, act: LeaseAct): map<JobId, nat> {
    if act.ClaimCall? && TookEffect(act.fate) && id in a.store.jobs && id in a.claims
    then a.claims[id := a.claims[id] + 1] else a.claims
  }

  function ApplyTake(a: World, id: JobId, fate: Fate): World {
    if !TookEffect(fate) || id !in a.store.jobs then a
    else
      var b := a.(store := Take(a.store, id).0, retired := a.retired + {id});
      if fate.Answered? then b.(taken := a.taken + [(id, a.store.jobs[id])]) else b
  }

  function ApplyLease(c: Config, a: World, w: WorkerId, id: JobId, act: LeaseAct): World
    requires LeaseEnabled(a, w, id, act)
  {
    Settle(a.(store := LeaseStore(c, a.store, w, id, act), claims := LeaseClaims(a, id, act)), w, id,
           LeaseNext(a.store, id, a.flight[(w, id)], act))
  }

  function ApplyPool(a: World, w: WorkerId, act: PoolAct): World
    requires PoolEnabled(a, w, act)
  {
    match act
    case MoveCall(fate) => ApplyMove(a, w, fate)
    case Beat => a.(store := Heartbeat(a.store, w))
    case Register(fate) =>
      var b := if TookEffect(fate) then a.(store := Heartbeat(a.store, w)) else a;
      if fate.Answered? then b.(up := b.up + {w}) else b
    case StopLoops => a.(up := a.up - {w}, draining := a.draining + {w})
    case Withdraw(effect) =>
      (if effect then a.(store := Deregister(a.store, w).0) else a).(draining := a.draining - {w})
    case Crash =>
      a.(up := a.up - {w}, draining := a.draining - {w}, flight := map k | k in a.flight && k.0 != w :: a.flight[k])
  }

  function ApplyOther(c: Config, a: World, act: OtherAct): World
    requires OtherEnabled(c, a, act)
  {
    match act
    case Submit(id, r) =>
      var (s, created) := Enqueue(a.store, id, r);
      if created then a.(store := s, claims := a.claims[id := 0]) else a
    case Cancel(id) =>
      if Live(a.store, id) then a.(store := RequestCancel(a.store, id).0, cancelled := a.cancelled + {id}) else a
    case Observe(id) => a.(observed := a.observed + {id})
    case TakeCall(id, fate) => ApplyTake(a, id, fate)
    case Expire(id) => a.(store := Take(a.store, id).0, retired := a.retired + {id})
    case ReapCall => a.(store := Reap(a.store, c.workerTtl))
    case Tick(d) => a.(store := a.store.(now := a.store.now + d))
  }

  function Apply(c: Config, a: World, step: Step): World
    requires Enabled(c, a, step)
  {
    match step
    case Lease(w, id, act) => ApplyLease(c, a, w, id, act)
    case Pool(w, act) => ApplyPool(a, w, act)
    case Other(act) => ApplyOther(c, a, act)
  }

  predicate ValidRun(c: Config, a: World, steps: seq<Step>)
    decreases steps
  {
    steps == [] || (Enabled(c, a, steps[0]) && ValidRun(c, Apply(c, a, steps[0]), steps[1..]))
  }

  /** The world after a whole run. */
  function Exec(c: Config, a: World, steps: seq<Step>): World
    requires ValidRun(c, a, steps)
    decreases steps
  {
    if steps == [] then a else Exec(c, Apply(c, a, steps[0]), steps[1..])
  }
}
