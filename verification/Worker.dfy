/**
  The worker pool's own code: claiming, one delivery from claim to settled lease, and the pool lifecycle.

  Every outcome the environment decides is a parameter: what the body and the watcher do, what becomes of
  each backend call, and what everybody else does at each await. The object keeps the run it has taken part
  in, and its invariant says that this run is one of the protocol's.
 */
module Workers {
  import opened Records
  import opened Stores
  import opened Protocol
  import opened Invariant
  import opened Guarantees
  import opened Driving
  import opened Interleaving
  import opened Scripts

  /** How a coroutine ended, as its caller sees it. */
  datatype Ending = Finished | Exception(message: string) | CancelledError

  datatype ClaimEnd = Empty | Claimed(id: JobId, record: Record) | ClaimRaised | ClaimCancelled

  /** What everybody else does during one await of a task that has this job, or none, in hand. */
  type Env = (Option<JobId>, World) -> seq<Step>

  /** Whenever it is asked, `env` takes steps that are enabled and not this pool's own. */
  ghost predicate Fair(c: Config, env: Env, w: WorkerId, looping: bool, upkeep: bool) {
    forall job, a :: Inv(c, a) ==> ValidRun(c, a, env(job, a)) && AllTheirs(env(job, a), w, job, looping, upkeep)
  }

  /** The world a call meets that is under way in `a`: everybody else has run until it takes effect. */
  ghost function Meet(c: Config, env: Env, job: Option<JobId>, a: World): World {
    if ValidRun(c, a, env(job, a)) then Exec(c, a, env(job, a)) else a
  }

  /** The world after this pool's next act on a job. */
  ghost function Did(c: Config, w: WorkerId, job: JobId, act: LeaseAct, a: World): World {
    if LeaseEnabled(a, w, job, act) then ApplyLease(c, a, w, job, act) else a
  }

  /** Where the body and the watcher of a job delivered in `a` are when the first of them is done. */
  ghost function RaceWorld(c: Config, env: Env, w: WorkerId, job: JobId, a: World): World {
    Meet(c, env, Some(job), Did(c, w, job, Start, a))
  }

  /** Where a claim that was answered leaves a job moved in `a`. */
  ghost function ClaimedWorld(c: Config, env: Env, w: WorkerId, job: JobId, a: World): World {
    Did(c, w, job, ClaimCall(Answered), Meet(c, env, Some(job), a))
  }

  /** Whatever it starts from, `env` runs until this pool has nothing in hand. */
  ghost predicate Drains(c: Config, env: Env, w: WorkerId) {
    forall a :: Inv(c, a) ==> ValidRun(c, a, env(None, a)) && NoFlight(Exec(c, a, env(None, a)), w)
  }

  /** What a turn does with the job BLMOVE gave it; without a copy the claim did not deliver one. */
  function ServeActs(
    copy: Option<Record>, script: Fate, recovery: Fate,
    decodes: bool, registered: bool, race: Race, first: Fate, second: Fate, release: Fate): seq<LeaseAct>
  {
    ClaimActs(true, script, recovery) +
    if copy.None? then [] else ProcessActs(copy.value, decodes, registered, race, first, second, release)
  }

  /** What it does with a claimed record; one that does not decode is dropped, and its lease stays. */
  function ProcessActs(
    copy: Record, decodes: bool, registered: bool, race: Race, first: Fate, second: Fate, release: Fate): seq<LeaseAct>
  {
    if decodes then DeliverActs(copy, registered, race, first, second, release) else [Abandon]
  }

  /** CancelledError leaves the claim or the delivery. */
  predicate ServeCutShort(
    copy: Option<Record>, script: Fate, recovery: Fate, decodes: bool, registered: bool, race: Race, first: Fate, second: Fate)
  {
    || script.Interrupted?
    || (script.Errored? && recovery.Interrupted?)
    || (copy.Some? && decodes && CutShort(RunActs(copy.value, registered, race, first, second)))
  }

  /** The race between body and watcher as it turns out; the watcher returns only once it has read the flag. */
  ghost predicate Believable(race: World -> Race, id: JobId) {
    forall a :: race(a).WatcherReturned? ==> Flagged(a.store, id)
  }

  /** How `_save` ends for each fate of its call, given whether the record was there. */
  function SaveEnd(fate: Fate, found: bool): Ending {
    match fate
    case Answered => if found then Finished else Exception("KeyError")
    case Errored(_) => Exception(SAVE_FAILED)
    case Interrupted(_) => CancelledError
  }

  /** How the try block of `_run` ends. */
  function TryEnd(race: Race, first: Fate): Ending {
    if race.Shutdown? then CancelledError
    else if BodyRaises(race) then Exception(race.end.message)
    else SaveEnd(first, true)
  }

  /** Where a try block that ended this way leaves its loop. */
  function StageFor(end: Ending, copy: Record): Option<Stage> {
    match end
    case Finished => None
    case Exception(_) => Some(Failing(copy))
    case CancelledError => Some(Releasing)
  }

  /** How `claim` ends once the script has been sent. */
  function ClaimEndFor(job: JobId, record: Option<Record>, script: Fate, recovery: Fate): ClaimEnd {
    if script.Interrupted? then ClaimCancelled
    else if script.Answered? && record.Some? then Claimed(job, record.value)
    else if recovery.Interrupted? then ClaimCancelled
    else if script.Errored? || recovery.Errored? then ClaimRaised
    else Empty
  }

  /** A withdrawal that took effect removes its worker from the liveness set unless it holds leases, and nobody else. */
  ghost predicate Withdrawn(s: Store, t: Store, w: WorkerId, effect: bool) {
    && t.processing == s.processing
    && (w in t.beats <==> w in s.beats && !(effect && (w !in s.processing || s.processing[w] == [])))
    && (forall v :: v != w ==> (v in t.beats <==> v in s.beats))
    && (forall v :: v in t.beats ==> v in s.beats && t.beats[v] == s.beats[v])
  }

  lemma {:induction false} Assoc<T>(a: seq<T>, b: seq<T>, c: seq<T>)
    ensures a + b + c == a + (b + c) && b + [] == b
  {
  }

  lemma {:induction false} TwoActs(a: seq<LeaseAct>, x: LeaseAct, y: LeaseAct)
    ensures a + [x] + [y] == a + [x, y]
  {
  }

  class Worker {
    const redis: Redis
    const id: WorkerId
    var entered: bool
    var running: bool
    var loops: nat
    var upkeep: bool
    var world: World             // the rest of the system
    ghost var past: seq<Step>    // what everybody did up to the current turn's BLMOVE
    ghost var turn: seq<Step>    // and since

    /** The run so far is a run of the protocol, and the pool's tasks fit its place in it. */
    ghost predicate Tracked()
      reads this, redis
    {
      && Reachable(redis.config, past + turn) && Exec(redis.config, INIT, past + turn) == world
      && (loops > 0 ==> id in world.up)
      && (loops == 0 ==> NoFlight(world, id))
      && (upkeep ==> id in world.up || id in world.draining)
      && (!entered ==> loops == 0 && !upkeep && id !in world.up && id !in world.draining)
    }

    ghost predicate Valid()
      reads this, redis
    {
      Tracked() && redis.Snapshot() == world.store
    }

    /** What this pool has done with a job since the current turn's BLMOVE. */
    ghost function Mine(job: JobId): seq<LeaseAct>
      reads this
    {
      OwnActs(turn, id, job)
    }

    /** Created in any reachable world that does not have this pool up. */
    constructor (r: Redis, w: WorkerId, a: World, ghost steps: seq<Step>)
      requires Reachable(r.config, steps) && Exec(r.config, INIT, steps) == a && r.Snapshot() == a.store
      requires w !in a.up && w !in a.draining
      ensures Valid() && redis == r && id == w && world == a && past == steps && turn == []
      ensures !entered && !running && loops == 0 && !upkeep
    {
      redis, id, entered, running, loops, upkeep, world := r, w, false, false, 0, false, a;
      past, turn := steps, [];
      new;
      ReachableInv(r.config, steps);
      assert steps + [] == steps;
    }

    // ---- single steps ----

    /** Any await: everybody else runs. */
    method Await(env: Env, job: Option<JobId>)
      requires Valid() && Fair(redis.config, env, id, loops > 0, upkeep)
      requires job.Some? ==> At(world, id, job.value)
      modifies this`world, this`turn, redis
      ensures Valid()
      ensures turn == old(turn) + env(job, old(world))
      ensures ValidRun(redis.config, old(world), env(job, old(world)))
      ensures world == Exec(redis.config, old(world), env(job, old(world))) == Meet(redis.config, env, job, old(world))
      ensures job.Some? ==> Standing(world, id, job.value) == old(Standing(world, id, job.value))
      ensures job.Some? ==> Mine(job.value) == old(Mine(job.value))
      ensures (id in world.up <==> id in old(world).up) && (id in world.draining <==> id in old(world).draining)
    {
      ReachableInv(redis.config, past + turn);
      var steps := env(job, world);
      AwaitExtends(redis.config, past, turn, steps, id, job, loops > 0, upkeep);
      turn := turn + steps;
      world := Exec(redis.config, world, steps);
      redis.Become(world.store);
    }

    /** One act on a job, its script already run. */
    method Act(job: JobId, act: LeaseAct)
      requires Tracked() && loops > 0 && LeaseEnabled(world, id, job, act)
      requires redis.Snapshot() == LeaseStore(redis.config, world.store, id, job, act)
      modifies this`world, this`turn
      ensures Valid()
      ensures turn == old(turn) + [Lease(id, job, act)]
      ensures world == ApplyLease(redis.config, old(world), id, job, act)
      ensures Mine(job) == old(Mine(job)) + [act]
      ensures act != ClaimCall(Answered) ==> Standing(world, id, job) == Follow(old(world).flight[(id, job)], act)
    {
      ActExtends(redis.config, past, turn, id, job, act);
      turn := turn + [Lease(id, job, act)];
      world := ApplyLease(redis.config, world, id, job, act);
    }

    /** One step of the pool's lifecycle, its script already run. */
    method Advance(act: PoolAct)
      requires Tracked() && entered && loops == 0 && IsLifecycle(act) && PoolEnabled(world, id, act)
      requires redis.Snapshot() == ApplyPool(world, id, act).store
      requires upkeep ==> !act.Withdraw?
      modifies this`world, this`turn
      ensures Valid()
      ensures turn == old(turn) + [Pool(id, act)] && world == ApplyPool(old(world), id, act)
    {
      LifecycleKeepsFlight(world, id, act);
      PoolExtends(redis.config, past, turn, id, act);
      turn := turn + [Pool(id, act)];
      world := ApplyPool(world, id, act);
    }

    // ---- one delivery ----

    /** `_save`: one terminal write, with whatever became of the call. */
    method Save(env: Env, job: JobId, r: Record, fate: Fate) returns (end: Ending)
      requires Valid() && loops > 0 && Fair(redis.config, env, id, loops > 0, upkeep)
      requires At(world, id, job) && Permits(world.flight[(id, job)], SaveCall(r, fate))
      modifies this`world, this`turn, redis
      ensures Valid()
      ensures Mine(job) == old(Mine(job)) + [SaveCall(r, fate)]
      ensures Standing(world, id, job) == Follow(old(world).flight[(id, job)], SaveCall(r, fate))
      ensures end == SaveEnd(fate, job in Meet(redis.config, env, Some(job), old(world)).store.jobs)
      ensures world == Did(redis.config, id, job, SaveCall(r, fate), Meet(redis.config, env, Some(job), old(world)))
      ensures fate.Answered? && !old(world).flight[(id, job)].Failing? ==> end.Finished?
    {
      Await(env, Some(job));
      EnabledIffPermitted(world.store, job, world.flight[(id, job)], SaveCall(r, fate));
      if !world.flight[(id, job)].Failing? {
        InHandIsStored(redis.config, past + turn, id, job);
      }
      var found := job in world.store.jobs;
      if TookEffect(fate) {
        var _ := redis.SaveScript(id, job, r, true);
      }
      Act(job, SaveCall(r, fate));
      end := SaveEnd(fate, found);
    }

    /** The end of the body: `job_task.result()` raises, or its value is saved as COMPLETED. */
    method Conclude(env: Env, job: JobId, copy: Record, finish: BodyEnd, first: Fate) returns (end: Ending)
      requires Valid() && loops > 0 && Fair(redis.config, env, id, loops > 0, upkeep)
      requires Standing(world, id, job) == Some(Racing(copy, false))
      modifies this`world, this`turn, redis
      ensures Valid()
      ensures Mine(job) == old(Mine(job)) + TryActs(copy, BodyFirst(finish), first)
      ensures end == if finish.Raised? then Exception(finish.message) else SaveEnd(first, true)
      ensures Standing(world, id, job) == StageFor(end, copy)
    {
      match finish
      case Raised(message) =>
        Act(job, BodyRaised);
        end := Exception(message);
      case Returned(result) =>
        end := Save(env, job, Outcome(copy, Completed, None, Some(result)), first);
    }

    /** The watcher returned first: the body is cancelled and the job saved as CANCELLED. */
    method Unwind(env: Env, job: JobId, copy: Record, first: Fate) returns (end: Ending)
      requires Valid() && loops > 0 && Fair(redis.config, env, id, loops > 0, upkeep)
      requires Standing(world, id, job) == Some(Racing(copy, false)) && Flagged(world.store, job)
      modifies this`world, this`turn, redis
      ensures Valid()
      ensures Mine(job) == old(Mine(job)) + TryActs(copy, WatcherReturned, first)
      ensures end == SaveEnd(first, true)
      ensures Standing(world, id, job) == StageFor(end, copy)
    {
      ghost var before := Mine(job);
      Act(job, Fire);
      end := Save(env, job, Outcome(copy, Cancelled, None, None), first);
      TwoActs(before, Fire, SaveAs(copy, Cancelled, None, None, first));
    }

    /** The try block of `_run`: the race, and the save of a job that completed or was cancelled. */
    method Attempt(env: Env, job: JobId, copy: Record, race: World -> Race, first: Fate) returns (end: Ending, how: Race)
      requires Valid() && loops > 0 && Fair(redis.config, env, id, loops > 0, upkeep) && Believable(race, job)
      requires Standing(world, id, job) == Some(Racing(copy, false))
      modifies this`world, this`turn, redis
      ensures Valid()
      ensures how == race(Meet(redis.config, env, Some(job), old(world)))
      ensures Mine(job) == old(Mine(job)) + TryActs(copy, how, first)
      ensures end == TryEnd(how, first)
      ensures Standing(world, id, job) == StageFor(end, copy)
    {
      Await(env, Some(job));
      how := race(world);
      match how {
        case Shutdown =>
          Act(job, Interrupt);
          end := CancelledError;
        case WatcherReturned =>
          end := Unwind(env, job, copy, first);
        case BodyFirst(finish) =>
          end := Conclude(env, job, copy, finish, first);
        case WatcherRaised(finish) =>
          end := Conclude(env, job, copy, finish, first);
      }
    }

    /** `_run` from the race on: the try block, and one FAILED save if the body or the save raised. */
    method RunTask(env: Env, job: JobId, copy: Record, race: World -> Race, first: Fate, second: Fate)
      returns (end: Ending, how: Race)
      requires Valid() && loops > 0 && Fair(redis.config, env, id, loops > 0, upkeep) && Believable(race, job)
      requires Standing(world, id, job) == Some(Racing(copy, false))
      modifies this`world, this`turn, redis
      ensures Valid()
      ensures how == race(Meet(redis.config, env, Some(job), old(world)))
      ensures Mine(job) == old(Mine(job)) + RaceActs(copy, how, first, second)
      ensures Standing(world, id, job) == if end.CancelledError? then Some(Releasing) else None
      ensures end.CancelledError? <==> how.Shutdown? || first.Interrupted? || (first.Errored? && !BodyRaises(how) && second.Interrupted?)
    {
      ghost var before := Mine(job);
      end, how := Attempt(env, job, copy, race, first);
      RaceIsTryThenExcept(copy, how, first, second);
      Assoc(before, TryActs(copy, how, first), ExceptActs(copy, how, first, second));
      if end.Exception? {
        var call := if BodyRaises(how) then first else second;
        end := Save(env, job, Outcome(copy, Failed, Some(end.message), None), call);
      }
    }

    /** `_run`: decide the outcome and write it. */
    method Run(env: Env, job: JobId, copy: Record, registered: bool, race: World -> Race, first: Fate, second: Fate)
      returns (end: Ending, how: Race)
      requires Valid() && loops > 0 && Fair(redis.config, env, id, loops > 0, upkeep) && Believable(race, job)
      requires Standing(world, id, job) == Some(Delivered(copy))
      modifies this`world, this`turn, redis
      ensures Valid()
      ensures !copy.cancel && registered ==> how == race(RaceWorld(redis.config, env, id, job, old(world)))
      ensures Mine(job) == old(Mine(job)) + RunActs(copy, registered, how, first, second)
      ensures Standing(world, id, job) == if end.CancelledError? then Some(Releasing) else None
      ensures end.CancelledError? <==> CutShort(RunActs(copy, registered, how, first, second))
    {
      how := Shutdown;
      if copy.cancel || !registered {
        var r := if copy.cancel then Outcome(copy, Cancelled, None, None) else Outcome(copy, Failed, Some(Unregistered(copy.envelope.taskName)), None);
        end := Save(env, job, r, first);
      } else {
        ghost var before := Mine(job);
        Act(job, Start);
        end, how := RunTask(env, job, copy, race, first, second);
        Assoc(before, [Start], RaceActs(copy, how, first, second));
      }
      RunCutShort(copy, registered, how, first, second);
    }

    /** One delivery of `_worker_loop`: run it, and on CancelledError hand the lease back if that works. */
    method Deliver(
      env: Env, job: JobId, copy: Record, registered: bool, race: World -> Race, first: Fate, second: Fate, release: Fate)
      returns (end: Ending, how: Race)
      requires Valid() && loops > 0 && Fair(redis.config, env, id, loops > 0, upkeep) && Believable(race, job)
      requires Standing(world, id, job) == Some(Delivered(copy))
      modifies this`world, this`turn, redis
      ensures Valid()
      ensures !copy.cancel && registered ==> how == race(RaceWorld(redis.config, env, id, job, old(world)))
      ensures Mine(job) == old(Mine(job)) + DeliverActs(copy, registered, how, first, second, release)
      ensures !At(world, id, job)
      ensures end.CancelledError? <==> CutShort(RunActs(copy, registered, how, first, second))
    {
      ghost var before := Mine(job);
      end, how := Run(env, job, copy, registered, race, first, second);
      Assoc(before, RunActs(copy, registered, how, first, second), [ReleaseCall(TookEffect(release))]);
      if end.CancelledError? {
        HandBack(env, job, release);
      }
    }

    /** The shielded release of an interrupted job; whatever it raises is logged or passed on. */
    method HandBack(env: Env, job: JobId, release: Fate)
      requires Valid() && loops > 0 && Fair(redis.config, env, id, loops > 0, upkeep)
      requires Standing(world, id, job) == Some(Releasing)
      modifies this`world, this`turn, redis
      ensures Valid()
      ensures Mine(job) == old(Mine(job)) + [ReleaseCall(TookEffect(release))]
      ensures !At(world, id, job)
    {
      Await(env, Some(job));
      if TookEffect(release) {
        var _ := redis.ReleaseScript(id, job);
      }
      Act(job, ReleaseCall(TookEffect(release)));
    }

    // ---- one claim ----

    /** BLMOVE. What follows it is a new turn. */
    method Blmove(move: Fate) returns (head: Option<JobId>)
      requires Valid() && loops > 0
      modifies this`world, this`past, this`turn, redis
      ensures Valid() && turn == [] && past == old(past + turn) + [Pool(id, MoveCall(move))]
      ensures world == ApplyMove(old(world), id, move)
      ensures head == if move.Answered? && old(world).store.queue != [] then Some(old(world).store.queue[0]) else None
      ensures head.Some? ==> Standing(world, id, head.value) == Some(Moved)
    {
      ReachableInv(redis.config, past + turn);
      MoveBeginsAClaim(redis.config, world, id, move);
      PoolExtends(redis.config, past, turn, id, MoveCall(move));
      head := None;
      if TookEffect(move) {
        head := redis.Blmove(id);
      }
      if !move.Answered? {
        head := None;
      }
      world := ApplyPool(world, id, MoveCall(move));
      past, turn := past + (turn + [Pool(id, MoveCall(move))]), [];
      assert past + turn == past == old(past + turn) + [Pool(id, MoveCall(move))];
    }

    /** BLMOVE with everybody else running until it takes effect; `met` is the world it then meets. */
    method TakeHead(env: Env, move: Fate) returns (head: Option<JobId>, ghost met: World)
      requires Valid() && loops > 0 && Fair(redis.config, env, id, loops > 0, upkeep)
      modifies this`world, this`past, this`turn, redis
      ensures Valid() && turn == []
      ensures past == old(past + turn) + env(None, old(world)) + [Pool(id, MoveCall(move))]
      ensures ValidRun(redis.config, old(world), env(None, old(world)))
      ensures met == Exec(redis.config, old(world), env(None, old(world))) && world == ApplyMove(met, id, move)
      ensures head == if move.Answered? && met.store.queue != [] then Some(met.store.queue[0]) else None
      ensures head.Some? ==> Standing(world, id, head.value) == Some(Moved)
    {
      Assoc(past, turn, env(None, world));
      Await(env, None);
      met := world;
      head := Blmove(move);
    }

    /** After the claim script: recover if it raised, discard the lease if it found no record. */
    method Settle(env: Env, job: JobId, record: Option<Record>, script: Fate, recovery: Fate) returns (end: ClaimEnd)
      requires Valid() && loops > 0 && Fair(redis.config, env, id, loops > 0, upkeep)
      requires Standing(world, id, job) == match script
                                           case Interrupted(_) => None
                                           case Errored(_) => Some(ClaimFailed)
                                           case Answered => Some(if record.None? then Vanished else Delivered(record.value))
      modifies this`world, this`turn, redis
      ensures Valid()
      ensures Mine(job) == old(Mine(job)) + AfterScript(record.Some?, script, recovery)
      ensures end == ClaimEndFor(job, record, script, recovery)
      ensures end.Claimed? ==> Standing(world, id, job) == Some(Delivered(record.value)) && world == old(world)
    {
      if script.Errored? {
        Await(env, Some(job));
        if TookEffect(recovery) {
          redis.RequeueTransaction(id, job);
        }
        Act(job, Recover(TookEffect(recovery)));
      } else if script.Answered? && record.None? {
        Await(env, Some(job));
        if TookEffect(recovery) {
          redis.Lrem(id, job);
        }
        Act(job, Discard(TookEffect(recovery)));
      }
      end := ClaimEndFor(job, record, script, recovery);
    }

    /** The claim script; with the lease already taken it always finds the record. */
    method SendScript(env: Env, job: JobId, script: Fate) returns (record: Option<Record>)
      requires Valid() && loops > 0 && Fair(redis.config, env, id, loops > 0, upkeep)
      requires Standing(world, id, job) == Some(Moved)
      modifies this`world, this`turn, redis
      ensures Valid()
      ensures Mine(job) == old(Mine(job)) + [ClaimCall(script)]
      ensures script.Answered? ==> record.Some? && world == ClaimedWorld(redis.config, env, id, job, old(world))
      ensures Standing(world, id, job) == match script
                                          case Interrupted(_) => None
                                          case Errored(_) => Some(ClaimFailed)
                                          case Answered => Some(Delivered(record.value))
    {
      Await(env, Some(job));
      MovedIsStored(redis.config, past + turn, id, job);
      record := None;
      if TookEffect(script) {
        record := redis.ClaimScript(job);
      }
      Act(job, ClaimCall(script));
    }

    /** `RedisBackend.claim` once BLMOVE has answered. */
    method Claim(env: Env, job: JobId, script: Fate, recovery: Fate) returns (end: ClaimEnd)
      requires Valid() && loops > 0 && Fair(redis.config, env, id, loops > 0, upkeep)
      requires Standing(world, id, job) == Some(Moved)
      modifies this`world, this`turn, redis
      ensures Valid()
      ensures Mine(job) == old(Mine(job)) + ClaimActs(true, script, recovery)
      ensures end.Claimed? <==> script.Answered?
      ensures end.ClaimCancelled? <==> script.Interrupted? || (script.Errored? && recovery.Interrupted?)
      ensures end.Claimed? ==> world == ClaimedWorld(redis.config, env, id, job, old(world))
      ensures end.Claimed? ==> end.id == job && Standing(world, id, job) == Some(Delivered(end.record))
    {
      ghost var before := Mine(job);
      var record := SendScript(env, job, script);
      Assoc(before, [ClaimCall(script)], AfterScript(true, script, recovery));
      end := Settle(env, job, record, script, recovery);
    }

    /** The rest of a turn once BLMOVE has answered with `job`. */
    method Serve(
      env: Env, job: JobId, script: Fate, recovery: Fate,
      decodes: bool, registered: bool, race: World -> Race, first: Fate, second: Fate, release: Fate)
      returns (copy: Option<Record>, how: Race, goesOn: bool)
      requires Valid() && loops > 0 && Fair(redis.config, env, id, loops > 0, upkeep) && Believable(race, job)
      requires Standing(world, id, job) == Some(Moved)
      modifies this`world, this`turn, redis
      ensures Valid()
      ensures copy.Some? <==> script.Answered?
      ensures copy.Some? && decodes && !copy.value.cancel && registered ==>
                how == race(RaceWorld(redis.config, env, id, job, ClaimedWorld(redis.config, env, id, job, old(world))))
      ensures goesOn <==> !ServeCutShort(copy, script, recovery, decodes, registered, how, first, second)
      ensures Mine(job) == old(Mine(job)) + ServeActs(copy, script, recovery, decodes, registered, how, first, second, release)
      ensures copy.Some? ==> !At(world, id, job)
    {
      ghost var before := Mine(job);
      copy, how := None, Shutdown;
      var end := Claim(env, job, script, recovery);
      goesOn := !end.ClaimCancelled?;
      if !end.Claimed? {
        return;
      }
      copy := Some(end.record);
      how, goesOn := Process(env, job, end.record, decodes, registered, race, first, second, release);
      Assoc(before, ClaimActs(true, script, recovery),
            ProcessActs(end.record, decodes, registered, how, first, second, release));
    }

    /** `_process` of a claimed record. */
    method Process(
      env: Env, job: JobId, record: Record,
      decodes: bool, registered: bool, race: World -> Race, first: Fate, second: Fate, release: Fate)
      returns (how: Race, goesOn: bool)
      requires Valid() && loops > 0 && Fair(redis.config, env, id, loops > 0, upkeep) && Believable(race, job)
      requires Standing(world, id, job) == Some(Delivered(record))
      modifies this`world, this`turn, redis
      ensures Valid()
      ensures decodes && !record.cancel && registered ==> how == race(RaceWorld(redis.config, env, id, job, old(world)))
      ensures goesOn <==> !(decodes && CutShort(RunActs(record, registered, how, first, second)))
      ensures Mine(job) == old(Mine(job)) + ProcessActs(record, decodes, registered, how, first, second, release)
      ensures !At(world, id, job)
    {
      how, goesOn := Shutdown, true;
      if decodes {
        var end, outcome := Deliver(env, job, record, registered, race, first, second, release);
        how, goesOn := outcome, !end.CancelledError?;
      } else {
        Act(job, Abandon);
      }
    }

    /**
      One turn of `_worker_loop`; a record that does not decode is logged and its lease left to the reaper.
      The loop goes on after any exception and ends after CancelledError.
     */
    method Turn(
      env: Env, move: Fate, script: Fate, recovery: Fate,
      decodes: bool, registered: bool, race: (JobId, World) -> Race, first: Fate, second: Fate, release: Fate)
      returns (claimed: Option<JobId>, copy: Option<Record>, how: Race, goesOn: bool, ghost met: World)
      requires Valid() && loops > 0 && Fair(redis.config, env, id, loops > 0, upkeep)
      requires forall job, a :: race(job, a).WatcherReturned? ==> Flagged(a.store, job)
      modifies this`world, this`past, this`turn, redis
      ensures Valid()
      ensures past == old(past + turn) + env(None, old(world)) + [Pool(id, MoveCall(move))]
      ensures ValidRun(redis.config, old(world), env(None, old(world)))
      ensures met == Exec(redis.config, old(world), env(None, old(world)))
      ensures var queue := met.store.queue;
              && claimed == (if move.Answered? && queue != [] && script.Answered? then Some(queue[0]) else None)
              && (claimed.Some? <==> copy.Some?)
              && (claimed.Some? ==> !At(world, id, claimed.value))
              && (claimed.Some? && decodes && !copy.value.cancel && registered ==>
                    how == race(queue[0], RaceWorld(redis.config, env, id, queue[0],
                      ClaimedWorld(redis.config, env, id, queue[0], ApplyMove(met, id, move)))))
              && (goesOn <==> !move.Interrupted? &&
                              (move.Errored? || queue == []
                               || !ServeCutShort(copy, script, recovery, decodes, registered, how, first, second)))
              && if !move.Answered? || queue == [] then turn == []
                 else Mine(queue[0]) == ServeActs(copy, script, recovery, decodes, registered, how, first, second, release)
    {
      claimed, copy, how, goesOn := None, None, Shutdown, !move.Interrupted?;
      var head;
      head, met := TakeHead(env, move);
      if head.None? {
        return;
      }
      var job := head.value;
      copy, how, goesOn :=
        Serve(env, job, script, recovery, decodes, registered, a => race(job, a), first, second, release);
      claimed := if copy.Some? then head else None;
    }

    // ---- the lifecycle ----

    /** `__aenter__`: register, and only then let any loop claim. */
    method Enter(env: Env, concurrency: nat, fate: Fate) returns (ok: bool)
      requires Valid() && Fair(redis.config, env, id, loops > 0, upkeep)
      modifies this, redis
      ensures Valid() && entered && past == old(past)
      ensures old(entered) ==>
                && !ok && running == old(running) && loops == old(loops) && upkeep == old(upkeep)
                && turn == old(turn) && world == old(world)
      ensures !old(entered) ==>
                && running && (ok <==> fate.Answered?)
                && turn == old(turn) + env(None, old(world)) + [Pool(id, Register(fate))]
                && loops == (if ok then concurrency else 0) && upkeep == ok
    {
      if entered {
        return false;
      }
      entered, running := true, true;
      Await(env, None);
      FirstBeat(fate);
      if !fate.Answered? {
        return false;
      }
      while loops < concurrency
        modifies this`loops
        invariant Valid() && id in world.up && loops <= concurrency
      {
        loops := loops + 1;
      }
      upkeep := true;
      ok := true;
    }

    /** The heartbeat that `__aenter__` awaits. */
    method FirstBeat(fate: Fate)
      requires Valid() && entered && loops == 0 && !upkeep && id !in world.up && id !in world.draining
      modifies this`world, this`turn, redis
      ensures Valid()
      ensures turn == old(turn) + [Pool(id, Register(fate))]
      ensures fate.Answered? <==> id in world.up
    {
      if TookEffect(fate) {
        redis.HeartbeatScript(id);
      }
      Advance(Register(fate));
    }

    /** `gather(*workers)`: everybody runs until no loop of this pool is left; an ended loop has nothing in hand. */
    method Gather(env: Env)
      requires Valid() && entered && id in world.up && Fair(redis.config, env, id, loops > 0, upkeep)
      requires loops > 0 ==> Drains(redis.config, env, id)
      modifies this`world, this`turn, this`loops, redis
      ensures Valid() && loops == 0 && id !in world.up && id in world.draining
      ensures turn == old(turn) + env(None, old(world)) + [Pool(id, StopLoops)]
    {
      ReachableInv(redis.config, past + turn);
      assert Inv(redis.config, world);
      Await(env, None);
      loops := 0;
      LifecycleKeepsFlight(world, id, StopLoops);
      ReachableInv(redis.config, past + turn);
      Advance(StopLoops);
    }

    /** `_stop_upkeep`: a beat may still land while its task is being cancelled. */
    method StopUpkeep(env: Env) returns (ghost steps: seq<Step>)
      requires Valid() && entered && loops == 0 && Fair(redis.config, env, id, loops > 0, upkeep)
      modifies this`world, this`turn, this`upkeep, redis
      ensures Valid() && !upkeep
      ensures turn == old(turn) + steps && AllTheirs(steps, id, None, false, old(upkeep))
      ensures (id in world.up <==> id in old(world).up) && (id in world.draining <==> id in old(world).draining)
    {
      ReachableInv(redis.config, past + turn);
      assert Inv(redis.config, world);
      steps := env(None, world);
      Await(env, None);
      upkeep := false;
    }

    /** `_deregister`: best effort, since the TTL is the fallback. */
    method Deregister(env: Env, fate: Fate) returns (ghost steps: seq<Step>)
      requires Valid() && entered && loops == 0 && !upkeep && id in world.draining
      requires Fair(redis.config, env, id, loops > 0, upkeep)
      modifies this`world, this`turn, redis
      ensures Valid()
      ensures turn == old(turn) + steps + [Pool(id, Withdraw(TookEffect(fate)))]
      ensures AllTheirs(steps, id, None, false, false) && id !in world.draining
      ensures Withdrawn(Meet(redis.config, env, None, old(world)).store, world.store, id, TookEffect(fate))
    {
      ReachableInv(redis.config, past + turn);
      assert Inv(redis.config, world);
      steps := env(None, world);
      Await(env, None);
      if TookEffect(fate) {
        var _ := redis.DeregisterScript(id);
      }
      Advance(Withdraw(TookEffect(fate)));
    }

    /** `__aexit__`: every loop is gathered before upkeep stops, and deregistering comes last. */
    method Exit(gather: Env, env: Env, last: Env, fate: Fate) returns (ghost beating: seq<Step>, ghost silent: seq<Step>)
      requires Valid() && entered && id in world.up
      requires Fair(redis.config, gather, id, loops > 0, upkeep) && (loops > 0 ==> Drains(redis.config, gather, id))
      requires Fair(redis.config, env, id, false, upkeep) && Fair(redis.config, last, id, false, false)
      modifies this, redis
      ensures Valid() && !running && loops == 0 && !upkeep && entered && past == old(past)
      ensures turn == old(turn) + gather(None, old(world)) + [Pool(id, StopLoops)]
                      + beating + silent + [Pool(id, Withdraw(TookEffect(fate)))]
      ensures AllTheirs(beating, id, None, false, old(upkeep)) && AllTheirs(silent, id, None, false, false)
      ensures id !in world.draining
      ensures TookEffect(fate) ==> (id !in world.store.beats <==> Leases(world.store, id) == [])
    {
      running := false;
      Gather(gather);
      beating := StopUpkeep(env);
      silent := Deregister(last, fate);
      ReachableInv(redis.config, past + turn);
    }
  }
}
