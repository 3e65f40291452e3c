/** The protocol's inductive invariant, and that every step of every run keeps it. */
module Invariant {
  import opened Records
  import opened Stores
  import opened Reaper
  import opened Places
  import opened Protocol

  predicate Known(a: World, id: JobId) {
    id in a.store.jobs || id in a.retired
  }

  /** While the job is live, it is RUNNING and this worker's list holds its id. */
  predicate OwnedIfLive(s: Store, w: WorkerId, id: JobId) {
    Live(s, id) ==> s.jobs[id].status == Running && Holds(s, w, id)
  }

  /** Until something of this worker's took effect on it, the job in hand is live. */
  predicate Owned(s: Store, w: WorkerId, id: JobId) {
    Live(s, id) && s.jobs[id].status == Running && Holds(s, w, id)
  }

  /** The stale copy a worker will write back still agrees with the stored record. */
  predicate CopyAgrees(a: World, id: JobId, copy: Record) {
    && (id in a.store.jobs ==>
          var r := a.store.jobs[id];
          copy.attempts == r.attempts && copy.envelope == r.envelope && copy.group == r.group)
    && copy.error.None? && copy.result.None?
    && (copy.cancel ==> id in a.cancelled)
  }

  predicate StageOk(a: World, w: WorkerId, id: JobId, st: Stage) {
    && Known(a, id)
    && match st
       case Moved => Holds(a.store, w, id)
       case ClaimFailed => Holds(a.store, w, id)
       case Vanished => false
       case Delivered(copy) => Owned(a.store, w, id) && CopyAgrees(a, id, copy)
       case Racing(copy, fired) =>
         Owned(a.store, w, id) && CopyAgrees(a, id, copy) && !copy.cancel && (fired ==> id in a.cancelled)
       case Failing(copy) => OwnedIfLive(a.store, w, id) && CopyAgrees(a, id, copy) && !copy.cancel
       case Releasing => OwnedIfLive(a.store, w, id)
  }

  ghost predicate FlightOk(a: World) {
    forall w, id :: At(a, w, id) ==> w in a.up && StageOk(a, w, id, a.flight[(w, id)])
  }

  /** Every non-empty processing list has its owner in the liveness set. */
  ghost predicate Visible(s: Store) {
    forall w :: w in s.processing ==> w in s.beats
  }

  ghost predicate PoolsOk(c: Config, a: World) {
    && a.up !! a.draining
    && (forall w :: w in a.up ==> w in a.store.beats && a.store.now < a.store.beats[w] + c.workerTtl)
    && (forall w :: w in a.store.beats ==> a.store.beats[w] <= a.store.now)
  }

  /** One id's record, history and consumers fit together. */
  predicate RecordOk(a: World, id: JobId) {
    && (id in a.store.jobs ==>
          var r := a.store.jobs[id];
          && id !in a.retired
          && id in a.claims && r.attempts == a.claims[id]
          && (r.cancel || r.status == Cancelled ==> id in a.cancelled)
          && (!Terminal(r.status) && id in a.cancelled ==> r.cancel)
          && (!Terminal(r.status) ==> (r.status == Queued || r.status == Running) && r.error.None? && r.result.None?))
    && (id in a.store.expires <==> id in a.store.jobs && !Live(a.store, id))
    && (id in a.claims || id in a.cancelled || id in a.observed ==> Known(a, id))
    && (id in a.observed ==> !Live(a.store, id))
  }

  ghost predicate RecordsOk(a: World) {
    forall id :: RecordOk(a, id)
  }

  ghost predicate TakenOk(a: World) {
    && (forall i :: 0 <= i < |a.taken| ==> a.taken[i].0 in a.retired && Terminal(a.taken[i].1.status))
    && (forall i, j :: 0 <= i < j < |a.taken| ==> a.taken[i].0 != a.taken[j].0)
  }

  ghost predicate Inv(c: Config, a: World) {
    Placed(a.store) && Visible(a.store) && PoolsOk(c, a) && FlightOk(a) && RecordsOk(a) && TakenOk(a)
  }

  lemma {:induction false} InitInv(c: Config)
    ensures Inv(c, INIT)
  {
  }

  // ---- framing ----

  /** Nothing a stage of (w, id) depends on was lost between `a` and `b`. */
  predicate Undisturbed(a: World, b: World, w: WorkerId, id: JobId) {
    && (Known(a, id) ==> Known(b, id))
    && (Holds(a.store, w, id) ==> Holds(b.store, w, id))
    && (id in b.store.jobs ==>
          && id in a.store.jobs && b.store.jobs[id].attempts == a.store.jobs[id].attempts
          && b.store.jobs[id].envelope == a.store.jobs[id].envelope && b.store.jobs[id].group == a.store.jobs[id].group)
    && (Live(a.store, id) ==> Live(b.store, id))
    && (Live(b.store, id) ==> Live(a.store, id) && (a.store.jobs[id].status == Running ==> b.store.jobs[id].status == Running))
  }

  predicate Kin(a: World, b: World) {
    a.up <= b.up && a.cancelled <= b.cancelled
  }

  lemma {:induction false} StageFrame(a: World, b: World, w: WorkerId, id: JobId, st: Stage)
    requires StageOk(a, w, id, st) && Undisturbed(a, b, w, id) && Kin(a, b)
    ensures StageOk(b, w, id, st)
  {
  }

  /** Every stage but (w, id) is carried over undisturbed, and (w, id) is fine in its own right. */
  lemma {:induction false} FlightFrame(a: World, b: World, w: WorkerId, id: JobId)
    requires FlightOk(a) && Kin(a, b)
    requires forall v, x :: At(b, v, x) && (v, x) != (w, id) ==>
                              At(a, v, x) && b.flight[(v, x)] == a.flight[(v, x)] && Undisturbed(a, b, v, x)
    requires At(b, w, id) ==> w in b.up && StageOk(b, w, id, b.flight[(w, id)])
    ensures FlightOk(b)
  {
    forall v, x | At(b, v, x)
      ensures v in b.up && StageOk(b, v, x, b.flight[(v, x)])
    {
      if (v, x) != (w, id) {
        assert At(a, v, x);
        StageFrame(a, b, v, x, a.flight[(v, x)]);
      }
    }
  }

  /** Only the holder of a lease can have its job in flight. */
  lemma {:induction false} SoleFlight(a: World, w: WorkerId, id: JobId)
    requires FlightOk(a) && Placed(a.store) && Holds(a.store, w, id)
    ensures forall v :: At(a, v, id) ==> v == w
  {
    assert Live(a.store, id);
    forall v | At(a, v, id)
      ensures v == w
    {
      assert StageOk(a, v, id, a.flight[(v, id)]);
      assert Holds(a.store, v, id);
    }
  }

  /** Nothing about `id`'s record or history changed. */
  predicate SameRecord(a: World, b: World, id: JobId) {
    && (id in b.store.jobs <==> id in a.store.jobs)
    && (id in a.store.jobs ==> b.store.jobs[id] == a.store.jobs[id])
    && (id in b.store.expires <==> id in a.store.expires)
    && (id in b.claims <==> id in a.claims)
    && (id in a.claims ==> b.claims[id] == a.claims[id])
    && (id in b.cancelled <==> id in a.cancelled)
    && (id in b.observed <==> id in a.observed)
    && (id in b.retired <==> id in a.retired)
  }

  /** Only `id`'s record and history changed, and they are fine in their own right. */
  lemma {:induction false} RecordsFrame(a: World, b: World, id: JobId)
    requires RecordsOk(a) && RecordOk(b, id)
    requires forall x :: x != id ==> SameRecord(a, b, x)
    ensures RecordsOk(b)
  {
    forall x
      ensures RecordOk(b, x)
    {
      if x != id {
        assert RecordOk(a, x) && SameRecord(a, b, x);
      }
    }
  }

  // ---- one lemma per kind of step ----

  lemma {:induction false} LocalInv(c: Config, a: World, w: WorkerId, id: JobId, act: LeaseAct)
    requires Inv(c, a) && LeaseEnabled(a, w, id, act)
    requires act.Start? || act.Fire? || act.BodyRaised? || act.Interrupt? || act.Abandon?
    ensures Inv(c, ApplyLease(c, a, w, id, act))
  {
    assert StageOk(a, w, id, a.flight[(w, id)]) && RecordOk(a, id);
    DropInv(c, a, w, id);
    SettleInv(c, a, w, id, LeaseNext(a.store, id, a.flight[(w, id)], act));
  }

  lemma {:induction false} SubmitInv(c: Config, a: World, id: JobId, r: Record)
    requires Inv(c, a) && OtherEnabled(c, a, Submit(id, r))
    ensures Inv(c, ApplyOther(c, a, Submit(id, r)))
  {
    var b := ApplyOther(c, a, Submit(id, r));
    if id !in a.store.jobs {
      EnqueuePlaced(a.store, id, r);
      assert RecordOk(a, id) && !Known(a, id);
      assert forall w, x :: At(a, w, x) ==> Known(a, x) && Undisturbed(a, b, w, x);
      RecordsFrame(a, b, id);
      FlightFrame(a, b, WorkerId(0), id);
    }
  }

  lemma {:induction false} MoveInv(c: Config, a: World, w: WorkerId, fate: Fate)
    requires Inv(c, a) && PoolEnabled(a, w, MoveCall(fate))
    ensures Inv(c, ApplyPool(a, w, MoveCall(fate)))
  {
    var b := ApplyPool(a, w, MoveCall(fate));
    if a.store.queue != [] && TookEffect(fate) {
      var id := a.store.queue[0];
      assert id in a.store.queue && RecordOk(a, id);
      MovePlaced(a.store, w);
      assert Live(a.store, id) && Holds(b.store, w, id);
      assert !At(a, w, id) by {
        assert At(a, w, id) ==> Holds(a.store, w, id);
      }
      RecordsFrame(a, b, id);
      FlightFrame(a, b, w, id);
    }
  }

  /** Replacing or adding one stage, with the store as it is. */
  lemma {:induction false} StandInv(c: Config, a: World, w: WorkerId, id: JobId, st: Stage)
    requires Inv(c, a) && w in a.up && StageOk(a, w, id, st)
    ensures Inv(c, Stand(a, w, id, st))
  {
    var b := Stand(a, w, id, st);
    FlightFrame(a, b, w, id);
    assert RecordOk(a, id);
    RecordsFrame(a, b, id);
  }

  lemma {:induction false} DropInv(c: Config, a: World, w: WorkerId, id: JobId)
    requires Inv(c, a)
    ensures Inv(c, Drop(a, w, id))
  {
    var b := Drop(a, w, id);
    FlightFrame(a, b, w, id);
    assert RecordOk(a, id);
    RecordsFrame(a, b, id);
  }

  lemma {:induction false} SettleInv(c: Config, a: World, w: WorkerId, id: JobId, next: Option<Stage>)
    requires Inv(c, Drop(a, w, id)) && w in a.up
    requires next.Some? ==> StageOk(a, w, id, next.value)
    ensures Inv(c, Settle(a, w, id, next))
  {
    if next.Some? {
      StandInv(c, Drop(a, w, id), w, id, next.value);
    }
  }

  lemma {:induction false} ClaimEffectInv(c: Config, a: World, w: WorkerId, id: JobId)
    requires Inv(c, a) && At(a, w, id) && Holds(a.store, w, id) && id in a.claims
    ensures Inv(c, Drop(a.(store := Claim(a.store, id).0, claims := a.claims[id := a.claims[id] + 1]), w, id))
  {
    var b := Drop(a.(store := Claim(a.store, id).0, claims := a.claims[id := a.claims[id] + 1]), w, id);
    assert Live(a.store, id) && RecordOk(a, id);
    RecordsPlaced(a.store, b.store);
    RecordsFrame(a, b, id);
    assert FlightOk(b) by {
      SoleFlight(a, w, id);
      FlightFrame(a, b, w, id);
    }
  }

  lemma {:induction false} ClaimInv(c: Config, a: World, w: WorkerId, id: JobId, fate: Fate)
    requires Inv(c, a) && LeaseEnabled(a, w, id, ClaimCall(fate))
    ensures Inv(c, ApplyLease(c, a, w, id, ClaimCall(fate)))
  {
    var act, st := ClaimCall(fate), a.flight[(w, id)];
    assert StageOk(a, w, id, st) && RecordOk(a, id);
    var m := a.(store := LeaseStore(c, a.store, w, id, act), claims := LeaseClaims(a, id, act));
    if TookEffect(fate) {
      ClaimEffectInv(c, a, w, id);
    } else {
      DropInv(c, a, w, id);
    }
    SettleInv(c, m, w, id, LeaseNext(a.store, id, st, act));
  }

  lemma {:induction false} HandBackInv(c: Config, a: World, s: Store, w: WorkerId, id: JobId)
    requires Inv(c, a) && At(a, w, id) && Holds(a.store, w, id)
    requires s == Requeue(a.store, w, id) || s == Release(a.store, w, id).0 != a.store
    ensures Inv(c, Drop(a.(store := s), w, id))
  {
    var b := Drop(a.(store := s), w, id);
    assert Live(a.store, id);
    HandBackPlaced(a.store, s, w, id);
    assert Visible(s) by {
      UnleaseEffect(a.store, w, id);
    }
    assert RecordOk(a, id);
    RecordsFrame(a, b, id);
    assert FlightOk(b) by {
      SoleFlight(a, w, id);
      FlightFrame(a, b, w, id);
    }
  }

  lemma {:induction false} SaveRecords(c: Config, a: World, b: World, w: WorkerId, id: JobId, r: Record)
    requires RecordsOk(a) && id in a.store.jobs && Terminal(r.status)
    requires r.attempts == a.store.jobs[id].attempts && (r.cancel || r.status == Cancelled ==> id in a.cancelled)
    requires b == Drop(a.(store := Save(c, a.store, w, id, r, true).0), w, id)
    ensures RecordsOk(b)
  {
    assert RecordOk(a, id);
    RecordsFrame(a, b, id);
  }

  lemma {:induction false} SaveFlight(c: Config, a: World, b: World, w: WorkerId, id: JobId, r: Record)
    requires FlightOk(a) && Placed(a.store) && id in a.store.jobs && Terminal(r.status) && At(a, w, id)
    requires r.envelope == a.store.jobs[id].envelope && r.group == a.store.jobs[id].group
    requires r.attempts == a.store.jobs[id].attempts
    requires b == Drop(a.(store := Save(c, a.store, w, id, r, true).0), w, id)
    requires forall v, x :: Holds(b.store, v, x) <==> Holds(a.store, v, x) && x != id
    requires Live(a.store, id) ==> Holds(a.store, w, id)
    ensures FlightOk(b)
  {
    if Live(a.store, id) {
      SoleFlight(a, w, id);
    }
    FlightFrame(a, b, w, id);
  }

  lemma {:induction false} SaveEffectInv(c: Config, a: World, w: WorkerId, id: JobId, r: Record)
    requires Inv(c, a) && At(a, w, id) && MaySave(a.flight[(w, id)], r) && id in a.store.jobs
    ensures Inv(c, Drop(a.(store := Save(c, a.store, w, id, r, true).0), w, id))
    ensures !Live(Save(c, a.store, w, id, r, true).0, id)
  {
    var s := Save(c, a.store, w, id, r, true).0;
    var b := Drop(a.(store := s), w, id);
    assert StageOk(a, w, id, a.flight[(w, id)]);
    SavePlaced(c, a.store, w, id, r);
    assert Visible(s) by {
      UnleaseEffect(a.store.(jobs := s.jobs), w, id);
    }
    SaveRecords(c, a, b, w, id, r);
    SaveFlight(c, a, b, w, id, r);
  }

  lemma {:induction false} SaveInv(c: Config, a: World, w: WorkerId, id: JobId, r: Record, fate: Fate)
    requires Inv(c, a) && LeaseEnabled(a, w, id, SaveCall(r, fate))
    ensures Inv(c, ApplyLease(c, a, w, id, SaveCall(r, fate)))
  {
    var act, st := SaveCall(r, fate), a.flight[(w, id)];
    assert StageOk(a, w, id, st) && RecordOk(a, id);
    var m := a.(store := LeaseStore(c, a.store, w, id, act));
    if TookEffect(fate) && id in a.store.jobs {
      SaveEffectInv(c, a, w, id, r);
    } else {
      DropInv(c, a, w, id);
    }
    SettleInv(c, m, w, id, LeaseNext(a.store, id, st, act));
  }

  lemma {:induction false} CancelInv(c: Config, a: World, id: JobId)
    requires Inv(c, a)
    ensures Inv(c, ApplyOther(c, a, Cancel(id)))
  {
    var b := ApplyOther(c, a, Cancel(id));
    if Live(a.store, id) {
      RecordsPlaced(a.store, b.store);
      assert forall w, x :: At(a, w, x) ==> Undisturbed(a, b, w, x);
      var w := WorkerId(0);
      if At(a, w, id) {
        StageFrame(a, b, w, id, a.flight[(w, id)]);
      }
      assert RecordOk(a, id);
      RecordsFrame(a, b, id);
      FlightFrame(a, b, WorkerId(0), id);
    }
  }

  lemma {:induction false} ReturnInv(c: Config, a: World, w: WorkerId, id: JobId, act: LeaseAct)
    requires Inv(c, a) && LeaseEnabled(a, w, id, act)
    requires act.Recover? || act.Discard? || act.ReleaseCall?
    ensures Inv(c, ApplyLease(c, a, w, id, act))
  {
    assert StageOk(a, w, id, a.flight[(w, id)]);
    if act.Recover? && act.effect {
      HandBackInv(c, a, Requeue(a.store, w, id), w, id);
    } else if act.ReleaseCall? && act.effect && Release(a.store, w, id).0 != a.store {
      HandBackInv(c, a, Release(a.store, w, id).0, w, id);
    } else {
      DropInv(c, a, w, id);
    }
  }

  // ---- pools, reaper, clock ----

  /** Only beats, the clock or who is up changed, and the pools are fine in their own right. */
  lemma {:induction false} PoolFrame(c: Config, a: World, b: World)
    requires Inv(c, a) && PoolsOk(c, b) && Visible(b.store)
    requires b == a.(store := a.store.(beats := b.store.beats, now := b.store.now), up := b.up, draining := b.draining)
    requires forall w, id :: At(a, w, id) ==> w in b.up
    ensures Inv(c, b)
  {
    RecordsPlaced(a.store, b.store);
    forall id
      ensures RecordOk(b, id)
    {
      assert RecordOk(a, id);
    }
    forall w, id | At(b, w, id)
      ensures w in b.up && StageOk(b, w, id, b.flight[(w, id)])
    {
      assert At(a, w, id);
      assert StageOk(a, w, id, a.flight[(w, id)]);
    }
  }

  /** A beat makes its worker visible and fresh, and changes nothing else. */
  lemma {:induction false} FreshBeat(c: Config, a: World, w: WorkerId, up: set<WorkerId>)
    requires ValidConfig(c) && Inv(c, a) && (up == a.up || (up == a.up + {w} && w !in a.draining))
    ensures Inv(c, a.(store := Heartbeat(a.store, w), up := up))
  {
    PoolFrame(c, a, a.(store := Heartbeat(a.store, w), up := up));
  }

  lemma {:induction false} BeatInv(c: Config, a: World, w: WorkerId, act: PoolAct)
    requires ValidConfig(c) && Inv(c, a) && PoolEnabled(a, w, act) && (act.Beat? || act.Register?)
    ensures Inv(c, ApplyPool(a, w, act))
  {
    FreshBeat(c, a, w, a.up);
    if act.Register? && act.fate.Answered? {
      FreshBeat(c, a, w, a.up + {w});
    }
  }

  lemma {:induction false} StopInv(c: Config, a: World, w: WorkerId, act: PoolAct)
    requires Inv(c, a) && PoolEnabled(a, w, act) && (act.StopLoops? || act.Withdraw?)
    ensures Inv(c, ApplyPool(a, w, act))
  {
    PoolFrame(c, a, ApplyPool(a, w, act));
  }

  lemma {:induction false} TickInv(c: Config, a: World, d: nat)
    requires Inv(c, a) && OtherEnabled(c, a, Tick(d))
    ensures Inv(c, ApplyOther(c, a, Tick(d)))
  {
    PoolFrame(c, a, ApplyOther(c, a, Tick(d)));
  }

  lemma {:induction false} CrashInv(c: Config, a: World, w: WorkerId)
    requires Inv(c, a)
    ensures Inv(c, ApplyPool(a, w, Crash))
  {
    var b := ApplyPool(a, w, Crash);
    forall id
      ensures RecordOk(b, id)
    {
      assert RecordOk(a, id);
    }
    forall v, id | At(b, v, id)
      ensures v in b.up && StageOk(b, v, id, b.flight[(v, id)])
    {
      assert At(a, v, id) && StageOk(a, v, id, a.flight[(v, id)]);
    }
  }

  /** Derived fail-stop: a pool that is up is never among the workers a reap selects. */
  lemma {:induction false} ReapSparesTheLiving(c: Config, a: World, w: WorkerId)
    requires Inv(c, a) && w in a.up
    ensures w !in Expired(a.store, c.workerTtl)
  {
  }

  lemma {:induction false} ReapInv(c: Config, a: World)
    requires Inv(c, a)
    ensures Inv(c, ApplyOther(c, a, ReapCall))
  {
    var ws, b := Expired(a.store, c.workerTtl), ApplyOther(c, a, ReapCall);
    ReapAllPlaced(a.store, ws);
    ReapMeetsItsSpec(a.store, c.workerTtl);
    ReapKeepsRecords(a, b, c.workerTtl);
    assert Visible(b.store) by {
      forall w | w in b.store.processing
        ensures w in b.store.beats
      {
        var id := b.store.processing[w][0];
        assert Holds(b.store, w, id);
        assert Holds(a.store, w, id) && w !in ws;
      }
    }
    forall w, id | At(b, w, id)
      ensures w in b.up && StageOk(b, w, id, b.flight[(w, id)])
    {
      assert At(a, w, id);
      ReapSparesTheLiving(c, a, w);
      ReapLeavesFlightAlone(a, b, c.workerTtl, w, id);
      StageFrame(a, b, w, id, a.flight[(w, id)]);
    }
  }

  lemma {:induction false} ReapKeepsRecords(a: World, b: World, ttl: int)
    requires RecordsOk(a) && b == a.(store := Reap(a.store, ttl))
    ensures RecordsOk(b)
  {
    forall id
      ensures RecordOk(b, id)
    {
      assert RecordOk(a, id);
      ReapKeepsRecord(a.store, ttl, id);
    }
  }

  lemma {:induction false} ReapKeepsRecord(s: Store, ttl: int, id: JobId)
    ensures var t := Reap(s, ttl);
            && (id in t.jobs <==> id in s.jobs)
            && (id in s.jobs ==> t.jobs[id] == s.jobs[id] || HandedBackFrom(s.jobs[id], t.jobs[id]))
            && t.expires == s.expires
  {
    ReapMeetsItsSpec(s, ttl);
    assert HeldByTheDead(s, ttl, id) || !HeldByTheDead(s, ttl, id);
  }

  lemma {:induction false} ReapLeavesFlightAlone(a: World, b: World, ttl: int, w: WorkerId, id: JobId)
    requires Placed(a.store) && b == a.(store := Reap(a.store, ttl)) && w !in Expired(a.store, ttl)
    requires At(a, w, id) && StageOk(a, w, id, a.flight[(w, id)])
    ensures Undisturbed(a, b, w, id)
  {
    ReapMeetsItsSpec(a.store, ttl);
    ReapAllPlaced(a.store, Expired(a.store, ttl));
    if Live(a.store, id) {
      assert Holds(a.store, w, id);
      assert !HeldByTheDead(a.store, ttl, id);
    } else {
      assert HeldByTheDead(a.store, ttl, id) || !HeldByTheDead(a.store, ttl, id);
    }
  }

  // ---- consumers ----

  lemma {:induction false} ObserveInv(c: Config, a: World, id: JobId)
    requires Inv(c, a) && OtherEnabled(c, a, Observe(id))
    ensures Inv(c, ApplyOther(c, a, Observe(id)))
  {
    var b := ApplyOther(c, a, Observe(id));
    assert RecordOk(a, id);
    RecordsFrame(a, b, id);
    forall w, x | At(b, w, x)
      ensures w in b.up && StageOk(b, w, x, b.flight[(w, x)])
    {
      assert At(a, w, x) && StageOk(a, w, x, a.flight[(w, x)]);
    }
  }

  lemma {:induction false} RetireInv(c: Config, a: World, b: World, id: JobId)
    requires Inv(c, a) && id in a.store.jobs && !Live(a.store, id)
    requires b == a.(store := Take(a.store, id).0, retired := a.retired + {id}, taken := b.taken)
    requires b.taken == a.taken || b.taken == a.taken + [(id, a.store.jobs[id])]
    ensures Inv(c, b)
  {
    RemovePlaced(a.store, b.store, id);
    assert RecordOk(a, id);
    RecordsFrame(a, b, id);
    assert forall i :: 0 <= i < |a.taken| ==> a.taken[i].0 != id;
    forall w, x | At(b, w, x)
      ensures w in b.up && StageOk(b, w, x, b.flight[(w, x)])
    {
      assert At(a, w, x) && StageOk(a, w, x, a.flight[(w, x)]);
      StageFrame(a, b, w, x, a.flight[(w, x)]);
    }
  }

  lemma {:induction false} ConsumerInv(c: Config, a: World, act: OtherAct)
    requires Inv(c, a) && OtherEnabled(c, a, act) && (act.TakeCall? || act.Expire?)
    ensures Inv(c, ApplyOther(c, a, act))
  {
    assert RecordOk(a, act.id);
    var b := ApplyOther(c, a, act);
    if b != a {
      RetireInv(c, a, b, act.id);
    }
  }

  // ---- whole runs ----

  lemma {:induction false} LeaseInv(c: Config, a: World, w: WorkerId, id: JobId, act: LeaseAct)
    requires Inv(c, a) && LeaseEnabled(a, w, id, act)
    ensures Inv(c, ApplyLease(c, a, w, id, act))
  {
    if act.ClaimCall? {
      ClaimInv(c, a, w, id, act.fate);
    } else if act.SaveCall? {
      SaveInv(c, a, w, id, act.record, act.fate);
    } else if act.Recover? || act.Discard? || act.ReleaseCall? {
      ReturnInv(c, a, w, id, act);
    } else {
      LocalInv(c, a, w, id, act);
    }
  }

  lemma {:induction false} PoolInv(c: Config, a: World, w: WorkerId, act: PoolAct)
    requires ValidConfig(c) && Inv(c, a) && PoolEnabled(a, w, act)
    ensures Inv(c, ApplyPool(a, w, act))
  {
    if act.MoveCall? {
      MoveInv(c, a, w, act.fate);
    } else if act.Crash? {
      CrashInv(c, a, w);
    } else if act.Beat? || act.Register? {
      BeatInv(c, a, w, act);
    } else {
      StopInv(c, a, w, act);
    }
  }

  lemma {:induction false} OtherInv(c: Config, a: World, act: OtherAct)
    requires Inv(c, a) && OtherEnabled(c, a, act)
    ensures Inv(c, ApplyOther(c, a, act))
  {
    match act
    case Submit(id, r) => SubmitInv(c, a, id, r);
    case Cancel(id) => CancelInv(c, a, id);
    case Observe(id) => ObserveInv(c, a, id);
    case TakeCall(_, _) => ConsumerInv(c, a, act);
    case Expire(_) => ConsumerInv(c, a, act);
    case ReapCall => ReapInv(c, a);
    case Tick(d) => TickInv(c, a, d);
  }

  /** Every step of the protocol keeps the invariant. */
  lemma {:induction false} StepInv(c: Config, a: World, step: Step)
    requires ValidConfig(c) && Inv(c, a) && Enabled(c, a, step)
    ensures Inv(c, Apply(c, a, step))
  {
    match step
    case Lease(w, id, act) => LeaseInv(c, a, w, id, act);
    case Pool(w, act) => PoolInv(c, a, w, act);
    case Other(act) => OtherInv(c, a, act);
  }

  lemma {:induction false} RunInv(c: Config, a: World, steps: seq<Step>)
    requires ValidConfig(c) && Inv(c, a) && ValidRun(c, a, steps)
    ensures Inv(c, Exec(c, a, steps))
    decreases steps
  {
    if steps != [] {
      StepInv(c, a, steps[0]);
      RunInv(c, Apply(c, a, steps[0]), steps[1..]);
    }
  }
}
