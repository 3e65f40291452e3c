/** One fault-free worker cannot tell MemoryBackend from the Redis backend. */
module Agreement {
  import opened Records
  import opened Stores
  import opened Places
  import opened Memory
  import opened Protocol
  import opened Invariant

  // ---- one worker driving either backend ----

  datatype Op =
    | Submit(id: JobId, record: Record)
    | ClaimNext
    | Conclude(id: JobId, status: Status, error: Option<string>, result: Option<Bytes>)
    | HandBack(id: JobId)
    | AskCancel(id: JobId)
    | GetJob(id: JobId)
    | TakeResult(id: JobId)

  /** The record written for a claimed copy that ended this way. */
  function Concluded(copy: Record, op: Op): Record
    requires op.Conclude?
  {
    copy.(status := op.status, error := op.error, result := op.result)
  }

  predicate WellFormed(op: Op) {
    && (op.Submit? ==> Fresh(op.record) && op.record.envelope.id == op.id)
    && (op.Conclude? ==> Terminal(op.status))
  }

  /** Copies this worker claimed and has neither concluded nor handed back. */
  type Held = map<JobId, Record>

  function NextHeld(held: Held, op: Op, reply: Reply): Held {
    if op.ClaimNext? && reply.Got? then held[reply.record.envelope.id := reply.record]
    else if op.Conclude? || op.HandBack? then held - {op.id}
    else held
  }

  function MemStep(m: Mem, held: Held, op: Op): (Mem, Reply) {
    match op
    case Submit(id, r) => (MemEnqueue(m, id, r), Done)
    case ClaimNext => MemClaim(m)
    case Conclude(id, _, _, _) => if id in held then MemSave(m, id, Concluded(held[id], op), true) else (m, Skipped)
    case HandBack(id) => MemRelease(m, id)
    case AskCancel(id) => (MemRequestCancel(m, id), Done)
    case GetJob(id) => (m, MemGet(m, id))
    case TakeResult(id) => MemTake(m, id)
  }

  const SOLO := WorkerId(0)

  /** `RedisBackend.claim` with both round trips answered. */
  function RedisClaim(s: Store): (Store, Reply) {
    var (t, id) := Move(s, SOLO);
    if id.None? then (s, Nothing)
    else
      var (u, r) := Claim(t, id.value);
      if r.None? then (Unlease(u, SOLO, id.value), Nothing) else (u, Got(r.value))
  }

  /** That is the worker's `claim` when every call answers: its BLMOVE and its script, one after the other. */
  lemma {:induction false} RedisClaimIsClaim(c: Config, a: World)
    requires Inv(c, a) && SOLO in a.up && a.store.queue != []
    ensures var id := a.store.queue[0];
            var b := Apply(c, a, Pool(SOLO, MoveCall(Answered)));
            && Enabled(c, b, Lease(SOLO, id, ClaimCall(Answered)))
            && var d := Apply(c, b, Lease(SOLO, id, ClaimCall(Answered)));
               && d.store == RedisClaim(a.store).0
               && RedisClaim(a.store).1.Got? && d.flight[(SOLO, id)] == Delivered(RedisClaim(a.store).1.record)
  {
    assert a.store.queue[0] in a.store.queue;
  }

  function RedisStep(c: Config, s: Store, held: Held, op: Op): (Store, Reply) {
    match op
    case Submit(id, r) => (Enqueue(s, id, r).0, Done)
    case ClaimNext => RedisClaim(s)
    case Conclude(id, _, _, _) =>
      if id !in held then (s, Skipped)
      else
        var (t, saved) := Save(c, s, SOLO, id, Concluded(held[id], op), true);
        (t, if saved then Done else Raised(KeyError))
    case HandBack(id) =>
      var (t, reply) := Release(s, SOLO, id);
      (t, if reply.Missing? then Raised(KeyError) else Done)
    case AskCancel(id) => (RequestCancel(s, id).0, Done)
    case GetJob(id) => (s, if id in s.jobs then Got(s.jobs[id]) else Raised(KeyError))
    case TakeResult(id) =>
      if Live(s, id) then (s, Blocked)
      else
        var (t, r) := Take(s, id);
        (t, if r.None? then Raised(KeyError) else Got(r.value))
  }

  /** Where a whole sequence of operations leads, and the replies it gets, in order. */
  function MemRun(m: Mem, held: Held, ops: seq<Op>): (Mem, seq<Reply>)
    decreases ops
  {
    if ops == [] then (m, [])
    else
      var (n, reply) := MemStep(m, held, ops[0]);
      var (last, replies) := MemRun(n, NextHeld(held, ops[0], reply), ops[1..]);
      (last, [reply] + replies)
  }

  function RedisRun(c: Config, s: Store, held: Held, ops: seq<Op>): (Store, seq<Reply>)
    decreases ops
  {
    if ops == [] then (s, [])
    else
      var (t, reply) := RedisStep(c, s, held, ops[0]);
      var (last, replies) := RedisRun(c, t, NextHeld(held, ops[0], reply), ops[1..]);
      (last, [reply] + replies)
  }

  // ---- the simulation ----

  /** One id: a live record carries no outcome yet and its own id, and held copies are of running jobs. */
  predicate JobAgrees(m: Mem, s: Store, held: Held, id: JobId) {
    && (id in m.events <==> Live(s, id))
    && (id in m.cancels <==> Live(s, id))
    && (Live(s, id) ==> m.cancels[id] == s.jobs[id].cancel)
    && (Live(s, id) ==> s.jobs[id].error.None? && s.jobs[id].result.None?)
    && (Live(s, id) ==> s.jobs[id].envelope.id == id)
    && (id in held ==> Live(s, id) && s.jobs[id].status == Running && held[id] == s.jobs[id].(cancel := held[id].cancel))
    && (Live(s, id) && s.jobs[id].status == Running ==> Holds(s, SOLO, id))
    && (id in s.queue ==> Live(s, id) && s.jobs[id].status == Queued)
  }

  ghost predicate Agrees(m: Mem, s: Store, held: Held) {
    && m.jobs == s.jobs && m.queue == s.queue
    && Placed(s)
    && (forall id :: JobAgrees(m, s, held, id))
  }

  /** The two backends answer `op` alike, and still agree afterwards. */
  ghost predicate StepAgrees(c: Config, m: Mem, s: Store, held: Held, op: Op) {
    var (n, a) := MemStep(m, held, op);
    var (t, b) := RedisStep(c, s, held, op);
    a == b && Agrees(n, t, NextHeld(held, op, a))
  }

  lemma {:induction false} SubmitAgrees(c: Config, m: Mem, s: Store, held: Held, op: Op)
    requires Agrees(m, s, held) && op.Submit? && WellFormed(op)
    ensures StepAgrees(c, m, s, held, op)
  {
    var n, t := MemStep(m, held, op).0, RedisStep(c, s, held, op).0;
    EnqueuePlaced(s, op.id, op.record);
    forall x
      ensures JobAgrees(n, t, held, x)
    {
      assert JobAgrees(m, s, held, x);
    }
  }

  lemma {:induction false} ClaimJobAgrees(m: Mem, s: Store, held: Held, x: JobId)
    requires Agrees(m, s, held) && s.queue != [] && s.queue[0] in s.jobs
    requires forall v, y :: Holds(Move(s, SOLO).0, v, y) <==> Holds(s, v, y) || (v == SOLO && y == s.queue[0])
    ensures var (u, r) := Claim(Move(s, SOLO).0, s.queue[0]);
            JobAgrees(MemClaim(m).0, u, held[s.queue[0] := r.value], x)
  {
    var id, t := s.queue[0], Move(s, SOLO).0;
    var u := Claim(t, id).0;
    assert id in s.queue && JobAgrees(m, s, held, id) && JobAgrees(m, s, held, x);
    assert Holds(u, SOLO, x) <==> Holds(t, SOLO, x);
    assert s.queue == [id] + s.queue[1..];
  }

  lemma {:induction false} ClaimAgrees(c: Config, m: Mem, s: Store, held: Held)
    requires Agrees(m, s, held)
    ensures StepAgrees(c, m, s, held, ClaimNext)
  {
    if s.queue != [] {
      var id, t := s.queue[0], Move(s, SOLO).0;
      assert id in s.queue;
      assert JobAgrees(m, s, held, id);
      MovePlaced(s, SOLO);
      var (u, r) := Claim(t, id);
      RecordsPlaced(t, u);
      var n, next := MemClaim(m).0, held[id := r.value];
      assert NextHeld(held, ClaimNext, Got(r.value)) == next;
      forall x
        ensures JobAgrees(n, u, next, x)
      {
        ClaimJobAgrees(m, s, held, x);
      }
    }
  }

  lemma {:induction false} ConcludeAgrees(c: Config, m: Mem, s: Store, held: Held, op: Op)
    requires Agrees(m, s, held) && op.Conclude? && WellFormed(op)
    ensures StepAgrees(c, m, s, held, op)
  {
    if op.id in held {
      var n, t := MemStep(m, held, op).0, RedisStep(c, s, held, op).0;
      assert JobAgrees(m, s, held, op.id);
      SavePlaced(c, s, SOLO, op.id, Concluded(held[op.id], op));
      assert Overlay(s.jobs[op.id], Concluded(held[op.id], op)) == Concluded(held[op.id], op);
      forall x
        ensures JobAgrees(n, t, held - {op.id}, x)
      {
        assert JobAgrees(m, s, held, x);
      }
    } else {
      assert held - {op.id} == held;
    }
  }

  lemma {:induction false} HandBackAgrees(c: Config, m: Mem, s: Store, held: Held, op: Op)
    requires Agrees(m, s, held) && op.HandBack?
    ensures StepAgrees(c, m, s, held, op)
  {
    var n, t := MemStep(m, held, op).0, RedisStep(c, s, held, op).0;
    assert JobAgrees(m, s, held, op.id);
    if op.id in s.jobs && s.jobs[op.id].status == Running {
      HandBackPlaced(s, t, SOLO, op.id);
    }
    forall x
      ensures JobAgrees(n, t, held - {op.id}, x)
    {
      assert JobAgrees(m, s, held, x);
    }
  }

  lemma {:induction false} CancelAgrees(c: Config, m: Mem, s: Store, held: Held, op: Op)
    requires Agrees(m, s, held) && op.AskCancel?
    ensures StepAgrees(c, m, s, held, op)
  {
    var n, t := MemStep(m, held, op).0, RedisStep(c, s, held, op).0;
    RecordsPlaced(s, t);
    forall x
      ensures JobAgrees(n, t, held, x)
    {
      assert JobAgrees(m, s, held, x);
    }
  }

  lemma {:induction false} TakeAgrees(c: Config, m: Mem, s: Store, held: Held, op: Op)
    requires Agrees(m, s, held) && op.TakeResult?
    ensures StepAgrees(c, m, s, held, op)
  {
    assert JobAgrees(m, s, held, op.id);
    if !Live(s, op.id) {
      var n, t := MemStep(m, held, op).0, RedisStep(c, s, held, op).0;
      assert s.jobs - {op.id} == t.jobs == n.jobs;
      RemovePlaced(s, t, op.id);
      forall x
        ensures JobAgrees(n, t, held, x)
      {
        assert JobAgrees(m, s, held, x);
      }
    }
  }

  lemma {:induction false} OpAgrees(c: Config, m: Mem, s: Store, held: Held, op: Op)
    requires Agrees(m, s, held) && WellFormed(op)
    ensures StepAgrees(c, m, s, held, op)
  {
    match op
    case Submit(_, _) => SubmitAgrees(c, m, s, held, op);
    case ClaimNext => ClaimAgrees(c, m, s, held);
    case Conclude(_, _, _, _) => ConcludeAgrees(c, m, s, held, op);
    case HandBack(_) => HandBackAgrees(c, m, s, held, op);
    case AskCancel(_) => CancelAgrees(c, m, s, held, op);
    case GetJob(_) =>
    case TakeResult(_) => TakeAgrees(c, m, s, held, op);
  }

  lemma {:induction false} RunsAgree(c: Config, m: Mem, s: Store, held: Held, ops: seq<Op>)
    requires Agrees(m, s, held)
    requires forall i :: 0 <= i < |ops| ==> WellFormed(ops[i])
    ensures MemRun(m, held, ops).1 == RedisRun(c, s, held, ops).1
    ensures MemRun(m, held, ops).0.jobs == RedisRun(c, s, held, ops).0.jobs
    ensures MemRun(m, held, ops).0.queue == RedisRun(c, s, held, ops).0.queue
    decreases ops
  {
    if ops != [] {
      OpAgrees(c, m, s, held, ops[0]);
      var (n, reply) := MemStep(m, held, ops[0]);
      var t := RedisStep(c, s, held, ops[0]).0;
      RunsAgree(c, n, t, NextHeld(held, ops[0], reply), ops[1..]);
    }
  }

  /**
    From empty, every fault-free run of one worker and any callers gets the same records, the
    same errors and the same blocking from both backends, and leaves the same records and queue.
   */
  lemma {:induction false} BackendsAgree(c: Config, ops: seq<Op>)
    requires forall i :: 0 <= i < |ops| ==> WellFormed(ops[i])
    ensures MemRun(EMPTY_MEM, map[], ops).1 == RedisRun(c, EMPTY, map[], ops).1
    ensures MemRun(EMPTY_MEM, map[], ops).0.jobs == RedisRun(c, EMPTY, map[], ops).0.jobs
    ensures MemRun(EMPTY_MEM, map[], ops).0.queue == RedisRun(c, EMPTY, map[], ops).0.queue
  {
    RunsAgree(c, EMPTY_MEM, EMPTY, map[], ops);
  }

  lemma {:induction false} RunEndsAgreed(c: Config, m: Mem, s: Store, held: Held, ops: seq<Op>) returns (last: Held)
    requires Agrees(m, s, held)
    requires forall i :: 0 <= i < |ops| ==> WellFormed(ops[i])
    ensures Agrees(MemRun(m, held, ops).0, RedisRun(c, s, held, ops).0, last)
    decreases ops
  {
    last := held;
    if ops != [] {
      OpAgrees(c, m, s, held, ops[0]);
      var (n, reply) := MemStep(m, held, ops[0]);
      var t := RedisStep(c, s, held, ops[0]).0;
      last := RunEndsAgreed(c, n, t, NextHeld(held, ops[0], reply), ops[1..]);
    }
  }

  /**
    Over the same runs: exactly the unfinished jobs of `MemoryBackend` have a done-event and a cancel-event,
    and the cancel-event is set if and only if the record carries the flag.
   */
  lemma {:induction false} EventsFollowTheRecords(c: Config, ops: seq<Op>, id: JobId)
    requires forall i :: 0 <= i < |ops| ==> WellFormed(ops[i])
    ensures var m := MemRun(EMPTY_MEM, map[], ops).0;
            var live := id in m.jobs && !Terminal(m.jobs[id].status);
            && (id in m.events <==> live) && (id in m.cancels <==> live)
            && (live ==> (m.cancels[id] <==> m.jobs[id].cancel))
  {
    var held := RunEndsAgreed(c, EMPTY_MEM, EMPTY, map[], ops);
    var m, s := MemRun(EMPTY_MEM, map[], ops).0, RedisRun(c, EMPTY, map[], ops).0;
    assert JobAgrees(m, s, held, id);
  }

  // ---- where replacing and merging part ways ----

  predicate Covers<T>(update: Option<T>, stored: Option<T>) {
    update.Some? || stored.None?
  }

  /** A save leaves both backends with one record exactly when it drops no optional field the stored one has. */
  lemma {:induction false} SavesAgreeExactlyWhen(c: Config, m: Mem, s: Store, w: WorkerId, id: JobId, r: Record, done: bool)
    requires m.jobs == s.jobs
    ensures MemSave(m, id, r, done).0.jobs == Save(c, s, w, id, r, done).0.jobs <==>
            (id in s.jobs ==>
               && Covers(r.group, s.jobs[id].group)
               && Covers(r.error, s.jobs[id].error)
               && Covers(r.result, s.jobs[id].result))
  {
    if id in s.jobs {
      var a, b := MemSave(m, id, r, done).0.jobs, Save(c, s, w, id, r, done).0.jobs;
      assert a[id] == r && b[id] == Overlay(s.jobs[id], r);
      assert Overlay(s.jobs[id], r) == r ==> a == b;
    }
  }

  /** The worker's retry: a completed save whose reply was lost, then the same copy saved FAILED. */
  lemma {:induction false} RetriedSaveDiffers(c: Config, done: Record, value: Bytes)
    requires done.status == Completed && done.result == Some(value)
    ensures var m, s := EMPTY_MEM.(jobs := map["j" := done]), EMPTY.(jobs := map["j" := done]);
            var retry := done.(status := Failed, error := Some("lost"), result := None);
            && MemSave(m, "j", retry, true).0.jobs["j"].result == None
            && Save(c, s, SOLO, "j", retry, true).0.jobs["j"].result == Some(value)
  {
  }
}
