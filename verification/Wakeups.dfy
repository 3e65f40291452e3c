/**
  The lease protocol and one backend's notifier as one machine: protocol steps publish, waits join, read,
  park and wake, in any interleaving.
 */
module Wakeups {
  import opened Records
  import opened Stores
  import opened Protocol
  import opened Invariant
  import opened Guarantees
  import Waits

  datatype Move = System(step: Step) | Local(event: Waits.Event)

  /** What one protocol step tells the waiters: a new job, a terminal save, or an accepted cancel request. */
  function Signal(a: World, step: Step): Option<Waits.Event> {
    match step
    case Lease(_, id, SaveCall(_, fate)) => if TookEffect(fate) && id in a.store.jobs then Some(Waits.Finish(id)) else None
    case Other(Submit(id, _)) => if id in a.store.jobs then None else Some(Waits.Appear(id))
    case Other(Cancel(id)) => if Live(a.store, id) then Some(Waits.Flag(id)) else None
    case _ => None
  }

  datatype Both = Both(world: World, net: Waits.Net)

  predicate Enables(c: Config, b: Both, move: Move) {
    match move
    case System(step) => Enabled(c, b.world, step)
    case Local(ev) => !ev.Appear? && !ev.Finish? && !ev.Flag? && Waits.Enabled(b.net, ev)
  }

  /** What the waiters know of the store, id by id. */
  predicate Knows(a: World, n: Waits.Net, id: JobId) {
    && (id in n.live <==> Live(a.store, id))
    && (id in n.ended <==> Finished(a, id))
    && (id in n.flagged <==> id in a.cancelled)
  }

  ghost predicate Tracks(a: World, n: Waits.Net) {
    forall id :: Knows(a, n, id)
  }

  lemma {:induction false} SignalEnabled(c: Config, a: World, n: Waits.Net, step: Step)
    requires Enabled(c, a, step) && Tracks(a, n) && Signal(a, step).Some?
    ensures Waits.Enabled(n, Signal(a, step).value)
  {
    var id := Signal(a, step).value.id;
    assert Knows(a, n, id);
  }

  /** The network after a protocol step. SignalEnabled shows that the guard never stops a signal. */
  function Told(n: Waits.Net, signal: Option<Waits.Event>): Waits.Net {
    if signal.None? || !Waits.Enabled(n, signal.value) then n else Waits.Apply(n, signal.value)
  }

  lemma {:induction false} ToldEffect(n: Waits.Net, signal: Option<Waits.Event>, id: JobId)
    requires signal.Some? ==> Waits.Enabled(n, signal.value) && (signal.value.Appear? || signal.value.Finish? || signal.value.Flag?)
    ensures var m := Told(n, signal);
            && (id in m.live <==> (id in n.live || signal == Some(Waits.Appear(id))) && signal != Some(Waits.Finish(id)))
            && (id in m.ended <==> id in n.ended || signal == Some(Waits.Finish(id)))
            && (id in m.flagged <==> id in n.flagged || signal == Some(Waits.Flag(id)))
  {
  }

  /** Which jobs are live, finished or flagged changes in a step exactly as its signal says. */
  lemma {:induction false} LeaseTracked(c: Config, a: World, w: WorkerId, x: JobId, act: LeaseAct, id: JobId)
    requires Sound(a, Lease(w, x, act), id) && LeaseEnabled(a, w, x, act)
    ensures var b := ApplyLease(c, a, w, x, act);
            var ends := Signal(a, Lease(w, x, act)) == Some(Waits.Finish(id));
            && (Live(b.store, id) <==> Live(a.store, id) && !ends)
            && (Finished(b, id) <==> Finished(a, id) || ends)
            && b.cancelled == a.cancelled
  {
  }

  lemma {:induction false} ReapTracked(a: World, ttl: int, id: JobId)
    ensures var b := a.(store := Reap(a.store, ttl));
            (Live(b.store, id) <==> Live(a.store, id)) && (Finished(b, id) <==> Finished(a, id))
  {
    ReapKeepsRecord(a.store, ttl, id);
  }

  lemma {:induction false} RetireTracked(c: Config, a: World, act: OtherAct, id: JobId)
    requires (act.TakeCall? || act.Expire?) && RecordOk(a, act.id) && OtherEnabled(c, a, act)
    ensures var b := ApplyOther(c, a, act);
            && (Live(b.store, id) <==> Live(a.store, id)) && (Finished(b, id) <==> Finished(a, id))
            && b.cancelled == a.cancelled
  {
    assert !Live(a.store, act.id);
  }

  lemma {:induction false} OtherTracked(c: Config, a: World, act: OtherAct, id: JobId)
    requires RecordsOk(a) && OtherEnabled(c, a, act)
    ensures var b := ApplyOther(c, a, act);
            var signal := Signal(a, Other(act));
            && (Live(b.store, id) <==> Live(a.store, id) || signal == Some(Waits.Appear(id)))
            && (Finished(b, id) <==> Finished(a, id))
            && (id in b.cancelled <==> id in a.cancelled || signal == Some(Waits.Flag(id)))
  {
    match act
    case ReapCall => ReapTracked(a, c.workerTtl, id);
    case TakeCall(x, _) => assert RecordOk(a, x); RetireTracked(c, a, act, id);
    case Expire(x) => assert RecordOk(a, x); RetireTracked(c, a, act, id);
    case Submit(x, _) =>
    case Cancel(x) =>
    case Observe(_) =>
    case Tick(_) =>
  }

  lemma {:induction false} StepTracked(c: Config, a: World, step: Step, id: JobId)
    requires RecordsOk(a) && Sound(a, step, id) && Enabled(c, a, step)
    ensures var b, signal := Apply(c, a, step), Signal(a, step);
            && (Live(b.store, id) <==> (Live(a.store, id) || signal == Some(Waits.Appear(id))) && signal != Some(Waits.Finish(id)))
            && (Finished(b, id) <==> Finished(a, id) || signal == Some(Waits.Finish(id)))
            && (id in b.cancelled <==> id in a.cancelled || signal == Some(Waits.Flag(id)))
  {
    match step
    case Lease(w, x, act) => LeaseTracked(c, a, w, x, act, id);
    case Pool(w, act) => PoolKeepsJobs(a, w, act);
    case Other(act) => OtherTracked(c, a, act, id);
  }

  // ---- whole runs ----

  ghost predicate BothOk(c: Config, b: Both) {
    Inv(c, b.world) && Tracks(b.world, b.net) && Waits.NotifierOk(b.net) && Waits.WakeOk(b.net)
  }

  function Next(c: Config, b: Both, move: Move): Both
    requires Enables(c, b, move)
  {
    match move
    case System(step) => Both(Apply(c, b.world, step), Told(b.net, Signal(b.world, step)))
    case Local(ev) => Both(b.world, Waits.Apply(b.net, ev))
  }

  predicate ValidMoves(c: Config, b: Both, moves: seq<Move>)
    decreases moves
  {
    moves == [] || (Enables(c, b, moves[0]) && ValidMoves(c, Next(c, b, moves[0]), moves[1..]))
  }

  function After(c: Config, b: Both, moves: seq<Move>): Both
    requires ValidMoves(c, b, moves)
    decreases moves
  {
    if moves == [] then b else After(c, Next(c, b, moves[0]), moves[1..])
  }

  lemma {:induction false} WaitEventOk(n: Waits.Net, ev: Waits.Event)
    requires Waits.NotifierOk(n) && Waits.WakeOk(n) && Waits.Enabled(n, ev)
    ensures Waits.NotifierOk(Waits.Apply(n, ev)) && Waits.WakeOk(Waits.Apply(n, ev))
  {
    Waits.RunOk(n, [ev]);
    assert [ev][1..] == [];
    assert Waits.Exec(n, [ev]) == Waits.Exec(Waits.Apply(n, ev), []);
  }

  lemma {:induction false} SystemOk(c: Config, b: Both, step: Step)
    requires ValidConfig(c) && BothOk(c, b) && Enabled(c, b.world, step)
    ensures BothOk(c, Next(c, b, System(step)))
  {
    var signal := Signal(b.world, step);
    var t := Next(c, b, System(step));
    StepInv(c, b.world, step);
    if signal.Some? {
      SignalEnabled(c, b.world, b.net, step);
      WaitEventOk(b.net, signal.value);
    }
    forall id
      ensures Knows(t.world, t.net, id)
    {
      assert Knows(b.world, b.net, id);
      InvSound(c, b.world, step, id);
      StepTracked(c, b.world, step, id);
      ToldEffect(b.net, signal, id);
    }
  }

  lemma {:induction false} LocalOk(c: Config, b: Both, ev: Waits.Event)
    requires BothOk(c, b) && Enables(c, b, Local(ev))
    ensures BothOk(c, Next(c, b, Local(ev)))
  {
    WaitEventOk(b.net, ev);
    forall id
      ensures Knows(b.world, Waits.Apply(b.net, ev), id)
    {
      assert Knows(b.world, b.net, id);
    }
  }

  lemma {:induction false} MovesOk(c: Config, b: Both, moves: seq<Move>)
    requires ValidConfig(c) && BothOk(c, b) && ValidMoves(c, b, moves)
    ensures BothOk(c, After(c, b, moves))
    decreases moves
  {
    if moves != [] {
      match moves[0] {
        case System(step) => SystemOk(c, b, step);
        case Local(ev) => LocalOk(c, b, ev);
      }
      MovesOk(c, Next(c, b, moves[0]), moves[1..]);
    }
  }

  const START := Both(INIT, Waits.QUIET)

  lemma {:induction false} ReachableOk(c: Config, moves: seq<Move>)
    requires ValidConfig(c) && ValidMoves(c, START, moves)
    ensures BothOk(c, After(c, START, moves))
  {
    InitInv(c);
    Waits.QuietIsOk();
    assert Tracks(INIT, Waits.QUIET);
    MovesOk(c, START, moves);
  }

  /**
    Over every interleaving of the lease protocol with one backend's waits: when a job is terminal, taken or
    expired while a `take_result` is parked on an older read of it, the wait's event is set or a message is on
    its way to a running reader, provided none was dropped; and the poll can always end the wait.
   */
  lemma {:induction false} NoResultIsMissed(c: Config, moves: seq<Move>, e: Waits.WaitId, id: JobId)
    requires ValidConfig(c) && ValidMoves(c, START, moves)
    requires Waits.In(After(c, START, moves).net, e, Waits.Parked)
    requires After(c, START, moves).net.waits[e].channel == Waits.Channel(Waits.Done, id)
    requires !Live(After(c, START, moves).world.store, id)
    ensures var n := After(c, START, moves).net;
            && (!n.lossy ==> n.reader.Alive? && (e in n.woken || Waits.Channel(Waits.Done, id) in n.buffer))
            && Waits.ValidRun(n, [Waits.Lapse(e), Waits.Read(e, false)])
            && Waits.In(Waits.Exec(n, [Waits.Lapse(e), Waits.Read(e, false)]), e, Waits.Leaving)
  {
    var b := After(c, START, moves);
    ReachableOk(c, moves);
    assert Knows(b.world, b.net, id);
    assert Waits.Heard(b.net, e) || b.net.lossy;
    Waits.ParkedIsSubscribed(b.net, e);
    Waits.PollIsTwoEvents(b.net, e);
  }

  /** The same for a cancel request: a live job's flag reaches its parked watcher. */
  lemma {:induction false} NoCancelIsMissed(c: Config, moves: seq<Move>, e: Waits.WaitId, id: JobId)
    requires ValidConfig(c) && ValidMoves(c, START, moves)
    requires Waits.In(After(c, START, moves).net, e, Waits.Parked)
    requires After(c, START, moves).net.waits[e].channel == Waits.Channel(Waits.CancelRequest, id)
    requires var s := After(c, START, moves).world.store; Live(s, id) && s.jobs[id].cancel
    ensures var n := After(c, START, moves).net;
            && (!n.lossy ==> n.reader.Alive? && (e in n.woken || Waits.Channel(Waits.CancelRequest, id) in n.buffer))
            && Waits.ValidRun(n, [Waits.Lapse(e), Waits.Read(e, false)])
            && Waits.In(Waits.Exec(n, [Waits.Lapse(e), Waits.Read(e, false)]), e, Waits.Leaving)
  {
    var b := After(c, START, moves);
    ReachableOk(c, moves);
    assert Knows(b.world, b.net, id) && RecordOk(b.world, id);
    assert Waits.Heard(b.net, e) || b.net.lossy;
    Waits.ParkedIsSubscribed(b.net, e);
    Waits.PollIsTwoEvents(b.net, e);
  }

  /**
    What a read decides, over every interleaving of the whole protocol. A `take_result` wait leaves its loop if
    and only if the job is no longer live in the store it reads, and then either a terminal record is there to
    be taken or the record is gone. A `wait_cancel` leaves at a live job if and only if its flag is stored.
    Every other read parks.
   */
  lemma {:induction false} ReadDecides(c: Config, moves: seq<Move>, e: Waits.WaitId, raises: bool)
    requires ValidConfig(c) && ValidMoves(c, START, moves)
    requires Enables(c, After(c, START, moves), Local(Waits.Read(e, raises)))
    ensures var b := After(c, START, moves);
            var d, s, id := Next(c, b, Local(Waits.Read(e, raises))), b.world.store, b.net.waits[e].channel.id;
            var leaves := Waits.In(d.net, e, Waits.Leaving);
            && (leaves || Waits.In(d.net, e, Waits.Parked)) && d.world == b.world
            && (b.net.waits[e].channel.kind.Done? ==>
                  && (leaves <==> !(id in s.jobs && (s.jobs[id].status == Queued || s.jobs[id].status == Running)))
                  && (leaves ==> (id in s.jobs <==> Enabled(c, b.world, Other(Observe(id))))))
            && (b.net.waits[e].channel.kind.CancelRequest? ==>
                  if id in s.jobs && !Terminal(s.jobs[id].status) then leaves <==> s.jobs[id].cancel else leaves <==> raises)
  {
    var b := After(c, START, moves);
    var id := b.net.waits[e].channel.id;
    ReachableOk(c, moves);
    assert Knows(b.world, b.net, id) && RecordOk(b.world, id);
  }
}
