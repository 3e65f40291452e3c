/**
  The shared pub/sub notifier and the waits built on it: any number of `take_result` and
  `wait_cancel` calls joining, reading, parking, waking, polling and leaving, interleaved with
  publishers, a reader task, failed or cancelled subscribes, and lost messages.
 */
module Waits {
  import opened Records

  datatype Kind = Done | CancelRequest

  datatype Channel = Channel(kind: Kind, id: JobId)

  /** One `asyncio.Event`, and the wait that owns it. */
  type WaitId = nat

  datatype Phase =
    | Subscribing    // inside join, lock held, SUBSCRIBE sent
    | Reading        // subscribed, about to read the record
    | Parked         // read an unfinished record, inside _wait_for_message
    | Leaving        // the loop is over, leave not yet begun
    | Unsubscribing  // inside leave, lock held, UNSUBSCRIBE sent
    | Closed

  datatype Wait = Wait(channel: Channel, phase: Phase)

  datatype Reader = Absent | Alive | Stopped

  datatype Net = Net(
    watchers: map<Channel, set<WaitId>>,  // _waiters
    pubsub: bool,                         // _pubsub is not None
    reader: Reader,                       // _reader, and whether its loop still runs
    lock: Option<WaitId>,
    woken: set<WaitId>,                   // events that are set
    subs: set<Channel>,                   // what the server sends to this connection
    buffer: seq<Channel>,                 // messages on their way, oldest first
    waits: map<WaitId, Wait>,
    live: set<JobId>,                     // jobs whose record exists and is not terminal
    flagged: set<JobId>,                  // jobs whose cancel flag was raised while live
    ended: set<JobId>,                    // jobs that reached a terminal state
    lossy: bool)                          // history: a message was dropped or the reader died

  const QUIET := Net(map[], false, Absent, None, {}, {}, [], map[], {}, {}, {}, false)

  /** The stored state already says what a wait on this channel is waiting for. */
  predicate Due(n: Net, ch: Channel) {
    match ch.kind
    case Done => ch.id !in n.live
    case CancelRequest => ch.id in n.live && ch.id in n.flagged
  }

  // ---- the watcher table ----

  function WatchersOf(m: map<Channel, set<WaitId>>, ch: Channel): set<WaitId> {
    if ch in m then m[ch] else {}
  }

  function Watch(m: map<Channel, set<WaitId>>, ch: Channel, e: WaitId): map<Channel, set<WaitId>> {
    m[ch := WatchersOf(m, ch) + {e}]
  }

  /** `_forget`: drop one watcher, and the channel with it once it has none. */
  function Forget(m: map<Channel, set<WaitId>>, ch: Channel, e: WaitId): map<Channel, set<WaitId>> {
    if ch !in m then m
    else if m[ch] - {e} == {} then m - {ch}
    else m[ch := m[ch] - {e}]
  }

  // ---- steps ----

  datatype Event =
    | JoinBegin(e: WaitId, channel: Channel)
    | SubscribeEnd(e: WaitId, ok: bool, effect: bool)
    | Read(e: WaitId, raises: bool)
    | Wake(e: WaitId)
    | Lapse(e: WaitId)
    | Abort(e: WaitId)
    | LeaveBegin(e: WaitId)
    | UnsubscribeEnd(e: WaitId, effect: bool)
    | Deliver
    | DropMessage
    | ReaderDies
    | Appear(id: JobId)
    | Finish(id: JobId)
    | Flag(id: JobId)

  predicate In(n: Net, e: WaitId, p: Phase) {
    e in n.waits && n.waits[e].phase == p
  }

  predicate Enabled(n: Net, ev: Event) {
    match ev
    case JoinBegin(e, _) => n.lock.None? && e !in n.waits
    case SubscribeEnd(e, ok, effect) => In(n, e, Subscribing) && (ok ==> effect)
    case Read(e, raises) => In(n, e, Reading) && (raises ==> n.waits[e].channel.id !in n.live)
    case Wake(e) => In(n, e, Parked) && e in n.woken
    case Lapse(e) => In(n, e, Parked)
    case Abort(e) => In(n, e, Reading) || In(n, e, Parked)
    case LeaveBegin(e) => In(n, e, Leaving) && n.lock.None?
    case UnsubscribeEnd(e, _) => In(n, e, Unsubscribing)
    case Deliver => n.reader.Alive? && n.buffer != []
    case DropMessage => n.buffer != []
    case ReaderDies => n.reader.Alive?
    case Appear(id) => id !in n.ended  // one incarnation per id
    case Finish(id) => id in n.live || id in n.ended  // a FAILED retry publishes a second time
    case Flag(id) => id in n.live
  }

  function At(n: Net, e: WaitId, p: Phase): Net
    requires e in n.waits
  {
    n.(waits := n.waits[e := n.waits[e].(phase := p)])
  }

  function StartReader(r: Reader): Reader {
    if r.Absent? then Alive else r
  }

  function Join(n: Net, e: WaitId, ch: Channel): Net {
    var m := n.(
      watchers := Watch(n.watchers, ch, e),
      pubsub := true,
      subs := if n.pubsub then n.subs else {},
      buffer := if n.pubsub then n.buffer else []);
    if ch !in n.watchers then m.(lock := Some(e), waits := n.waits[e := Wait(ch, Subscribing)])
    else m.(reader := StartReader(n.reader), waits := n.waits[e := Wait(ch, Reading)])
  }

  function Subscribed(n: Net, e: WaitId, ok: bool, effect: bool): Net
    requires e in n.waits
  {
    var ch := n.waits[e].channel;
    var m := n.(lock := None, subs := if effect then n.subs + {ch} else n.subs);
    if ok then At(m.(reader := StartReader(n.reader)), e, Reading)
    else At(m.(watchers := Forget(n.watchers, ch, e)), e, Closed)
  }

  /**
    A read ends the wait when the record says so. Once the job is no longer live a read may also end the
    wait with a KeyError, or in `wait_cancel` by finding the flag on a terminal record: `raises` covers both.
   */
  function Reads(n: Net, e: WaitId, raises: bool): Net
    requires e in n.waits
  {
    At(n, e, if Due(n, n.waits[e].channel) || raises then Leaving else Parked)
  }

  function Leave(n: Net, e: WaitId): Net
    requires e in n.waits
  {
    var ch := n.waits[e].channel;
    var m := n.(watchers := Forget(n.watchers, ch, e));
    if ch in m.watchers then At(m, e, Closed)
    else if m.watchers != map[] then At(m.(lock := Some(e)), e, Unsubscribing)
    else At(m.(reader := Absent, pubsub := false, subs := {}, buffer := []), e, Closed)
  }

  function Publish(n: Net, ch: Channel): Net {
    if n.pubsub && ch in n.subs then n.(buffer := n.buffer + [ch]) else n
  }

  function Apply(n: Net, ev: Event): Net
    requires Enabled(n, ev)
  {
    match ev
    case JoinBegin(e, ch) => Join(n, e, ch)
    case SubscribeEnd(e, ok, effect) => Subscribed(n, e, ok, effect)
    case Read(e, raises) => Reads(n, e, raises)
    case Wake(e) => At(n.(woken := n.woken - {e}), e, Reading)
    case Lapse(e) => At(n.(woken := n.woken - {e}), e, Reading)
    case Abort(e) => At(n, e, Leaving)
    case LeaveBegin(e) => Leave(n, e)
    case UnsubscribeEnd(e, effect) =>
      At(n.(lock := None, subs := if effect then n.subs - {n.waits[e].channel} else n.subs), e, Closed)
    case Deliver => n.(woken := n.woken + WatchersOf(n.watchers, n.buffer[0]), buffer := n.buffer[1..])
    case DropMessage => n.(buffer := n.buffer[1..], lossy := true)
    case ReaderDies => n.(reader := Stopped, lossy := true)
    case Appear(id) => n.(live := n.live + {id})
    case Finish(id) => Publish(n.(live := n.live - {id}, ended := n.ended + {id}), Channel(Done, id))
    case Flag(id) => Publish(n.(flagged := n.flagged + {id}), Channel(CancelRequest, id))
  }

  predicate ValidRun(n: Net, events: seq<Event>)
    decreases events
  {
    events == [] || (Enabled(n, events[0]) && ValidRun(Apply(n, events[0]), events[1..]))
  }

  function Exec(n: Net, events: seq<Event>): Net
    requires ValidRun(n, events)
    decreases events
  {
    if events == [] then n else Exec(Apply(n, events[0]), events[1..])
  }

  // ---- notifier consistency ----

  predicate Watching(p: Phase) {
    p == Subscribing || p == Reading || p == Parked || p == Leaving
  }

  predicate Locking(p: Phase) {
    p == Subscribing || p == Unsubscribing
  }

  /** The table agrees with wait `e`. */
  predicate WaitOk(n: Net, e: WaitId) {
    && (e in n.waits ==>
          var w := n.waits[e];
          && (Watching(w.phase) <==> e in WatchersOf(n.watchers, w.channel))
          && (Locking(w.phase) <==> n.lock == Some(e))
          && (w.phase == Subscribing ==> WatchersOf(n.watchers, w.channel) == {e})
          && (w.phase == Unsubscribing ==> w.channel !in n.watchers))
    && (n.lock == Some(e) ==> e in n.waits)
  }

  /** `e` is the lock holder and is still subscribing to `ch`. */
  predicate BeingSubscribed(n: Net, ch: Channel) {
    n.lock.Some? && In(n, n.lock.value, Subscribing) && n.waits[n.lock.value].channel == ch
  }

  predicate ChannelOk(n: Net, ch: Channel) {
    && (ch in n.watchers ==>
          && n.watchers[ch] != {}
          && (ch in n.subs || BeingSubscribed(n, ch))
          && n.pubsub
          && (n.reader.Absent? ==> BeingSubscribed(n, ch)))
    && (forall e :: e in WatchersOf(n.watchers, ch) ==> e in n.waits && n.waits[e].channel == ch)
  }

  ghost predicate NotifierOk(n: Net) {
    && (forall e :: WaitOk(n, e))
    && (forall ch :: ChannelOk(n, ch))
    && (!n.pubsub ==> n.reader.Absent?)
    && n.flagged <= n.live + n.ended
  }

  lemma {:induction false} ForgetEffect(m: map<Channel, set<WaitId>>, ch: Channel, e: WaitId, x: Channel)
    ensures WatchersOf(Forget(m, ch, e), x) == if x == ch then WatchersOf(m, x) - {e} else WatchersOf(m, x)
    ensures x in Forget(m, ch, e) ==> x in m
    ensures x != ch && x in m ==> x in Forget(m, ch, e)
    ensures ch in Forget(m, ch, e) ==> Forget(m, ch, e)[ch] != {}
  {
  }

  /** Events that touch neither the table, the lock, the connection nor any wait's phase. */
  lemma {:induction false} QuietOk(n: Net, m: Net)
    requires NotifierOk(n)
    requires m.watchers == n.watchers && m.lock == n.lock && m.waits == n.waits
    requires m.pubsub == n.pubsub && m.subs == n.subs && (m.reader == n.reader || (n.reader.Alive? && m.reader.Stopped?))
    requires m.flagged <= m.live + m.ended
    ensures NotifierOk(m)
  {
    forall e ensures WaitOk(m, e) {
      assert WaitOk(n, e);
    }
    forall ch ensures ChannelOk(m, ch) {
      assert ChannelOk(n, ch);
    }
    assert n.reader.Alive? ==> n.pubsub;
  }

  /** A wait moves between phases that watch and do not lock. */
  lemma {:induction false} PhaseOk(n: Net, e: WaitId, p: Phase)
    requires NotifierOk(n) && e in n.waits
    requires Watching(n.waits[e].phase) && !Locking(n.waits[e].phase) && Watching(p) && !Locking(p)
    ensures NotifierOk(At(n, e, p))
  {
    var m := At(n, e, p);
    forall x ensures WaitOk(m, x) {
      assert WaitOk(n, x) && WaitOk(n, e);
    }
    forall ch ensures ChannelOk(m, ch) {
      assert ChannelOk(n, ch) && WaitOk(n, e);
    }
  }

  lemma {:induction false} JoinOk(n: Net, e: WaitId, ch: Channel)
    requires NotifierOk(n) && Enabled(n, JoinBegin(e, ch))
    ensures NotifierOk(Join(n, e, ch))
  {
    var m := Join(n, e, ch);
    forall x ensures WaitOk(m, x) {
      assert WaitOk(n, x) && ChannelOk(n, ch);
    }
    forall x ensures ChannelOk(m, x) {
      assert ChannelOk(n, x);
      assert WaitOk(n, e);
      assert ch in n.watchers ==> ChannelOk(n, ch) && n.pubsub;
    }
  }

  lemma {:induction false} SubscribedOk(n: Net, e: WaitId, ok: bool, effect: bool)
    requires NotifierOk(n) && Enabled(n, SubscribeEnd(e, ok, effect))
    ensures NotifierOk(Subscribed(n, e, ok, effect))
  {
    var m, ch := Subscribed(n, e, ok, effect), n.waits[e].channel;
    assert WaitOk(n, e) && ChannelOk(n, ch);
    forall x ensures WaitOk(m, x) {
      assert WaitOk(n, x);
      if x in n.waits {
        ForgetEffect(n.watchers, ch, e, n.waits[x].channel);
      }
    }
    forall x ensures ChannelOk(m, x) {
      assert ChannelOk(n, x);
      ForgetEffect(n.watchers, ch, e, x);
    }
  }

  lemma {:induction false} LeaveOk(n: Net, e: WaitId)
    requires NotifierOk(n) && Enabled(n, LeaveBegin(e))
    ensures NotifierOk(Leave(n, e))
  {
    var m, ch := Leave(n, e), n.waits[e].channel;
    assert WaitOk(n, e) && ChannelOk(n, ch);
    forall x ensures WaitOk(m, x) {
      assert WaitOk(n, x);
      if x in n.waits {
        ForgetEffect(n.watchers, ch, e, n.waits[x].channel);
      }
    }
    forall x ensures ChannelOk(m, x) {
      assert ChannelOk(n, x);
      ForgetEffect(n.watchers, ch, e, x);
    }
  }

  lemma {:induction false} UnsubscribedOk(n: Net, e: WaitId, effect: bool)
    requires NotifierOk(n) && Enabled(n, UnsubscribeEnd(e, effect))
    ensures NotifierOk(Apply(n, UnsubscribeEnd(e, effect)))
  {
    var m := Apply(n, UnsubscribeEnd(e, effect));
    assert WaitOk(n, e);
    forall x ensures WaitOk(m, x) {
      assert WaitOk(n, x);
    }
    forall x ensures ChannelOk(m, x) {
      assert ChannelOk(n, x);
    }
  }

  /** Every event of every interleaving keeps the notifier consistent. */
  lemma {:induction false} EventOk(n: Net, ev: Event)
    requires NotifierOk(n) && Enabled(n, ev)
    ensures NotifierOk(Apply(n, ev))
  {
    match ev
    case JoinBegin(e, ch) => JoinOk(n, e, ch);
    case SubscribeEnd(e, ok, effect) => SubscribedOk(n, e, ok, effect);
    case Read(e, _) => PhaseOk(n, e, Apply(n, ev).waits[e].phase);
    case Wake(e) => QuietOk(n, n.(woken := n.woken - {e})); PhaseOk(n.(woken := n.woken - {e}), e, Reading);
    case Lapse(e) => QuietOk(n, n.(woken := n.woken - {e})); PhaseOk(n.(woken := n.woken - {e}), e, Reading);
    case Abort(e) => PhaseOk(n, e, Leaving);
    case LeaveBegin(e) => LeaveOk(n, e);
    case UnsubscribeEnd(e, effect) => UnsubscribedOk(n, e, effect);
    case Deliver => QuietOk(n, Apply(n, ev));
    case DropMessage => QuietOk(n, Apply(n, ev));
    case ReaderDies => QuietOk(n, Apply(n, ev));
    case Appear(_) => QuietOk(n, Apply(n, ev));
    case Finish(_) => QuietOk(n, Apply(n, ev));
    case Flag(_) => QuietOk(n, Apply(n, ev));
  }

  // ---- no lost wakeup ----

  /** A parked wait whose record already says so has its event set or a message on its way. */
  predicate Heard(n: Net, e: WaitId) {
    In(n, e, Parked) && Due(n, n.waits[e].channel) ==> e in n.woken || n.waits[e].channel in n.buffer
  }

  ghost predicate WakeOk(n: Net) {
    !n.lossy ==> !n.reader.Stopped? && forall e :: Heard(n, e)
  }

  /** A parked wait's channel is one the server sends to this connection. */
  lemma {:induction false} ParkedIsSubscribed(n: Net, e: WaitId)
    requires NotifierOk(n) && In(n, e, Parked)
    ensures n.pubsub && n.waits[e].channel in n.subs && n.waits[e].channel in n.watchers && !n.reader.Absent?
  {
    var ch := n.waits[e].channel;
    assert WaitOk(n, e) && ChannelOk(n, ch);
    assert n.lock.Some? ==> WaitOk(n, n.lock.value);
  }

  lemma {:induction false} HeardAfterLeave(n: Net, e: WaitId, x: WaitId)
    requires NotifierOk(n) && Enabled(n, LeaveBegin(e)) && Heard(n, x)
    ensures Heard(Leave(n, e), x)
  {
    if In(n, x, Parked) {
      ParkedIsSubscribed(n, x);
      assert WaitOk(n, x);
      ForgetEffect(n.watchers, n.waits[e].channel, e, n.waits[x].channel);
      assert x in WatchersOf(Leave(n, e).watchers, n.waits[x].channel);
    }
  }

  lemma {:induction false} HeardAfterPublish(n: Net, ev: Event, x: WaitId)
    requires NotifierOk(n) && Enabled(n, ev) && (ev.Finish? || ev.Flag?) && Heard(n, x)
    ensures Heard(Apply(n, ev), x)
  {
    if In(n, x, Parked) {
      ParkedIsSubscribed(n, x);
      var ch := n.waits[x].channel;
      var m := Apply(n, ev);
      if ch == Channel(if ev.Finish? then Done else CancelRequest, ev.id) {
        assert m.buffer[|m.buffer| - 1] == ch;
      }
    }
  }

  lemma {:induction false} EventHeard(n: Net, ev: Event, x: WaitId)
    requires NotifierOk(n) && Enabled(n, ev) && Heard(n, x) && !ev.DropMessage?
    ensures Heard(Apply(n, ev), x)
  {
    match ev
    case LeaveBegin(e) => HeardAfterLeave(n, e, x);
    case Finish(_) => HeardAfterPublish(n, ev, x);
    case Flag(_) => HeardAfterPublish(n, ev, x);
    case JoinBegin(e, ch) =>
      if In(n, x, Parked) {
        ParkedIsSubscribed(n, x);
      }
    case Deliver =>
      if In(n, x, Parked) {
        assert WaitOk(n, x);
      }
    case _ =>
  }

  lemma {:induction false} RunOk(n: Net, events: seq<Event>)
    requires NotifierOk(n) && WakeOk(n) && ValidRun(n, events)
    ensures NotifierOk(Exec(n, events)) && WakeOk(Exec(n, events))
    decreases events
  {
    if events != [] {
      var m := Apply(n, events[0]);
      EventOk(n, events[0]);
      if !m.lossy {
        forall x ensures Heard(m, x) {
          EventHeard(n, events[0], x);
        }
      }
      RunOk(m, events[1..]);
    }
  }

  lemma {:induction false} QuietIsOk()
    ensures NotifierOk(QUIET) && WakeOk(QUIET)
  {
    forall e ensures WaitOk(QUIET, e) {
    }
    forall ch ensures ChannelOk(QUIET, ch) {
    }
  }

  /** Whenever the lock is free, every watched channel is subscribed, on a connection with a reader task. */
  lemma {:induction false} NotifierConsistency(events: seq<Event>, ch: Channel)
    requires ValidRun(QUIET, events)
    ensures var n := Exec(QUIET, events);
            n.lock.None? && ch in n.watchers ==>
              n.watchers[ch] != {} && ch in n.subs && n.pubsub && !n.reader.Absent?
  {
    QuietIsOk();
    RunOk(QUIET, events);
    assert ChannelOk(Exec(QUIET, events), ch);
  }

  /** The last watcher to leave takes the reader and the connection with it. */
  lemma {:induction false} LastLeaveClosesTheConnection(n: Net, e: WaitId)
    requires NotifierOk(n) && Enabled(n, LeaveBegin(e))
    ensures (forall x :: x in n.waits && x != e ==> !Watching(n.waits[x].phase)) <==> Leave(n, e).watchers == map[]
    ensures Leave(n, e).watchers == map[] ==> !Leave(n, e).pubsub && Leave(n, e).reader.Absent?
  {
    var ch, m := n.waits[e].channel, Leave(n, e);
    assert WaitOk(n, e);
    forall x | x in n.waits && x != e && Watching(n.waits[x].phase)
      ensures n.waits[x].channel in m.watchers
    {
      assert WaitOk(n, x);
      ForgetEffect(n.watchers, ch, e, n.waits[x].channel);
      assert x in WatchersOf(m.watchers, n.waits[x].channel);
    }
    if m.watchers != map[] {
      LeaveOk(n, e);
      var c :| c in m.watchers.Keys;
      assert ChannelOk(m, c);
      var y :| y in m.watchers[c];
      assert WaitOk(m, y) && y in m.waits && Watching(m.waits[y].phase);
    }
  }

  /**
    An event is set by the delivery of a message on its channel and by nothing else, and is cleared by the wait
    itself on its way back to the record.
   */
  lemma {:induction false} EventsAreSetByMessages(n: Net, ev: Event, e: WaitId)
    requires Enabled(n, ev)
    ensures var m := Apply(n, ev);
            var resumes := (ev.Wake? || ev.Lapse?) && ev.e == e;
            && (e in m.woken <==>
                  || (e in n.woken && !resumes)
                  || (ev.Deliver? && n.buffer[0] in n.watchers && e in n.watchers[n.buffer[0]]))
            && (resumes ==> In(m, e, Reading))
  {
    match ev
    case Deliver =>
    case Wake(_) =>
    case Lapse(_) =>
    case Finish(_) =>
    case Flag(_) =>
    case LeaveBegin(_) =>
    case _ =>
  }

  /** With no message dropped, no parked wait ever misses the change it waits for. */
  lemma {:induction false} NoLostWakeup(events: seq<Event>, e: WaitId)
    requires ValidRun(QUIET, events)
    ensures var n := Exec(QUIET, events);
            !n.lossy && In(n, e, Parked) && Due(n, n.waits[e].channel) ==>
              n.reader.Alive? && (e in n.woken || n.waits[e].channel in n.buffer)
  {
    QuietIsOk();
    RunOk(QUIET, events);
    var n := Exec(QUIET, events);
    if !n.lossy && In(n, e, Parked) {
      ParkedIsSubscribed(n, e);
      assert Heard(n, e);
    }
  }

  /** A message on its way sets the event once the reader has read that far. */
  lemma {:induction false} MessageArrives(n: Net, e: WaitId, k: nat)
    requires NotifierOk(n) && In(n, e, Parked) && n.reader.Alive?
    requires k < |n.buffer| && n.buffer[k] == n.waits[e].channel
    ensures var deliveries := seq(k + 1, i => Deliver);
            ValidRun(n, deliveries) && e in Exec(n, deliveries).woken && In(Exec(n, deliveries), e, Parked)
    decreases k
  {
    var m := Apply(n, Deliver);
    EventOk(n, Deliver);
    assert WaitOk(n, e);
    assert seq(k + 1, i => Deliver)[1..] == seq(k, i => Deliver);
    if k == 0 {
      assert seq(0, i => Deliver) == [];
    } else {
      MessageArrives(m, e, k - 1);
    }
  }

  /** The poll needs no message: once the job has ended, the next read ends the wait, whatever was lost. */
  predicate Ended(n: Net, id: JobId) {
    id in n.ended && id !in n.live
  }

  predicate Over(p: Phase) {
    p == Leaving || p == Unsubscribing || p == Closed
  }

  predicate ReadsFor(ev: Event, e: WaitId) {
    ev.Read? && ev.e == e
  }

  /** A job that ended stays ended, and no event forgets a wait or changes its channel. */
  lemma {:induction false} EndedStays(n: Net, ev: Event, e: WaitId, id: JobId)
    requires Enabled(n, ev) && e in n.waits && Ended(n, id)
    ensures var m := Apply(n, ev); e in m.waits && m.waits[e].channel == n.waits[e].channel && Ended(m, id)
  {
    match ev
    case LeaveBegin(x) => assert Leave(n, x).waits.Keys == n.waits.Keys;
    case Finish(_) =>
    case Flag(_) =>
    case _ =>
  }

  /** The step of one leave moves no wait that is over. */
  lemma {:induction false} OverAfterLeave(n: Net, x: WaitId, e: WaitId)
    requires Enabled(n, LeaveBegin(x)) && e in n.waits && Over(n.waits[e].phase)
    ensures e in Leave(n, x).waits && Over(Leave(n, x).waits[e].phase)
  {
  }

  /** Events of the network and of publishers move no wait. */
  predicate MovesNoWait(ev: Event) {
    ev.Deliver? || ev.DropMessage? || ev.ReaderDies? || ev.Appear? || ev.Finish? || ev.Flag?
  }

  lemma {:induction false} WaitsStay(n: Net, ev: Event)
    requires Enabled(n, ev) && MovesNoWait(ev)
    ensures Apply(n, ev).waits == n.waits
  {
  }

  /** A wait that is over stays over. */
  lemma {:induction false} OverStays(n: Net, ev: Event, e: WaitId)
    requires Enabled(n, ev) && e in n.waits && Over(n.waits[e].phase)
    ensures var m := Apply(n, ev); e in m.waits && Over(m.waits[e].phase)
  {
    if MovesNoWait(ev) {
      WaitsStay(n, ev);
    } else if ev.LeaveBegin? {
      OverAfterLeave(n, ev.e, e);
    }
  }

  lemma {:induction false} EndedEvent(n: Net, ev: Event, e: WaitId)
    requires Enabled(n, ev) && e in n.waits && n.waits[e].channel.kind == Done && Ended(n, n.waits[e].channel.id)
    ensures var m := Apply(n, ev);
            && e in m.waits && m.waits[e].channel == n.waits[e].channel && Ended(m, n.waits[e].channel.id)
            && (ReadsFor(ev, e) || Over(n.waits[e].phase) ==> Over(m.waits[e].phase))
  {
    EndedStays(n, ev, e, n.waits[e].channel.id);
    if Over(n.waits[e].phase) {
      OverStays(n, ev, e);
    }
  }

  lemma {:induction false} PollEndsTheWait(n: Net, events: seq<Event>, e: WaitId)
    requires ValidRun(n, events)
    requires e in n.waits && n.waits[e].channel.kind == Done && Ended(n, n.waits[e].channel.id)
    ensures e in Exec(n, events).waits
    ensures Over(n.waits[e].phase) || (exists ev :: ev in events && ReadsFor(ev, e)) ==> Over(Exec(n, events).waits[e].phase)
    decreases events
  {
    if events != [] {
      EndedEvent(n, events[0], e);
      PollEndsTheWait(Apply(n, events[0]), events[1..], e);
      assert forall ev :: ev in events <==> ev == events[0] || ev in events[1..];
    }
  }

  /** The poll is always available to a parked wait, and two of its own events finish it. */
  lemma {:induction false} PollIsTwoEvents(n: Net, e: WaitId)
    requires In(n, e, Parked) && Due(n, n.waits[e].channel)
    ensures var poll := [Lapse(e), Read(e, false)];
            ValidRun(n, poll) && In(Exec(n, poll), e, Leaving)
  {
    var lapse, read := Lapse(e), Read(e, false);
    assert [lapse, read][1..] == [read] && [read][1..] == [];
    assert Exec(Apply(n, lapse), [read]) == Apply(Apply(n, lapse), read);
  }

  // ---- what the notifier does not promise ----

  /** A failed first subscribe leaves a connection with no watcher and no reader behind. */
  lemma {:induction false} FailedFirstJoinKeepsTheConnection(e: WaitId, ch: Channel)
    ensures var events := [JoinBegin(e, ch), SubscribeEnd(e, false, false)];
            && ValidRun(QUIET, events)
            && var n := Exec(QUIET, events);
               n.watchers == map[] && n.pubsub && n.reader.Absent?
  {
    var first, second := JoinBegin(e, ch), SubscribeEnd(e, false, false);
    var m := Apply(QUIET, first);
    assert [first, second][1..] == [second] && [second][1..] == [];
    assert m.watchers[ch] - {e} == {};
    assert Apply(m, second).watchers == map[];
    assert Exec(m, [second]) == Apply(m, second);
  }

  // ---- exactly when a connection is left open with nobody watching ----

  /** Somebody is unsubscribing. */
  predicate BeingUnsubscribed(n: Net) {
    n.lock.Some? && In(n, n.lock.value, Unsubscribing)
  }

  /** Whoever reads or unsubscribes leaves somebody watching: a channel whose subscription is not still under way. */
  ghost predicate ReaderOk(n: Net) {
    !n.reader.Absent? || BeingUnsubscribed(n) ==> exists ch :: ch in n.watchers && !BeingSubscribed(n, ch)
  }

  lemma {:induction false} LeaveReaderOk(n: Net, e: WaitId)
    requires NotifierOk(n) && Enabled(n, LeaveBegin(e))
    ensures ReaderOk(Leave(n, e))
  {
    var m := Leave(n, e);
    if !m.reader.Absent? || BeingUnsubscribed(m) {
      assert m.watchers != map[];
      var ch :| ch in m.watchers.Keys;
      assert WaitOk(n, e);
      assert ch in m.watchers && !BeingSubscribed(m, ch);
    }
  }

  lemma {:induction false} SubscribedReaderOk(n: Net, e: WaitId, ok: bool, effect: bool)
    requires NotifierOk(n) && ReaderOk(n) && Enabled(n, SubscribeEnd(e, ok, effect))
    ensures ReaderOk(Subscribed(n, e, ok, effect))
  {
    var m, ch := Subscribed(n, e, ok, effect), n.waits[e].channel;
    assert WaitOk(n, e) && ChannelOk(n, ch);
    if ok {
      assert ch in m.watchers && !BeingSubscribed(m, ch);
    } else if !n.reader.Absent? {
      var x :| x in n.watchers && !BeingSubscribed(n, x);
      ForgetEffect(n.watchers, ch, e, x);
      assert x in m.watchers && !BeingSubscribed(m, x);
    }
  }

  lemma {:induction false} JoinReaderOk(n: Net, e: WaitId, ch: Channel)
    requires NotifierOk(n) && ReaderOk(n) && Enabled(n, JoinBegin(e, ch))
    ensures ReaderOk(Join(n, e, ch))
  {
    var m := Join(n, e, ch);
    if ch in n.watchers {
      assert ch in m.watchers && !BeingSubscribed(m, ch);
    } else if !n.reader.Absent? {
      var x :| x in n.watchers && !BeingSubscribed(n, x);
      assert x in m.watchers && !BeingSubscribed(m, x);
    }
  }

  lemma {:induction false} PhaseReaderOk(n: Net, m: Net)
    requires ReaderOk(n) && m.watchers == n.watchers && (n.reader.Absent? ==> m.reader.Absent?)
    requires BeingUnsubscribed(m) ==> BeingUnsubscribed(n)
    requires forall ch :: BeingSubscribed(m, ch) ==> BeingSubscribed(n, ch)
    ensures ReaderOk(m)
  {
    if !m.reader.Absent? || BeingUnsubscribed(m) {
      var ch :| ch in n.watchers && !BeingSubscribed(n, ch);
      assert ch in m.watchers && !BeingSubscribed(m, ch);
    }
  }

  lemma {:induction false} EventReaderOk(n: Net, ev: Event)
    requires NotifierOk(n) && ReaderOk(n) && Enabled(n, ev)
    ensures ReaderOk(Apply(n, ev))
  {
    match ev
    case JoinBegin(e, ch) => JoinReaderOk(n, e, ch);
    case SubscribeEnd(e, ok, effect) => SubscribedReaderOk(n, e, ok, effect);
    case LeaveBegin(e) => LeaveReaderOk(n, e);
    case _ => PhaseReaderOk(n, Apply(n, ev));
  }

  lemma {:induction false} RunReaderOk(n: Net, events: seq<Event>)
    requires NotifierOk(n) && ReaderOk(n) && ValidRun(n, events)
    ensures ReaderOk(Exec(n, events))
    decreases events
  {
    if events != [] {
      EventReaderOk(n, events[0]);
      EventOk(n, events[0]);
      RunReaderOk(Apply(n, events[0]), events[1..]);
    }
  }

  /** Nobody watches and nobody is joining or leaving. */
  predicate Idle(n: Net) {
    n.lock.None? && n.watchers == map[]
  }

  /** Whatever happened before, an idle notifier has no reader task. */
  lemma {:induction false} IdleHasNoReader(events: seq<Event>)
    requires ValidRun(QUIET, events)
    ensures Idle(Exec(QUIET, events)) ==> Exec(QUIET, events).reader.Absent?
  {
    QuietIsOk();
    RunReaderOk(QUIET, events);
  }

  /** The exact step that leaves an idle notifier with an open connection: a failed subscribe by the only watcher. */
  lemma {:induction false} OpenWhileIdleIff(n: Net, ev: Event)
    requires NotifierOk(n) && ReaderOk(n) && Enabled(n, ev) && !(Idle(n) && n.pubsub)
    ensures Idle(Apply(n, ev)) && Apply(n, ev).pubsub <==>
            ev.SubscribeEnd? && !ev.ok && n.watchers.Keys == {n.waits[ev.e].channel}
  {
    match ev
    case SubscribeEnd(e, ok, effect) => FailedSubscribeIsIdleIff(n, e, ok, effect);
    case JoinBegin(e, ch) => assert ch in Join(n, e, ch).watchers;
    case LeaveBegin(e) =>
    case UnsubscribeEnd(e, _) => assert WaitOk(n, e) && BeingUnsubscribed(n);
    case _ =>
  }

  lemma {:induction false} FailedSubscribeIsIdleIff(n: Net, e: WaitId, ok: bool, effect: bool)
    requires NotifierOk(n) && Enabled(n, SubscribeEnd(e, ok, effect))
    ensures var m := Subscribed(n, e, ok, effect);
            Idle(m) && m.pubsub <==> !ok && n.watchers.Keys == {n.waits[e].channel}
  {
    var ch := n.waits[e].channel;
    assert WaitOk(n, e) && ChannelOk(n, ch);
    assert n.watchers[ch] - {e} == {};
    var left := Forget(n.watchers, ch, e);
    assert left.Keys == n.watchers.Keys - {ch} && ch in n.watchers;
    assert left == map[] <==> left.Keys == {};
    assert left.Keys == {} <==> n.watchers.Keys == {ch};
  }

  /** Over runs: a connection is open with nobody watching iff the event that emptied the table was such a failure. */
  lemma {:induction false} OpenWhileIdleNeedsAFailedJoin(events: seq<Event>, ev: Event)
    requires ValidRun(QUIET, events) && Enabled(Exec(QUIET, events), ev)
    ensures var n := Exec(QUIET, events);
            !(Idle(n) && n.pubsub) ==>
              (Idle(Apply(n, ev)) && Apply(n, ev).pubsub <==>
               ev.SubscribeEnd? && !ev.ok && n.watchers.Keys == {n.waits[ev.e].channel})
  {
    QuietIsOk();
    RunOk(QUIET, events);
    RunReaderOk(QUIET, events);
    var n := Exec(QUIET, events);
    if !(Idle(n) && n.pubsub) {
      OpenWhileIdleIff(n, ev);
    }
  }

  /** A reader that died is replaced only after every watcher has left. */
  lemma {:induction false} DeadReaderStaysDead(n: Net, ev: Event)
    requires Enabled(n, ev) && n.reader.Stopped?
    ensures Apply(n, ev).reader.Stopped? <==> !(ev.LeaveBegin? && Apply(n, ev).watchers == map[])
  {
  }
}
