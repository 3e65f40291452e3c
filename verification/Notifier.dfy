/** `_Notifier`: the watcher table, the shared connection and the reader, as the code updates them. */
module Notifiers {
  import opened Records
  import opened Waits

  /** The event is a step of wait `e`. */
  predicate Concerns(ev: Event, e: WaitId) {
    match ev
    case JoinBegin(x, _) => x == e
    case SubscribeEnd(x, _, _) => x == e
    case Read(x, _) => x == e
    case Wake(x) => x == e
    case Lapse(x) => x == e
    case Abort(x) => x == e
    case LeaveBegin(x) => x == e
    case UnsubscribeEnd(x, _) => x == e
    case _ => false
  }

  predicate NotOf(events: seq<Event>, e: WaitId) {
    forall i :: 0 <= i < |events| ==> !Concerns(events[i], e)
  }

  /** What everybody else does while wait `e` awaits its SUBSCRIBE: any enabled events but its own. */
  ghost predicate Polite(env: Net -> seq<Event>, e: WaitId) {
    forall n :: NotifierOk(n) ==> ValidRun(n, env(n)) && NotOf(env(n), e)
  }

  lemma {:induction false} OneLockHolder(n: Net, e: WaitId, x: WaitId)
    requires NotifierOk(n) && In(n, e, Subscribing)
    ensures In(n, x, Subscribing) || In(n, x, Unsubscribing) ==> x == e
  {
    assert WaitOk(n, e) && WaitOk(n, x);
  }

  lemma {:induction false} LockedEvent(n: Net, ev: Event, e: WaitId)
    requires NotifierOk(n) && In(n, e, Subscribing) && Enabled(n, ev) && !Concerns(ev, e)
    ensures var m := Apply(n, ev);
            && In(m, e, Subscribing) && m.waits[e].channel == n.waits[e].channel
            && m.watchers == n.watchers && m.pubsub == n.pubsub && (m.reader.Absent? <==> n.reader.Absent?)
  {
    assert WaitOk(n, e);
    match ev
    case SubscribeEnd(x, _, _) => OneLockHolder(n, e, x);
    case UnsubscribeEnd(x, _) => OneLockHolder(n, e, x);
    case _ =>
  }

  /** While one wait holds the lock to subscribe, nobody changes the table or the connection. */
  lemma {:induction false} LockedRun(n: Net, events: seq<Event>, e: WaitId)
    requires NotifierOk(n) && In(n, e, Subscribing) && ValidRun(n, events) && NotOf(events, e)
    ensures var m := Exec(n, events);
            && NotifierOk(m) && In(m, e, Subscribing) && m.waits[e].channel == n.waits[e].channel
            && m.watchers == n.watchers && m.pubsub == n.pubsub && (m.reader.Absent? <==> n.reader.Absent?)
    decreases events
  {
    if events != [] {
      LockedEvent(n, events[0], e);
      EventOk(n, events[0]);
      LockedRun(Apply(n, events[0]), events[1..], e);
    }
  }

  /** A whole `join`: one event when the channel is already watched, else also the others' and the end of the SUBSCRIBE. */
  ghost function Joined(n: Net, channel: Channel, e: WaitId, during: seq<Event>, ok: bool, effect: bool): Net
    requires NotifierOk(n) && Enabled(n, JoinBegin(e, channel))
    requires channel !in n.watchers ==> ValidRun(Join(n, e, channel), during) && NotOf(during, e)
  {
    var m := Join(n, e, channel);
    if channel in n.watchers then m
    else
      JoinOk(n, e, channel);
      LockedRun(m, during, e);
      Subscribed(Exec(m, during), e, ok, effect)
  }

  lemma {:induction false} ForgetUndoesWatch(m: map<Channel, set<WaitId>>, channel: Channel, e: WaitId)
    requires channel !in m
    ensures Forget(Watch(m, channel, e), channel, e) == m
  {
    assert ({} + {e}) - {e} == {};
    assert m[channel := {e}] - {channel} == m;
  }

  /** A `join` that has returned or raised leaves the lock free and the notifier consistent; a raised one, the table as it was. */
  lemma {:induction false} JoinedOk(n: Net, channel: Channel, e: WaitId, during: seq<Event>, ok: bool, effect: bool)
    requires NotifierOk(n) && Enabled(n, JoinBegin(e, channel)) && (ok ==> effect)
    requires channel !in n.watchers ==> ValidRun(Join(n, e, channel), during) && NotOf(during, e)
    ensures var m := Joined(n, channel, e, during, ok, effect);
            && NotifierOk(m) && m.lock.None? && m.pubsub
            && (In(m, e, Reading) <==> channel in n.watchers || ok)
            && m.watchers == (if channel in n.watchers || ok then Watch(n.watchers, channel, e) else n.watchers)
  {
    JoinOk(n, e, channel);
    var m := Join(n, e, channel);
    if channel !in n.watchers {
      LockedRun(m, during, e);
      SubscribedOk(Exec(m, during), e, ok, effect);
      ForgetUndoesWatch(n.watchers, channel, e);
    }
  }

  class Notifier {
    var waiters: map<Channel, set<WaitId>>
    var pubsub: bool
    var reader: Reader
    var woken: set<WaitId>  // the events that are set

    /** These fields are what the state machine `n` says they are. */
    ghost predicate Shows(n: Net)
      reads this
    {
      waiters == n.watchers && pubsub == n.pubsub && reader == n.reader && woken == n.woken
    }

    constructor ()
      ensures Shows(QUIET)
    {
      waiters, pubsub, reader, woken := map[], false, Absent, {};
    }

    /** Everybody else's events have brought the notifier to `n`. */
    method Become(n: Net)
      modifies this
      ensures Shows(n)
    {
      waiters, pubsub, reader, woken := n.watchers, n.pubsub, n.reader, n.woken;
    }

    /**
      `ok` and `effect` are how the SUBSCRIBE call ends, when there is one, and `env` what happens until then.
      No result is the re-raised exception.
     */
    method Join(n: Net, env: Net -> seq<Event>, channel: Channel, e: WaitId, ok: bool, effect: bool)
      returns (joined: Option<WaitId>, ghost m: Net)
      requires Shows(n) && NotifierOk(n) && Enabled(n, JoinBegin(e, channel)) && (ok ==> effect) && Polite(env, e)
      modifies this
      ensures joined == if channel in n.watchers || ok then Some(e) else None
      ensures channel !in n.watchers ==>
                ValidRun(Waits.Join(n, e, channel), env(Waits.Join(n, e, channel))) && NotOf(env(Waits.Join(n, e, channel)), e)
      ensures m == Joined(n, channel, e, env(Waits.Join(n, e, channel)), ok, effect) && Shows(m)
      ensures joined.None? ==> waiters == old(waiters)
    {
      OneWatcherIsNew(n, channel, e);
      JoinOk(n, e, channel);
      var begun := Waits.Join(n, e, channel);
      JoinedOk(n, channel, e, env(begun), ok, effect);
      m := Joined(n, channel, e, env(begun), ok, effect);
      if !pubsub {
        pubsub := true;
      }
      var watchers := (if channel in waiters then waiters[channel] else {}) + {e};
      waiters := waiters[channel := watchers];
      if |watchers| == 1 {
        joined := Subscribe(begun, env, channel, e, ok, effect);
        return;
      }
      StartReading();
      joined := Some(e);
    }

    /** The rest of `join` for a channel nobody watched, with the lock held. */
    method Subscribe(begun: Net, env: Net -> seq<Event>, channel: Channel, e: WaitId, ok: bool, effect: bool)
      returns (joined: Option<WaitId>)
      requires Shows(begun) && NotifierOk(begun) && Polite(env, e)
      requires In(begun, e, Subscribing) && begun.waits[e].channel == channel
      modifies this
      ensures joined == if ok then Some(e) else None
      ensures ValidRun(begun, env(begun)) && e in Exec(begun, env(begun)).waits
      ensures Shows(Subscribed(Exec(begun, env(begun)), e, ok, effect))
    {
      LockedRun(begun, env(begun), e);
      Become(Exec(begun, env(begun)));
      if !ok {
        Forget(channel, e);
        return None;
      }
      StartReading();
      joined := Some(e);
    }

    method StartReading()
      modifies this`reader
      ensures reader == StartReader(old(reader))
    {
      if reader.Absent? {
        reader := Alive;
      }
    }

    method Forget(channel: Channel, e: WaitId)
      modifies this`waiters
      ensures waiters == Waits.Forget(old(waiters), channel, e)
    {
      if channel !in waiters {
        return;
      }
      waiters := waiters[channel := waiters[channel] - {e}];
      if waiters[channel] == {} {
        waiters := waiters - {channel};
      }
    }

    method Leave(ghost n: Net, channel: Channel, e: WaitId)
      requires Shows(n) && Enabled(n, LeaveBegin(e)) && n.waits[e].channel == channel
      modifies this
      ensures Shows(Waits.Leave(n, e))
    {
      Forget(channel, e);
      if channel in waiters || waiters != map[] {
        return;  // with other channels watched only an UNSUBSCRIBE follows, which may fail unheeded
      }
      reader, pubsub := Absent, false;
    }

    /** The reader sets every event watching the channel of the message it got. */
    method Dispatch(ghost n: Net, channel: Channel)
      requires Shows(n) && Enabled(n, Deliver) && channel == n.buffer[0]
      modifies this`woken
      ensures Shows(Apply(n, Deliver))
    {
      var rest := if channel in waiters then waiters[channel] else {};
      while rest != {}
        invariant rest <= WatchersOf(waiters, channel)
        invariant woken == old(woken) + (WatchersOf(waiters, channel) - rest)
        decreases rest
      {
        var event :| event in rest;
        woken := woken + {event};
        rest := rest - {event};
      }
    }

    /** `_wait_for_message` clears the event whether a message or the poll ended the pause. */
    method Clear(ghost n: Net, e: WaitId)
      requires Shows(n) && Enabled(n, Lapse(e))
      modifies this`woken
      ensures Shows(Apply(n, Lapse(e)))
      ensures e in n.woken ==> Shows(Apply(n, Wake(e)))
    {
      woken := woken - {e};
    }
  }

  /** `len(watchers) == 1` after adding is the test for a channel nobody watched. */
  lemma {:induction false} OneWatcherIsNew(n: Net, channel: Channel, e: WaitId)
    requires NotifierOk(n) && Enabled(n, JoinBegin(e, channel))
    ensures |WatchersOf(n.watchers, channel) + {e}| == 1 <==> channel !in n.watchers
  {
    assert ChannelOk(n, channel) && WaitOk(n, e);
    if channel in n.watchers {
      assert e !in n.watchers[channel];
      assert |n.watchers[channel] + {e}| == |n.watchers[channel]| + 1;
    } else {
      assert {} + {e} == {e};
    }
  }
}
