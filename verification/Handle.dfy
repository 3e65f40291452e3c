/**
  `JobHandle._consume`: any number of callers sharing one handle, the double-checked cache, the lock
  and the one backend call it guards, interleaved in any order.
 */
module Handles {
  import opened Records
  import opened Codec

  type Caller = nat

  datatype Phase =
    | Queueing           // found no cached job, waiting for the lock
    | Taking             // holds the lock, inside take_result
    | Returned(job: Job)
    | Raised

  datatype Handle = Handle(
    cached: Option<Job>,        // _job
    lock: Option<Caller>,
    callers: map<Caller, Phase>,
    calls: nat,                 // history: take_result calls begun
    taken: nat,                 // history: take_result calls that removed the record and answered
    lost: nat)                  // history: answered records that from_record could not decode

  const NEW := Handle(None, None, map[], 0, 0, 0)

  /** How `take_result` and the decoding after it end: a job, a record that does not decode, or an exception. */
  datatype Answer = Decodes(job: Job) | Undecodable | Fails

  datatype Event =
    | Call(c: Caller)                       // result() begins: the first look at the cache
    | Acquire(c: Caller)                    // the lock is free: the second look
    | GiveUp(c: Caller)                     // cancelled while waiting for the lock
    | TakeEnds(c: Caller, answer: Answer)

  predicate In(h: Handle, c: Caller, p: Phase) {
    c in h.callers && h.callers[c] == p
  }

  predicate Enabled(h: Handle, ev: Event) {
    match ev
    case Call(c) => c !in h.callers
    case Acquire(c) => In(h, c, Queueing) && h.lock.None?
    case GiveUp(c) => In(h, c, Queueing)
    case TakeEnds(c, _) => In(h, c, Taking)
  }

  function Set(h: Handle, c: Caller, p: Phase): Handle {
    h.(callers := h.callers[c := p])
  }

  function Apply(h: Handle, ev: Event): Handle
    requires Enabled(h, ev)
  {
    match ev
    case Call(c) => Set(h, c, if h.cached.Some? then Returned(h.cached.value) else Queueing)
    case Acquire(c) =>
      if h.cached.Some? then Set(h, c, Returned(h.cached.value))
      else Set(h.(lock := Some(c), calls := h.calls + 1), c, Taking)
    case GiveUp(c) => Set(h, c, Raised)
    case TakeEnds(c, Decodes(job)) => Set(h.(lock := None, cached := Some(job), taken := h.taken + 1), c, Returned(job))
    case TakeEnds(c, Undecodable) => Set(h.(lock := None, taken := h.taken + 1, lost := h.lost + 1), c, Raised)
    case TakeEnds(c, Fails) => Set(h.(lock := None), c, Raised)
  }

  predicate ValidRun(h: Handle, events: seq<Event>)
    decreases events
  {
    events == [] || (Enabled(h, events[0]) && ValidRun(Apply(h, events[0]), events[1..]))
  }

  function Exec(h: Handle, events: seq<Event>): Handle
    requires ValidRun(h, events)
    decreases events
  {
    if events == [] then h else Exec(Apply(h, events[0]), events[1..])
  }

  ghost predicate HandleOk(h: Handle) {
    && (forall c: Caller :: In(h, c, Taking) <==> h.lock == Some(c))
    && (h.lock.Some? ==> h.cached.None?)
    && (forall c :: c in h.callers && h.callers[c].Returned? ==> h.cached == Some(h.callers[c].job))
    && h.taken == h.lost + (if h.cached.Some? then 1 else 0)
  }

  /** The same cached job, and not one more backend call begun, answered or wasted. */
  predicate Settled(h: Handle, k: Handle) {
    k.cached == h.cached && k.calls == h.calls && k.taken == h.taken && k.lost == h.lost
  }

  lemma {:induction false} EventOk(h: Handle, ev: Event)
    requires HandleOk(h) && Enabled(h, ev)
    ensures HandleOk(Apply(h, ev))
    ensures h.cached.Some? ==> Settled(h, Apply(h, ev))
  {
    var k := Apply(h, ev);
    assert ev.TakeEnds? ==> In(h, ev.c, Taking) && h.lock == Some(ev.c);
    forall c: Caller
      ensures In(k, c, Taking) <==> k.lock == Some(c)
    {
      assert In(h, c, Taking) <==> h.lock == Some(c);
    }
    assert forall c :: c in k.callers && k.callers[c].Returned? ==> k.cached == Some(k.callers[c].job);
  }

  lemma {:induction false} RunOk(h: Handle, events: seq<Event>)
    requires HandleOk(h) && ValidRun(h, events)
    ensures HandleOk(Exec(h, events))
    ensures h.cached.Some? ==> Settled(h, Exec(h, events))
    decreases events
  {
    if events != [] {
      EventOk(h, events[0]);
      RunOk(Apply(h, events[0]), events[1..]);
    }
  }

  /** All callers that return share one job, and unless a record failed to decode at most one was ever taken. */
  lemma {:induction false} CallersShareOneResult(events: seq<Event>, c: Caller, d: Caller)
    requires ValidRun(NEW, events)
    ensures var h := Exec(NEW, events);
            && (c in h.callers && d in h.callers && h.callers[c].Returned? && h.callers[d].Returned? ==>
                  h.callers[c] == h.callers[d])
            && (In(h, c, Taking) && In(h, d, Taking) ==> c == d)
            && h.taken == h.lost + (if h.cached.Some? then 1 else 0)
  {
    RunOk(NEW, events);
    assert In(Exec(NEW, events), c, Taking) ==> Exec(NEW, events).lock == Some(c);
  }

  /** Once a job is cached it is never replaced, and the backend is never called again. */
  lemma {:induction false} CacheIsFinal(before: seq<Event>, after: seq<Event>)
    requires ValidRun(NEW, before) && ValidRun(Exec(NEW, before), after) && Exec(NEW, before).cached.Some?
    ensures var h, k := Exec(NEW, before), Exec(Exec(NEW, before), after);
            Settled(h, k)
  {
    RunOk(NEW, before);
    RunOk(Exec(NEW, before), after);
  }

  function Ends(events: seq<Event>): nat {
    if events == [] then 0 else (if events[0].TakeEnds? then 1 else 0) + Ends(events[1..])
  }

  function UnderWay(h: Handle): nat {
    if h.lock.Some? then 1 else 0
  }

  /** Every backend call that was begun has ended or is the one under way. */
  lemma {:induction false} CallsAreCounted(h: Handle, events: seq<Event>)
    requires HandleOk(h) && ValidRun(h, events)
    ensures Exec(h, events).calls + UnderWay(h) == h.calls + Ends(events) + UnderWay(Exec(h, events))
    decreases events
  {
    if events != [] {
      assert events[0].TakeEnds? ==> In(h, events[0].c, Taking);
      EventOk(h, events[0]);
      CallsAreCounted(Apply(h, events[0]), events[1..]);
    }
  }

  datatype Reply = Value(result: Py) | RuntimeError(message: Option<string>) | JobCancelled

  // ---- the code, with other callers running at every await ----

  type Env = Handle -> seq<Event>

  predicate NotOf(events: seq<Event>, c: Caller) {
    forall i :: 0 <= i < |events| ==> events[i].c != c
  }

  /** Other callers take any enabled steps of their own. */
  ghost predicate Polite(env: Env, c: Caller) {
    forall h :: HandleOk(h) ==> ValidRun(h, env(h)) && NotOf(env(h), c)
  }

  /** And whoever holds the lock lets go of it before `c` resumes. */
  ghost predicate Frees(env: Env, c: Caller) {
    forall h :: HandleOk(h) && h.lock != Some(c) ==> ValidRun(h, env(h)) && Exec(h, env(h)).lock.None?
  }

  /** Other callers leave a caller where it is. */
  lemma {:induction false} OthersRun(h: Handle, events: seq<Event>, c: Caller)
    requires HandleOk(h) && ValidRun(h, events) && NotOf(events, c) && c in h.callers
    ensures HandleOk(Exec(h, events)) && In(Exec(h, events), c, h.callers[c])
    decreases events
  {
    if events != [] {
      EventOk(h, events[0]);
      OthersRun(Apply(h, events[0]), events[1..], c);
    }
  }

  class JobHandle {
    var job: Option<Job>
    var state: Handle  // every caller of this handle

    ghost predicate Valid()
      reads this
    {
      HandleOk(state) && job == state.cached
    }

    constructor ()
      ensures Valid() && state == NEW
    {
      job, state := None, NEW;
    }

    method Await(env: Env, c: Caller)
      requires Valid() && Polite(env, c) && c in state.callers
      modifies this
      ensures Valid() && ValidRun(old(state), env(old(state))) && state == Exec(old(state), env(old(state)))
      ensures In(state, c, old(state).callers[c])
    {
      OthersRun(state, env(state), c);
      state := Exec(state, env(state));
      job := state.cached;
    }

    method Step(ev: Event)
      requires Valid() && Enabled(state, ev)
      modifies this
      ensures Valid() && state == Apply(old(state), ev)
    {
      EventOk(state, ev);
      state := Apply(state, ev);
      job := state.cached;
    }

    /**
      The cached job, or after the lock a second look, or what `take_result` answers; None is an exception,
      also that of a caller cancelled while it waits for the lock.
     */
    method Consume(c: Caller, waits: Env, givesUp: bool, takes: Env, answer: Answer)
      returns (found: Option<Job>, ghost met: Handle)
      requires Valid() && c !in state.callers
      requires Polite(waits, c) && (!givesUp ==> Frees(waits, c)) && Polite(takes, c)
      modifies this
      ensures Valid()
      ensures found == if old(job).Some? then old(job)
                       else if givesUp then None
                       else if met.cached.Some? then met.cached
                       else if answer.Decodes? then Some(answer.job) else None
      ensures In(state, c, if found.Some? then Returned(found.value) else Raised)
      ensures found.Some? ==> job == found
      ensures old(job).None? ==>
                var begun := Apply(old(state), Call(c)); ValidRun(begun, waits(begun)) && met == Exec(begun, waits(begun))
      ensures old(job).None? && givesUp ==> In(met, c, Queueing) && state == Apply(met, GiveUp(c))
    {
      met := state;
      if job.Some? {
        found := job;
        Step(Call(c));
        return;
      }
      Step(Call(c));
      assert !In(state, c, Taking) && state.lock != Some(c);
      Await(waits, c);
      met := state;
      if givesUp {
        Step(GiveUp(c));
        found := None;
        return;
      }
      Step(Acquire(c));
      if job.Some? {
        found := job;
        return;
      }
      Await(takes, c);
      Step(TakeEnds(c, answer));
      found := job;
    }

    /** None is an exception raised before any job was decoded. */
    method Result(c: Caller, waits: Env, givesUp: bool, takes: Env, answer: Answer)
      returns (reply: Option<Reply>, ghost met: Handle)
      requires Valid() && c !in state.callers
      requires Polite(waits, c) && (!givesUp ==> Frees(waits, c)) && Polite(takes, c)
      modifies this
      ensures Valid()
      ensures var found := if old(job).Some? then old(job)
                           else if givesUp then None
                           else if met.cached.Some? then met.cached
                           else if answer.Decodes? then Some(answer.job) else None;
              && (found.None? ==> reply.None?)
              && (found.Some? ==>
                    && job == found && reply.Some?
                    && (found.value.status == Failed ==> reply.value == RuntimeError(found.value.error))
                    && (found.value.status == Cancelled ==> reply.value == JobCancelled)
                    && (found.value.status != Failed && found.value.status != Cancelled ==> reply.value == Value(found.value.result)))
      ensures old(job).None? ==>
                var begun := Apply(old(state), Call(c)); ValidRun(begun, waits(begun)) && met == Exec(begun, waits(begun))
    {
      var found;
      found, met := Consume(c, waits, givesUp, takes, answer);
      if found.None? {
        return None, met;
      }
      if found.value.status == Failed {
        return Some(RuntimeError(found.value.error)), met;
      }
      if found.value.status == Cancelled {
        return Some(JobCancelled), met;
      }
      reply := Some(Value(found.value.result));
    }
  }
}
