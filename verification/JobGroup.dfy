/**
  `JobGroup`'s own code: spawning, the done-callback, the three join modes and every way out of `__aexit__`.

  What the environment decides is a parameter: which events the loop runs at each await, and how each wait
  ends. The object keeps the run it has taken part in, and its invariant says that this run is one of module
  Scopes, whose state its fields show.
 */
module JobGroups {
  import opened Records
  import opened Scopes

  /** How a wait of the scope's own task ends. */
  datatype Wake = Resumes | DeadlinePasses | OwnerCancels

  /** What the event loop runs during one await, and how the await then ends. */
  type Env = Scope -> seq<Step>
  type Waker = Scope -> Wake

  /** The event loop's own steps: completions, callbacks and the fan-out task. */
  predicate IsLoopStep(step: Step) {
    step.Finish? || step.RunCallback? || step.FanoutDone?
  }

  predicate AllLoopSteps(steps: seq<Step>) {
    forall i :: 0 <= i < |steps| ==> IsLoopStep(steps[i])
  }

  ghost predicate Polite(env: Env) {
    forall s :: ScopeOk(s) ==> ValidRun(s, env(s)) && AllLoopSteps(env(s))
  }

  /** A wait resumes only once what it waits for has happened. */
  predicate MayResume(s: Scope) {
    match s.place
    case Joining => Enabled(s, JoinResumes)
    case Draining => Enabled(s, DrainResumes)
    case Settling(_) => Enabled(s, SettleEnds)
    case _ => true
  }

  ghost predicate Sensible(wake: Waker) {
    forall s :: wake(s).Resumes? ==> MayResume(s)
  }

  lemma {:induction false} LoopStepKeepsPlace(s: Scope, step: Step)
    requires Enabled(s, step) && IsLoopStep(step)
    ensures var t := Apply(s, step);
            t.place == s.place && t.handles == s.handles && t.requests == s.requests && |t.children| == |s.children|
  {
    if step.RunCallback? {
      RunsOne(s);
      RunsKeepsHandles(s);
    }
  }

  /** A callback touches the ledger's fields as `_job_finished` does, or none. */
  lemma {:induction false} CallbackEffect(s: Scope)
    requires s.ready != []
    ensures var t := Runs(s);
            && t.handles == s.handles && t.children == s.children && t.requests == s.requests && t.place == s.place
            && if s.ready[0].Ledger?
               then var u := JobFinished(s, s.ready[0].child);
                    t.failures == u.failures && t.cancelling == u.cancelling && t.fanout == u.fanout
               else t.failures == s.failures && t.cancelling == s.cancelling && t.fanout == s.fanout
  {
  }

  /** The scope at the end of an await that began in `s`. */
  ghost function Meet(env: Env, s: Scope): Scope {
    if ValidRun(s, env(s)) then Exec(s, env(s)) else s
  }

  /** How the join of a scope whose body has just returned ends: its first wait, then the drain if it comes to one. */
  ghost function JoinWake(env: Env, wake: Waker, s: Scope): Wake {
    var first := Meet(env, ExitsBody(s, false));
    if !wake(first).Resumes? then wake(first)
    else
      var next := ResumesJoin(first);
      if next.place.Draining? then wake(Meet(env, next)) else Resumes
  }

  /** The steps that call `cancel_all_jobs`, and why. */
  predicate Cancels(step: Step, cause: Cause) {
    || (step == BodyEnds(true) && cause == BodyError)
    || (step == Interrupted(true) && cause == Deadline)
    || (step == Interrupted(false) && cause == OwnerCancelled)
  }

  /** The exception that leaves the join, or none, for each way it ends. */
  predicate Matches(cause: Cause, ended: Wake) {
    match ended
    case Resumes => cause.Normal? || cause.Group?
    case DeadlinePasses => cause.Deadline?
    case OwnerCancels => cause.OwnerCancelled?
  }

  /** Why the body of `s` is left. */
  ghost predicate LeftFor(env: Env, wake: Waker, s: Scope, raised: bool, cause: Cause) {
    if raised then cause.BodyError?
    else if s.handles == [] then cause.Normal?
    else if s.mode.CancelSiblings? && s.children == [] then cause.EmptyWait?
    else Matches(cause, JoinWake(env, wake, s))
  }

  lemma {:induction false} CancelEffect(s: Scope, step: Step, cause: Cause)
    requires Enabled(s, step) && Cancels(step, cause)
    ensures var t := Apply(s, step);
            && t.place == (if s.children == [] then Settling(cause) else Cancelling(cause))
            && t.handles == s.handles && t.children == s.children && t.failures == s.failures
            && t.cancelling == s.cancelling && t.requests == s.requests + [s.handles]
            && t.fanout == if s.children == [] then Awaited(s.fanout) else s.fanout
  {
  }

  /** What `_settle` begins with, seen from the fields. */
  function Awaited(f: Fanout): Fanout {
    if f.Fanout? then f.(awaited := true) else f
  }

  class JobGroup {
    const mode: Mode
    var handles: seq<JobId>
    var waiters: seq<Child>
    var failures: seq<nat>
    var cancelling: bool
    var fanout: Fanout
    var entered: bool
    var requests: seq<seq<JobId>>  // cancel requests awaited by this task, in order
    var scope: Scope               // with the event loop's own state
    ghost var trace: seq<Step>     // what has happened since the group was made

    ghost predicate Tracked()
      reads this
    {
      ValidRun(NewScope(mode), trace) && Exec(NewScope(mode), trace) == scope && scope.mode == mode
    }

    /** The fields are those of the scope. */
    ghost predicate Shows()
      reads this
    {
      && handles == scope.handles && waiters == scope.children && failures == scope.failures
      && cancelling == scope.cancelling && fanout == scope.fanout && requests == scope.requests
      && (entered <==> !scope.place.Outside?)
    }

    ghost predicate Valid()
      reads this
    {
      Tracked() && Shows()
    }

    constructor (m: Mode)
      ensures Valid() && mode == m && scope == NewScope(m) && trace == []
    {
      mode := m;
      handles, waiters, failures, cancelling, fanout, entered, requests := [], [], [], false, NoFanout, false, [];
      scope, trace := NewScope(m), [];
    }

    /** One step of the scope, whose effect on the fields the caller brings about. */
    method Advance(step: Step)
      requires Tracked() && Enabled(scope, step)
      modifies this`scope, this`trace
      ensures Tracked() && scope == Apply(old(scope), step) && trace == old(trace) + [step]
    {
      Snoc(NewScope(mode), trace, step);
      scope, trace := Apply(scope, step), trace + [step];
      ModeIsFixed(NewScope(mode), trace);
    }

    method EnterScope()
      requires Valid() && !entered
      modifies this
      ensures Valid() && scope == Apply(old(scope), Enter)
    {
      entered := true;
      Advance(Enter);
    }

    /** A waiter exists only for a child spawned after entry. */
    method SpawnJob(id: JobId)
      requires Valid() && (entered ==> scope.place.Body?)
      modifies this
      ensures Valid() && scope == Apply(old(scope), if old(entered) then Spawn(id) else SpawnOutside(id))
    {
      handles := handles + [id];
      if entered {
        waiters := waiters + [Child(id, None)];
        Advance(Spawn(id));
      } else {
        Advance(SpawnOutside(id));
      }
    }

    /** The list comprehension over waiters that are not done: one id for each, in spawn order. */
    method Running() returns (ids: seq<JobId>)
      ensures ids == StillRunning(waiters) && ListsPending(waiters, ids)
    {
      ids := RunningFrom(waiters);
      RunningListsPending(waiters);
    }

    static method RunningFrom(waiters: seq<Child>) returns (ids: seq<JobId>)
      ensures ids == StillRunning(waiters)
    {
      ids := [];
      var i := 0;
      while i < |waiters|
        invariant 0 <= i <= |waiters|
        invariant ids + StillRunning(waiters[i..]) == StillRunning(waiters)
      {
        assert waiters[i..][1..] == waiters[i + 1..];
        if waiters[i].ending.None? {
          ids := ids + [waiters[i].id];
        }
        i := i + 1;
      }
    }

    /** `_job_finished`, run by the event loop once waiter `i` is done. */
    method OnJobFinished(i: nat)
      requires Shows() && i < |waiters| && waiters[i].ending.Some?
      modifies this`failures, this`cancelling, this`fanout
      ensures var t := JobFinished(scope, i);
              failures == t.failures && cancelling == t.cancelling && fanout == t.fanout
    {
      var ending := waiters[i].ending.value;
      if ending.Dropped? {
        return;
      }
      if ending.Returned? {
        return;
      }
      if cancelling && ending.jobCancelled {
        return;
      }
      failures := failures + [i];
      if cancelling {
        return;
      }
      cancelling := true;
      var stillRunning := Running();
      fanout := Fanout(stillRunning, false, false);
    }

    /** `collect_mode` after its gather: the results that are exceptions, in spawn order. */
    method CollectFailures() returns (failed: seq<nat>)
      ensures failed == Exceptions(waiters, 0)
      ensures forall i :: i in failed <==> 0 <= i < |waiters| && waiters[i].ending.Some? && !waiters[i].ending.value.Returned?
      ensures forall k, m :: 0 <= k < m < |failed| ==> failed[k] < failed[m]
    {
      failed := [];
      var i: nat := 0;
      while i < |waiters|
        invariant 0 <= i <= |waiters|
        invariant failed + Exceptions(waiters, i) == Exceptions(waiters, 0)
      {
        if waiters[i].ending.Some? && !waiters[i].ending.value.Returned? {
          failed := failed + [i];
        }
        i := i + 1;
      }
      ExceptionsEffect(waiters, 0);
      ExceptionsInOrder(waiters, 0);
    }

    // ---- awaits ----

    /** The next callback: the ledger's is this object's own code. */
    method Callback()
      requires Valid() && scope.ready != []
      modifies this`failures, this`cancelling, this`fanout, this`scope, this`trace
      ensures Valid() && scope == Apply(old(scope), RunCallback)
    {
      ReachableOk(mode, trace);
      LoopStepKeepsPlace(scope, RunCallback);
      assert CallbackOk(scope, 0);
      if scope.ready[0].Ledger? {
        OnJobFinished(scope.ready[0].child);
      }
      CallbackEffect(scope);
      Advance(RunCallback);
    }

    /** One step of the event loop. */
    method LoopStep(step: Step)
      requires Valid() && Enabled(scope, step) && IsLoopStep(step)
      modifies this`waiters, this`failures, this`cancelling, this`fanout, this`scope, this`trace
      ensures Valid() && scope == Apply(old(scope), step)
    {
      match step
      case Finish(i, ending) =>
        waiters := waiters[i := waiters[i].(ending := Some(ending))];
        Advance(step);
      case FanoutDone =>
        fanout := fanout.(done := true);
        Advance(step);
      case RunCallback =>
        Callback();
    }

    method Await(env: Env)
      requires Valid() && Polite(env)
      modifies this`waiters, this`failures, this`cancelling, this`fanout, this`scope, this`trace
      ensures Valid() && scope.place == old(scope).place && |waiters| == |old(waiters)|
      ensures ValidRun(old(scope), env(old(scope))) && scope == Exec(old(scope), env(old(scope)))
    {
      ReachableOk(mode, trace);
      var steps := env(scope);
      while steps != []
        invariant Valid() && AllLoopSteps(steps) && ValidRun(scope, steps)
        invariant Exec(scope, steps) == Exec(old(scope), env(old(scope)))
        invariant scope.place == old(scope).place && |waiters| == |old(waiters)|
        decreases |steps|
      {
        LoopStepKeepsPlace(scope, steps[0]);
        LoopStep(steps[0]);
        steps := steps[1..];
      }
    }

    // ---- the exit paths ----

    /** `_settle` up to its gather: the waiters are cancelled, and a fan-out there is joins them. */
    method BeginSettle()
      modifies this`fanout
      ensures fanout == Awaited(old(fanout))
    {
      if fanout.Fanout? {
        fanout := fanout.(awaited := true);
      }
    }

    /** `cancel_all_jobs` up to its wait; without waiters `_settle` begins at once. */
    method BeginCancel(step: Step, ghost cause: Cause)
      requires Valid() && Enabled(scope, step) && Cancels(step, cause)
      modifies this
      ensures Valid() && scope.place == (if waiters == [] then Settling(cause) else Cancelling(cause))
      ensures handles == old(handles) && requests == old(requests) + [handles]
    {
      CancelEffect(scope, step, cause);
      requests := requests + [handles];
      if waiters == [] {
        BeginSettle();
      }
      Advance(step);
    }

    /** The rest of `cancel_all_jobs`: whether or not every child reported back in time. */
    method EndCancel(env: Env, ghost cause: Cause)
      requires Valid() && Polite(env) && scope.place == Cancelling(cause)
      modifies this`waiters, this`failures, this`cancelling, this`fanout, this`scope, this`trace
      ensures Valid() && scope.place == Settling(cause)
    {
      Await(env);
      BeginSettle();
      Advance(CancelEnds);
    }

    /** `cancel_all_jobs`, from the step that calls it to the start of `_settle`. */
    method CancelAllJobs(env: Env, step: Step, ghost cause: Cause)
      requires Valid() && Polite(env) && Enabled(scope, step) && Cancels(step, cause)
      modifies this
      ensures Valid() && scope.place == Settling(cause) && handles == old(handles)
      ensures requests == old(requests) + [handles]
    {
      BeginCancel(step, cause);
      if waiters != [] {
        EndCancel(env, cause);
      }
    }

    /** The join's first wait, for the first failure or for all children. */
    method FirstWait(env: Env, wake: Waker) returns (ended: Wake)
      requires Valid() && Polite(env) && Sensible(wake)
      requires scope.place.Body? && handles != [] && (mode.CancelSiblings? ==> waiters != [])
      modifies this
      ensures Valid() && scope.place.Joining? && handles == old(handles)
      ensures scope == Meet(env, ExitsBody(old(scope), false)) && ended == wake(scope)
      ensures ended.Resumes? ==> Enabled(scope, JoinResumes)
    {
      Advance(BodyEnds(false));
      Await(env);
      ended := wake(scope);
    }

    /** The rest of `cancel_siblings_mode` once its first wait is over: the backstop, if children are pending. */
    method AfterFirstWait() returns (pending: bool)
      requires Valid() && mode.CancelSiblings? && Enabled(scope, JoinResumes)
      modifies this
      ensures Valid() && handles == old(handles)
      ensures if pending then scope.place.Draining? else scope.place == Settling(Verdict(scope, failures))
      ensures scope == ResumesJoin(old(scope))
    {
      pending := SomeonePending();
      if !pending {
        BeginSettle();
      } else if !cancelling {
        Backstop();
      }
      Advance(JoinResumes);
    }

    /** The cancel request for whoever is still running, when no callback has sent it yet. */
    method Backstop()
      modifies this`cancelling, this`requests
      ensures cancelling && requests == old(requests) + [StillRunning(waiters)]
    {
      cancelling := true;
      var stillRunning := Running();
      requests := requests + [stillRunning];
    }

    /** The gather of the pending siblings. */
    method Drain(env: Env, wake: Waker) returns (ended: Wake)
      requires Valid() && Polite(env) && Sensible(wake) && scope.place.Draining?
      modifies this
      ensures Valid() && handles == old(handles)
      ensures ended == wake(Meet(env, old(scope)))
      ensures if ended.Resumes? then scope.place == Settling(Verdict(scope, failures)) else scope.place.Draining?
    {
      Await(env);
      ended := wake(scope);
      if ended.Resumes? {
        BeginSettle();
        Advance(DrainResumes);
      }
    }

    /** `cancel_siblings_mode`; `failed` is what it returns when no wait was cut short. */
    method CancelSiblingsMode(env: Env, wake: Waker) returns (ended: Wake, failed: seq<nat>)
      requires Valid() && Polite(env) && Sensible(wake)
      requires mode.CancelSiblings? && scope.place.Body? && waiters != [] && handles != []
      modifies this
      ensures Valid() && handles == old(handles) && ended == JoinWake(env, wake, old(scope))
      ensures ended.Resumes? ==> scope.place == Settling(Verdict(scope, failed))
      ensures !ended.Resumes? ==> scope.place.Joining? || scope.place.Draining?
    {
      failed := [];
      ended := FirstWait(env, wake);
      if !ended.Resumes? {
        return;
      }
      var pending := AfterFirstWait();
      if pending {
        ended := Drain(env, wake);
      }
      failed := failures;
    }

    method SomeonePending() returns (pending: bool)
      ensures pending <==> exists i :: 0 <= i < |waiters| && waiters[i].ending.None?
    {
      for i := 0 to |waiters|
        invariant forall k :: 0 <= k < i ==> waiters[k].ending.Some?
      {
        if waiters[i].ending.None? {
          return true;
        }
      }
      pending := false;
    }

    /** `ignore_mode` and `collect_mode`. */
    method GatherMode(env: Env, wake: Waker) returns (ended: Wake, failed: seq<nat>)
      requires Valid() && Polite(env) && Sensible(wake)
      requires !mode.CancelSiblings? && scope.place.Body? && handles != []
      modifies this
      ensures Valid() && handles == old(handles) && ended == JoinWake(env, wake, old(scope))
      ensures ended.Resumes? ==> scope.place == Settling(Verdict(scope, failed))
      ensures !ended.Resumes? ==> scope.place.Joining?
    {
      failed := [];
      ended := FirstWait(env, wake);
      if !ended.Resumes? {
        return;
      }
      if mode.Collect? {
        failed := CollectFailures();
      }
      BeginSettle();
      Advance(JoinResumes);
    }

    /** The join inside `__aexit__`, with its two except branches. */
    method JoinScope(env: Env, wake: Waker) returns (cause: Cause)
      requires Valid() && Polite(env) && Sensible(wake) && scope.place.Body? && handles != []
      modifies this
      ensures Valid() && scope.place == Settling(cause) && handles == old(handles)
      ensures !cause.BodyError? && (cause.EmptyWait? <==> mode.CancelSiblings? && old(waiters) == [])
      ensures !cause.EmptyWait? ==> Matches(cause, JoinWake(env, wake, old(scope)))
    {
      var ended, failed;
      if mode.CancelSiblings? && waiters == [] {
        BeginSettle();
        Advance(BodyEnds(false));
        return EmptyWait;
      } else if mode.CancelSiblings? {
        ended, failed := CancelSiblingsMode(env, wake);
      } else {
        ended, failed := GatherMode(env, wake);
      }
      match ended {
        case Resumes =>
          cause := if failed == [] then Normal else Group(failed);
        case DeadlinePasses =>
          cause := Deadline;
          CancelAllJobs(env, Interrupted(true), cause);
        case OwnerCancels =>
          cause := OwnerCancelled;
          CancelAllJobs(env, Interrupted(false), cause);
      }
    }

    /** Everything in `__aexit__` up to the `finally` that settles. */
    method LeaveBody(raised: bool, env: Env, wake: Waker) returns (cause: Cause)
      requires Valid() && Polite(env) && Sensible(wake) && scope.place.Body?
      modifies this
      ensures Valid() && scope.place == Settling(cause) && handles == old(handles)
      ensures LeftFor(env, wake, old(scope), raised, cause)
    {
      if raised {
        cause := BodyError;
        CancelAllJobs(env, BodyEnds(true), cause);
      } else if handles == [] {
        cause := Normal;
        BeginSettle();
        Advance(BodyEnds(false));
      } else {
        cause := JoinScope(env, wake);
      }
    }

    /** The gather of `_settle`. */
    method Settle(env: Env, wake: Waker, ghost cause: Cause) returns (interrupted: bool)
      requires Valid() && Polite(env) && Sensible(wake) && scope.place == Settling(cause)
      modifies this
      ensures Valid() && scope.place == Exited(cause, interrupted) && handles == old(handles)
      ensures interrupted <==> !wake(Meet(env, old(scope))).Resumes?
    {
      Await(env);
      interrupted := !wake(scope).Resumes?;
      if interrupted {
        Advance(SettleInterrupted);
      } else {
        Advance(SettleEnds);
      }
    }

    /** `__aexit__`: `cause` is why the scope ends, and `interrupted` whether its settling was cut short. */
    method Exit(raised: bool, env: Env, wake: Waker) returns (cause: Cause, interrupted: bool)
      requires Valid() && Polite(env) && Sensible(wake) && scope.place.Body?
      modifies this
      ensures Valid() && scope.place == Exited(cause, interrupted) && handles == old(handles)
      ensures LeftFor(env, wake, old(scope), raised, cause)
      ensures cause.Normal? ==> forall i :: 0 <= i < |waiters| ==>
                waiters[i].ending.Some? && (mode.Ignore? || waiters[i].ending == Some(Returned))
      ensures cause.BodyError? || cause.Deadline? || cause.OwnerCancelled? ==> handles in requests
      ensures cause.Group? ==> cause.failures != [] && forall i :: i in cause.failures ==>
                i < |waiters| && waiters[i].ending.Some? && waiters[i].ending != Some(Returned)
      ensures !interrupted ==> forall i :: 0 <= i < |waiters| ==> waiters[i].ending.Some?
    {
      cause := LeaveBody(raised, env, wake);
      interrupted := Settle(env, wake, cause);
      ScopeExitSafety(mode, trace);
    }
  }
}
