/**
  From the worker's code to the step relation: the acts one claim and one delivery perform, in order, for
  every outcome of each call, and what they amount to when anything else happens in between.
 */
module Driving {
  import opened Records
  import opened Stores
  import opened Places
  import opened Protocol
  import opened Invariant
  import opened Guarantees

  datatype BodyEnd = Returned(result: Bytes) | Raised(message: string)

  /** How `asyncio.wait([cancel_task, job_task], FIRST_COMPLETED)` and what follows it turn out. */
  datatype Race =
    | BodyFirst(end: BodyEnd)      // the body is done, whatever the watcher did
    | WatcherReturned              // a cancel was requested and the body is not done
    | WatcherRaised(end: BodyEnd)  // the watcher broke; the body runs on unwatched to its end
    | Shutdown                     // the loop was cancelled while waiting, or the body ended in CancelledError itself

  /** The record `Job.to_record` writes once the job has this outcome. */
  function Outcome(copy: Record, st: Status, error: Option<string>, result: Option<Bytes>): Record {
    copy.(status := st, error := Prefer(error, copy.error), result := if st == Completed then result else None)
  }

  /** The status the race leads to before anything is saved; None when no status is decided. */
  function Verdict(race: Race): Option<Status> {
    match race
    case BodyFirst(Returned(_)) => Some(Completed)
    case BodyFirst(Raised(_)) => Some(Failed)
    case WatcherReturned => Some(Cancelled)
    case WatcherRaised(Returned(_)) => Some(Completed)
    case WatcherRaised(Raised(_)) => Some(Failed)
    case Shutdown => None
  }

  predicate BodyRaises(race: Race) {
    (race.BodyFirst? || race.WatcherRaised?) && race.end.Raised?
  }

  /** The text of whatever a failed save raised. */
  const SAVE_FAILED := "save failed"

  /** The error of a job whose task this worker does not know. */
  function Unregistered(taskName: string): string {
    "no task is registered under the name '" + taskName + "'"
  }

  // ---- what one delivery does ----

  function SaveAs(copy: Record, st: Status, error: Option<string>, result: Option<Bytes>, fate: Fate): LeaseAct {
    SaveCall(Outcome(copy, st, error, result), fate)
  }

  /** The except branch: one FAILED save when the first one raised. */
  function Retry(copy: Record, first: Fate, second: Fate): seq<LeaseAct> {
    if first.Errored? then [SaveAs(copy, Failed, Some(SAVE_FAILED), None, second)] else []
  }

  function EndActs(copy: Record, end: BodyEnd, first: Fate, second: Fate): seq<LeaseAct> {
    match end
    case Returned(result) => [SaveAs(copy, Completed, None, Some(result), first)] + Retry(copy, first, second)
    case Raised(message) => [BodyRaised, SaveAs(copy, Failed, Some(message), None, first)]
  }

  /** The try block of `_run`: what it has done once it returns or raises. */
  function TryActs(copy: Record, race: Race, first: Fate): seq<LeaseAct> {
    match race
    case Shutdown => [Interrupt]
    case WatcherReturned => [Fire, SaveAs(copy, Cancelled, None, None, first)]
    case BodyFirst(Returned(result)) => [SaveAs(copy, Completed, None, Some(result), first)]
    case WatcherRaised(Returned(result)) => [SaveAs(copy, Completed, None, Some(result), first)]
    case BodyFirst(Raised(_)) => [BodyRaised]
    case WatcherRaised(Raised(_)) => [BodyRaised]
  }

  /** The except branch after it: one FAILED save when the body or the save raised. */
  function ExceptActs(copy: Record, race: Race, first: Fate, second: Fate): seq<LeaseAct> {
    if BodyRaises(race) then [SaveAs(copy, Failed, Some(race.end.message), None, first)]
    else if race.Shutdown? then []
    else Retry(copy, first, second)
  }

  lemma {:induction false} RaceIsTryThenExcept(copy: Record, race: Race, first: Fate, second: Fate)
    ensures RaceActs(copy, race, first, second) == TryActs(copy, race, first) + ExceptActs(copy, race, first, second)
  {
    match race
    case Shutdown =>
    case WatcherReturned =>
    case BodyFirst(end) => assert EndActs(copy, end, first, second) == TryActs(copy, race, first) + ExceptActs(copy, race, first, second);
    case WatcherRaised(end) => assert EndActs(copy, end, first, second) == TryActs(copy, race, first) + ExceptActs(copy, race, first, second);
  }

  function RaceActs(copy: Record, race: Race, first: Fate, second: Fate): seq<LeaseAct> {
    match race
    case Shutdown => [Interrupt]
    case WatcherReturned => [Fire, SaveAs(copy, Cancelled, None, None, first)] + Retry(copy, first, second)
    case BodyFirst(end) => EndActs(copy, end, first, second)
    case WatcherRaised(end) => EndActs(copy, end, first, second)
  }

  /** Everything `_run` does with the lease. */
  function RunActs(copy: Record, registered: bool, race: Race, first: Fate, second: Fate): seq<LeaseAct> {
    if copy.cancel then [SaveAs(copy, Cancelled, None, None, first)]
    else if !registered then [SaveAs(copy, Failed, Some(Unregistered(copy.envelope.taskName)), None, first)]
    else [Start] + RaceActs(copy, race, first, second)
  }

  /** CancelledError leaves `_run`: the last thing it did was interrupted. */
  predicate CutShort(acts: seq<LeaseAct>) {
    acts != [] &&
    var last := acts[|acts| - 1];
    last.Interrupt? || (last.SaveCall? && last.fate.Interrupted?)
  }

  /** `_run`, and the release when CancelledError leaves it. */
  function DeliverActs(copy: Record, registered: bool, race: Race, first: Fate, second: Fate, release: Fate): seq<LeaseAct> {
    var acts := RunActs(copy, registered, race, first, second);
    acts + if CutShort(acts) then [ReleaseCall(TookEffect(release))] else []
  }

  // ---- what one claim does ----

  /** After the script: the recovery if it raised, or the LREM if it found nothing. */
  function AfterScript(found: bool, script: Fate, recovery: Fate): seq<LeaseAct> {
    if script.Errored? then [Recover(TookEffect(recovery))]
    else if script.Answered? && !found then [Discard(TookEffect(recovery))]
    else []
  }

  function ClaimActs(found: bool, script: Fate, recovery: Fate): seq<LeaseAct> {
    [ClaimCall(script)] + AfterScript(found, script, recovery)
  }

  // ---- what a run saves ----

  /** The first save of a run, None when the race decided nothing. */
  function FirstSave(copy: Record, registered: bool, race: Race, first: Fate): Option<LeaseAct> {
    if copy.cancel then Some(SaveAs(copy, Cancelled, None, None, first))
    else if !registered then Some(SaveAs(copy, Failed, Some(Unregistered(copy.envelope.taskName)), None, first))
    else
      match race
      case Shutdown => None
      case WatcherReturned => Some(SaveAs(copy, Cancelled, None, None, first))
      case BodyFirst(Returned(result)) => Some(SaveAs(copy, Completed, None, Some(result), first))
      case WatcherRaised(Returned(result)) => Some(SaveAs(copy, Completed, None, Some(result), first))
      case BodyFirst(Raised(message)) => Some(SaveAs(copy, Failed, Some(message), None, first))
      case WatcherRaised(Raised(message)) => Some(SaveAs(copy, Failed, Some(message), None, first))
  }

  /** Only a save inside the try block is retried: not one in the two early returns or the except branch. */
  predicate Retries(copy: Record, registered: bool, race: Race, first: Fate) {
    !copy.cancel && registered && first.Errored? && !race.Shutdown? && !BodyRaises(race)
  }

  /** CancelledError leaves a run exactly when the race or its last save was interrupted. */
  lemma {:induction false} RunCutShort(copy: Record, registered: bool, race: Race, first: Fate, second: Fate)
    ensures CutShort(RunActs(copy, registered, race, first, second)) <==>
            || FirstSave(copy, registered, race, first).None? || first.Interrupted?
            || (Retries(copy, registered, race, first) && second.Interrupted?)
  {
    var acts := RunActs(copy, registered, race, first, second);
    if !copy.cancel && registered {
      var rest := RaceActs(copy, race, first, second);
      assert acts[|acts| - 1] == rest[|rest| - 1];
    }
  }

  function Saves(acts: seq<LeaseAct>): seq<LeaseAct> {
    if acts == [] then [] else (if acts[0].SaveCall? then [acts[0]] else []) + Saves(acts[1..])
  }

  lemma {:induction false} SavesConcat(a: seq<LeaseAct>, b: seq<LeaseAct>)
    ensures Saves(a + b) == Saves(a) + Saves(b)
  {
    if a == [] {
      assert a + b == b && [] + Saves(b) == Saves(b);
    } else {
      var head := if a[0].SaveCall? then [a[0]] else [];
      assert (a + b)[0] == a[0] && (a + b)[1..] == a[1..] + b;
      SavesConcat(a[1..], b);
      assert head + (Saves(a[1..]) + Saves(b)) == head + Saves(a[1..]) + Saves(b);
    }
  }

  lemma {:induction false} EndSaves(copy: Record, end: BodyEnd, first: Fate, second: Fate)
    ensures var acts := EndActs(copy, end, first, second);
            Saves(acts) == if end.Returned? then [acts[0]] + Retry(copy, first, second) else [acts[1]]
  {
    var acts := EndActs(copy, end, first, second);
    match end
    case Returned(_) =>
      SavesConcat([acts[0]], Retry(copy, first, second));
      SavesOfTwo(acts[0], acts[0]);
      RetrySaves(copy, first, second);
    case Raised(_) =>
      SavesOfTwo(acts[0], acts[1]);
      assert acts == [acts[0], acts[1]];
  }

  lemma {:induction false} RaceSaves(copy: Record, race: Race, first: Fate, second: Fate)
    requires !copy.cancel
    ensures var save := FirstSave(copy, true, race, first);
            Saves(RaceActs(copy, race, first, second)) ==
            if save.None? then [] else [save.value] + if BodyRaises(race) then [] else Retry(copy, first, second)
  {
    var acts := RaceActs(copy, race, first, second);
    match race
    case Shutdown => SavesOfTwo(Interrupt, Interrupt);
    case BodyFirst(end) => EndSaves(copy, end, first, second);
    case WatcherRaised(end) => EndSaves(copy, end, first, second);
    case WatcherReturned =>
      SavesConcat([acts[0], acts[1]], Retry(copy, first, second));
      SavesOfTwo(acts[0], acts[1]);
      RetrySaves(copy, first, second);
      assert acts == [acts[0], acts[1]] + Retry(copy, first, second);
  }

  /** `_run` saves once, and once more as FAILED exactly when a save inside the try block raised. */
  lemma {:induction false} RunSaves(copy: Record, registered: bool, race: Race, first: Fate, second: Fate)
    ensures var save := FirstSave(copy, registered, race, first);
            Saves(RunActs(copy, registered, race, first, second)) ==
            (if save.None? then [] else [save.value]) +
            (if Retries(copy, registered, race, first) then [SaveAs(copy, Failed, Some(SAVE_FAILED), None, second)] else [])
  {
    var acts := RunActs(copy, registered, race, first, second);
    if copy.cancel || !registered {
      SavesOfTwo(acts[0], acts[0]);
      assert acts == [acts[0]];
    } else {
      SavesConcat([Start], RaceActs(copy, race, first, second));
      SavesOfTwo(Start, Start);
      RaceSaves(copy, race, first, second);
    }
  }

  lemma {:induction false} RetrySaves(copy: Record, first: Fate, second: Fate)
    ensures Saves(Retry(copy, first, second)) == Retry(copy, first, second)
  {
    var r := Retry(copy, first, second);
    if first.Errored? {
      SavesOfTwo(r[0], r[0]);
      assert r == [r[0]];
    }
  }

  lemma {:induction false} SavesOfTwo(x: LeaseAct, y: LeaseAct)
    ensures Saves([x]) == if x.SaveCall? then [x] else []
    ensures Saves([x, y]) == (if x.SaveCall? then [x] else []) + (if y.SaveCall? then [y] else [])
  {
    assert [x, y][1..] == [y] && [x][1..] == [] && [y][1..] == [];
  }

  /** The record that stands once these acts are done: the last save that took effect, else `before`. */
  function Written(before: Option<Record>, acts: seq<LeaseAct>): Option<Record>
    decreases acts
  {
    if acts == [] then before else Written(AfterAct(before, acts[0]), acts[1..])
  }

  function AfterAct(before: Option<Record>, act: LeaseAct): Option<Record> {
    if act.SaveCall? && TookEffect(act.fate) then Some(act.record) else before
  }

  lemma {:induction false} WrittenBySaves(before: Option<Record>, acts: seq<LeaseAct>)
    ensures Written(before, acts) == Written(before, Saves(acts))
    decreases acts
  {
    if acts != [] {
      WrittenBySaves(AfterAct(before, acts[0]), acts[1..]);
      var rest := Saves(acts[1..]);
      assert acts[0].SaveCall? ==> ([acts[0]] + rest)[1..] == rest;
      assert [] + rest == rest;
    }
  }

  /** What a delivery leaves as it decoded it. */
  predicate SameJobAs(r: Record, copy: Record) {
    r.envelope == copy.envelope && r.attempts == copy.attempts && r.cancel == copy.cancel && r.group == copy.group
  }

  /** Why a job that ends FAILED failed: its task is unknown, its body raised, or its first save did. */
  function Reason(copy: Record, registered: bool, race: Race): string {
    if !registered then Unregistered(copy.envelope.taskName)
    else if (race.BodyFirst? || race.WatcherRaised?) && race.end.Raised? then race.end.message
    else SAVE_FAILED
  }

  /** What `_run` may write and why, and what it does write when its first save takes effect. */
  lemma {:induction false} RunOutcome(copy: Record, registered: bool, race: Race, first: Fate, second: Fate)
    ensures var r := Written(None, RunActs(copy, registered, race, first, second));
            && (r.Some? ==> Terminal(r.value.status))
            && (r.Some? && r.value.status == Cancelled ==> copy.cancel || (registered && race.WatcherReturned?))
            && (r.Some? && r.value.status == Completed ==>
                  !copy.cancel && registered && Verdict(race) == Some(Completed) && r.value.result == Some(race.end.result))
            && (r.Some? && copy.cancel ==> r.value.status == Cancelled)
            && (r.Some? ==> SameJobAs(r.value, copy))
            && (r.Some? && r.value.status == Failed ==> r.value.error == Some(Reason(copy, registered, race)))
            && (r.Some? && r.value.status != Failed ==> r.value.error == copy.error)
            && (r.Some? ==> (r.value.result.Some? <==> r.value.status == Completed))
            && (r.None? <==> !(FirstSave(copy, registered, race, first).Some? && TookEffect(first))
                             && !(Retries(copy, registered, race, first) && TookEffect(second)))
            && (first.Answered? && !(registered && !copy.cancel && race.Shutdown?) ==>
                  r.Some? && r.value.status ==
                  if copy.cancel then Cancelled else if !registered then Failed else Verdict(race).value)
  {
    var acts, save := RunActs(copy, registered, race, first, second), FirstSave(copy, registered, race, first);
    WrittenBySaves(None, acts);
    RunSaves(copy, registered, race, first, second);
    if save.Some? {
      WrittenByTwo(save.value, SaveAs(copy, Failed, Some(SAVE_FAILED), None, second));
      assert [save.value] + [] == [save.value];
    }
  }

  lemma {:induction false} WrittenByTwo(x: LeaseAct, y: LeaseAct)
    ensures Written(None, [x]) == AfterAct(None, x)
    ensures Written(None, [x] + [y]) == AfterAct(AfterAct(None, x), y)
  {
    assert ([x] + [y])[1..] == [y] && [x][1..] == [] && [y][1..] == [];
    assert Written(AfterAct(None, x), [y]) == AfterAct(AfterAct(None, x), y);
  }

  // ---- acts without the store ----

  /** Whether a loop at this stage may do this next; only `Fire` also asks something of the store. */
  predicate Permits(st: Stage, act: LeaseAct) {
    match act
    case ClaimCall(_) => st.Moved?
    case Recover(_) => st.ClaimFailed?
    case Discard(_) => st.Vanished?
    case Start => st.Delivered? && !st.copy.cancel
    case Fire => st.Racing?
    case BodyRaised => st.Racing?
    case SaveCall(r, _) => MaySave(st, r)
    case Interrupt => InHand(st)
    case ReleaseCall(_) => st.Releasing?
    case Abandon => InHand(st)
  }

  /** The watcher returns only once it has read the stored flag. */
  predicate Flagged(s: Store, id: JobId) {
    id in s.jobs && s.jobs[id].cancel
  }

  lemma {:induction false} EnabledIffPermitted(s: Store, id: JobId, st: Stage, act: LeaseAct)
    ensures ActEnabled(s, id, st, act) <==> Permits(st, act) && (act.Fire? ==> Flagged(s, id))
  {
  }

  /** Where the loop stands after an act; None also ends a claim, whose answer the store decides. */
  function Follow(st: Stage, act: LeaseAct): Option<Stage> {
    match act
    case ClaimCall(fate) => if fate.Errored? then Some(ClaimFailed) else None
    case Start => if st.Delivered? then Some(Racing(st.copy, false)) else None
    case Fire => if st.Racing? then Some(Racing(st.copy, true)) else None
    case BodyRaised => if st.Racing? then Some(Failing(st.copy)) else None
    case SaveCall(_, fate) =>
      if fate.Interrupted? then Some(Releasing)
      else if fate.Errored? && st.Racing? then Some(Failing(st.copy))
      else None
    case Interrupt => Some(Releasing)
    case _ => None
  }

  /** Each act is permitted where the ones before it lead. */
  predicate Path(st: Option<Stage>, acts: seq<LeaseAct>)
    decreases acts
  {
    acts == [] || (st.Some? && Permits(st.value, acts[0]) && Path(Follow(st.value, acts[0]), acts[1..]))
  }

  function StageAfter(st: Option<Stage>, acts: seq<LeaseAct>): Option<Stage>
    decreases acts
  {
    if acts == [] || st.None? then st else StageAfter(Follow(st.value, acts[0]), acts[1..])
  }

  lemma {:induction false} PathConcat(st: Option<Stage>, a: seq<LeaseAct>, b: seq<LeaseAct>)
    requires Path(st, a) && Path(StageAfter(st, a), b)
    ensures Path(st, a + b) && StageAfter(st, a + b) == StageAfter(StageAfter(st, a), b)
    decreases a
  {
    if a == [] {
      assert a + b == b;
    } else {
      assert (a + b)[1..] == a[1..] + b;
      PathConcat(Follow(st.value, a[0]), a[1..], b);
    }
  }

  lemma {:induction false} PathOne(st: Stage, act: LeaseAct)
    requires Permits(st, act)
    ensures Path(Some(st), [act]) && StageAfter(Some(st), [act]) == Follow(st, act)
  {
    assert [act][1..] == [];
  }

  lemma {:induction false} PathCons(st: Stage, act: LeaseAct, rest: seq<LeaseAct>)
    requires Permits(st, act) && Path(Follow(st, act), rest)
    ensures Path(Some(st), [act] + rest) && StageAfter(Some(st), [act] + rest) == StageAfter(Follow(st, act), rest)
  {
    PathOne(st, act);
    PathConcat(Some(st), [act], rest);
  }

  // ---- the acts of a delivery and of a claim are paths ----

  /** Where the loop stands after `_run`: waiting to release if it was cut short, else done with the job. */
  function After(acts: seq<LeaseAct>): Option<Stage> {
    if CutShort(acts) then Some(Releasing) else None
  }

  /** These acts are permitted in this order from `st` and end as `_run` ends. */
  predicate RunsFrom(st: Stage, acts: seq<LeaseAct>) {
    Path(Some(st), acts) && StageAfter(Some(st), acts) == After(acts)
  }

  lemma {:induction false} SavePath(st: Stage, act: LeaseAct, second: Fate)
    requires st.Racing? && act.SaveCall? && Permits(st, act)
    ensures RunsFrom(st, [act] + Retry(st.copy, act.fate, second))
  {
    var retry := Retry(st.copy, act.fate, second);
    if act.fate.Errored? {
      PathOne(Failing(st.copy), retry[0]);
      assert retry == [retry[0]];
    }
    PathCons(st, act, retry);
  }

  lemma {:induction false} EndPath(copy: Record, end: BodyEnd, first: Fate, second: Fate)
    ensures RunsFrom(Racing(copy, false), EndActs(copy, end, first, second))
  {
    var st, acts := Racing(copy, false), EndActs(copy, end, first, second);
    match end
    case Returned(result) => SavePath(st, acts[0], second);
    case Raised(message) =>
      PathOne(Failing(copy), acts[1]);
      PathCons(st, acts[0], [acts[1]]);
      assert [acts[0]] + [acts[1]] == acts;
  }

  lemma {:induction false} RacePath(copy: Record, race: Race, first: Fate, second: Fate)
    ensures RunsFrom(Racing(copy, false), RaceActs(copy, race, first, second))
  {
    var st, acts := Racing(copy, false), RaceActs(copy, race, first, second);
    match race
    case Shutdown => PathOne(st, Interrupt);
    case BodyFirst(end) => EndPath(copy, end, first, second);
    case WatcherRaised(end) => EndPath(copy, end, first, second);
    case WatcherReturned =>
      var rest := [acts[1]] + Retry(copy, first, second);
      SavePath(Racing(copy, true), acts[1], second);
      PathCons(st, Fire, rest);
      assert [Fire] + rest == acts;
  }

  lemma {:induction false} RunPath(copy: Record, registered: bool, race: Race, first: Fate, second: Fate)
    ensures RunsFrom(Delivered(copy), RunActs(copy, registered, race, first, second))
  {
    var st, acts := Delivered(copy), RunActs(copy, registered, race, first, second);
    if copy.cancel || !registered {
      PathOne(st, acts[0]);
      assert acts == [acts[0]];
    } else {
      var rest := RaceActs(copy, race, first, second);
      RacePath(copy, race, first, second);
      PathCons(st, Start, rest);
      assert acts[|acts| - 1] == rest[|rest| - 1];
    }
  }

  /** A delivery lets go of its job at its last act and not before. */
  lemma {:induction false} DeliverPath(copy: Record, registered: bool, race: Race, first: Fate, second: Fate, release: Fate)
    ensures var acts := DeliverActs(copy, registered, race, first, second, release);
            acts != [] && Path(Some(Delivered(copy)), acts) && StageAfter(Some(Delivered(copy)), acts) == None
  {
    var acts := RunActs(copy, registered, race, first, second);
    RunPath(copy, registered, race, first, second);
    if CutShort(acts) {
      PathOne(Releasing, ReleaseCall(TookEffect(release)));
      PathConcat(Some(Delivered(copy)), acts, [ReleaseCall(TookEffect(release))]);
    } else {
      assert acts + [] == acts;
    }
  }

  lemma {:induction false} ClaimPath(script: Fate, recovery: Fate)
    ensures var acts := ClaimActs(true, script, recovery);
            acts != [] && Path(Some(Moved), acts) && StageAfter(Some(Moved), acts) == None
  {
    var acts := ClaimActs(true, script, recovery);
    PathOne(Moved, acts[0]);
    if script.Errored? {
      PathOne(ClaimFailed, acts[1]);
      PathCons(Moved, acts[0], [acts[1]]);
      assert [acts[0]] + [acts[1]] == acts;
    } else {
      assert acts == [acts[0]];
    }
  }
}
