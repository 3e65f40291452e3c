/**
  The timing side of fail-stop. Beats and reaps happen at real instants; Redis TIME reports whole
  seconds; the reaper compares whole seconds with the TTL.
 */
module Liveness {
  import opened Records
  import opened Stores
  import opened Protocol
  import opened Invariant

  const MIN_BEATS_PER_TTL := 3

  /** `check_liveness` accepts the pair; a backend without a TTL is not checked. */
  predicate Accepted(ttl: int, interval: real) {
    !(ttl as real < interval * MIN_BEATS_PER_TTL as real)
  }

  /** A reap at instant `at` selects a worker whose last beat was at instant `beat`. */
  predicate Selected(ttl: int, beat: real, at: real) {
    beat.Floor <= at.Floor - ttl
  }

  /** The reaper's own selection, with beat and clock as whole seconds of those instants. */
  lemma {:induction false} SelectedIsExpired(s: Store, ttl: int, w: WorkerId, beat: real, at: real)
    requires w in s.beats && s.beats[w] == beat.Floor && s.now == at.Floor
    ensures w in Expired(s, ttl) <==> Selected(ttl, beat, at)
  {
  }

  /** A third of the TTL is the longest interval accepted. */
  lemma {:induction false} LongestInterval(ttl: int, interval: real)
    ensures Accepted(ttl, interval) <==> interval <= ttl as real / 3.0
  {
    assert ttl as real / 3.0 * 3.0 == ttl as real;
  }

  lemma {:induction false} FloorShift(x: real, n: int)
    ensures (x + n as real).Floor == x.Floor + n
  {
  }

  lemma {:induction false} FloorMonotone(x: real, y: real)
    requires x <= y
    ensures x.Floor <= y.Floor
  {
  }

  /** A beat at most ttl - 1 seconds old is never expired; one at least ttl seconds old always is. */
  lemma {:induction false} TwoSidedBound(ttl: int, beat: real, at: real)
    ensures at - beat <= (ttl - 1) as real ==> !Selected(ttl, beat, at)
    ensures at - beat >= ttl as real ==> Selected(ttl, beat, at)
  {
    FloorShift(beat, ttl - 1);
    FloorShift(beat, ttl);
    if at - beat <= (ttl - 1) as real {
      FloorMonotone(at, beat + (ttl - 1) as real);
    }
    if at - beat >= ttl as real {
      FloorMonotone(beat + ttl as real, at);
    }
  }

  /** Both bounds are tight: any age strictly between them is expired at one phase and not at another. */
  lemma {:induction false} BoundIsTight(ttl: int, age: real)
    requires ttl > 0 && (ttl - 1) as real < age < ttl as real
    ensures exists beat: real, at: real :: at - beat == age && Selected(ttl, beat, at)
    ensures exists beat: real, at: real :: at - beat == age && !Selected(ttl, beat, at)
  {
    var late := ttl as real - age;
    assert (late + age).Floor == ttl && late.Floor == 0;
    assert late + age - late == age && Selected(ttl, late, late + age);
    assert age.Floor == ttl - 1;
    assert age - 0.0 == age && !Selected(ttl, 0.0, age);
  }

  /** Beats in order, each landing at most two intervals after the one before. */
  predicate Punctual(beats: seq<real>, interval: real) {
    forall i :: 0 < i < |beats| ==> beats[i - 1] <= beats[i] <= beats[i - 1] + 2.0 * interval
  }

  /** Beat `k` is the one a reap at instant `at` finds: the next has not landed, and is not overdue. */
  ghost predicate LastBeat(beats: seq<real>, interval: real, at: real, k: nat) {
    && k < |beats| && beats[k] <= at
    && if k + 1 < |beats| then at < beats[k + 1] else at <= beats[k] + 2.0 * interval
  }

  /** With an accepted interval and a TTL of 3 or more, a punctual worker is selected by no reap at all. */
  lemma {:induction false} PunctualWorkerIsNeverReaped(ttl: int, interval: real, beats: seq<real>, at: real, k: nat)
    requires ttl >= 3 && Accepted(ttl, interval)
    requires Punctual(beats, interval) && LastBeat(beats, interval, at, k)
    ensures !Selected(ttl, beats[k], at)
  {
    assert k + 1 < |beats| ==> beats[k + 1] <= beats[k] + 2.0 * interval;
    TwoSidedBound(ttl, beats[k], at);
  }

  /** Below 3 the accepted margin is not enough: a beat two intervals late can be reaped. */
  lemma {:induction false} ShortTtlIsUnsafe(ttl: int)
    requires 1 <= ttl <= 2
    ensures exists interval: real, beat: real, at: real ::
              Accepted(ttl, interval) && beat <= at <= beat + 2.0 * interval && Selected(ttl, beat, at)
  {
    var interval := ttl as real / 3.0;
    var beat := if ttl == 1 then 0.5 else 0.9;
    var at := ttl as real;
    assert Accepted(ttl, interval) && beat <= at <= beat + 2.0 * interval;
    assert beat.Floor == 0 && at.Floor == ttl;
    assert Selected(ttl, beat, at);
  }

  /** Safe for every accepted interval and every pair of instants two intervals apart. */
  ghost predicate SafeTtl(ttl: int) {
    forall interval: real, beat: real, at: real ::
      Accepted(ttl, interval) && beat <= at <= beat + 2.0 * interval ==> !Selected(ttl, beat, at)
  }

  /** The exact condition on the setting: the two-interval margin protects a live worker iff ttl >= 3. */
  lemma {:induction false} SafeIffAtLeastThree(ttl: int)
    requires ttl > 0
    ensures SafeTtl(ttl) <==> ttl >= 3
  {
    if ttl >= 3 {
      forall interval: real, beat: real, at: real | Accepted(ttl, interval) && beat <= at <= beat + 2.0 * interval
        ensures !Selected(ttl, beat, at)
      {
        TwoSidedBound(ttl, beat, at);
      }
    } else {
      ShortTtlIsUnsafe(ttl);
    }
  }

  /**
    The bridge to the protocol: if every pool that is up has a stored beat whose instant is at most
    two intervals before the instant the clock moves to, the step relation lets the clock move.
   */
  lemma {:induction false} PunctualPoolsLetTheClockMove(c: Config, a: World, interval: real, instants: map<WorkerId, real>, at: real, d: nat)
    requires c.workerTtl >= 3 && Accepted(c.workerTtl, interval)
    requires at.Floor == a.store.now + d
    requires forall w :: w in a.up && w in a.store.beats ==>
                           w in instants && instants[w].Floor == a.store.beats[w]
                           && instants[w] <= at <= instants[w] + 2.0 * interval
    ensures Enabled(c, a, Other(Tick(d)))
  {
    SafeIffAtLeastThree(c.workerTtl);
    forall w | w in a.up && w in a.store.beats
      ensures a.store.now + d < a.store.beats[w] + c.workerTtl
    {
      assert !Selected(c.workerTtl, instants[w], at);
    }
  }

  /** The clock guard is exactly fail-stop: it fails iff some pool that is up would be reaped. */
  lemma {:induction false} GuardIsFailStop(c: Config, a: World, d: nat)
    ensures !Enabled(c, a, Other(Tick(d))) <==>
            exists w :: w in a.up && w in Expired(a.store.(now := a.store.now + d), c.workerTtl)
  {
    var s := a.store.(now := a.store.now + d);
    if !Enabled(c, a, Other(Tick(d))) {
      var w :| w in a.up && w in a.store.beats && a.store.now + d >= a.store.beats[w] + c.workerTtl;
      assert w in Expired(s, c.workerTtl);
    }
  }
}
