/** What the reap script does to any store at all, reachable or not. */
module Reaper {
  import opened Records
  import opened Stores

  lemma {:induction false} KeptConcat(jobs: map<JobId, Record>, a: seq<JobId>, b: seq<JobId>)
    ensures Kept(jobs, a + b) == Kept(jobs, a) + Kept(jobs, b)
  {
    if a == [] {
      assert a + b == b;
    } else {
      assert (a + b)[1..] == a[1..] + b;
      KeptConcat(jobs, a[1..], b);
    }
  }

  /** The ids that have a record, each as often as drained, and in the order drained. */
  lemma {:induction false} KeptIsTheFilter(jobs: map<JobId, Record>, ids: seq<JobId>) returns (at: seq<nat>)
    ensures forall i: nat :: i in at <==> i < |ids| && ids[i] in jobs
    ensures forall k, m :: 0 <= k < m < |at| ==> at[k] < at[m]
    ensures |Kept(jobs, ids)| == |at| && forall k :: 0 <= k < |at| ==> at[k] < |ids| && Kept(jobs, ids)[k] == ids[at[k]]
  {
    at := [];
    assert ids[..|ids|] == ids && ids[..0] == [];
    for n := 0 to |ids|
      invariant forall i: nat :: i in at <==> i < n && ids[i] in jobs
      invariant forall k, m :: 0 <= k < m < |at| ==> at[k] < at[m]
      invariant |Kept(jobs, ids[..n])| == |at|
      invariant forall k :: 0 <= k < |at| ==> at[k] < n && Kept(jobs, ids[..n])[k] == ids[at[k]]
    {
      assert ids[..n + 1] == ids[..n] + [ids[n]] && [ids[n]][1..] == [];
      KeptConcat(jobs, ids[..n], [ids[n]]);
      assert Kept(jobs, [ids[n]]) == if ids[n] in jobs then [ids[n]] else [];
      if ids[n] in jobs {
        at := at + [n];
      }
    }
  }

  lemma {:induction false} KeptDependsOnKeys(jobs: map<JobId, Record>, other: map<JobId, Record>, ids: seq<JobId>)
    requires jobs.Keys == other.Keys
    ensures Kept(jobs, ids) == Kept(other, ids)
  {
    if ids != [] {
      KeptDependsOnKeys(jobs, other, ids[1..]);
    }
  }

  /** Every job in `ids` that was RUNNING is QUEUED again; nothing else about any record changes. */
  predicate Reset(before: map<JobId, Record>, after: map<JobId, Record>, ids: seq<JobId>) {
    && after.Keys == before.Keys
    && forall id :: id in before ==> after[id] == if id in ids then Requeued(before[id]) else before[id]
  }

  lemma {:induction false} ResetConcat(a: map<JobId, Record>, b: map<JobId, Record>, c: map<JobId, Record>, x: seq<JobId>, y: seq<JobId>)
    requires Reset(a, b, x) && Reset(b, c, y)
    ensures Reset(a, c, x + y)
  {
  }

  /** Draining appends the surviving ids in list order and resets exactly the RUNNING ones. */
  /** Draining touches the records and appends to the queue, nothing else. */
  lemma {:induction false} DrainQueue(s: Store, ids: seq<JobId>)
    ensures var t := Drain(s, ids); t == s.(jobs := t.jobs, queue := s.queue + Kept(s.jobs, ids))
    decreases ids
  {
    if ids == [] {
      assert s.queue + Kept(s.jobs, ids) == s.queue;
    } else {
      var t, rest := Reclaim(s, ids[0]), ids[1..];
      DrainQueue(t, rest);
      KeptDependsOnKeys(s.jobs, t.jobs, rest);
      AppendAssoc(s.queue, if ids[0] in s.jobs then [ids[0]] else [], Kept(s.jobs, rest));
    }
  }

  lemma {:induction false} DrainEffect(s: Store, ids: seq<JobId>)
    ensures var t := Drain(s, ids);
            && t == s.(jobs := t.jobs, queue := s.queue + Kept(s.jobs, ids))
            && Reset(s.jobs, t.jobs, ids)
    decreases ids
  {
    DrainQueue(s, ids);
    if ids != [] {
      var t, rest := Reclaim(s, ids[0]), ids[1..];
      DrainEffect(t, rest);
      assert [ids[0]] + rest == ids;
      ResetConcat(s.jobs, t.jobs, Drain(t, rest).jobs, [ids[0]], rest);
    }
  }

  lemma {:induction false} AppendAssoc(a: seq<JobId>, b: seq<JobId>, c: seq<JobId>)
    ensures a + b + c == a + (b + c)
  {
  }

  lemma {:induction false} DrainedIgnoresRecords(s: Store, t: Store, ws: seq<WorkerId>)
    requires forall w :: w in ws ==> Leases(s, w) == Leases(t, w)
    ensures Drained(s, ws) == Drained(t, ws)
  {
    if ws != [] {
      DrainedIgnoresRecords(s, t, ws[1..]);
    }
  }

  /** The whole effect of reclaiming a list of distinct workers, one equation per structure. */
  ghost predicate Reaped(s: Store, t: Store, ws: seq<WorkerId>) {
    && t.now == s.now && t.expires == s.expires
    && t.processing == s.processing - (set w | w in ws)
    && t.beats == s.beats - (set w | w in ws)
    && t.queue == s.queue + Kept(s.jobs, Drained(s, ws))
    && Reset(s.jobs, t.jobs, Drained(s, ws))
  }

  lemma {:induction false} DrainedCons(s: Store, w: WorkerId, ws: seq<WorkerId>)
    ensures Drained(s, [w] + ws) == Leases(s, w) + Drained(s, ws)
    ensures Drained(s, [w]) == Leases(s, w)
  {
    assert ([w] + ws)[1..] == ws;
  }

  lemma {:induction false} ReapOneEffect(s: Store, w: WorkerId)
    ensures Reaped(s, ReapOne(s, w), [w])
  {
    DrainEffect(s, Leases(s, w));
    DrainedCons(s, w, []);
    assert (set v | v in [w]) == {w};
  }

  lemma {:induction false} ReapedQueue(s: Store, t: Store, u: Store, w: WorkerId, ws: seq<WorkerId>)
    requires t.queue == s.queue + Kept(s.jobs, Leases(s, w)) && u.queue == t.queue + Kept(t.jobs, Drained(s, ws))
    requires t.jobs.Keys == s.jobs.Keys
    ensures u.queue == s.queue + Kept(s.jobs, Leases(s, w) + Drained(s, ws))
  {
    KeptConcat(s.jobs, Leases(s, w), Drained(s, ws));
    KeptDependsOnKeys(s.jobs, t.jobs, Drained(s, ws));
    AppendAssoc(s.queue, Kept(s.jobs, Leases(s, w)), Kept(s.jobs, Drained(s, ws)));
  }

  lemma {:induction false} ReapedConcat(s: Store, t: Store, u: Store, w: WorkerId, ws: seq<WorkerId>)
    requires w !in ws && Reaped(s, t, [w]) && Reaped(t, u, ws)
    ensures Reaped(s, u, [w] + ws)
  {
    DrainedCons(s, w, ws);
    DrainedIgnoresRecords(s, t, ws);
    ReapedQueue(s, t, u, w, ws);
    ResetConcat(s.jobs, t.jobs, u.jobs, Leases(s, w), Drained(s, ws));
    assert (set v | v in [w]) == {w};
    assert (set v | v in [w] + ws) == {w} + set v | v in ws;
  }

  lemma {:induction false} ReapAllEffect(s: Store, ws: seq<WorkerId>)
    requires NoDup(ws)
    ensures Reaped(s, ReapAll(s, ws), ws)
    decreases ws
  {
    if ws == [] {
      assert s.queue + Kept(s.jobs, Drained(s, ws)) == s.queue;
    } else {
      var t := ReapOne(s, ws[0]);
      ReapOneEffect(s, ws[0]);
      ReapAllEffect(t, ws[1..]);
      ReapedConcat(s, t, ReapAll(s, ws), ws[0], ws[1..]);
      assert [ws[0]] + ws[1..] == ws;
    }
  }

  lemma {:induction false} DrainedMember(s: Store, ws: seq<WorkerId>, id: JobId)
    ensures id in Drained(s, ws) <==> exists w :: w in ws && Holds(s, w, id)
  {
    if ws != [] {
      DrainedMember(s, ws[1..], id);
      assert forall w :: w in ws <==> w == ws[0] || w in ws[1..];
      if Holds(s, ws[0], id) {
        assert ws[0] in ws;
      }
    }
  }

  predicate Dead(s: Store, ttl: int, w: WorkerId) {
    w in s.beats && s.beats[w] <= s.now - ttl
  }

  ghost predicate HeldByTheDead(s: Store, ttl: int, id: JobId) {
    exists w :: Dead(s, ttl, w) && Holds(s, w, id)
  }

  /** RUNNING becomes QUEUED, any other status stays, and so does everything else the record holds. */
  predicate HandedBackFrom(was: Record, now: Record) {
    && now.status == (if was.status == Running then Queued else was.status)
    && now.envelope == was.envelope && now.attempts == was.attempts && now.cancel == was.cancel
    && now.group == was.group && now.error == was.error && now.result == was.result
  }

  /** Reap's specification: who is reclaimed, what the queue gains, and who is left alone. */
  lemma {:induction false} ReapMeetsItsSpec(s: Store, ttl: int)
    ensures var t := Reap(s, ttl);
            && (forall w :: Dead(s, ttl, w) ==> w !in t.beats && Leases(t, w) == [])
            && (forall w :: !Dead(s, ttl, w) ==> Leases(t, w) == Leases(s, w))
            && (forall w :: !Dead(s, ttl, w) && w in s.beats ==> w in t.beats && t.beats[w] == s.beats[w])
            && t.beats.Keys <= s.beats.Keys
            && t.queue == s.queue + Kept(s.jobs, Drained(s, Expired(s, ttl)))
            && t.jobs.Keys == s.jobs.Keys
            && (forall id :: id in s.jobs && HeldByTheDead(s, ttl, id) ==> HandedBackFrom(s.jobs[id], t.jobs[id]))
            && (forall id :: id in s.jobs && !HeldByTheDead(s, ttl, id) ==> t.jobs[id] == s.jobs[id])
            && t.now == s.now && t.expires == s.expires
  {
    var ws := Expired(s, ttl);
    assert forall w :: w in ws <==> Dead(s, ttl, w);
    ReapAllEffect(s, ws);
    forall id | id in s.jobs
      ensures HeldByTheDead(s, ttl, id) <==> id in Drained(s, ws)
    {
      DrainedMember(s, ws, id);
    }
  }

  /** A reaper with the same or a longer TTL finds nothing left, at the same clock. */
  lemma {:induction false} NothingLeftToReap(s: Store, ttl: int, later: int)
    requires ttl <= later
    ensures Reap(Reap(s, ttl), later) == Reap(s, ttl)
  {
    ReapMeetsItsSpec(s, ttl);
    var t := Reap(s, ttl);
    assert forall w :: w in Expired(t, later) ==> Dead(s, ttl, w);
    assert Expired(t, later) == [];
  }
}
