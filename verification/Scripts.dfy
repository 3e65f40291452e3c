/**
  The eight Lua scripts and the two plain transactions, as methods that update the shared
  structures in place. Each is proved to take the old snapshot to what module Stores specifies.
 */
module Scripts {
  import opened Records
  import opened Stores
  import opened Reaper

  lemma {:induction false} LremSkips(l: seq<JobId>, id: JobId, i: nat)
    requires i <= |l| && forall k :: 0 <= k < i ==> l[k] != id
    ensures Lrem(l, id) == l[..i] + Lrem(l[i..], id)
    decreases i
  {
    if i > 0 {
      LremSkips(l[1..], id, i - 1);
      assert l[1..][i - 1..] == l[i..];
      assert l[..i] == [l[0]] + l[1..][..i - 1];
    }
  }

  /** LREM's scan from the head for the first match. */
  method RemoveFirst(l: seq<JobId>, id: JobId) returns (rest: seq<JobId>)
    ensures rest == Lrem(l, id)
    ensures id !in l ==> rest == l
    ensures id in l ==> exists k :: 0 <= k < |l| && l[k] == id && id !in l[..k] && rest == l[..k] + l[k + 1..]
  {
    var i := 0;
    while i < |l| && l[i] != id
      invariant 0 <= i <= |l| && forall k :: 0 <= k < i ==> l[k] != id
    {
      i := i + 1;
    }
    LremSkips(l, id, i);
    rest := l[..i] + if i < |l| then l[i + 1..] else [];
  }

  ghost function DrainedCount(s: Store, ws: seq<WorkerId>): nat {
    |Drained(s, ws)|
  }

  ghost function KeptCount(s: Store, ws: seq<WorkerId>): nat {
    |Kept(s.jobs, Drained(s, ws))|
  }

  /** What the first of the remaining workers contributes to both counters. */
  lemma {:induction false} PeelWorker(s: Store, jobs: map<JobId, Record>, ws: seq<WorkerId>)
    requires ws != [] && NoDup(ws) && jobs.Keys == s.jobs.Keys
    ensures DrainedCount(s, ws) == |Leases(s, ws[0])| + DrainedCount(s, ws[1..])
    ensures KeptCount(s, ws) == |Kept(jobs, Leases(s, ws[0]))| + KeptCount(s, ws[1..])
    ensures ws[0] !in ws[1..] && NoDup(ws[1..])
  {
    KeptConcat(s.jobs, Leases(s, ws[0]), Drained(s, ws[1..]));
    KeptDependsOnKeys(s.jobs, jobs, Leases(s, ws[0]));
  }

  class Redis {
    const config: Config
    var jobs: map<JobId, Record>
    var expires: map<JobId, int>
    var queue: seq<JobId>
    var processing: map<WorkerId, seq<JobId>>
    var beats: map<WorkerId, int>
    var now: int
    var doneMessages: seq<JobId>    // PUBLISH done:{id}, in order
    var cancelMessages: seq<JobId>  // PUBLISH cancel:{id}, in order

    function Snapshot(): Store
      reads this
    {
      Store(jobs, expires, queue, processing, beats, now)
    }

    constructor (c: Config)
      ensures config == c && Snapshot() == EMPTY && doneMessages == [] && cancelMessages == []
    {
      config := c;
      jobs, expires, queue, processing, beats, now := map[], map[], [], map[], map[], 0;
      doneMessages, cancelMessages := [], [];
    }

    /** What everybody else's scripts, expiry and the clock have made of the store meanwhile. */
    method Become(s: Store)
      modifies this
      ensures Snapshot() == s
      ensures doneMessages == old(doneMessages) && cancelMessages == old(cancelMessages)
    {
      jobs, expires, queue, processing, beats, now := s.jobs, s.expires, s.queue, s.processing, s.beats, s.now;
    }

    method Lrem(w: WorkerId, id: JobId)
      modifies this`processing
      ensures Snapshot() == Unlease(old(Snapshot()), w, id)
    {
      var rest := RemoveFirst(if w in processing then processing[w] else [], id);
      processing := if rest == [] then processing - {w} else processing[w := rest];
    }

    method EnqueueScript(id: JobId, r: Record) returns (created: bool)
      modifies this
      ensures (Snapshot(), created) == Enqueue(old(Snapshot()), id, r)
      ensures doneMessages == old(doneMessages) && cancelMessages == old(cancelMessages)
    {
      if id in jobs {
        return false;
      }
      jobs := jobs[id := r.(status := Queued)];
      queue := queue + [id];
      created := true;
    }

    method Blmove(w: WorkerId) returns (id: Option<JobId>)
      modifies this
      ensures (Snapshot(), id) == Move(old(Snapshot()), w)
      ensures doneMessages == old(doneMessages) && cancelMessages == old(cancelMessages)
    {
      if queue == [] {
        return None;
      }
      id := Some(queue[0]);
      processing := processing[w := (if w in processing then processing[w] else []) + [queue[0]]];
      queue := queue[1..];
    }

    method ClaimScript(id: JobId) returns (r: Option<Record>)
      modifies this`jobs
      ensures (Snapshot(), r) == Claim(old(Snapshot()), id)
    {
      if id !in jobs {
        return None;
      }
      jobs := jobs[id := jobs[id].(status := Running)];
      jobs := jobs[id := jobs[id].(attempts := jobs[id].attempts + 1)];
      r := Some(jobs[id]);
      assert jobs == old(jobs)[id := jobs[id]];
    }

    method RequeueTransaction(w: WorkerId, id: JobId)
      modifies this
      ensures Snapshot() == Requeue(old(Snapshot()), w, id)
      ensures doneMessages == old(doneMessages) && cancelMessages == old(cancelMessages)
    {
      Lrem(w, id);
      queue := queue + [id];
    }

    method SaveScript(w: WorkerId, id: JobId, r: Record, done: bool) returns (saved: bool)
      modifies this
      ensures (Snapshot(), saved) == Save(config, old(Snapshot()), w, id, r, done)
      ensures doneMessages == old(doneMessages) + (if saved && done then [id] else [])
      ensures cancelMessages == old(cancelMessages)
    {
      if id !in jobs {
        return false;
      }
      jobs := jobs[id := Overlay(jobs[id], r)];
      if done {
        Lrem(w, id);
        expires := expires[id := now + config.resultTtl];
        doneMessages := doneMessages + [id];
      }
      saved := true;
    }

    method ReleaseScript(w: WorkerId, id: JobId) returns (reply: ReleaseReply)
      modifies this
      ensures (Snapshot(), reply) == Release(old(Snapshot()), w, id)
      ensures doneMessages == old(doneMessages) && cancelMessages == old(cancelMessages)
    {
      if id !in jobs {
        return Missing;
      }
      if jobs[id].status != Running {
        return Ignored;
      }
      jobs := jobs[id := jobs[id].(status := Queued)];
      Lrem(w, id);
      queue := queue + [id];
      reply := Released;
    }

    method RequestCancelScript(id: JobId) returns (flagged: bool)
      modifies this
      ensures (Snapshot(), flagged) == RequestCancel(old(Snapshot()), id)
      ensures cancelMessages == old(cancelMessages) + (if flagged then [id] else [])
      ensures doneMessages == old(doneMessages)
    {
      if id !in jobs || Terminal(jobs[id].status) {
        return false;
      }
      jobs := jobs[id := jobs[id].(cancel := true)];
      cancelMessages := cancelMessages + [id];
      flagged := true;
    }

    method HeartbeatScript(w: WorkerId)
      modifies this`beats
      ensures Snapshot() == Heartbeat(old(Snapshot()), w)
    {
      beats := beats[w := now];
    }

    method DeregisterScript(w: WorkerId) returns (withdrawn: bool)
      modifies this`beats
      ensures (Snapshot(), withdrawn) == Deregister(old(Snapshot()), w)
    {
      if w in processing && |processing[w]| > 0 {
        return false;
      }
      withdrawn := w in beats;
      beats := beats - {w};
    }

    method TakeTransaction(id: JobId) returns (r: Option<Record>)
      modifies this
      ensures (Snapshot(), r) == Take(old(Snapshot()), id)
      ensures doneMessages == old(doneMessages) && cancelMessages == old(cancelMessages)
    {
      r := if id in jobs then Some(jobs[id]) else None;
      if id in jobs {
        jobs := jobs - {id};
        expires := expires - {id};
      }
    }

    /** LPOP processing:{w}; a list key is gone once its list is empty. */
    method Lpop(w: WorkerId) returns (id: Option<JobId>)
      modifies this`processing
      ensures var l := old(Leases(Snapshot(), w));
              && id == (if l == [] then None else Some(l[0]))
              && processing == Put(old(processing), w, if l == [] then [] else l[1..])
    {
      if w !in processing || processing[w] == [] {
        processing := processing - {w};
        return None;
      }
      id := Some(processing[w][0]);
      var rest := processing[w][1..];
      processing := if rest == [] then processing - {w} else processing[w := rest];
    }

    /** One popped id: requeue it if its record exists, resetting a RUNNING status on the way. */
    method RequeueIfKnown(id: JobId) returns (known: bool)
      modifies this`jobs, this`queue
      ensures Snapshot() == Reclaim(old(Snapshot()), id)
      ensures known == (id in old(jobs)) && jobs.Keys == old(jobs).Keys
    {
      known := id in jobs;
      if known {
        if jobs[id].status == Running {
          jobs := jobs[id := jobs[id].(status := Queued)];
        }
        queue := queue + [id];
        assert jobs == old(jobs)[id := Requeued(old(jobs)[id])];
      }
    }

    /** The reaper's inner loop: empty one processing list onto the queue, counting both ways. */
    method DrainWorker(w: WorkerId) returns (reclaimed: nat, dropped: nat)
      modifies this`jobs, this`queue, this`processing
      ensures Snapshot() == Drain(old(Snapshot()), old(Leases(Snapshot(), w))).(processing := old(processing) - {w})
      ensures reclaimed == |Kept(old(jobs), old(Leases(Snapshot(), w)))|
      ensures reclaimed + dropped == |old(Leases(Snapshot(), w))|
    {
      reclaimed, dropped := 0, 0;
      ghost var all := Leases(Snapshot(), w);
      ghost var rest := all;
      ghost var was := processing;
      while true
        invariant Leases(Snapshot(), w) == rest && processing - {w} == was - {w}
        invariant jobs.Keys == old(jobs).Keys
        invariant Drain(Snapshot().(processing := was), rest) == Drain(old(Snapshot()), all)
        invariant reclaimed + |Kept(old(jobs), rest)| == |Kept(old(jobs), all)|
        invariant reclaimed + dropped + |rest| == |all|
        decreases |rest|
      {
        var popped := Lpop(w);
        if popped.None? {
          break;
        }
        var known := RequeueIfKnown(popped.value);
        if known {
          reclaimed := reclaimed + 1;
        } else {
          dropped := dropped + 1;
        }
        rest := rest[1..];
      }
      DrainEffect(old(Snapshot()), all);
      assert processing == was - {w};
    }

    /** One turn of the reaper's outer loop: drain the list, then ZREM its owner. */
    method ReapWorker(w: WorkerId) returns (reclaimed: nat, dropped: nat)
      modifies this`jobs, this`queue, this`processing, this`beats
      ensures Snapshot() == ReapOne(old(Snapshot()), w)
      ensures jobs.Keys == old(jobs).Keys
      ensures forall v :: v != w ==> Leases(Snapshot(), v) == old(Leases(Snapshot(), v))
      ensures reclaimed == |Kept(old(jobs), old(Leases(Snapshot(), w)))|
      ensures reclaimed + dropped == |old(Leases(Snapshot(), w))|
    {
      DrainEffect(Snapshot(), Leases(Snapshot(), w));
      reclaimed, dropped := DrainWorker(w);
      beats := beats - {w};
    }

    /** The outer loop, over the workers ZRANGE returned. */
    method ReapEach(expired: seq<WorkerId>) returns (reclaimed: nat, dropped: nat)
      requires NoDup(expired)
      modifies this`jobs, this`queue, this`processing, this`beats
      ensures Snapshot() == ReapAll(old(Snapshot()), expired)
      ensures reclaimed == KeptCount(old(Snapshot()), expired)
      ensures reclaimed + dropped == DrainedCount(old(Snapshot()), expired)
    {
      reclaimed, dropped := 0, 0;
      ghost var start := Snapshot();
      var rest := expired;
      while rest != []
        invariant NoDup(rest) && jobs.Keys == start.jobs.Keys
        invariant ReapAll(Snapshot(), rest) == ReapAll(start, expired)
        invariant forall w :: w in rest ==> Leases(Snapshot(), w) == Leases(start, w)
        invariant reclaimed + KeptCount(start, rest) == KeptCount(start, expired)
        invariant reclaimed + dropped + DrainedCount(start, rest) == DrainedCount(start, expired)
        decreases |rest|
      {
        PeelWorker(start, jobs, rest);
        var r, d := ReapWorker(rest[0]);
        reclaimed, dropped := reclaimed + r, dropped + d;
        rest := rest[1..];
      }
    }

    /** `reclaimed` counts the ids requeued and `dropped` those without a record: together, every lease drained. */
    method ReapScript() returns (reclaimed: nat, dropped: nat)
      modifies this`jobs, this`queue, this`processing, this`beats
      ensures Snapshot() == Reap(old(Snapshot()), config.workerTtl)
      ensures reclaimed == KeptCount(old(Snapshot()), Expired(old(Snapshot()), config.workerTtl))
      ensures reclaimed + dropped == DrainedCount(old(Snapshot()), Expired(old(Snapshot()), config.workerTtl))
    {
      var expired := Expired(Snapshot(), config.workerTtl);
      reclaimed, dropped := ReapEach(expired);
    }
  }
}
