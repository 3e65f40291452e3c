/** MemoryBackend: its methods on the dictionaries they update, and what each does as a function. */
module Memory {
  import opened Records

  /** `_events` holds the jobs with an unset done-event, `_cancels` whether each cancel-event is set. */
  datatype Mem = Mem(jobs: map<JobId, Record>, events: set<JobId>, cancels: map<JobId, bool>, queue: seq<JobId>)

  const EMPTY_MEM := Mem(map[], {}, map[], [])

  /** What a caller of any backend method sees. */
  datatype Reply = Done | Nothing | Got(record: Record) | Raised(error: Error) | Blocked | Skipped

  // ---- what each method does ----

  function MemEnqueue(m: Mem, id: JobId, r: Record): Mem {
    if id in m.jobs then m
    else Mem(m.jobs[id := r.(status := Queued)], m.events + {id}, m.cancels[id := false], m.queue + [id])
  }

  function MemClaim(m: Mem): (Mem, Reply) {
    if m.queue == [] then (m, Nothing)
    else
      var id, t := m.queue[0], m.(queue := m.queue[1..]);
      if id !in m.jobs then (t, Raised(KeyError))
      else
        var r := m.jobs[id].(status := Running, attempts := m.jobs[id].attempts + 1);
        (t.(jobs := m.jobs[id := r]), Got(r))
  }

  /** The record is replaced, not merged. */
  function MemSave(m: Mem, id: JobId, r: Record, done: bool): (Mem, Reply) {
    if id !in m.jobs then (m, Raised(KeyError))
    else
      var t := m.(jobs := m.jobs[id := r]);
      (if done then t.(events := t.events - {id}, cancels := t.cancels - {id}) else t, Done)
  }

  function MemRelease(m: Mem, id: JobId): (Mem, Reply) {
    if id !in m.jobs then (m, Raised(KeyError))
    else if m.jobs[id].status != Running then (m, Done)
    else (m.(jobs := m.jobs[id := m.jobs[id].(status := Queued)], queue := m.queue + [id]), Done)
  }

  function MemRequestCancel(m: Mem, id: JobId): Mem {
    if id !in m.jobs || Terminal(m.jobs[id].status) then m
    else m.(jobs := m.jobs[id := m.jobs[id].(cancel := true)],
            cancels := if id in m.cancels then m.cancels[id := true] else m.cancels)
  }

  function MemGet(m: Mem, id: JobId): Reply {
    if id in m.jobs then Got(m.jobs[id]) else Raised(KeyError)
  }

  /** Blocked while the done-event is unset. */
  function MemTake(m: Mem, id: JobId): (Mem, Reply) {
    if id in m.events then (m, Blocked)
    else
      var t := m.(cancels := m.cancels - {id});
      if id in m.jobs then (t.(jobs := m.jobs - {id}), Got(m.jobs[id])) else (t, Raised(KeyError))
  }

  class MemoryBackend {
    var jobs: map<JobId, Record>
    var events: set<JobId>
    var cancels: map<JobId, bool>
    var queue: seq<JobId>

    ghost function Snapshot(): Mem
      reads this
    {
      Mem(jobs, events, cancels, queue)
    }

    constructor ()
      ensures Snapshot() == EMPTY_MEM
    {
      jobs, events, cancels, queue := map[], {}, map[], [];
    }

    method Enqueue(id: JobId, r: Record)
      modifies this
      ensures Snapshot() == MemEnqueue(old(Snapshot()), id, r)
    {
      if id in jobs {
        return;
      }
      jobs := jobs[id := r];
      events := events + {id};
      cancels := cancels[id := false];
      jobs := jobs[id := r.(status := Queued)];
      queue := queue + [id];
      assert jobs == old(jobs)[id := r.(status := Queued)];
    }

    method Claim() returns (reply: Reply)
      modifies this
      ensures (Snapshot(), reply) == MemClaim(old(Snapshot()))
    {
      if queue == [] {
        return Nothing;
      }
      var id := queue[0];
      queue := queue[1..];
      if id !in jobs {
        return Raised(KeyError);
      }
      var r := jobs[id].(status := Running, attempts := jobs[id].attempts + 1);
      jobs := jobs[id := r];
      reply := Got(r);
    }

    method Save(id: JobId, r: Record, done: bool) returns (reply: Reply)
      modifies this
      ensures (Snapshot(), reply) == MemSave(old(Snapshot()), id, r, done)
    {
      if id !in jobs {
        return Raised(KeyError);
      }
      jobs := jobs[id := r];
      if done {
        events := events - {id};
        cancels := cancels - {id};
      }
      reply := Done;
    }

    method Release(id: JobId) returns (reply: Reply)
      modifies this
      ensures (Snapshot(), reply) == MemRelease(old(Snapshot()), id)
    {
      if id !in jobs {
        return Raised(KeyError);
      }
      if jobs[id].status == Running {
        jobs := jobs[id := jobs[id].(status := Queued)];
        queue := queue + [id];
      }
      reply := Done;
    }

    method TakeResult(id: JobId) returns (reply: Reply)
      modifies this
      ensures (Snapshot(), reply) == MemTake(old(Snapshot()), id)
    {
      if id in events {
        return Blocked;
      }
      cancels := cancels - {id};
      if id !in jobs {
        return Raised(KeyError);
      }
      reply := Got(jobs[id]);
      jobs := jobs - {id};
    }

    method RequestCancel(id: JobId)
      modifies this
      ensures Snapshot() == MemRequestCancel(old(Snapshot()), id)
    {
      if id !in jobs || Terminal(jobs[id].status) {
        return;
      }
      jobs := jobs[id := jobs[id].(cancel := true)];
      if id in cancels {
        cancels := cancels[id := true];
      }
    }
  }
}
