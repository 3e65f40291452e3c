/** Where job ids live: the queue and the processing lists, and what each script does to that. */
module Places {
  import opened Records
  import opened Stores
  import opened Reaper

  ghost predicate Leased(s: Store, id: JobId) {
    exists w :: Holds(s, w, id)
  }

  /** No id is in two places or twice in one; the ids in some place are exactly the live jobs. */
  ghost predicate Placed(s: Store) {
    && NoDup(s.queue)
    && (forall w :: w in s.processing ==> s.processing[w] != [] && NoDup(s.processing[w]))
    && (forall w, id :: Holds(s, w, id) ==> id !in s.queue && Live(s, id))
    && (forall w, v, id :: Holds(s, w, id) && Holds(s, v, id) ==> w == v)
    && (forall id :: id in s.queue ==> Live(s, id))
    && (forall id :: Live(s, id) ==> id in s.queue || Leased(s, id))
  }

  // ---- counting occurrences ----

  function Count(l: seq<JobId>, id: JobId): nat {
    if l == [] then 0 else (if l[0] == id then 1 else 0) + Count(l[1..], id)
  }

  ghost function LeaseCount(m: map<WorkerId, seq<JobId>>, id: JobId): nat
    decreases |m|
  {
    if m == map[] then 0
    else
      var w :| w in m.Keys;
      assert (m - {w}).Keys == m.Keys - {w};
      Count(m[w], id) + LeaseCount(m - {w}, id)
  }

  /** How often `id` occurs across the queue and every processing list. */
  ghost function Occurrences(s: Store, id: JobId): nat {
    Count(s.queue, id) + LeaseCount(s.processing, id)
  }

  lemma {:induction false} CountOfDistinct(l: seq<JobId>, id: JobId)
    requires NoDup(l)
    ensures Count(l, id) == if id in l then 1 else 0
  {
    if l != [] {
      CountOfDistinct(l[1..], id);
    }
  }

  lemma {:induction false} LeaseCountOfDistinct(m: map<WorkerId, seq<JobId>>, id: JobId)
    requires forall w :: w in m ==> NoDup(m[w])
    requires forall w, v :: w in m && v in m && id in m[w] && id in m[v] ==> w == v
    ensures LeaseCount(m, id) == if exists w :: w in m && id in m[w] then 1 else 0
    decreases |m|
  {
    if m != map[] {
      var w :| w in m.Keys && LeaseCount(m, id) == Count(m[w], id) + LeaseCount(m - {w}, id);
      assert (m - {w}).Keys == m.Keys - {w};
      CountOfDistinct(m[w], id);
      LeaseCountOfDistinct(m - {w}, id);
      if id in m[w] {
        assert !exists v :: v in m - {w} && id in (m - {w})[v];
      } else if v :| v in m && id in m[v] {
        assert v in m - {w} && id in (m - {w})[v];
      }
    }
  }

  /** A live job occurs exactly once across the whole store; any other id occurs nowhere. */
  lemma {:induction false} PlacedMeansOnce(s: Store, id: JobId)
    requires Placed(s)
    ensures Occurrences(s, id) == if Live(s, id) then 1 else 0
  {
    CountOfDistinct(s.queue, id);
    forall w, v | w in s.processing && v in s.processing && id in s.processing[w] && id in s.processing[v]
      ensures w == v
    {
      assert Holds(s, w, id) && Holds(s, v, id);
    }
    LeaseCountOfDistinct(s.processing, id);
    if w :| w in s.processing && id in s.processing[w] {
      assert Holds(s, w, id);
    }
  }

  // ---- removing one lease ----

  lemma {:induction false} NoDupConcat(a: seq<JobId>, b: seq<JobId>)
    requires NoDup(a) && NoDup(b) && forall x :: x in a ==> x !in b
    ensures NoDup(a + b)
  {
    forall i, j | 0 <= i < j < |a + b|
      ensures (a + b)[i] != (a + b)[j]
    {
      assert i < |a| ==> a[i] in a;
      assert j >= |a| ==> b[j - |a|] in b;
    }
  }

  lemma {:induction false} LremOfDistinct(l: seq<JobId>, id: JobId)
    requires NoDup(l)
    ensures NoDup(Lrem(l, id))
    ensures forall x :: x in Lrem(l, id) <==> x in l && x != id
  {
    if l != [] && l[0] != id {
      var rest := Lrem(l[1..], id);
      LremOfDistinct(l[1..], id);
      NoDupConcat([l[0]], rest);
      assert forall x :: x in l <==> x == l[0] || x in l[1..];
    }
  }

  ghost predicate Listed(s: Store) {
    forall w :: w in s.processing ==> s.processing[w] != [] && NoDup(s.processing[w])
  }

  lemma {:induction false} UnleaseEffect(s: Store, w: WorkerId, id: JobId)
    requires Listed(s)
    ensures Listed(Unlease(s, w, id))
    ensures forall v, x :: Holds(Unlease(s, w, id), v, x) <==> Holds(s, v, x) && !(v == w && x == id)
    ensures Unlease(s, w, id).processing.Keys <= s.processing.Keys
  {
    LremOfDistinct(Leases(s, w), id);
  }

  // ---- scripts ----

  lemma {:induction false} EnqueuePlaced(s: Store, id: JobId, r: Record)
    requires Placed(s)
    ensures Placed(Enqueue(s, id, r).0)
  {
    var t := Enqueue(s, id, r).0;
    if id !in s.jobs {
      assert id !in s.queue;
      NoDupConcat(s.queue, [id]);
      assert forall w, x :: Holds(t, w, x) <==> Holds(s, w, x);
      assert forall x :: x in t.queue <==> x in s.queue || x == id;
      assert forall x :: Live(t, x) <==> Live(s, x) || x == id;
      assert forall x :: Leased(s, x) ==> Leased(t, x);
    }
  }

  lemma {:induction false} MovePlaced(s: Store, w: WorkerId)
    requires Placed(s) && s.queue != []
    ensures var t := Move(s, w).0;
            && Placed(t)
            && forall v, x :: Holds(t, v, x) <==> Holds(s, v, x) || (v == w && x == s.queue[0])
  {
    var id, t := s.queue[0], Move(s, w).0;
    assert id in s.queue;
    assert id in Leases(s, w) ==> Holds(s, w, id);
    NoDupConcat(Leases(s, w), [id]);
    assert t.processing[w] == Leases(s, w) + [id];
    assert forall v, x :: Holds(t, v, x) <==> Holds(s, v, x) || (v == w && x == id);
    assert forall x :: x in t.queue ==> x in s.queue;
    assert forall x :: x in s.queue ==> x in t.queue || x == id;
    assert Holds(t, w, id);
    forall x | Live(t, x)
      ensures x in t.queue || Leased(t, x)
    {
      assert Live(s, x);
      if x != id && x !in s.queue {
        var v :| Holds(s, v, x);
        assert Holds(t, v, x);
      }
    }
  }

  /** A change of records that keeps the set of live jobs keeps every place. */
  lemma {:induction false} RecordsPlaced(s: Store, t: Store)
    requires Placed(s) && t.queue == s.queue && t.processing == s.processing
    requires forall x :: Live(s, x) <==> Live(t, x)
    ensures Placed(t)
  {
    assert forall w, x :: Holds(t, w, x) <==> Holds(s, w, x);
    assert forall x :: Leased(s, x) ==> Leased(t, x);
  }

  /** Handing a held lease back to the queue, whatever happens to the record's status. */
  lemma {:induction false} HandBackPlaced(s: Store, t: Store, w: WorkerId, id: JobId)
    requires Placed(s) && Holds(s, w, id)
    requires t.queue == s.queue + [id] && t.processing == Unlease(s, w, id).processing
    requires forall x :: Live(s, x) <==> Live(t, x)
    ensures Placed(t)
    ensures forall v, x :: Holds(t, v, x) <==> Holds(s, v, x) && !(v == w && x == id)
  {
    UnleaseEffect(s, w, id);
    assert forall v, x :: Holds(t, v, x) <==> Holds(Unlease(s, w, id), v, x);
    assert forall x :: x in t.queue <==> x in s.queue || x == id;
    forall x | Live(t, x)
      ensures x in t.queue || Leased(t, x)
    {
      if x != id && x !in s.queue {
        var v :| Holds(s, v, x);
        assert Holds(t, v, x);
      }
    }
  }

  /** A terminal save by the lease holder, or of a record that is already terminal. */
  lemma {:induction false} SavePlaced(c: Config, s: Store, w: WorkerId, id: JobId, r: Record)
    requires Placed(s) && id in s.jobs && Terminal(r.status)
    requires Live(s, id) ==> Holds(s, w, id)
    ensures var t := Save(c, s, w, id, r, true).0;
            && Placed(t)
            && forall v, x :: Holds(t, v, x) <==> Holds(s, v, x) && x != id
  {
    var t := Save(c, s, w, id, r, true).0;
    UnleaseEffect(s, w, id);
    assert t.processing == Unlease(s, w, id).processing;
    assert forall v, x :: Holds(t, v, x) <==> Holds(Unlease(s, w, id), v, x);
    assert forall v :: Holds(s, v, id) ==> v == w;
    assert forall x :: Live(t, x) <==> Live(s, x) && x != id;
    forall x | Live(t, x)
      ensures x in t.queue || Leased(t, x)
    {
      if x !in s.queue {
        var v :| Holds(s, v, x);
        assert Holds(t, v, x);
      }
    }
  }

  lemma {:induction false} RemovePlaced(s: Store, t: Store, id: JobId)
    requires Placed(s) && !Live(s, id)
    requires t.queue == s.queue && t.processing == s.processing && t.jobs == s.jobs - {id}
    ensures Placed(t)
  {
    RecordsPlaced(s, t);
  }

  // ---- reap ----

  lemma {:induction false} KeptLive(jobs: map<JobId, Record>, ids: seq<JobId>)
    requires forall id :: id in ids ==> id in jobs
    ensures Kept(jobs, ids) == ids
  {
    if ids != [] {
      KeptLive(jobs, ids[1..]);
    }
  }

  lemma {:induction false} ReapOnePlaced(s: Store, w: WorkerId)
    requires Placed(s)
    ensures var t := ReapOne(s, w);
            && Placed(t)
            && t.queue == s.queue + Leases(s, w)
            && (forall v, x :: Holds(t, v, x) <==> Holds(s, v, x) && v != w)
            && (forall x :: Live(s, x) <==> Live(t, x))
  {
    var t, ids := ReapOne(s, w), Leases(s, w);
    DrainEffect(s, ids);
    assert forall x :: x in ids ==> Holds(s, w, x);
    KeptLive(s.jobs, ids);
    NoDupConcat(s.queue, ids);
    assert forall x :: Live(s, x) <==> Live(t, x);
    assert forall x :: x in t.queue <==> x in s.queue || x in ids;
    assert forall v, x :: Holds(t, v, x) <==> Holds(s, v, x) && v != w;
    forall x | Live(t, x)
      ensures x in t.queue || Leased(t, x)
    {
      if x !in s.queue {
        var v :| Holds(s, v, x);
        if v != w {
          assert Holds(t, v, x);
        }
      }
    }
  }

  lemma {:induction false} ReapAllPlaced(s: Store, ws: seq<WorkerId>)
    requires Placed(s)
    ensures var t := ReapAll(s, ws);
            && Placed(t)
            && (forall v, x :: Holds(t, v, x) <==> Holds(s, v, x) && v !in ws)
            && (forall x :: Live(s, x) <==> Live(t, x))
    decreases ws
  {
    if ws != [] {
      ReapOnePlaced(s, ws[0]);
      ReapAllPlaced(ReapOne(s, ws[0]), ws[1..]);
      assert forall v :: v in ws <==> v == ws[0] || v in ws[1..];
    }
  }
}
