/**
  The shared Redis structures and what each atomic script does to them, as functions.
  The imperative scripts in module Scripts are proved against these functions, and every
  protocol theorem is about them.
 */
module Stores {
  import opened Records

  datatype Config = Config(workerTtl: int, resultTtl: int)

  /** Both time-to-live settings must be positive, or construction raises ValueError. */
  predicate ValidConfig(c: Config) {
    c.workerTtl > 0 && c.resultTtl > 0
  }

  datatype Store = Store(
    jobs: map<JobId, Record>,             // jobs:{id}
    expires: map<JobId, int>,             // EXPIRE deadlines
    queue: seq<JobId>,                    // queue
    processing: map<WorkerId, seq<JobId>>, // processing:{worker}; an empty list has no key
    beats: map<WorkerId, int>,            // workers
    now: int)                             // TIME, whole seconds

  const EMPTY := Store(map[], map[], [], map[], map[], 0)

  // ---- lists ----

  predicate NoDup<T(==)>(l: seq<T>) {
    forall i, j :: 0 <= i < j < |l| ==> l[i] != l[j]
  }

  /** LREM key 1 id: drop the first occurrence. */
  function Lrem(l: seq<JobId>, id: JobId): seq<JobId> {
    if l == [] then []
    else if l[0] == id then l[1..]
    else [l[0]] + Lrem(l[1..], id)
  }

  function Leases(s: Store, w: WorkerId): seq<JobId> {
    if w in s.processing then s.processing[w] else []
  }

  /** Store a list back; Redis deletes a list key once it is empty. */
  function Put(m: map<WorkerId, seq<JobId>>, w: WorkerId, l: seq<JobId>): map<WorkerId, seq<JobId>> {
    if l == [] then m - {w} else m[w := l]
  }

  function Unlease(s: Store, w: WorkerId, id: JobId): Store {
    s.(processing := Put(s.processing, w, Lrem(Leases(s, w), id)))
  }

  predicate Live(s: Store, id: JobId) {
    id in s.jobs && !Terminal(s.jobs[id].status)
  }

  predicate Holds(s: Store, w: WorkerId, id: JobId) {
    w in s.processing && id in s.processing[w]
  }

  // ---- scripts ----

  function Enqueue(s: Store, id: JobId, r: Record): (Store, bool) {
    if id in s.jobs then (s, false)
    else (s.(jobs := s.jobs[id := r.(status := Queued)], queue := s.queue + [id]), true)
  }

  /** BLMOVE queue processing:{w} LEFT RIGHT; None is the one-second timeout on an empty queue. */
  function Move(s: Store, w: WorkerId): (Store, Option<JobId>) {
    if s.queue == [] then (s, None)
    else (s.(queue := s.queue[1..], processing := s.processing[w := Leases(s, w) + [s.queue[0]]]),
          Some(s.queue[0]))
  }

  function Claim(s: Store, id: JobId): (Store, Option<Record>) {
    if id !in s.jobs then (s, None)
    else
      var r := s.jobs[id].(status := Running, attempts := s.jobs[id].attempts + 1);
      (s.(jobs := s.jobs[id := r]), Some(r))
  }

  /** The MULTI `claim` sends when its script raised: LREM then an unconditional RPUSH. */
  function Requeue(s: Store, w: WorkerId, id: JobId): Store {
    var t := Unlease(s, w, id);
    t.(queue := t.queue + [id])
  }

  function Save(c: Config, s: Store, w: WorkerId, id: JobId, r: Record, done: bool): (Store, bool) {
    if id !in s.jobs then (s, false)
    else
      var t := s.(jobs := s.jobs[id := Overlay(s.jobs[id], r)]);
      (if done then Unlease(t, w, id).(expires := t.expires[id := t.now + c.resultTtl]) else t, true)
  }

  datatype ReleaseReply = Missing | Ignored | Released

  function Release(s: Store, w: WorkerId, id: JobId): (Store, ReleaseReply) {
    if id !in s.jobs then (s, Missing)
    else if s.jobs[id].status != Running then (s, Ignored)
    else
      var t := Unlease(s, w, id);
      (t.(jobs := t.jobs[id := t.jobs[id].(status := Queued)], queue := t.queue + [id]), Released)
  }

  function RequestCancel(s: Store, id: JobId): (Store, bool) {
    if !Live(s, id) then (s, false)
    else (s.(jobs := s.jobs[id := s.jobs[id].(cancel := true)]), true)
  }

  function Heartbeat(s: Store, w: WorkerId): Store {
    s.(beats := s.beats[w := s.now])
  }

  /** ZREM reports how many members it removed, so an unknown worker also answers false. */
  function Deregister(s: Store, w: WorkerId): (Store, bool) {
    if Leases(s, w) != [] then (s, false)
    else (s.(beats := s.beats - {w}), w in s.beats)
  }

  /** HGETALL and DEL in one MULTI: the second half of `take_result`. */
  function Take(s: Store, id: JobId): (Store, Option<Record>) {
    if id !in s.jobs then (s, None)
    else (s.(jobs := s.jobs - {id}, expires := s.expires - {id}), Some(s.jobs[id]))
  }

  // ---- the reaper ----

  predicate Before(beats: map<WorkerId, int>, a: WorkerId, b: WorkerId)
    requires a in beats && b in beats
  {
    beats[a] < beats[b] || (beats[a] == beats[b] && a.number <= b.number)
  }

  predicate IsFirst(beats: map<WorkerId, int>, w: WorkerId) {
    w in beats && forall v :: v in beats ==> Before(beats, w, v)
  }

  lemma {:induction false} FirstExists(beats: map<WorkerId, int>)
    requires beats != map[]
    ensures exists w :: IsFirst(beats, w)
    decreases |beats|
  {
    var x :| x in beats.Keys;
    var rest := beats - {x};
    if rest == map[] {
      assert forall v :: v in beats && v != x ==> v in rest;
      assert IsFirst(beats, x);
    } else {
      assert rest.Keys == beats.Keys - {x};
      FirstExists(rest);
      var w :| IsFirst(rest, w);
      assert forall v :: v in beats && v != x ==> v in rest;
      if Before(beats, x, w) {
        assert IsFirst(beats, x);
      } else {
        assert IsFirst(beats, w);
      }
    }
  }

  function First(beats: map<WorkerId, int>): (w: WorkerId)
    requires beats != map[]
    ensures IsFirst(beats, w)
  {
    FirstExists(beats);
    var w :| IsFirst(beats, w);
    w
  }

  /** The sorted-set order Redis keeps: by score, ties by member. */
  function ByScore(beats: map<WorkerId, int>): (ws: seq<WorkerId>)
    ensures NoDup(ws)
    ensures forall w :: w in ws <==> w in beats
    ensures forall i, j :: 0 <= i < j < |ws| ==> Before(beats, ws[i], ws[j])
    decreases |beats|
  {
    if beats == map[] then []
    else
      var w := First(beats);
      var rest := ByScore(beats - {w});
      assert (beats - {w}).Keys == beats.Keys - {w};
      assert forall i :: 0 <= i < |rest| ==> rest[i] in rest;
      [w] + rest
  }

  function UpTo(beats: map<WorkerId, int>, cutoff: int): map<WorkerId, int> {
    map w | w in beats && beats[w] <= cutoff :: beats[w]
  }

  /** ZRANGE workers -inf (now - ttl) BYSCORE. */
  function Expired(s: Store, ttl: int): (ws: seq<WorkerId>)
    ensures NoDup(ws)
    ensures forall w :: w in ws <==> w in s.beats && s.beats[w] <= s.now - ttl
  {
    ByScore(UpTo(s.beats, s.now - ttl))
  }

  function Requeued(r: Record): Record {
    if r.status == Running then r.(status := Queued) else r
  }

  /** One LPOPped id: requeue it if its record exists, whatever its status. */
  function Reclaim(s: Store, id: JobId): Store {
    if id in s.jobs then s.(jobs := s.jobs[id := Requeued(s.jobs[id])], queue := s.queue + [id]) else s
  }

  function Drain(s: Store, ids: seq<JobId>): Store
    decreases ids
  {
    if ids == [] then s else Drain(Reclaim(s, ids[0]), ids[1..])
  }

  function ReapOne(s: Store, w: WorkerId): Store {
    var t := Drain(s, Leases(s, w));
    t.(processing := t.processing - {w}, beats := t.beats - {w})
  }

  function ReapAll(s: Store, ws: seq<WorkerId>): Store
    decreases ws
  {
    if ws == [] then s else ReapAll(ReapOne(s, ws[0]), ws[1..])
  }

  function Reap(s: Store, ttl: int): Store {
    ReapAll(s, Expired(s, ttl))
  }

  /** The ids of `ids` that still have a record, in order. */
  function Kept(jobs: map<JobId, Record>, ids: seq<JobId>): seq<JobId> {
    if ids == [] then []
    else (if ids[0] in jobs then [ids[0]] else []) + Kept(jobs, ids[1..])
  }

  /** Every lease of `ws`, worker by worker. */
  function Drained(s: Store, ws: seq<WorkerId>): seq<JobId> {
    if ws == [] then [] else Leases(s, ws[0]) + Drained(s, ws[1..])
  }
}
