/** Derived child ids, and why re-running a body does not fork its subtree. */
module Children {
  import opened Records
  import opened Stores
  import opened Codec

  // ---- the seed ----

  function Seed(parent: JobId, n: nat): string {
    parent + ":" + Decimal(n)
  }

  lemma {:induction false} SeedShape(parent: JobId, n: nat)
    ensures Seed(parent, n)[..|parent|] == parent
    ensures Seed(parent, n)[|parent|] == ':'
    ensures Seed(parent, n)[|parent| + 1..] == Decimal(n)
    ensures forall i :: |parent| < i < |Seed(parent, n)| ==> Seed(parent, n)[i] != ':'
  {
    var s := Seed(parent, n);
    forall i | |parent| < i < |s|
      ensures s[i] != ':'
    {
      DecimalIsDigits(n, i - |parent| - 1);
    }
  }

  /** "parent:ordinal" names one pair only, over all strings, colons included, and all ordinals. */
  lemma {:induction false} SeedIsInjective(p: JobId, n: nat, q: JobId, m: nat)
    requires Seed(p, n) == Seed(q, m)
    ensures p == q && n == m
  {
    SeedShape(p, n);
    SeedShape(q, m);
    assert |p| == |q|;
    DecimalRoundTrip(n);
    DecimalRoundTrip(m);
  }

  /** The hash tells apart the seeds of these parents with ordinals below `bound`; a 128-bit digest can do no more. */
  ghost predicate Separates(hash: string -> JobId, parents: set<JobId>, bound: nat) {
    forall p, n: nat, q, m: nat :: p in parents && q in parents && n < bound && m < bound ==>
                                     (hash(Seed(p, n)) == hash(Seed(q, m)) ==> Seed(p, n) == Seed(q, m))
  }

  /** `_child_id`: the digest of the seed. */
  function ChildId(hash: string -> JobId, parent: JobId, n: nat): JobId {
    hash(Seed(parent, n))
  }

  lemma {:induction false} ChildIdsAreDistinct(
    hash: string -> JobId, parents: set<JobId>, bound: nat, p: JobId, n: nat, q: JobId, m: nat)
    requires Separates(hash, parents, bound) && p in parents && q in parents && n < bound && m < bound
    ensures ChildId(hash, p, n) == ChildId(hash, q, m) <==> p == q && n == m
  {
    if ChildId(hash, p, n) == ChildId(hash, q, m) {
      SeedIsInjective(p, n, q, m);
    }
  }

  /** The identity of a running body; a re-run gets a fresh one. */
  class JobContext {
    const jobId: JobId
    var spawns: nat

    constructor (id: JobId)
      ensures jobId == id && spawns == 0
    {
      jobId, spawns := id, 0;
    }

    method NextSpawn() returns (ordinal: nat)
      modifies this
      ensures ordinal == old(spawns) && spawns == old(spawns) + 1
    {
      ordinal := spawns;
      spawns := spawns + 1;
    }
  }

  // ---- re-runs ----

  datatype Event =
    | Rerun                         // the body starts again, with a fresh JobContext
    | SpawnChild(record: Record)    // the body's next spawn
    | Elsewhere(after: Store)       // anything else the system does meanwhile

  datatype Body = Body(store: Store, ordinal: nat, created: seq<JobId>, longest: nat)

  function Begin(s: Store): Body {
    Body(s, 0, [], 0)
  }

  /** Other steps neither enqueue this parent's children nor consume or expire them. */
  ghost predicate LeavesChildrenAlone(hash: string -> JobId, parent: JobId, bound: nat, before: Store, after: Store) {
    forall n: nat :: n < bound ==> (ChildId(hash, parent, n) in before.jobs <==> ChildId(hash, parent, n) in after.jobs)
  }

  ghost predicate Allowed(hash: string -> JobId, parent: JobId, bound: nat, b: Body, ev: Event) {
    ev.Elsewhere? ==> LeavesChildrenAlone(hash, parent, bound, b.store, ev.after)
  }

  function Max(a: nat, b: nat): nat {
    if a > b then a else b
  }

  function Apply(hash: string -> JobId, parent: JobId, b: Body, ev: Event): Body {
    match ev
    case Rerun => b.(ordinal := 0)
    case SpawnChild(r) =>
      var id := ChildId(hash, parent, b.ordinal);
      var (s, isNew) := Enqueue(b.store, id, r);
      Body(s, b.ordinal + 1, if isNew then b.created + [id] else b.created, Max(b.longest, b.ordinal + 1))
    case Elsewhere(after) => b.(store := after)
  }

  ghost predicate AllowedRun(hash: string -> JobId, parent: JobId, bound: nat, b: Body, events: seq<Event>)
    decreases events
  {
    events == [] ||
    (Allowed(hash, parent, bound, b, events[0]) && AllowedRun(hash, parent, bound, Apply(hash, parent, b, events[0]), events[1..]))
  }

  function Exec(hash: string -> JobId, parent: JobId, b: Body, events: seq<Event>): Body
    decreases events
  {
    if events == [] then b else Exec(hash, parent, Apply(hash, parent, b, events[0]), events[1..])
  }

  /** The first `k` children of a body, in order. */
  function FirstChildren(hash: string -> JobId, parent: JobId, k: nat): seq<JobId> {
    seq(k, n requires n >= 0 => ChildId(hash, parent, n))
  }

  /** Of the first `bound` children, exactly the longest run's exist, and each was enqueued once, in ordinal order. */
  ghost predicate Unforked(hash: string -> JobId, parent: JobId, bound: nat, b: Body) {
    && b.ordinal <= b.longest
    && b.created == FirstChildren(hash, parent, b.longest)
    && forall n: nat :: n < bound ==> (ChildId(hash, parent, n) in b.store.jobs <==> n < b.longest)
  }

  lemma {:induction false} SpawnUnforked(hash: string -> JobId, parent: JobId, bound: nat, b: Body, r: Record)
    requires Separates(hash, {parent}, bound) && Unforked(hash, parent, bound, b) && b.ordinal < bound
    ensures Unforked(hash, parent, bound, Apply(hash, parent, b, SpawnChild(r)))
  {
    var c := Apply(hash, parent, b, SpawnChild(r));
    var id := ChildId(hash, parent, b.ordinal);
    forall n: nat | n < bound
      ensures ChildId(hash, parent, n) in c.store.jobs <==> n < c.longest
    {
      ChildIdsAreDistinct(hash, {parent}, bound, parent, n, parent, b.ordinal);
    }
    if b.ordinal == b.longest {
      assert c.created == FirstChildren(hash, parent, b.longest + 1);
    }
  }

  lemma {:induction false} LongestGrows(hash: string -> JobId, parent: JobId, b: Body, events: seq<Event>)
    ensures b.longest <= Exec(hash, parent, b, events).longest
    decreases events
  {
    if events != [] {
      LongestGrows(hash, parent, Apply(hash, parent, b, events[0]), events[1..]);
    }
  }

  /**
    Any series of non-overlapping re-runs, interleaved with anything that does not consume the children,
    enqueues exactly the children of the longest run, each once, if the hash separates that many seeds.
   */
  lemma {:induction false} RerunsDoNotFork(hash: string -> JobId, parent: JobId, bound: nat, b: Body, events: seq<Event>)
    requires Separates(hash, {parent}, bound) && Unforked(hash, parent, bound, b) && AllowedRun(hash, parent, bound, b, events)
    requires Exec(hash, parent, b, events).longest <= bound
    ensures Unforked(hash, parent, bound, Exec(hash, parent, b, events))
    decreases events
  {
    if events != [] {
      var c := Apply(hash, parent, b, events[0]);
      LongestGrows(hash, parent, c, events[1..]);
      if events[0].SpawnChild? {
        SpawnUnforked(hash, parent, bound, b, events[0].record);
      } else if events[0].Elsewhere? {
        assert LeavesChildrenAlone(hash, parent, bound, b.store, events[0].after);
      }
      RerunsDoNotFork(hash, parent, bound, c, events[1..]);
    }
  }

  // ---- what `longest` counts ----

  function Spawns(events: seq<Event>): nat {
    if events == [] then 0 else (if events[0].SpawnChild? then 1 else 0) + Spawns(events[1..])
  }

  /** The body does not start again in these events. */
  predicate OneRun(events: seq<Event>) {
    forall i :: 0 <= i < |events| ==> !events[i].Rerun?
  }

  lemma {:induction false} NoRunIsLonger(hash: string -> JobId, parent: JobId, b: Body, events: seq<Event>, i: nat, j: nat)
    requires b.ordinal <= b.longest && i <= j <= |events| && OneRun(events[i..j])
    ensures (if i == 0 then b.ordinal else 0) + Spawns(events[i..j]) <= Exec(hash, parent, b, events).longest
    decreases events
  {
    if j == 0 {
      LongestGrows(hash, parent, b, events);
    } else {
      var c := Apply(hash, parent, b, events[0]);
      var from := if i == 0 then 0 else i - 1;
      assert events[1..][from..j - 1] == events[from + 1..j];
      if i == 0 {
        assert events[0..j][0] == events[0] && events[0..j][1..] == events[1..j];
        assert forall k :: 0 <= k < |events[1..j]| ==> events[1..j][k] == events[0..j][k + 1];
      }
      NoRunIsLonger(hash, parent, c, events[1..], from, j - 1);
    }
  }

  lemma {:induction false} SomeRunIsLongest(hash: string -> JobId, parent: JobId, b: Body, events: seq<Event>) returns (i: nat, j: nat)
    requires b.ordinal <= b.longest
    ensures i <= j <= |events| && OneRun(events[i..j])
    ensures var most := Exec(hash, parent, b, events).longest;
            most == b.longest || most == (if i == 0 then b.ordinal else 0) + Spawns(events[i..j])
    decreases events
  {
    i, j := 0, 0;
    if events != [] {
      var c := Apply(hash, parent, b, events[0]);
      var m, n := SomeRunIsLongest(hash, parent, c, events[1..]);
      assert events[1..][m..n] == events[m + 1..n + 1];
      if Exec(hash, parent, b, events).longest == c.longest {
        if events[0].SpawnChild? {
          i, j := 0, 1;
          assert events[0..1] == [events[0]] && [events[0]][1..] == [];
        }
      } else if m > 0 || events[0].Rerun? {
        i, j := m + 1, n + 1;
      } else {
        i, j := 0, n + 1;
        assert events[0..n + 1] == [events[0]] + events[1..n + 1];
      }
    }
  }

  /** From the start, `longest` is the largest number of spawns between two starts of the body. */
  lemma {:induction false} LongestIsTheLongestRun(hash: string -> JobId, parent: JobId, s: Store, events: seq<Event>)
    ensures var most := Exec(hash, parent, Begin(s), events).longest;
            && (forall i, j :: 0 <= i <= j <= |events| && OneRun(events[i..j]) ==> Spawns(events[i..j]) <= most)
            && exists i, j :: 0 <= i <= j <= |events| && OneRun(events[i..j]) && Spawns(events[i..j]) == most
  {
    forall i, j | 0 <= i <= j <= |events| && OneRun(events[i..j])
      ensures Spawns(events[i..j]) <= Exec(hash, parent, Begin(s), events).longest
    {
      NoRunIsLonger(hash, parent, Begin(s), events, i, j);
    }
    var i, j := SomeRunIsLongest(hash, parent, Begin(s), events);
    if Exec(hash, parent, Begin(s), events).longest == 0 {
      assert events[0..0] == [] && OneRun(events[0..0]) && Spawns(events[0..0]) == 0;
    }
  }

  /** From a store that knows none of the parent's children, the created ids never repeat. */
  lemma {:induction false} EveryChildOnce(hash: string -> JobId, parent: JobId, bound: nat, s: Store, events: seq<Event>)
    requires Separates(hash, {parent}, bound) && AllowedRun(hash, parent, bound, Begin(s), events)
    requires Exec(hash, parent, Begin(s), events).longest <= bound
    requires forall n: nat :: n < bound ==> ChildId(hash, parent, n) !in s.jobs
    ensures var b := Exec(hash, parent, Begin(s), events);
            && b.created == FirstChildren(hash, parent, b.longest) && NoDup(b.created)
            && forall n: nat :: n < bound ==> (ChildId(hash, parent, n) in b.store.jobs <==> n < b.longest)
  {
    var b := Exec(hash, parent, Begin(s), events);
    RerunsDoNotFork(hash, parent, bound, Begin(s), events);
    forall i, j | 0 <= i < j < |b.created|
      ensures b.created[i] != b.created[j]
    {
      ChildIdsAreDistinct(hash, {parent}, bound, parent, i, parent, j);
    }
  }
}
