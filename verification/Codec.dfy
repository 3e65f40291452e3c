/** The record codec: a job as a record, a record as a Redis hash, and the hash as a flat reply. */
module Codec {
  import opened Records

  // ---- decimal strings: str(n) and int(s) on what str produced ----

  function Digit(d: nat): char
    requires d < 10
  {
    "0123456789"[d]
  }

  function Decimal(n: nat): (s: string)
    ensures |s| > 0
  {
    if n < 10 then [Digit(n)] else Decimal(n / 10) + [Digit(n % 10)]
  }

  function DigitValue(ch: char): Option<nat> {
    if '0' <= ch <= '9' then Some((ch as int - '0' as int) as nat) else None
  }

  /** int(s); a string that is not all digits raises ValueError. */
  function ParseDecimal(s: string): Result<nat> {
    if s == [] then Failure(ValueError)
    else
      var last := DigitValue(s[|s| - 1]);
      if last.None? then Failure(ValueError)
      else if |s| == 1 then Success(last.value)
      else
        var init := ParseDecimal(s[..|s| - 1]);
        if init.Failure? then init else Success(10 * init.value + last.value)
  }

  lemma {:induction false} DigitRoundTrip(d: nat)
    requires d < 10
    ensures DigitValue(Digit(d)) == Some(d)
  {
  }

  lemma {:induction false} DecimalRoundTrip(n: nat)
    ensures ParseDecimal(Decimal(n)) == Success(n)
  {
    DigitRoundTrip(n % 10);
    if n >= 10 {
      var s := Decimal(n);
      DecimalRoundTrip(n / 10);
      assert s[..|s| - 1] == Decimal(n / 10);
    }
  }

  lemma {:induction false} DecimalIsDigits(n: nat, i: nat)
    requires i < |Decimal(n)|
    ensures '0' <= Decimal(n)[i] <= '9'
  {
    if n >= 10 && i < |Decimal(n)| - 1 {
      DecimalIsDigits(n / 10, i);
    }
  }

  // ---- jobs ----

  /** A Python value, as far as the record codec looks into one. */
  datatype Py = PyNone | PyAtom(text: string) | PyList(items: seq<Py>) | PyDict(entries: map<string, Py>)

  datatype Job = Job(
    id: JobId,
    taskName: string,
    createdAt: nat,
    args: seq<Py>,
    kwargs: map<string, Py>,
    status: Status,
    result: Py,
    error: Option<string>,
    attempts: nat,
    requestCancel: bool,
    groupId: Option<string>)

  /** What the codec is given: the serializer, datetime's ISO form, and UTF-8. */
  datatype Tools = Tools(
    dumps: Py -> Bytes,
    loads: Bytes -> Py,
    isoformat: nat -> string,
    fromisoformat: string -> nat,
    encode: string -> Bytes,
    decode: Bytes -> string)

  ghost predicate Faithful(t: Tools) {
    && (forall v :: t.loads(t.dumps(v)) == v)
    && (forall d :: t.fromisoformat(t.isoformat(d)) == d)
    && (forall s :: t.decode(t.encode(s)) == s)
  }

  function PayloadOf(job: Job): Py {
    PyDict(map["args" := PyList(job.args), "kwargs" := PyDict(job.kwargs)])
  }

  /** `Job.to_record`, as the record it denotes. */
  function ToRecord(t: Tools, job: Job): Record {
    Record(
      Envelope(job.id, job.taskName, t.isoformat(job.createdAt), t.dumps(PayloadOf(job))),
      job.status, job.attempts, job.requestCancel, job.groupId, job.error,
      if job.status == Completed then Some(t.dumps(job.result)) else None)
  }

  // ---- records as hashes ----

  datatype Value = Text(text: string) | Blob(bytes: Bytes)

  function StatusName(st: Status): string {
    match st
    case Created => "created"
    case Queued => "queued"
    case Running => "running"
    case Completed => "completed"
    case Failed => "failed"
    case Cancelled => "cancelled"
  }

  function ParseStatus(s: string): Result<Status> {
    if s == "created" then Success(Created)
    else if s == "queued" then Success(Queued)
    else if s == "running" then Success(Running)
    else if s == "completed" then Success(Completed)
    else if s == "failed" then Success(Failed)
    else if s == "cancelled" then Success(Cancelled)
    else Failure(ValueError)
  }

  function FlagText(b: bool): string {
    if b then "1" else "0"
  }

  datatype Field =
    | IdField | TaskNameField | CreatedAtField | StatusField | AttemptsField
    | CancelField | PayloadField | GroupField | ErrorField | ResultField

  function FieldName(f: Field): string {
    match f
    case IdField => "id"
    case TaskNameField => "task_name"
    case CreatedAtField => "created_at"
    case StatusField => "status"
    case AttemptsField => "attempts"
    case CancelField => "request_cancel"
    case PayloadField => "payload"
    case GroupField => "group_id"
    case ErrorField => "error"
    case ResultField => "result"
  }

  /** What `to_record` writes under one key; None is an absent key. */
  function Lookup(r: Record, f: Field): Option<Value> {
    match f
    case IdField => Some(Text(r.envelope.id))
    case TaskNameField => Some(Text(r.envelope.taskName))
    case CreatedAtField => Some(Text(r.envelope.createdAt))
    case StatusField => Some(Text(StatusName(r.status)))
    case AttemptsField => Some(Text(Decimal(r.attempts)))
    case CancelField => Some(Text(FlagText(r.cancel)))
    case PayloadField => Some(Blob(r.envelope.payload))
    case GroupField => if r.group.None? then None else Some(Text(r.group.value))
    case ErrorField => if r.error.None? then None else Some(Text(r.error.value))
    case ResultField => if r.result.None? then None else Some(Blob(r.result.value))
  }

  /** The dict `to_record` returns; an optional field is a key only once it is populated. */
  function Fields(r: Record): map<Field, Value> {
    map f: Field | Lookup(r, f).Some? :: Lookup(r, f).value
  }

  // What each script's hash command does to the fields is what module Stores does to the record.

  /** HSET of a whole record merges fields. */
  lemma {:induction false} HsetMerges(stored: Record, update: Record)
    ensures Fields(stored) + Fields(update) == Fields(Overlay(stored, update))
  {
    forall f: Field
      ensures Lookup(Overlay(stored, update), f) == Prefer(Lookup(update, f), Lookup(stored, f))
    {
    }
  }

  /** HSET status, HSET request_cancel and HINCRBY attempts change one field each. */
  lemma {:induction false} HsetOneField(r: Record, st: Status)
    ensures Fields(r)[StatusField := Text(StatusName(st))] == Fields(r.(status := st))
    ensures Fields(r)[CancelField := Text("1")] == Fields(r.(cancel := true))
  {
  }

  lemma {:induction false} HincrbyAttempts(r: Record)
    ensures ParseDecimal(Decimal(r.attempts)) == Success(r.attempts)
    ensures Fields(r)[AttemptsField := Text(Decimal(r.attempts + 1))] == Fields(r.(attempts := r.attempts + 1))
  {
    DecimalRoundTrip(r.attempts);
  }

  // ---- the wire ----

  /** A value as the server stores it. */
  function Raw(t: Tools, v: Value): Bytes {
    match v
    case Text(s) => t.encode(s)
    case Blob(b) => b
  }

  /** `_flatten`, with redis-py's encoding of each argument. */
  function Flat(t: Tools, items: seq<(Field, Value)>): (flat: seq<Bytes>)
    ensures |flat| == 2 * |items|
  {
    if items == [] then []
    else
      var last := items[|items| - 1];
      Flat(t, items[..|items| - 1]) + [t.encode(FieldName(last.0)), Raw(t, last.1)]
  }

  method Flatten(t: Tools, items: seq<(Field, Value)>) returns (flat: seq<Bytes>)
    ensures flat == Flat(t, items)
  {
    flat := [];
    for i := 0 to |items|
      invariant flat == Flat(t, items[..i])
    {
      assert items[..i + 1][..i] == items[..i];
      flat := flat + [t.encode(FieldName(items[i].0)), Raw(t, items[i].1)];
    }
    assert items[..|items|] == items;
  }

  predicate IsBlob(name: string) {
    name == "payload" || name == "result"
  }

  /** Re-pairing an HGETALL reply and `_decode`: text keys, text values, blob values left alone. */
  function Decoded(t: Tools, flat: seq<Bytes>): map<string, Value>
    requires |flat| % 2 == 0
    decreases |flat|
  {
    if flat == [] then map[]
    else
      var n := |flat|;
      var name := t.decode(flat[n - 2]);
      var d := Decoded(t, flat[..n - 2]);
      if name == "" then d
      else d[name := if IsBlob(name) then Blob(flat[n - 1]) else Text(t.decode(flat[n - 1]))]
  }

  predicate Lists(items: seq<(Field, Value)>, f: Field) {
    exists i :: 0 <= i < |items| && items[i].0 == f
  }

  lemma {:induction false} ListsLast(items: seq<(Field, Value)>, f: Field)
    requires items != []
    ensures Lists(items, f) <==> Lists(items[..|items| - 1], f) || items[|items| - 1].0 == f
  {
    var init := items[..|items| - 1];
    if Lists(init, f) {
      var i :| 0 <= i < |init| && init[i].0 == f;
      assert items[i].0 == f;
    }
    if Lists(items, f) && items[|items| - 1].0 != f {
      var i :| 0 <= i < |items| && items[i].0 == f;
      assert init[i].0 == f;
    }
  }

  /** `items` lists every field of the record once, in some order. */
  predicate Enumerates(items: seq<(Field, Value)>, r: Record) {
    && (forall i, j :: 0 <= i < j < |items| ==> items[i].0 != items[j].0)
    && (forall i :: 0 <= i < |items| ==> Lookup(r, items[i].0) == Some(items[i].1))
    && (forall f: Field :: Lookup(r, f).Some? ==> Lists(items, f))
  }

  function FieldOf(name: string): Option<Field> {
    if name == "id" then Some(IdField)
    else if name == "task_name" then Some(TaskNameField)
    else if name == "created_at" then Some(CreatedAtField)
    else if name == "status" then Some(StatusField)
    else if name == "attempts" then Some(AttemptsField)
    else if name == "request_cancel" then Some(CancelField)
    else if name == "payload" then Some(PayloadField)
    else if name == "group_id" then Some(GroupField)
    else if name == "error" then Some(ErrorField)
    else if name == "result" then Some(ResultField)
    else None
  }

  lemma {:induction false} FieldNames(f: Field)
    ensures FieldOf(FieldName(f)) == Some(f) && FieldName(f) != ""
    ensures IsBlob(FieldName(f)) <==> f == PayloadField || f == ResultField
  {
  }

  /** The last pair of a reply decodes to its own field and value. */
  lemma {:induction false} DecodedLast(t: Tools, r: Record, items: seq<(Field, Value)>)
    requires Faithful(t) && items != []
    requires Lookup(r, items[|items| - 1].0) == Some(items[|items| - 1].1)
    ensures var last, init := items[|items| - 1], items[..|items| - 1];
            Decoded(t, Flat(t, items)) == Decoded(t, Flat(t, init))[FieldName(last.0) := last.1]
  {
    var last, init, flat := items[|items| - 1], items[..|items| - 1], Flat(t, items);
    FieldNames(last.0);
    assert flat[..|flat| - 2] == Flat(t, init);
    assert flat[|flat| - 2] == t.encode(FieldName(last.0)) && flat[|flat| - 1] == Raw(t, last.1);
  }

  /** One field of the reply, whatever order the server listed them in. */
  lemma {:induction false} DecodedField(t: Tools, r: Record, items: seq<(Field, Value)>, f: Field)
    requires Faithful(t)
    requires forall i, j :: 0 <= i < j < |items| ==> items[i].0 != items[j].0
    requires forall i :: 0 <= i < |items| ==> Lookup(r, items[i].0) == Some(items[i].1)
    ensures var d := Decoded(t, Flat(t, items));
            && (FieldName(f) in d <==> Lists(items, f))
            && (FieldName(f) in d ==> Lookup(r, f) == Some(d[FieldName(f)]))
  {
    if items != [] {
      var last, init := items[|items| - 1], items[..|items| - 1];
      DecodedLast(t, r, items);
      DecodedField(t, r, init, f);
      FieldNames(f);
      FieldNames(last.0);
      ListsLast(items, f);
    }
  }

  // ---- reading a record back ----

  function GetText(d: map<string, Value>, name: string): Result<string> {
    if name !in d then Failure(KeyError) else if d[name].Blob? then Failure(ValueError) else Success(d[name].text)
  }

  /** record.get(name): an absent key means None. */
  function FindText(d: map<string, Value>, name: string): Option<string> {
    if name in d && d[name].Text? then Some(d[name].text) else None
  }

  function FindBlob(d: map<string, Value>, name: string): Option<Bytes> {
    if name in d && d[name].Blob? then Some(d[name].bytes) else None
  }

  function LoadPayload(t: Tools, b: Option<Bytes>): Result<(seq<Py>, map<string, Py>)> {
    if b.None? then Success(([], map[]))
    else
      var v := t.loads(b.value);
      if v.PyDict? && "args" in v.entries && "kwargs" in v.entries
         && v.entries["args"].PyList? && v.entries["kwargs"].PyDict?
      then Success((v.entries["args"].items, v.entries["kwargs"].entries))
      else Failure(KeyError)
  }

  /** The three identity fields, read by direct indexing. */
  function Identity(t: Tools, d: map<string, Value>): Result<(JobId, string, nat)> {
    var id :- GetText(d, "id");
    var taskName :- GetText(d, "task_name");
    var createdAt :- GetText(d, "created_at");
    Success((id, taskName, t.fromisoformat(createdAt)))
  }

  /** int(record.get(name, 0)). */
  function Number(d: map<string, Value>, name: string): Result<nat> {
    var s := FindText(d, name);
    if s.None? then Success(0) else ParseDecimal(s.value)
  }

  /** Status, attempts and the cancel flag, which goes through int before bool. */
  function Control(d: map<string, Value>): Result<(Status, nat, bool)> {
    var name :- GetText(d, "status");
    var status :- ParseStatus(name);
    var cancel :- Number(d, "request_cancel");
    var attempts :- Number(d, "attempts");
    Success((status, attempts, cancel != 0))
  }

  function LoadResult(t: Tools, b: Option<Bytes>): Py {
    if b.None? then PyNone else t.loads(b.value)
  }

  /** `Job.from_record`. */
  function FromRecord(t: Tools, d: map<string, Value>): Result<Job> {
    var (args, kwargs) :- LoadPayload(t, FindBlob(d, "payload"));
    var result := LoadResult(t, FindBlob(d, "result"));
    var (id, taskName, createdAt) :- Identity(t, d);
    var (status, attempts, cancel) :- Control(d);
    Success(Job(id, taskName, createdAt, args, kwargs, status, result, FindText(d, "error"), attempts, cancel,
                FindText(d, "group_id")))
  }

  lemma {:induction false} StatusRoundTrip(st: Status)
    ensures ParseStatus(StatusName(st)) == Success(st)
  {
  }

  lemma {:induction false} FlagRoundTrip(b: bool)
    ensures ParseDecimal(FlagText(b)) == Success(if b then 1 else 0)
  {
  }

  lemma {:induction false} PayloadRoundTrip(t: Tools, job: Job)
    requires Faithful(t)
    ensures LoadPayload(t, Some(t.dumps(PayloadOf(job)))) == Success((job.args, job.kwargs))
  {
    assert t.loads(t.dumps(PayloadOf(job))) == PayloadOf(job);
  }

  /** A decoded dict that agrees with a record on every field. */
  ghost predicate Mirrors(d: map<string, Value>, r: Record) {
    forall f: Field :: Mirror(d, r, f)
  }

  predicate Mirror(d: map<string, Value>, r: Record, f: Field) {
    && (FieldName(f) in d <==> Lookup(r, f).Some?)
    && (FieldName(f) in d ==> Some(d[FieldName(f)]) == Lookup(r, f))
  }

  /** What survives a trip through the codec: everything, but a result only once COMPLETED. */
  function Persisted(job: Job): Job {
    if job.status == Completed then job else job.(result := PyNone)
  }

  lemma {:induction false} IdentityMirror(t: Tools, job: Job, d: map<string, Value>)
    requires Faithful(t) && Mirrors(d, ToRecord(t, job))
    ensures Identity(t, d) == Success((job.id, job.taskName, job.createdAt))
  {
    var r := ToRecord(t, job);
    assert Mirror(d, r, IdField) && Mirror(d, r, TaskNameField) && Mirror(d, r, CreatedAtField);
  }

  lemma {:induction false} ControlMirror(t: Tools, job: Job, d: map<string, Value>)
    requires Mirrors(d, ToRecord(t, job))
    ensures Control(d) == Success((job.status, job.attempts, job.requestCancel))
  {
    var r := ToRecord(t, job);
    assert Mirror(d, r, StatusField) && Mirror(d, r, AttemptsField) && Mirror(d, r, CancelField);
    StatusRoundTrip(job.status);
    FlagRoundTrip(job.requestCancel);
    DecimalRoundTrip(job.attempts);
  }

  lemma {:induction false} BlobMirror(t: Tools, job: Job, d: map<string, Value>)
    requires Mirrors(d, ToRecord(t, job))
    ensures FindBlob(d, "payload") == Some(t.dumps(PayloadOf(job)))
    ensures FindBlob(d, "result") == if job.status == Completed then Some(t.dumps(job.result)) else None
    ensures FindText(d, "error") == job.error && FindText(d, "group_id") == job.groupId
  {
    var r := ToRecord(t, job);
    assert Mirror(d, r, PayloadField) && Mirror(d, r, ResultField);
    assert Mirror(d, r, ErrorField) && Mirror(d, r, GroupField);
  }

  lemma {:induction false} FromMirror(t: Tools, job: Job, d: map<string, Value>)
    requires Faithful(t) && Mirrors(d, ToRecord(t, job))
    ensures FromRecord(t, d) == Success(Persisted(job))
  {
    IdentityMirror(t, job, d);
    ControlMirror(t, job, d);
    BlobMirror(t, job, d);
    PayloadRoundTrip(t, job);
  }

  /** to_record, flatten, HSET, HGETALL in any order, re-pair, decode, from_record. */
  lemma {:induction false} RecordRoundTrip(t: Tools, job: Job, items: seq<(Field, Value)>)
    requires Faithful(t) && Enumerates(items, ToRecord(t, job))
    ensures FromRecord(t, Decoded(t, Flat(t, items))) == Success(Persisted(job))
    ensures FromRecord(t, Decoded(t, Flat(t, items))) == Success(job) <==> job.status == Completed || job.result == PyNone
  {
    var r, d := ToRecord(t, job), Decoded(t, Flat(t, items));
    forall f: Field
      ensures Mirror(d, r, f)
    {
      DecodedField(t, r, items, f);
    }
    FromMirror(t, job, d);
  }
}
