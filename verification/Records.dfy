/** One job's stored record and the vocabulary every other module shares. */
module Records {

  datatype Option<+T> = None | Some(value: T)

  datatype Result<+T> = Success(value: T) | Failure(error: Error) {
    predicate IsFailure() {
      Failure?
    }

    function PropagateFailure<U>(): Result<U>
      requires Failure?
    {
      Failure(error)
    }

    function Extract(): T
      requires Success?
    {
      value
    }
  }

  /** The two exceptions the record codec and the backends raise. */
  datatype Error = KeyError | ValueError

  type JobId = string

  /** A backend instance id. The source draws 32 hex digits; their lexical order is numeric order. */
  datatype WorkerId = WorkerId(number: nat)

  newtype Byte = x: int | 0 <= x < 256

  type Bytes = seq<Byte>

  datatype Status = Created | Queued | Running | Completed | Failed | Cancelled

  predicate Terminal(st: Status) {
    st == Completed || st == Failed || st == Cancelled
  }

  /** The fields that no step of the protocol changes after `enqueue`. */
  datatype Envelope = Envelope(id: JobId, taskName: string, createdAt: string, payload: Bytes)

  datatype Record = Record(
    envelope: Envelope,
    status: Status,
    attempts: nat,
    cancel: bool,
    group: Option<string>,
    error: Option<string>,
    result: Option<Bytes>)

  function Prefer<T>(first: Option<T>, second: Option<T>): Option<T> {
    if first.Some? then first else second
  }

  /** HSET of every field `update` carries: an absent optional field leaves the stored one alone. */
  function Overlay(stored: Record, update: Record): Record {
    update.(
    group := Prefer(update.group, stored.group),
    error := Prefer(update.error, stored.error),
    result := Prefer(update.result, stored.result))
  }

  /** A record as `Job.to_record` writes it for a job that was just submitted. */
  predicate Fresh(r: Record) {
    r.attempts == 0 && !r.cancel && r.error.None? && r.result.None?
  }
}
