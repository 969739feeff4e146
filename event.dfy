/**
 * The run outcome handed from the watcher to the reporter (`ExecutorEvent`),
 * the per-step record (`StepData`), and the bounded outcome queue that
 * `make_channel` creates.
 *
 * Time is a count of nanoseconds: an `Instant` is a reading of a monotonic
 * clock, a `Duration` a difference of two readings.
 */
module Events {
  import opened Wrappers

  type Instant = nat
  type Duration = nat

  const NanosPerMilli: nat := 1_000_000
  const NanosPerSec: nat := 1_000_000_000

  /** `Duration::as_millis`: whole milliseconds, the rest dropped. */
  function AsMillis(d: Duration): nat {
    d / NanosPerMilli
  }

  /** `Duration::as_secs`: whole seconds, the rest dropped. */
  function AsSecs(d: Duration): nat {
    d / NanosPerSec
  }

  /** One step of a run: which command it is, when it started and stopped, and whether it passed. */
  datatype StepData = StepData(status: bool, startAt: Instant, stopAt: Instant, name: string)
  {
    /**
     * `stop_at - start_at`. Subtracting a later `Instant` from an earlier one
     * saturates at zero, so a step's length is never negative.
     */
    function GetDuration(): (d: Duration)
      ensures startAt <= stopAt ==> startAt + d == stopAt
      ensures stopAt <= startAt ==> d == 0
    {
      if startAt <= stopAt then stopAt - startAt else 0
    }
  }

  /** A finalised run: its run id and the steps it executed, either all passed or cut short by a failure. */
  datatype ExecutorEvent =
    | Success(id: nat, steps: seq<StepData>)
    | Fail(id: nat, steps: seq<StepData>)

  /** The capacity `make_channel` gives the outcome queue. */
  const ChannelCapacity: nat := 16

  /**
   * The sending and receiving ends of the outcome queue as one FIFO of at
   * most `ChannelCapacity` undelivered outcomes.
   */
  class Channel {
    var queue: seq<ExecutorEvent>

    ghost predicate Valid()
      reads this
    {
      |queue| <= ChannelCapacity
    }

    constructor ()
      ensures Valid() && queue == []
    {
      queue := [];
    }

    /** `Sender::try_send`: refuses, leaving the queue as it was, when the queue is full. */
    method TrySend(e: ExecutorEvent) returns (ok: bool)
      requires Valid()
      modifies this
      ensures Valid()
      ensures ok <==> |old(queue)| < ChannelCapacity
      ensures queue == if ok then old(queue) + [e] else old(queue)
    {
      ok := |queue| < ChannelCapacity;
      if ok {
        queue := queue + [e];
      }
    }

    /** Takes the oldest undelivered outcome, or reports that there is none. */
    method Recv() returns (r: Option<ExecutorEvent>)
      requires Valid()
      modifies this
      ensures Valid()
      ensures old(queue) == [] ==> r == None && queue == []
      ensures old(queue) != [] ==> r == Some(old(queue)[0]) && queue == old(queue)[1..]
    {
      if queue == [] {
        r := None;
      } else {
        r := Some(queue[0]);
        queue := queue[1..];
      }
    }
  }
}
