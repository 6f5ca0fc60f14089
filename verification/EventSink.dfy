/**
 The commit callback as the turn sees it: an append to the session's log that may fail, together with
 the turn's abort signal. Time is counted in awaits; the environment chooses which appends fail and
 when the signal aborts. A refused append usually leaves no event behind, but one can: its line may have
 landed whole, and then the log takes no other.
 */
module EventSink {
  import opened Wrappers
  import opened Schema

  datatype Trace = Trace(log: seq<Payload>, stamps: seq<nat>, ticks: nat, orphan: Option<Payload>)

  /** An orphan stays, and one that is new since `was` is no completion of a turn. */
  predicate Unclosed(was: Option<Payload>, now: Option<Payload>) {
    now == was || (was == None && !now.value.TurnCompleted?)
  }

  lemma UnclosedOn(a: Option<Payload>, b: Option<Payload>, c: Option<Payload>)
    requires Unclosed(a, b) && Unclosed(b, c)
    ensures Unclosed(a, c)
  {
  }

  /** What a refused event that landed whole adds to the log. */
  function Landed(orphan: Option<Payload>): seq<Payload> {
    if orphan.Some? then [orphan.value] else []
  }

  class Sink {
    var log: seq<Payload>
    var stamps: seq<nat>           // when each event was submitted
    var ticks: nat
    var orphan: Option<Payload>    // the refused event that landed whole
    const refuses: nat -> bool
    const orphanAt: Option<nat>    // when an event, if one is submitted then, is refused but lands whole
    const abortAt: Option<nat>

    /** The append at a time fails; after a line that nobody was told of, every append does. */
    predicate fails(time: nat) { refuses(time) || (orphanAt.Some? && orphanAt.value <= time) }

    predicate Valid()
      reads this
    {
      |stamps| == |log| && (orphan.Some? ==> orphanAt.Some? && orphanAt.value < ticks)
    }

    /** What a reader of the log finds. */
    function Persisted(): seq<Payload>
      reads this
    {
      log + Landed(orphan)
    }

    function Now(): Trace
      reads this
    {
      Trace(log, stamps, ticks, orphan)
    }

    /** Once aborted, a signal stays aborted. */
    predicate AbortedAt(time: nat) { abortAt.Some? && abortAt.value <= time }

    predicate Aborted()
      reads this
    {
      AbortedAt(ticks)
    }

    /** How many of `n` appends, made one after the other from `start` on, are stored before one is refused. */
    function Stored(start: nat, n: nat): (k: nat)
      ensures k <= n
      ensures forall t | start <= t < start + k :: !fails(t)
      ensures k < n ==> fails(start + k)
      decreases n
    {
      if n == 0 || fails(start) then 0 else 1 + Stored(start + 1, n - 1)
    }

    /** When such a chain of appends is over: after the last, or after the one that is refused. */
    function ChainEnd(start: nat, n: nat): nat {
      start + (if Stored(start, n) < n then Stored(start, n) + 1 else n)
    }

    lemma {:induction false} StoredIs(start: nat, n: nat, k: nat)
      requires k <= n && forall t | start <= t < start + k :: !fails(t)
      requires k < n ==> fails(start + k)
      ensures Stored(start, n) == k
      decreases n
    {
      if k > 0 {
        StoredIs(start + 1, n - 1, k - 1);
      }
    }

    constructor (refuses: nat -> bool, orphanAt: Option<nat>, abortAt: Option<nat>)
      ensures Valid() && log == [] && ticks == 0 && orphan == None
      ensures this.refuses == refuses && this.orphanAt == orphanAt && this.abortAt == abortAt
    {
      this.refuses, this.orphanAt, this.abortAt := refuses, orphanAt, abortAt;
      log, stamps, ticks, orphan := [], [], 0, None;
    }

    method Emit(e: Payload) returns (ok: bool)
      requires Valid()
      modifies this
      ensures Valid() && ticks == old(ticks) + 1 && ok == !fails(old(ticks))
      ensures log == old(log) + (if ok then [e] else [])
      ensures stamps == old(stamps) + (if ok then [old(ticks)] else [])
      ensures orphan == if orphanAt == Some(old(ticks)) then Some(e) else old(orphan)
      ensures ok ==> orphan == None
    {
      ok := !fails(ticks);
      if ok {
        log, stamps := log + [e], stamps + [ticks];
      } else if orphanAt == Some(ticks) {
        orphan := Some(e);
      }
      ticks := ticks + 1;
    }

    /** Any other await. */
    method Await()
      requires Valid()
      modifies `ticks
      ensures Valid() && ticks == old(ticks) + 1
    {
      ticks := ticks + 1;
    }
  }
}
