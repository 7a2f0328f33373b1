/**
 The append-only event log (include/EventLog.h). A `LogFile` is the mapped file, which
 outlives the process; an `EventLog` is one process's handle on it. `LogProtocol`
 takes `append` apart into its stores.
 */
module EventLogs {
  import opened OrderEvents
  import opened Wrappers

  const LOG_MAGIC: nat := 0xBAADF00D1337CAFE
  const MAX_EVENTS: nat := 10_000_000

  const BLANK_NAME: Name := NameBuffer("\0\0\0\0\0\0\0\0")

  /** 64 zero bytes; no enumerator is zero, so kind and side stand for nothing here. */
  const BLANK_EVENT: OrderEvent := OrderEvent(0, 0, 0, 0, 0, 0, BLANK_NAME, BLANK_NAME, NewOrder, Buy)

  function Stamped(e: OrderEvent, sequence: nat, now: nat): (stamped: OrderEvent) {
    e.(sequence := sequence, timestampNs := now)
  }

  /** The event without what `append` stamps on it. */
  function Unstamped(e: OrderEvent): (bare: OrderEvent) {
    e.(sequence := 0, timestampNs := 0)
  }

  function AllUnstamped(es: seq<OrderEvent>): (us: seq<OrderEvent>)
    ensures |us| == |es|
    ensures forall i :: 0 <= i < |es| ==> us[i] == Unstamped(es[i])
  {
    seq(|es|, i requires 0 <= i < |es| => Unstamped(es[i]))
  }

  class LogFile {
    var magic: nat
    var nextSequence: nat
    const events: array<OrderEvent>

    /** A file just created and extended: all zeros. */
    constructor ()
      ensures magic == 0 && nextSequence == 0
      ensures events.Length == MAX_EVENTS && fresh(events)
    {
      magic, nextSequence := 0, 0;
      events := new OrderEvent[MAX_EVENTS](i => BLANK_EVENT);
    }

    /** The events that recovery from this file would replay. */
    ghost function Durable(): (es: seq<OrderEvent>)
      reads this, events
    {
      if nextSequence <= events.Length then events[..nextSequence] else []
    }

    /** Of full size and with a header within it, as every file the program wrote is. */
    predicate Intact()
      reads this
    {
      events.Length == MAX_EVENTS && nextSequence <= MAX_EVENTS
    }
  }

  class EventLog {
    const file: LogFile
    var nextSeq: nat

    ghost predicate Valid()
      reads this, file
    {
      && file.events.Length == MAX_EVENTS
      && file.magic == LOG_MAGIC
      && file.nextSequence == nextSeq <= MAX_EVENTS
    }

    ghost function Contents(): (contents: seq<OrderEvent>)
      reads this, file, file.events
      requires Valid()
    {
      file.events[..nextSeq]
    }

    /** The handle once the file is mapped and its magic number is right. */
    constructor (file: LogFile)
      ensures this.file == file && nextSeq == file.nextSequence
    {
      this.file := file;
      nextSeq := file.nextSequence;
    }

    /** `open_or_create`: a missing file is created, a file with another magic number is
        refused, and any other file is resumed where its header says. Neither the header nor
        the size of the file is checked, so the log is usable exactly when the file is intact. */
    static method Open(existing: LogFile?) returns (log: EventLog?)
      ensures log == null <==> existing != null && existing.magic != LOG_MAGIC
      ensures log != null ==> fresh(log)
      ensures log != null && existing == null ==>
                log.Valid() && log.Contents() == [] && fresh(log.file) && fresh(log.file.events)
      ensures log != null && existing != null ==>
                && log.file == existing && log.nextSeq == existing.nextSequence
                && (log.Valid() <==> existing.Intact())
                && (log.Valid() ==> log.Contents() == existing.Durable())
    {
      if existing == null {
        var file := new LogFile();
        file.magic, file.nextSequence := LOG_MAGIC, 0;
        log := new EventLog(file);
      } else if existing.magic != LOG_MAGIC {
        log := null;
      } else {
        log := new EventLog(existing);
      }
    }

    /** Appends a stamped copy of e; None is the overflow error of a full log. */
    method Append(e: OrderEvent, now: nat) returns (r: Option<nat>)
      requires Valid()
      modifies this, file, file.events
      ensures Valid()
      ensures r == if |old(Contents())| < MAX_EVENTS then Some(|old(Contents())|) else None
      ensures Contents() == if r.Some? then old(Contents()) + [Stamped(e, r.value, now)] else old(Contents())
      ensures file.Durable() == Contents()
    {
      var sequence := nextSeq;
      if sequence >= MAX_EVENTS {
        return None;
      }
      file.events[sequence] := Stamped(e, sequence, now);
      nextSeq := sequence + 1;
      file.nextSequence := sequence + 1;
      return Some(sequence);
    }

    method Read(sequence: nat) returns (r: Option<OrderEvent>)
      requires Valid()
      ensures r == if sequence < |Contents()| then Some(Contents()[sequence]) else None
    {
      if sequence >= nextSeq {
        return None;
      }
      return Some(file.events[sequence]);
    }
  }

  /** Sequence numbers without gaps, from 0. */
  ghost predicate Sequenced(es: seq<OrderEvent>) {
    forall i :: 0 <= i < |es| ==> es[i].sequence == i
  }
}
