/** What the profiler writes into its streams, one record per atomic write. */
module Records {
  import opened Base

  /** A string table identifier; its width is a matter of stringtable.rs,
      which is not part of this model. */
  type StringId = nat

  datatype TimestampKind = Start | End

  /** A nanosecond offset from time-zero tagged Start or End (`Timestamp::new`;
      how raw_event.rs packs the tag into the 64-bit field is not part of
      this model). */
  datatype Timestamp = Timestamp(nanos: u64, kind: TimestampKind)

  datatype RawEvent = RawEvent(eventKind: StringId, id: StringId, threadId: u64, timestamp: Timestamp)

  /** The magic constant that opens each kind of stream. */
  datatype Magic = EventStream | StringTableData | StringTableIndex

  /** One whole `write_atomic` call. */
  datatype Record =
    | Header(magic: Magic)
    | Event(event: RawEvent)
    | StringBytes(text: string)
    | IndexEntry(entryId: StringId, offset: nat)

  /** Widths of the fixed-size records: a file header (4-byte magic and a
      32-bit version), `size_of::<RawEvent>()` (two 32-bit ids, a 64-bit
      thread id and a 64-bit timestamp) and a string index entry (a 32-bit
      id and a 32-bit address). */
  const FILE_HEADER_SIZE: nat := 8
  const RAW_EVENT_SIZE: nat := 24
  const INDEX_ENTRY_SIZE: nat := 8

  /** The length one record occupies in its stream: bytes for the
      fixed-size records, characters for a string's text. */
  function Size(r: Record): nat
  {
    match r
    case Header(_) => FILE_HEADER_SIZE
    case Event(_) => RAW_EVENT_SIZE
    case StringBytes(text) => |text|
    case IndexEntry(_, _) => INDEX_ENTRY_SIZE
  }

  /** The length of a stream holding the given records, counted as Size counts. */
  function TotalSize(rs: seq<Record>): nat
  {
    if rs == [] then 0 else Size(rs[0]) + TotalSize(rs[1..])
  }

  /** Records are laid out back to back: the length of two runs is the sum of
      their lengths. */
  lemma {:induction false} TotalSizeConcat(a: seq<Record>, b: seq<Record>)
    ensures TotalSize(a + b) == TotalSize(a) + TotalSize(b)
  {
    if a != [] {
      assert (a + b)[1..] == a[1..] + b;
      TotalSizeConcat(a[1..], b);
    } else {
      assert a + b == b;
    }
  }

  /** Appending one record grows the stream by exactly that record's size. */
  lemma TotalSizeAppend(rs: seq<Record>, r: Record)
    ensures TotalSize(rs + [r]) == TotalSize(rs) + Size(r)
  {
    TotalSizeConcat(rs, [r]);
  }

  /** An events stream: the event-stream header first, then events only. */
  predicate IsEventStream(rs: seq<Record>)
  {
    |rs| >= 1 && rs[0] == Header(EventStream) && forall i | 1 <= i < |rs| :: rs[i].Event?
  }

  /** The events of a stream, in stream order, without its header. */
  function Events(rs: seq<Record>): seq<RawEvent>
  {
    if rs == [] then []
    else (if rs[0].Event? then [rs[0].event] else []) + Events(rs[1..])
  }

  lemma {:induction false} EventsConcat(a: seq<Record>, b: seq<Record>)
    ensures Events(a + b) == Events(a) + Events(b)
  {
    if a != [] {
      assert (a + b)[1..] == a[1..] + b;
      EventsConcat(a[1..], b);
    } else {
      assert a + b == b;
    }
  }

  lemma {:induction false} AllEventsSize(rs: seq<Record>)
    requires forall i | 0 <= i < |rs| :: rs[i].Event?
    ensures TotalSize(rs) == |rs| * RAW_EVENT_SIZE
    ensures |Events(rs)| == |rs|
  {
    if rs != [] {
      AllEventsSize(rs[1..]);
    }
  }

  /** An events stream holding n events is exactly the header plus n fixed-size
      records long, so every record can be found by position alone. */
  lemma EventStreamSize(rs: seq<Record>)
    requires IsEventStream(rs)
    ensures TotalSize(rs) == FILE_HEADER_SIZE + |Events(rs)| * RAW_EVENT_SIZE
    ensures |Events(rs)| == |rs| - 1
  {
    AllEventsSize(rs[1..]);
  }
}
