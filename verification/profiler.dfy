/** The write-path orchestrator of profiler.rs: a `Profiler` owns one events
    sink and one string table, and `TimingGuard` pairs each interval's Start
    with its End. */
module Profiling {
  import opened Base
  import opened Paths
  import opened Clock
  import opened Records
  import opened Sinks
  import opened StringTables
  import opened Intervals

  class Profiler {
    const eventSink: Sink
    const stringTable: StringTable
    /** Time-zero: the monotonic clock's reading when the session began. */
    const startTime: Instant
    /** The latest clock reading used so far; the monotonic clock never reads
        earlier than this. */
    ghost var lastReading: Instant
    /** The stream positions of the Start records whose guard has not been
        released yet: each Start gets exactly one End. */
    ghost var openStarts: set<nat>

    /** The events sink is separate from the string table's two sinks, the
        string table is consistent, and the events stream is its header
        followed by events only. */
    ghost predicate Valid()
      reads this, eventSink, stringTable, stringTable.dataSink, stringTable.indexSink
    {
      && eventSink != stringTable.dataSink
      && eventSink != stringTable.indexSink
      && stringTable.Valid()
      && IsEventStream(eventSink.records)
      && NotLater(startTime, lastReading)
      && (TotalNanos(lastReading) - TotalNanos(startTime) < U64_MODULUS ==> TimestampsOrdered(eventSink.records, lastReading))
      && (forall s | s in openStarts ::
            1 <= s < |eventSink.records| && eventSink.records[s].event.timestamp.kind == Start)
    }

    /** While no reading has passed 2^64 ns after time-zero, the timestamps
        in the events stream never decrease in stream order (so in
        particular never on one thread), and none is later than the latest
        reading. */
    ghost predicate TimestampsOrdered(rs: seq<Record>, latest: Instant)
      requires IsEventStream(rs) && NotLater(startTime, latest)
      reads this
    {
      && (forall i | 1 <= i < |rs| :: rs[i].event.timestamp.nanos <= NanosSinceStart(Elapsed(startTime, latest)))
      && (forall i, j | 1 <= i < j < |rs| :: rs[i].event.timestamp.nanos <= rs[j].event.timestamp.nanos)
    }

    constructor (eventSink: Sink, stringTable: StringTable, startTime: Instant)
      ensures this.eventSink == eventSink && this.stringTable == stringTable && this.startTime == startTime
      ensures lastReading == startTime && openStarts == {}
    {
      this.eventSink := eventSink;
      this.stringTable := stringTable;
      this.startTime := startTime;
      this.lastReading := startTime;
      this.openStarts := {};
    }

    /** `Profiler::new`. Creates the events sink and writes its header before
        anything else, then the two string table sinks, and stops with an
        I/O error at the first sink that cannot be created. On success
        time-zero is the clock reading `now`, and the string table holds
        exactly one allocation, the session metadata (whose payload, built
        from the command line, the process id and the wall clock, is a
        parameter here). */
    static method New(pathStem: PathBuf, fs: FileSystem, now: Instant, metadata: string)
      returns (r: Result<Profiler, IoError>)
      modifies fs
      ensures var files := ProfilerFiles.New(pathStem);
        if files.eventsFile in fs.failing then
          r == Err(CannotCreate(files.eventsFile)) && fs.created == old(fs.created)
        else if files.stringDataFile in fs.failing then
          r == Err(CannotCreate(files.stringDataFile)) && fs.created == old(fs.created) + [files.eventsFile]
        else if files.stringIndexFile in fs.failing then
          && r == Err(CannotCreate(files.stringIndexFile))
          && fs.created == old(fs.created) + [files.eventsFile, files.stringDataFile]
        else
          && r.Ok?
          && fs.created == old(fs.created) + [files.eventsFile, files.stringDataFile, files.stringIndexFile]
          && fresh(r.value) && fresh(r.value.eventSink) && fresh(r.value.stringTable)
          && fresh(r.value.stringTable.dataSink) && fresh(r.value.stringTable.indexSink)
          && r.value.Valid()
          && r.value.eventSink.path == files.eventsFile
          && r.value.stringTable.dataSink.path == files.stringDataFile
          && r.value.stringTable.indexSink.path == files.stringIndexFile
          && r.value.startTime == now && r.value.lastReading == now && r.value.openStarts == {}
          && r.value.eventSink.records == [Header(EventStream)]
          && r.value.stringTable.entries == [(METADATA_STRING_ID, metadata)]
          && r.value.stringTable.nextId == FIRST_REGULAR_STRING_ID
    {
      var paths := ProfilerFiles.New(pathStem);
      var events := fs.FromPath(paths.eventsFile);
      if events.Err? {
        return Err(events.error);
      }
      var eventSink := events.value;
      WriteFileHeader(eventSink, EventStream);
      var data := fs.FromPath(paths.stringDataFile);
      if data.Err? {
        return Err(data.error);
      }
      var index := fs.FromPath(paths.stringIndexFile);
      if index.Err? {
        return Err(index.error);
      }
      var stringTable := new StringTable(data.value, index.value);
      var profiler := new Profiler(eventSink, stringTable, now);
      stringTable.AllocMetadata(metadata);
      r := Ok(profiler);
    }

    /** `alloc_string_with_reserved_id`: whatever the string table's
        `alloc_with_reserved_id` does, and nothing to the events stream. */
    method AllocStringWithReservedId(id: StringId, s: string) returns (r: StringId)
      requires Valid()
      requires IsReserved(id)
      modifies stringTable, stringTable.dataSink, stringTable.indexSink
      ensures Valid()
      ensures r == id && stringTable.nextId == old(stringTable.nextId)
      ensures stringTable.entries == old(stringTable.entries) + [(id, s)]
      ensures eventSink.records == old(eventSink.records)
    {
      r := stringTable.AllocWithReservedId(id, s);
    }

    /** `alloc_string`: the string table's next dynamic id, and nothing to the
        events stream. */
    method AllocString(s: string) returns (r: StringId)
      requires Valid()
      modifies stringTable, stringTable.dataSink, stringTable.indexSink
      ensures Valid()
      ensures r == old(stringTable.nextId) && stringTable.nextId == old(stringTable.nextId) + 1
      ensures r > MAX_PRE_RESERVED_STRING_ID
      ensures forall i | 0 <= i < |old(stringTable.entries)| :: old(stringTable.entries)[i].0 != r
      ensures stringTable.entries == old(stringTable.entries) + [(r, s)]
      ensures eventSink.records == old(eventSink.records)
    {
      r := stringTable.Alloc(s);
    }

    /** `record_event` with the clock reading `now`: exactly one record of
        `size_of::<RawEvent>()` bytes is appended to the events stream,
        carrying the given kind, id, thread and timestamp kind and the
        nanoseconds elapsed since time-zero; the string table is not touched. */
    method RecordEvent(eventKind: StringId, eventId: StringId, threadId: u64, timestampKind: TimestampKind, now: Instant)
      requires Valid()
      requires NotLater(lastReading, now)
      modifies this, eventSink
      ensures Valid() && lastReading == now && openStarts == old(openStarts)
      ensures eventSink.records ==
        old(eventSink.records) + [Event(RawEvent(eventKind, eventId, threadId, Timestamp(NanosSinceStart(Elapsed(startTime, now)), timestampKind)))]
      ensures eventSink.ByteLength() == old(eventSink.ByteLength()) + RAW_EVENT_SIZE
      ensures unchanged(stringTable, stringTable.dataSink, stringTable.indexSink)
    {
      ghost var before := lastReading;
      var durationSinceStart := Elapsed(startTime, now);
      var nanosSinceStart := NanosSinceStart(durationSinceStart);
      var timestamp := Timestamp(nanosSinceStart, timestampKind);
      var rawEvent := RawEvent(eventKind, eventId, threadId, timestamp);
      eventSink.WriteAtomic(RAW_EVENT_SIZE, Event(rawEvent));
      lastReading := now;
      if TotalNanos(now) - TotalNanos(startTime) < U64_MODULUS {
        LaterReadingLaterTimestamp(startTime, before, now);
      }
    }

    /** `start_recording_interval_event`: records the Start event and hands
        back a guard for the same kind, id and thread that points at it. */
    method StartRecordingIntervalEvent(eventKind: StringId, eventId: StringId, threadId: u64, now: Instant)
      returns (guard: TimingGuard)
      requires Valid()
      requires NotLater(lastReading, now)
      modifies this, eventSink
      ensures Valid() && lastReading == now
      ensures eventSink.records ==
        old(eventSink.records) + [Event(RawEvent(eventKind, eventId, threadId, Timestamp(NanosSinceStart(Elapsed(startTime, now)), Start)))]
      ensures unchanged(stringTable, stringTable.dataSink, stringTable.indexSink)
      ensures fresh(guard) && guard.profiler == this
      ensures openStarts == old(openStarts) + {guard.startIndex} && guard.startIndex !in old(openStarts)
      ensures guard.eventKind == eventKind && guard.eventId == eventId && guard.threadId == threadId
      ensures guard.startIndex == |old(eventSink.records)| && guard.Opened()
    {
      ghost var startIndex := |eventSink.records|;
      RecordEvent(eventKind, eventId, threadId, Start, now);
      guard := new TimingGuard(this, eventKind, eventId, threadId, startIndex);
      openStarts := openStarts + {startIndex};
    }

    /** The events stream's length in bytes is the header plus one fixed-size
        record per event, whatever interleaving of threads produced them. */
    lemma EventStreamLength()
      requires Valid()
      ensures eventSink.ByteLength() == FILE_HEADER_SIZE + |Events(eventSink.records)| * RAW_EVENT_SIZE
      ensures |Events(eventSink.records)| == |eventSink.records| - 1
    {
      EventStreamSize(eventSink.records);
    }
  }

  /** Records the End of its interval when released. Rust releases a guard
      exactly once, when it goes out of scope, and only the profiler creates
      guards; the profiler's `openStarts` stands for that
      ownership rule. */
  class TimingGuard {
    const profiler: Profiler
    const eventKind: StringId
    const eventId: StringId
    const threadId: u64
    /** The position of the interval's Start record in the events stream. */
    ghost const startIndex: nat

    /** The Start record of this guard's interval is in the events stream. */
    ghost predicate Opened()
      reads this, profiler, profiler.eventSink
    {
      && startIndex < |profiler.eventSink.records|
      && profiler.eventSink.records[startIndex].Event?
      && var e := profiler.eventSink.records[startIndex].event;
         e.eventKind == eventKind && e.id == eventId && e.threadId == threadId && e.timestamp.kind == Start
    }

    constructor (profiler: Profiler, eventKind: StringId, eventId: StringId, threadId: u64, ghost startIndex: nat)
      ensures this.profiler == profiler && this.startIndex == startIndex
      ensures this.eventKind == eventKind && this.eventId == eventId && this.threadId == threadId
    {
      this.profiler := profiler;
      this.eventKind := eventKind;
      this.eventId := eventId;
      this.threadId := threadId;
      this.startIndex := startIndex;
    }

    /** `Drop for TimingGuard`: appends exactly one End event with the
        guard's kind, id and thread, after its Start. */
    method Drop(now: Instant)
      requires profiler.Valid() && Opened() && startIndex in profiler.openStarts
      requires NotLater(profiler.lastReading, now)
      modifies this, profiler, profiler.eventSink
      ensures profiler.Valid() && Opened() && profiler.lastReading == now
      ensures profiler.openStarts == old(profiler.openStarts) - {startIndex}
      ensures profiler.eventSink.records ==
        old(profiler.eventSink.records)
        + [Event(RawEvent(eventKind, eventId, threadId, Timestamp(NanosSinceStart(Elapsed(profiler.startTime, now)), End)))]
      ensures var rs := profiler.eventSink.records;
        TotalNanos(now) - TotalNanos(profiler.startTime) < U64_MODULUS ==>
          rs[startIndex].event.timestamp.nanos <= rs[|rs| - 1].event.timestamp.nanos
      ensures var rs := profiler.eventSink.records;
        Nested(Events(rs[startIndex + 1..|rs| - 1]), threadId) ==> Nested(Events(rs[startIndex..]), threadId)
      ensures startIndex < |profiler.eventSink.records| - 1
    {
      profiler.RecordEvent(eventKind, eventId, threadId, End, now);
      profiler.openStarts := profiler.openStarts - {startIndex};
      ghost var rs := profiler.eventSink.records;
      if Nested(Events(rs[startIndex + 1..|rs| - 1]), threadId) {
        RecordedIntervalNested(rs, startIndex);
      }
    }
  }
}
