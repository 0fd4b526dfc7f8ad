# measureme profiler write path, in Dafny

This project models the write side of a measureme profiling session, as
`measureme/src/profiler.rs` implements it. A `Profiler` owns three
append-only streams: the events stream and the string table's data and
index streams. The three files come from one path stem with the extensions
`events`, `string_data` and `string_index`. Creating a profiler writes the
event-stream header before anything else. It then records time-zero and
allocates the session-metadata string once. `record_event` appends one
fixed-size `RawEvent` carrying the nanoseconds elapsed since time-zero.
`start_recording_interval_event` records a Start and returns a
`TimingGuard`. Releasing the guard records the matching End.

Modules, leaves first:

- `Base`: `Option`, `Result`, `u64`, `u32`.
- `Paths`: path stems, `Path::with_extension`, `ProfilerFiles::new`.
- `Clock`: `Duration` and `Instant`. `Elapsed` is the time since time-zero. `NanosSinceStart` is the `u64` nanosecond count.
- `Records`: string ids, timestamps, `RawEvent`, the records a sink holds and their byte sizes.
- `Intervals`: a per-thread stack replay that says when Start/End events are properly nested.
- `Sinks`: a `Sink` class (append-only, one record per `write_atomic`), the `FileSystem` in which `from_path` succeeds or fails, and `write_file_header`.
- `StringTables`: a stand-in for `StringTableBuilder`.
- `Profiling`: the `Profiler` and `TimingGuard` classes.

Each sink is a sequence of whole records. One `write_atomic` call appends
exactly one record. A stream's byte length is the sum of its records' sizes.
The clock is a parameter: `Profiler.New` receives the reading that becomes
time-zero. Every recording method receives the reading at which it runs.

## Model

| member | source | states |
|---|---|---|
| `Paths.FilesOnSameStem` | measureme/src/profiler.rs:17-23 | the contract of `Paths.ProfilerFiles.New`: each of the three session files is the stem, minus any extension it had, followed by `.events`, `.string_data` or `.string_index` |
| `Paths.FilesDistinct` | measureme/src/profiler.rs:17-23 | the three files are pairwise distinct if and only if the stem has a file name; without one, `with_extension` leaves the path unchanged and all three coincide |
| `Clock.NanosSinceStart` | measureme/src/profiler.rs:93-95 | the `u64` count `secs * 1_000_000_000 + subsec_nanos` is the exact duration in nanoseconds when that fits in 64 bits, and that value modulo 2^64 otherwise |
| `Clock.OrderIsNanosOrder` | measureme/src/profiler.rs:93-95 | Rust's (seconds, sub-second) order on durations is exactly the order of their lengths in nanoseconds, both directions |
| `Clock.TimestampsMonotone` | measureme/src/profiler.rs:93-96 | a later elapsed duration never yields a smaller nanosecond count, provided the later one fits in `u64` |
| `Clock.WrapBreaksMonotonicity` | measureme/src/profiler.rs:94-95 | the `u64` bound is needed: one nanosecond past 2^64 - 1 the count wraps to 0 |
| `Clock.Elapsed` | measureme/src/profiler.rs:93 | `start_time.elapsed()` is the reading minus time-zero, to the nanosecond |
| `Clock.LaterReadingLaterTimestamp` | measureme/src/profiler.rs:48-96 | on one thread, a later clock reading gives a timestamp no smaller than an earlier one, while within 2^64 ns of time-zero |
| `Records.TotalSizeAppend` | measureme/src/profiler.rs:105-106 | appending one record grows a stream by exactly that record's size |
| `Records.EventStreamSize` | measureme/src/profiler.rs:105-117 | a stream made of the header followed by n events is `FILE_HEADER_SIZE + n * RAW_EVENT_SIZE` bytes long |
| `Sinks.Sink.WriteAtomic` | measureme/src/profiler.rs:105-117 | one call appends one whole record whose size equals the reserved size, and the stream grows by that size |
| `Sinks.FileSystem.FromPath` | measureme/src/profiler.rs:35-42 | `from_path` yields a fresh, empty sink at the path, or an I/O error and no sink when creation fails there |
| `Sinks.WriteFileHeader` | measureme/src/profiler.rs:37-38 | the header is one atomic write of the magic record |
| `StringTables.StringTable.constructor` | measureme/src/profiler.rs:40-43 | the string table is built over the two new sinks, each opened by its header, with no strings and the counter at the first dynamic id |
| `StringTables.StringTable.Alloc` | measureme/src/profiler.rs:80-82 | a dynamic id above every reserved id and the metadata id, distinct from every id allocated before, recorded with its string |
| `StringTables.StringTable.AllocWithReservedId` | measureme/src/profiler.rs:71-77 | the string is recorded under the caller's reserved id, which is returned; the counter is untouched |
| `StringTables.StringTable.AllocMetadata` | measureme/src/profiler.rs:57-65 | the payload is recorded under the metadata id |
| `Profiling.Profiler.New` | measureme/src/profiler.rs:33-68 | sinks are created in the order events, string_data, string_index, stopping with an I/O error and no profiler at the first failure. On success the events stream is exactly its header, time-zero is the given reading, and the string table holds exactly one allocation, the metadata; the latest clock reading is time-zero |
| `Profiling.Profiler.AllocStringWithReservedId` | measureme/src/profiler.rs:71-77 | returns what the string table returns for the same id and string; the events stream is unchanged |
| `Profiling.Profiler.AllocString` | measureme/src/profiler.rs:79-82 | returns the string table's next dynamic id, fresh and above the reserved range; the events stream is unchanged |
| `Profiling.Profiler.RecordEvent` | measureme/src/profiler.rs:84-118 | the events stream grows by exactly one `RawEvent` of `RAW_EVENT_SIZE` bytes, carrying the given kind, id, thread and timestamp kind and the nanoseconds since time-zero; the string table's streams are unchanged. The reading must not be earlier than the latest one, and the profiler's invariant that the stream's timestamps never decrease (while within 2^64 ns of time-zero) is kept |
| `Profiling.Profiler.StartRecordingIntervalEvent` | measureme/src/profiler.rs:120-136 | exactly one Start event is appended before returning; the fresh guard holds the same kind, id and thread and points at that Start record, which becomes the one new open Start |
| `Profiling.Profiler.EventStreamLength` | measureme/src/profiler.rs:105-117 | at any time the events stream is the header plus one fixed-size record per event recorded, from whatever threads |
| `Profiling.TimingGuard.Drop` | measureme/src/profiler.rs:149-158 | releasing the guard appends exactly one End event with the guard's kind, id and thread, after its Start, and closes that Start so no second End can be written for it; the End's timestamp is not smaller than the Start's (within 2^64 ns of time-zero), and if the thread's events in between are nested, the span from Start to End is nested |
| `Intervals.IntervalNested` | measureme/src/profiler.rs:120-158 | a Start, then properly nested events, then the End of the same kind, id and thread forms a properly nested span |
| `Intervals.RecordedIntervalNested` | measureme/src/profiler.rs:149-158 | in the events stream, a guard's Start record, the records written while it lived, and the End its release wrote form a nested span, if the thread's events in between are nested |
| `Intervals.UnclosedIntervalNotNested` | measureme/src/profiler.rs:139-141 | a Start whose guard was never released leaves the thread's events unbalanced |
| `Intervals.MismatchedEndRejected` | measureme/src/profiler.rs:152-157 | wherever it occurs, an End naming another kind or id than the innermost open interval of its thread makes the replay fail |
| `Intervals.UnopenedEndRejected` | measureme/src/profiler.rs:152-157 | an End on a thread with no open interval makes the replay fail |
| `Intervals.OtherThreadsIgnored` | measureme/src/profiler.rs:122-158 | events recorded by other threads, interleaved anywhere, never change a thread's open intervals |

## Left out

- Concurrency: `write_atomic` under many threads and the `Arc` sharing are modelled sequentially. Each call appends one whole record. The order between threads is whatever order the calls take.
- The byte layout of records. The `unsafe` reinterpretation of `RawEvent` as bytes (profiler.rs:109-116) is replaced by an abstract `Event` record of fixed size. `RAW_EVENT_SIZE` (24), `FILE_HEADER_SIZE` (8) and `INDEX_ENTRY_SIZE` (8) stand for the sizes in raw_event.rs, file_header.rs and stringtable.rs, which are not part of this model. Only their being fixed matters here.
- How `Timestamp::new` packs the Start/End tag into its 64-bit field is not modelled. The model keeps the nanosecond count and the tag side by side.
- The string table. stringtable.rs is not part of this model, and `StringTables.StringTable` is a stand-in. Its id constants (reserved ids up to 0x7FFF_FFFF, metadata just above, dynamic ids after that) and its data/index records only give what profiler.rs relies on: fresh dynamic ids above the reserved range, one recorded allocation per call, and streams that start with their header. String ids are unbounded, so wrap-around of the id counter is not modelled.
- StringTables.StringTable.AllocWithReservedId requires a reserved id instead of modelling the string table's failure on another id. Choosing one is the caller's side of the string table's contract.
- Profiling.Profiler.AllocStringWithReservedId requires a reserved id, passing on the string table's demand.
- Building the metadata payload is left out: escaping `std::env::args` in the `push_str` loop (profiler.rs:51-55), the JSON text, the process id and the wall-clock time. The payload is an opaque string parameter of `Profiler.New`.
- Clocks. `Instant::now` and `SystemTime::now` are parameters. `RecordEvent`, `StartRecordingIntervalEvent` and `Drop` require that the reading is not earlier than the profiler's latest reading (a ghost field that starts at time-zero). That is a guarantee of the monotonic clock, not a demand on callers. Because calls are sequential here, the model orders timestamps across the whole stream; with real threads only each thread's own order is guaranteed.
- Clock.NanosSinceStart models the `u64` arithmetic as it wraps without overflow checks. In a build with overflow checks, the source panics instead once the elapsed time passes 2^64 ns, about 584 years.
- String lengths: `Size` counts a string's characters, while the Rust string table writes UTF-8 bytes; the two differ for non-ASCII text in the string table stand-in. The events stream holds fixed-size records only and is measured in bytes.
- `Path::with_extension` works on structured paths (directory part, file stem, optional extension). Parsing a path string into those parts is not modelled.
- `Sinks.FileSystem` records which sinks were created and in what order. It does not model two sinks opened on the same file (which `Paths.FilesDistinct` shows happens only when the stem has no file name). It also does not model the contents left on disk when `Profiler.New` fails after creating the events file.
- Rust's guarantee that a guard is dropped exactly once, on every exit path, comes from ownership and from the guard's private fields. In its place the profiler keeps a ghost set `openStarts` of the Starts whose guard is alive: `StartRecordingIntervalEvent` adds its Start, and `Drop` requires that its Start is in the set and removes it, so one Start gets at most one End. That a live guard is eventually dropped is not modelled.
- `flamegraph/src/main.rs` is command-line glue around a reader and a stack-collapse routine, neither of which is part of this model.
