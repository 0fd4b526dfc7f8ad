/** Serialization sinks: append-only streams that take one whole record per
    `write_atomic` call, and the file system that creates them. */
module Sinks {
  import opened Base
  import opened Paths
  import opened Records

  class Sink {
    const path: PathBuf
    /** Every record written so far, in write order. */
    var records: seq<Record>

    constructor (path: PathBuf)
      ensures this.path == path && records == []
    {
      this.path := path;
      records := [];
    }

    /** The length of the stream; in bytes for the events stream, whose
        records are all of fixed size. */
    function ByteLength(): nat
      reads this
    {
      TotalSize(records)
    }

    /** `write_atomic(size, filler)`: reserves `size` bytes at the end of the
        stream and fills them with one record, which must be exactly that long. */
    method WriteAtomic(size: nat, r: Record)
      requires Size(r) == size
      modifies this
      ensures records == old(records) + [r]
      ensures ByteLength() == old(ByteLength()) + size
    {
      TotalSizeAppend(records, r);
      records := records + [r];
    }
  }

  datatype IoError = CannotCreate(path: PathBuf)

  /** The environment `SerializationSink::from_path` works in: the paths at
      which creating a sink fails, and the sinks created so far. */
  class FileSystem {
    const failing: set<PathBuf>
    var created: seq<PathBuf>

    constructor (failing: set<PathBuf>)
      ensures this.failing == failing && created == []
    {
      this.failing := failing;
      created := [];
    }

    /** `S::from_path`: a fresh, empty sink at the path, or an I/O error. */
    method FromPath(path: PathBuf) returns (r: Result<Sink, IoError>)
      modifies this
      ensures path in failing ==> r == Err(CannotCreate(path)) && created == old(created)
      ensures path !in failing ==>
        && r.Ok? && fresh(r.value) && r.value.path == path && r.value.records == []
        && created == old(created) + [path]
    {
      if path in failing {
        r := Err(CannotCreate(path));
      } else {
        var sink := new Sink(path);
        created := created + [path];
        r := Ok(sink);
      }
    }
  }

  /** `write_file_header`: one atomic write of the stream's magic header. */
  method WriteFileHeader(sink: Sink, magic: Magic)
    modifies sink
    ensures sink.records == old(sink.records) + [Header(magic)]
    ensures sink.ByteLength() == old(sink.ByteLength()) + FILE_HEADER_SIZE
  {
    sink.WriteAtomic(FILE_HEADER_SIZE, Header(magic));
  }
}
