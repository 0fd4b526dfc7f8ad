/** A stand-in for `StringTableBuilder` (stringtable.rs is not part of this
    model): it keeps only the behaviour profiler.rs relies on. Each
    allocation appends the string to the data stream and an (id, address)
    entry to the index stream; dynamic ids come from a counter that starts
    above every reserved id. */
module StringTables {
  import opened Base
  import opened Records
  import opened Sinks

  /** The largest id a caller may pre-reserve. */
  const MAX_PRE_RESERVED_STRING_ID: StringId := 0x7FFF_FFFF
  /** The id of the session metadata string. */
  const METADATA_STRING_ID: StringId := MAX_PRE_RESERVED_STRING_ID + 1
  /** The first id `alloc` hands out. */
  const FIRST_REGULAR_STRING_ID: StringId := METADATA_STRING_ID + 1

  predicate IsReserved(id: StringId)
  {
    id <= MAX_PRE_RESERVED_STRING_ID
  }

  class StringTable {
    const dataSink: Sink
    const indexSink: Sink
    /** The next dynamic id. */
    var nextId: StringId
    /** Every allocation so far, in order: its id and its string. */
    ghost var entries: seq<(StringId, string)>

    /** Both streams start with their header; entry i is the data stream's
        record i + 1 and the index stream's record i + 1, whose address is
        where the string's bytes begin; every id allocated so far is below
        the counter. */
    ghost predicate Valid()
      reads this, dataSink, indexSink
    {
      && dataSink != indexSink
      && nextId >= FIRST_REGULAR_STRING_ID
      && |dataSink.records| == |entries| + 1
      && |indexSink.records| == |entries| + 1
      && dataSink.records[0] == Header(StringTableData)
      && indexSink.records[0] == Header(StringTableIndex)
      && (forall i | 0 <= i < |entries| ::
            && dataSink.records[i + 1] == StringBytes(entries[i].1)
            && indexSink.records[i + 1] == IndexEntry(entries[i].0, TotalSize(dataSink.records[..i + 1])))
      && (forall i | 0 <= i < |entries| :: entries[i].0 < nextId)
    }

    /** `StringTableBuilder::new`: both streams get their header first. */
    constructor (dataSink: Sink, indexSink: Sink)
      requires dataSink != indexSink
      requires dataSink.records == [] && indexSink.records == []
      modifies dataSink, indexSink
      ensures Valid()
      ensures this.dataSink == dataSink && this.indexSink == indexSink
      ensures entries == [] && nextId == FIRST_REGULAR_STRING_ID
      ensures dataSink.records == [Header(StringTableData)]
      ensures indexSink.records == [Header(StringTableIndex)]
    {
      this.dataSink := dataSink;
      this.indexSink := indexSink;
      nextId := FIRST_REGULAR_STRING_ID;
      entries := [];
      new;
      WriteFileHeader(dataSink, StringTableData);
      WriteFileHeader(indexSink, StringTableIndex);
    }

    /** Writes the string and its index entry under the given id. */
    method AllocUnchecked(id: StringId, s: string)
      requires Valid()
      requires id < nextId
      modifies dataSink, indexSink, this`entries
      ensures Valid()
      ensures entries == old(entries) + [(id, s)]
      ensures nextId == old(nextId)
    {
      ghost var before := dataSink.records;
      var address := dataSink.ByteLength();
      dataSink.WriteAtomic(|s|, StringBytes(s));
      indexSink.WriteAtomic(INDEX_ENTRY_SIZE, IndexEntry(id, address));
      entries := entries + [(id, s)];
      assert dataSink.records[..|entries|] == before;
      forall j | 0 < j <= |before|
        ensures dataSink.records[..j] == before[..j]
      {
      }
    }

    /** `alloc`: a fresh dynamic id, above every reserved id and different
        from every id allocated before. */
    method Alloc(s: string) returns (id: StringId)
      requires Valid()
      modifies dataSink, indexSink, this
      ensures Valid()
      ensures id == old(nextId) && nextId == old(nextId) + 1
      ensures id > MAX_PRE_RESERVED_STRING_ID && id != METADATA_STRING_ID
      ensures forall i | 0 <= i < |old(entries)| :: old(entries)[i].0 != id
      ensures entries == old(entries) + [(id, s)]
    {
      id := nextId;
      nextId := nextId + 1;
      AllocUnchecked(id, s);
    }

    /** `alloc_with_reserved_id`: the string under the caller's reserved id. */
    method AllocWithReservedId(id: StringId, s: string) returns (r: StringId)
      requires Valid()
      requires IsReserved(id)
      modifies dataSink, indexSink, this`entries
      ensures Valid()
      ensures r == id && nextId == old(nextId)
      ensures entries == old(entries) + [(id, s)]
    {
      AllocUnchecked(id, s);
      r := id;
    }

    /** `alloc_metadata`: the payload under the metadata id. */
    method AllocMetadata(payload: string)
      requires Valid()
      modifies dataSink, indexSink, this`entries
      ensures Valid()
      ensures nextId == old(nextId)
      ensures entries == old(entries) + [(METADATA_STRING_ID, payload)]
    {
      AllocUnchecked(METADATA_STRING_ID, payload);
    }
  }
}
