/** The feature's batch directory as the upload worker sees it through
    `FileWriter`, `FileReader` and `FilesOrchestrator`: an oldest-first
    queue of batch files, each holding the events written into it. */
module BatchStorage {
  import opened Wrappers

  /** One written record: the serialized value and optional metadata. */
  datatype Event = Event(data: seq<byte>, metadata: Option<seq<byte>>)

  /** One batch file, with its events in write order. */
  datatype Batch = Batch(events: seq<Event>)

  /** The directory. Under the preset used throughout the worker's tests
      (`writeEachObjectToNewFileAndReadAllFiles`) every write opens a new
      file and every file is eligible for reading. */
  class BatchDirectory {
    var files: seq<Batch>

    constructor ()
      ensures files == []
    {
      files := [];
    }

    /** `FileWriter.write(value:)`: the event lands in a new, newest file. */
    method Write(event: Event)
      modifies this
      ensures files == old(files) + [Batch([event])]
    {
      files := files + [Batch([event])];
    }

    /** `FileReader.readNextBatch()`: the oldest file, if any. */
    method ReadNextBatch() returns (batch: Option<Batch>)
      ensures batch.None? <==> files == []
      ensures batch.Some? ==> batch.value == files[0]
    {
      if files == [] {
        batch := None;
      } else {
        batch := Some(files[0]);
      }
    }

    /** `FileReader.markBatchAsRead(_:)` for the batch just read, which is
        the oldest; deleting from an empty directory changes nothing. */
    method DeleteOldest()
      modifies this
      ensures files == if old(files) == [] then [] else old(files)[1..]
    {
      if files != [] {
        files := files[1..];
      }
    }
  }
}
