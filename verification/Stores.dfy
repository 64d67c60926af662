/** The store a reconciler is given: in memory, or backed by a file and then able to batch
    (the Store and Batcher interfaces of internal/registry as executor.go uses them). */
module Stores {
  import opened Text
  import opened Model
  import opened Registry
  import opened FileStores

  class Store {
    const memory: MemoryStore
    /** The Batcher, if it is one; then `memory` is not used. */
    const file: FileStore?

    constructor InMemory(memory: MemoryStore)
      ensures this.memory == memory && file == null
    {
      this.memory, file := memory, null;
    }

    constructor OnFile(file: FileStore)
      ensures this.file == file && fresh(memory)
    {
      memory := new MemoryStore();
      this.file := file;
    }

    ghost predicate Valid()
      reads memory, file
    {
      file != null ==> file.Valid()
    }

    ghost function Records(): map<string, Record>
      reads memory, file
    {
      if file != null then file.records else memory.records
    }

    /** Writes wait for the end of a batch, if there is a disk to write to. */
    ghost predicate Deferred()
      reads file
    {
      file != null ==> file.batching
    }

    /** No batch is open. */
    ghost predicate Idle()
      reads file
    {
      file != null ==> !file.batching
    }

    ghost function Journal(): Option<Past>
      reads file
    {
      if file != null then Some(file.Now()) else None
    }

    /** An error is logged by the caller and otherwise dropped. */
    method Upsert(r: Record)
      requires Valid() && Deferred()
      modifies memory, file
      ensures Valid() && Records() == old(Records())[RecordKey(r) := r]
      ensures Journal() == old(Journal())
    {
      if file != null {
        var _ := file.Upsert(r);
      } else {
        memory.Upsert(r);
      }
    }

    method DeleteRecord(r: Record)
      requires Valid() && Deferred()
      modifies memory, file
      ensures Valid() && Records() == old(Records()) - {RecordKey(r)}
      ensures Journal() == old(Journal())
    {
      if file != null {
        var _ := file.DeleteRecord(r);
      } else {
        memory.DeleteRecord(r);
      }
    }

    method List() returns (out: seq<Record>)
      requires Valid() && KeyedByRecord(Records())
      ensures ListingOf(out, Records())
    {
      if file != null {
        out := file.List();
      } else {
        out := memory.List();
      }
    }
  }
}
