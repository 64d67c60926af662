/** The in-memory record store (internal/registry/memory.go). */
module Registry {
  import opened Text
  import opened Model
  import opened Diff
  import opened Sets

  function Get<T>(m: map<string, T>, k: string): Option<T> {
    if k in m then Some(m[k]) else None
  }

  /** Delete(sourceID): drop every record of one source item. */
  function WithoutSource(records: map<string, Record>, sourceId: string): map<string, Record> {
    map k | k in records && records[k].sourceId != sourceId :: records[k]
  }

  /** Each record once, in any order; indexed by key, the listing gives the map back. */
  ghost predicate ListingOf(listing: seq<Record>, records: map<string, Record>) {
    && ByKey(listing) == records
    && forall i, j :: 0 <= i < j < |listing| ==> RecordKey(listing[i]) != RecordKey(listing[j])
  }

  lemma ListingOneMore(listing: seq<Record>, records: map<string, Record>, done: set<string>, k: string)
    requires KeyedByRecord(records) && k in records && k !in done && done <= records.Keys
    requires ListingOf(listing, Picked(records, done))
    ensures ListingOf(listing + [records[k]], Picked(records, done + {k}))
  {
    assert (listing + [records[k]])[..|listing|] == listing;
    assert Picked(records, done + {k}) == Picked(records, done)[k := records[k]];
    forall i | 0 <= i < |listing| ensures RecordKey(listing[i]) != k {
      assert RecordKey(listing[i]) in ByKey(listing);
    }
  }

  function Picked(records: map<string, Record>, keys: set<string>): map<string, Record> {
    map k | k in records && k in keys :: records[k]
  }

  class MemoryStore {
    var records: map<string, Record>

    constructor ()
      ensures records == map[]
    {
      records := map[];
    }

    method Upsert(r: Record)
      modifies this
      ensures records == old(records)[RecordKey(r) := r]
      ensures old(KeyedByRecord(records)) ==> KeyedByRecord(records)
    {
      records := records[RecordKey(r) := r];
    }

    method Delete(sourceId: string)
      modifies this
      ensures records == WithoutSource(old(records), sourceId)
    {
      var left := records.Keys;
      ghost var start := records;
      while left != {}
        invariant left <= start.Keys
        invariant forall k :: k in records <==> k in start && (k in left || start[k].sourceId != sourceId)
        invariant forall k :: k in records ==> records[k] == start[k]
        decreases left
      {
        var k :| k in left;
        if records[k].sourceId == sourceId {
          records := records - {k};
        }
        left := left - {k};
      }
    }

    method DeleteRecord(r: Record)
      modifies this
      ensures records == old(records) - {RecordKey(r)}
    {
      records := records - {RecordKey(r)};
    }

    /** List, in whatever order the map is ranged over. */
    method List() returns (out: seq<Record>)
      requires KeyedByRecord(records)
      ensures ListingOf(out, records)
    {
      out := RangeOver(records);
    }
  }

  /** The loop both stores list their map with. */
  method RangeOver(records: map<string, Record>) returns (out: seq<Record>)
    requires KeyedByRecord(records)
    ensures ListingOf(out, records)
  {
    out := [];
    var left := records.Keys;
    assert Picked(records, records.Keys - left) == map[];
    while left != {}
      invariant left <= records.Keys
      invariant ListingOf(out, Picked(records, records.Keys - left))
      decreases left
    {
      var k :| k in left;
      ListingOneMore(out, records, records.Keys - left, k);
      TakeOne(records.Keys, left, k);
      out, left := out + [records[k]], left - {k};
    }
    assert Picked(records, records.Keys - {}) == records;
  }
}
