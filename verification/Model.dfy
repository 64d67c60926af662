/** Records, their store key and the part of them an upstream holds
    (internal/model/model.go). */
module Model {
  import opened Text

  datatype Status = Unset | Pending | Synced | Failed | PendingDelete

  const TYPE_A := "A"
  const TYPE_AAAA := "AAAA"
  const TYPE_CNAME := "CNAME"

  datatype Record = Record(
    ttl: int, priority: int, comment: string,
    id: string, sourceId: string, sourceName: string, upstream: string,
    rtype: string, name: string, value: string,
    status: Status, syncedAt: int, syncError: string, failures: int)

  /** The fields a record puts on its upstream. */
  datatype Applied = Applied(rtype: string, name: string, value: string,
                             ttl: int, priority: int, comment: string)

  /** The place on an upstream that a record occupies. */
  datatype Slot = Slot(upstream: string, rtype: string, name: string)

  function AppliedOf(r: Record): Applied {
    Applied(r.rtype, r.name, r.value, r.ttl, r.priority, r.comment)
  }

  function SlotOf(r: Record): Slot {
    Slot(r.upstream, r.rtype, r.name)
  }

  /** The record an upstream's List reports for content `a`; identity fields are left zero. */
  function Listed(upstream: string, a: Applied): Record {
    Record(a.ttl, a.priority, a.comment, "", "", "", upstream, a.rtype, a.name, a.value, Unset, 0, "", 0)
  }

  function RecordKey(r: Record): string {
    Join(Join(r.sourceId, r.id), r.upstream)
  }

  predicate SameIdentity(r: Record, s: Record) {
    r.sourceId == s.sourceId && r.id == s.id && r.upstream == s.upstream
  }

  /** The key is the identity (source ID, ID, upstream) as long as ID and upstream
      carry no slash; a source ID, being a file path, may. */
  lemma KeyIdentifies(r: Record, s: Record)
    requires SlashFree(r.id) && SlashFree(r.upstream) && SlashFree(s.id) && SlashFree(s.upstream)
    ensures RecordKey(r) == RecordKey(s) <==> SameIdentity(r, s)
  {
    if RecordKey(r) == RecordKey(s) {
      JoinRightUnique(Join(r.sourceId, r.id), r.upstream, Join(s.sourceId, s.id), s.upstream);
      JoinRightUnique(r.sourceId, r.id, s.sourceId, s.id);
    }
  }

  /** No other identity has r's key. */
  ghost predicate KeyUnique(r: Record) {
    forall s :: RecordKey(s) == RecordKey(r) ==> SameIdentity(s, r)
  }

  /** A record's key belongs to it alone exactly when none of the three fields joined in it has a slash. A file path as
      source ID has one, and then another cut of the same key is another identity. */
  lemma KeyUniqueIff(r: Record)
    ensures KeyUnique(r) <==> SlashFree(r.sourceId) && SlashFree(r.id) && SlashFree(r.upstream)
  {
    if SlashFree(r.sourceId) && SlashFree(r.id) && SlashFree(r.upstream) {
      forall s | RecordKey(s) == RecordKey(r) ensures SameIdentity(s, r) {
        TwoSlashes(r, s);
        KeyIdentifies(r, s);
      }
    } else {
      var s := KeyAmbiguousWithSlash(r);
      assert !SameIdentity(s, r);
    }
  }

  /** A key with no slashes but the two joining ones can be cut in one way only. */
  lemma TwoSlashes(r: Record, s: Record)
    requires SlashFree(r.sourceId) && SlashFree(r.id) && SlashFree(r.upstream) && RecordKey(s) == RecordKey(r)
    ensures SlashFree(s.sourceId) && SlashFree(s.id) && SlashFree(s.upstream)
  {
    SlashesOfKey(r);
    SlashesOfKey(s);
    SlashFreeIffNoSlashes(r.sourceId); SlashFreeIffNoSlashes(r.id); SlashFreeIffNoSlashes(r.upstream);
    SlashFreeIffNoSlashes(s.sourceId); SlashFreeIffNoSlashes(s.id); SlashFreeIffNoSlashes(s.upstream);
  }

  lemma SlashesOfKey(r: Record)
    ensures Slashes(RecordKey(r)) == Slashes(r.sourceId) + Slashes(r.id) + Slashes(r.upstream) + 2
  {
    SlashesOfJoin(r.sourceId, r.id);
    SlashesOfJoin(Join(r.sourceId, r.id), r.upstream);
  }

  /** A slash in any of the three fields lets another identity share the key. */
  lemma KeyAmbiguousWithSlash(r: Record) returns (s: Record)
    requires !SlashFree(r.sourceId) || !SlashFree(r.id) || !SlashFree(r.upstream)
    ensures RecordKey(s) == RecordKey(r) && !SameIdentity(s, r)
  {
    if !SlashFree(r.id) {
      var p, q := SplitAtSlash(r.id);
      s := r.(sourceId := Join(r.sourceId, p), id := q);
      assert Join(Join(r.sourceId, p), q) == Join(r.sourceId, Join(p, q));
      assert |s.id| < |r.id|;
    } else if !SlashFree(r.upstream) {
      var p, q := SplitAtSlash(r.upstream);
      s := r.(id := Join(r.id, p), upstream := q);
      assert Join(Join(r.sourceId, Join(r.id, p)), q) == Join(Join(r.sourceId, r.id), Join(p, q));
      assert |s.upstream| < |r.upstream|;
    } else {
      var p, q := SplitAtSlash(r.sourceId);
      s := r.(sourceId := p, id := Join(q, r.id));
      assert Join(p, Join(q, r.id)) == Join(Join(p, q), r.id);
      assert |s.id| > |r.id|;
    }
  }

  /** A store maps each record's own key to it. */
  predicate KeyedByRecord(store: map<string, Record>) {
    forall k :: k in store ==> RecordKey(store[k]) == k
  }
}
