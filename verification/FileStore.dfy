/** The file-backed store: batching, and the temp-file-plus-rename flush with its crash points
    (internal/registry/file.go). JSON encoding is taken to round-trip. */
module FileStores {
  import opened Text
  import opened Model
  import opened Registry

  type Image = map<string, Record>

  // ---- the disk ----

  /** A file's data: a whole image, or anything less (empty, or cut short). */
  datatype Content = Torn | Full(image: Image)

  /** Data that was not fsynced may be lost or torn in a crash. */
  datatype File = File(content: Content, synced: bool)

  /** `entry` is the file the path names now; `survivors` are the files it may name after a crash: until the
      directory is fsynced, a rename may or may not have reached the disk. */
  datatype Disk = Disk(entry: Option<File>, survivors: set<Option<File>>, tmp: Option<File>)

  datatype Fault = NoFault | OpenFails | WriteFails | SyncFails | CloseFails | RenameFails | DirSyncFails

  function OpenTmp(d: Disk): Disk { d.(tmp := Some(File(Torn, false))) }

  function WriteTmp(d: Disk, c: Content): Disk { d.(tmp := Some(File(c, false))) }

  function SyncTmp(d: Disk): Disk {
    if d.tmp.Some? then d.(tmp := Some(d.tmp.value.(synced := true))) else d
  }

  function Rename(d: Disk): Disk { Disk(d.tmp, d.survivors + {d.tmp}, None) }

  function SyncDir(d: Disk): Disk { d.(survivors := {d.entry}) }

  /** The path holds `found` after a crash in state d. */
  ghost predicate CrashLeaves(d: Disk, found: Option<Content>) {
    exists f :: f in d.survivors && match f
      case None => found.None?
      case Some(file) => found.Some? && (file.synced ==> found.value == file.content)
  }

  /** A rename alone does not settle which file a crash leaves: until the directory is synced it may be the old one or
      the new one. */
  lemma RenameIsOpen(d: Disk, found: Option<Content>)
    ensures CrashLeaves(Rename(d), found) <==> CrashLeaves(d, found) || CrashLeaves(SyncDir(Rename(d)), found)
  {
  }

  // ---- programs over a store, and the plain map they act on ----

  datatype Cmd = Put(r: Record) | DropSource(sourceId: string) | DropRecord(r: Record)
      | InBatch(body: Prog, fnFails: bool)
  datatype Prog = Done | Then(cmd: Cmd, rest: Prog)

  function MemCmd(m: Image, cmd: Cmd): Image
    decreases cmd
  {
    match cmd
    case Put(r) => m[RecordKey(r) := r]
    case DropSource(s) => WithoutSource(m, s)
    case DropRecord(r) => m - {RecordKey(r)}
    case InBatch(body, _) => Mem(m, body)
  }

  /** What MemoryStore makes of a program. */
  function Mem(m: Image, p: Prog): Image
    decreases p
  {
    match p
    case Done => m
    case Then(cmd, rest) => Mem(MemCmd(m, cmd), rest)
  }

  /** The states between a program's outermost commands: those, and only those, are ever flushed. */
  function Boundaries(m: Image, p: Prog): seq<Image>
    decreases p
  {
    match p
    case Done => []
    case Then(cmd, rest) => [MemCmd(m, cmd)] + Boundaries(MemCmd(m, cmd), rest)
  }

  // ---- crash safety of a disk relative to the images handed to flush ----

  predicate WholeFrom(f: Option<File>, start: Option<Image>, images: seq<Image>) {
    match f
    case None => start.None?
    case Some(file) =>
      && file.synced && file.content.Full?
      && (file.content.image in images || start == Some(file.content.image))
  }

  /** Whatever survives a crash is the file the store started from or one complete flushed image. */
  ghost predicate Whole(d: Disk, start: Option<Image>, images: seq<Image>) {
    d.entry in d.survivors && forall f :: f in d.survivors ==> WholeFrom(f, start, images)
  }

  lemma WholeCrash(d: Disk, start: Option<Image>, images: seq<Image>, found: Option<Content>)
    requires Whole(d, start, images) && CrashLeaves(d, found)
    ensures found.None? ==> start.None?
    ensures found.Some? ==> found.value.Full? && (found.value.image in images || start == Some(found.value.image))
  {
  }

  /** A whole image, written out. */
  function ImageFile(image: Image): File {
    File(Full(image), true)
  }

  /** What may survive a crash at any of `steps` could survive before them, or is one of `images`, complete. */
  ghost predicate Kept(before: Disk, steps: seq<Disk>, images: seq<Image>) {
    forall d, f :: d in steps && f in d.survivors ==>
      f in before.survivors || exists m :: m in images && f == Some(ImageFile(m))
  }

  lemma KeptOne(before: Disk, steps: seq<Disk>, image: Image)
    requires forall d :: d in steps ==> d.survivors <= before.survivors + {Some(ImageFile(image))}
    ensures Kept(before, steps, [image])
  {
    assert image in [image];
  }

  lemma KeptThen(before: Disk, first: seq<Disk>, images: seq<Image>, mid: Disk, second: seq<Disk>, more: seq<Image>)
    requires Kept(before, first + [mid], images) && Kept(mid, second, more)
    ensures Kept(before, first + second, images + more)
  {
    forall d, f | d in first + second && f in d.survivors
      ensures f in before.survivors || exists m :: m in images + more && f == Some(ImageFile(m))
    {
      assert d in first ==> d in first + [mid];
      assert mid in first + [mid];
    }
  }

  /** A crash during the flush of one image finds what a crash before it could have found, or that image. */
  lemma CrashInFlush(before: Disk, steps: seq<Disk>, image: Image, d: Disk, found: Option<Content>)
    requires Kept(before, steps, [image]) && d in steps && CrashLeaves(d, found)
    ensures CrashLeaves(before, found) || found == Some(Full(image))
  {
    var f :| f in d.survivors && match f
      case None => found.None?
      case Some(file) => found.Some? && (file.synced ==> found.value == file.content);
    assert f in before.survivors || f == Some(ImageFile(image));
  }

  /** What loading the path gives: nothing there is an empty store, a torn file an error. */
  function Loaded(found: Option<Content>): Option<Image> {
    match found
    case None => Some(map[])
    case Some(Torn) => None
    case Some(Full(image)) => Some(image)
  }

  /** A whole disk always loads after a crash. */
  lemma CrashLoads(d: Disk, start: Option<Image>, images: seq<Image>, found: Option<Content>)
    requires Whole(d, start, images) && CrashLeaves(d, found)
    ensures Loaded(found).Some?
  {
    WholeCrash(d, start, images, found);
  }

  /** The disk holds m for good: whatever a crash leaves loads as m. */
  ghost predicate Holds(d: Disk, m: Image) {
    forall found :: CrashLeaves(d, found) ==> Loaded(found) == Some(m)
  }

  lemma FlushedHolds(d: Disk, m: Image)
    requires d.survivors == {Some(ImageFile(m))}
    ensures Holds(d, m)
  {
  }

  /** The disk as it is for a process that loaded or started `start`. */
  function Fresh(start: Option<Image>): Disk {
    var f := if start.Some? then Some(ImageFile(start.value)) else None;
    Disk(f, {f}, None)
  }

  lemma FreshHolds(start: Option<Image>)
    ensures Holds(Fresh(start), if start.Some? then start.value else map[])
  {
  }

  /** Where a store's disk and journal stood. */
  datatype Past = Past(batching: bool, disk: Disk, trail: seq<Disk>, images: seq<Image>)

  class FileStore {
    ghost const start: Option<Image>
    const faults: nat -> Fault
    var records: Image
    var batching: bool
    var disk: Disk
    /** Images handed to flush, in order. */
    ghost var images: seq<Image>
    /** Every state the disk went through. */
    ghost var trail: seq<Disk>
    var attempts: nat

    ghost predicate Valid()
      reads this
    {
      && Whole(disk, start, images)
      && (forall d :: d in trail ==> Whole(d, start, images))
      && attempts == |images|
    }

    ghost function Now(): Past
      reads this
    {
      Past(batching, disk, trail, images)
    }

    constructor (found: Option<Image>, faults: nat -> Fault)
      ensures Valid() && start == found && !batching && images == [] && trail == []
      ensures records == if found.Some? then found.value else map[]
      ensures disk == Fresh(found) && this.faults == faults
    {
      start, this.faults := found, faults;
      records := if found.Some? then found.value else map[];
      batching, disk, images, trail, attempts := false, Fresh(found), [], [], 0;
    }

    /** NewFileStore: a missing file is an empty store; a file that cannot be read or decoded is an error. */
    static method Open(found: Option<Content>, readable: bool, faults: nat -> Fault) returns (fs: FileStore?)
      ensures fs == null <==> found.Some? && (!readable || found.value.Torn?)
      ensures readable ==> (fs == null <==> Loaded(found).None?)
      ensures fs != null ==> fresh(fs) && fs.Valid() && !fs.batching && Loaded(found) == Some(fs.records)
      ensures fs != null ==> Holds(fs.disk, fs.records) && fs.faults == faults
    {
      match found {
        case None =>
          FreshHolds(None);
          fs := new FileStore(None, faults);
        case Some(Torn) =>
          fs := null;
        case Some(Full(image)) =>
          FreshHolds(Some(image));
          if readable {
            fs := new FileStore(Some(image), faults);
          } else {
            fs := null;
          }
      }
    }

    /** One file-system step, seen by any crash that follows. */
    method Apply(next: Disk)
      requires Valid() && Whole(next, start, images)
      modifies this`disk, this`trail
      ensures Valid() && disk == next && trail == old(trail) + [next]
    {
      disk, trail := next, trail + [next];
    }

    /** flush: write, fsync and close a temp file, rename it over the path, fsync the directory. Any step may fail,
        or the process may die after any of them; the path always holds a complete image, the last one or this one. */
    method Flush() returns (ok: bool)
      requires Valid()
      modifies this`disk, this`trail, this`images, this`attempts
      ensures Valid() && images == old(images) + [records] && old(trail) <= trail
      ensures ok <==> faults(|old(images)|) == NoFault
      ensures ok ==> disk.survivors == {Some(ImageFile(records))}
      ensures Kept(old(disk), trail[|old(trail)|..] + [disk], [records])
    {
      ghost var before, was := disk, trail;
      ok := FlushSteps();
      KeptOne(before, trail[|was|..] + [disk], records);
    }

    method FlushSteps() returns (ok: bool)
      requires Valid()
      modifies this`disk, this`trail, this`images, this`attempts
      ensures Valid() && images == old(images) + [records] && old(trail) <= trail
      ensures ok <==> faults(|old(images)|) == NoFault
      ensures ok ==> disk.survivors == {Some(ImageFile(records))}
      ensures forall d :: d in trail[|old(trail)|..] ==> d.survivors <= old(disk).survivors + {Some(ImageFile(records))}
      ensures disk.survivors <= old(disk).survivors + {Some(ImageFile(records))}
    {
      var fault := faults(attempts);
      images, attempts := images + [records], attempts + 1;
      MoreImages(start, disk, trail, old(images), images);
      var written := WriteSynced(fault);
      if !written || fault == CloseFails || fault == RenameFails { return false; }
      Apply(Rename(disk));
      if fault == DirSyncFails { return false; }
      Apply(SyncDir(disk));
      return true;
    }

    /** The temp file: opened, written and synced, or left at the step that fails. The path is not touched. */
    method WriteSynced(fault: Fault) returns (written: bool)
      requires Valid()
      modifies this`disk, this`trail
      ensures Valid() && old(trail) <= trail
      ensures forall d :: d in trail[|old(trail)|..] + [disk] ==> d.survivors == old(disk).survivors
      ensures written <==> fault !in {OpenFails, WriteFails, SyncFails}
      ensures written ==> disk == Disk(old(disk).entry, old(disk).survivors, Some(ImageFile(records)))
    {
      if fault == OpenFails { return false; }
      Apply(OpenTmp(disk));
      if fault == WriteFails {
        Apply(WriteTmp(disk, Torn));
        return false;
      }
      Apply(WriteTmp(disk, Full(records)));
      if fault == SyncFails { return false; }
      Apply(SyncTmp(disk));
      return true;
    }

    method FlushLocked() returns (ok: bool)
      requires Valid()
      modifies this`disk, this`trail, this`images, this`attempts
      ensures Stored(records, old(Now()))
      ensures batching ==> ok
      ensures !batching && ok ==> disk.survivors == {Some(ImageFile(records))}
    {
      if batching { return true; }
      ok := Flush();
    }

    /** After one command: the memory is `want`. Inside a batch the disk was left alone; outside, that very state was
        flushed once. */
    ghost predicate Stored(want: Image, past: Past)
      reads this
    {
      && Valid() && records == want && batching == past.batching && past.trail <= trail
      && Journaled(past, if batching then [] else [want])
    }

    /** Since then exactly `more` was flushed; whatever a crash leaves was there before or is among it. */
    ghost predicate Journaled(past: Past, more: seq<Image>)
      requires past.trail <= trail
      reads this
    {
      && images == past.images + more
      && (more == [] ==> disk == past.disk && trail == past.trail && images == past.images)
      && Kept(past.disk, trail[|past.trail|..] + [disk], more)
    }

    method Upsert(r: Record) returns (ok: bool)
      requires Valid()
      modifies this
      ensures Stored(MemCmd(old(records), Put(r)), old(Now()))
      ensures ok && !batching ==> disk.survivors == {Some(ImageFile(records))}
    {
      records := records[RecordKey(r) := r];
      ok := FlushLocked();
    }

    method Delete(sourceId: string) returns (ok: bool)
      requires Valid()
      modifies this
      ensures Stored(MemCmd(old(records), DropSource(sourceId)), old(Now()))
      ensures ok && !batching ==> disk.survivors == {Some(ImageFile(records))}
    {
      var left := records.Keys;
      while left != {}
        invariant left <= old(records).Keys
        invariant forall k :: k in records <==> k in old(records) && (k in left || old(records)[k].sourceId != sourceId)
        invariant forall k :: k in records ==> records[k] == old(records)[k]
        invariant Now() == old(Now()) && unchanged(this`attempts)
        decreases left
      {
        var k :| k in left;
        if records[k].sourceId == sourceId {
          records := records - {k};
        }
        left := left - {k};
      }
      ok := FlushLocked();
    }

    method DeleteRecord(r: Record) returns (ok: bool)
      requires Valid()
      modifies this
      ensures Stored(MemCmd(old(records), DropRecord(r)), old(Now()))
      ensures ok && !batching ==> disk.survivors == {Some(ImageFile(records))}
    {
      records := records - {RecordKey(r)};
      ok := FlushLocked();
    }

    method List() returns (out: seq<Record>)
      requires KeyedByRecord(records)
      ensures ListingOf(out, records)
    {
      out := RangeOver(records);
    }

    /** Batch up to the call of fn: a nested call leaves the flush to the outer one. */
    method Begin() returns (outermost: bool)
      requires Valid()
      modifies this`batching
      ensures Valid() && batching && outermost == !old(batching)
    {
      if batching { return false; }
      batching := true;
      return true;
    }

    /** Batch after fn. An outermost call makes exactly one flush attempt, of the state fn left, whether fn failed or
        not; a nested one makes none. */
    method End(outermost: bool, fnFails: bool) returns (ok: bool)
      requires Valid() && batching
      modifies this`batching, this`disk, this`trail, this`images, this`attempts
      ensures Stored(records, Past(!outermost, old(disk), old(trail), old(images)))
      ensures ok ==> !fnFails
      ensures ok && outermost ==> disk.survivors == {Some(ImageFile(records))}
    {
      if !outermost { return !fnFails; }
      batching := false;
      ok := Flush();
      ok := ok && !fnFails;
    }

    /** Batch(fn), fn being a program that may report failure at its end. */
    method Batch(body: Prog, fnFails: bool) returns (ok: bool)
      requires Valid()
      modifies this
      ensures Stored(Mem(old(records), body), old(Now()))
      ensures ok ==> !fnFails
      ensures ok && !batching ==> disk.survivors == {Some(ImageFile(records))}
      decreases body, 1
    {
      var outermost := Begin();
      Run(body);
      ok := End(outermost, fnFails);
    }

    /** Batch(fn) when fn panics after `body`: nothing in Batch clears the flag, so the batch stays open. */
    method BatchPanics(body: Prog)
      requires Valid()
      modifies this
      ensures Valid() && batching && records == Mem(old(records), body)
      ensures disk == old(disk) && trail == old(trail)
    {
      var _ := Begin();
      Run(body);
    }

    /** From such a panic on this process writes nothing to disk again, whatever is done to the store: a crash finds
        what it could have found before the panic. */
    method PanicStopsFlushing(body: Prog, later: Prog)
      requires Valid()
      modifies this
      ensures Valid() && batching && records == Mem(Mem(old(records), body), later)
      ensures disk == old(disk) && trail == old(trail)
    {
      BatchPanics(body);
      Run(later);
    }

    /** A program over the store: the memory is always MemoryStore's. Inside a batch the disk is left alone; outside,
        exactly the states between outermost commands are flushed, and whatever a crash leaves is one of them or was
        there before. */
    method Run(p: Prog)
      requires Valid()
      modifies this
      ensures Valid() && batching == old(batching) && old(trail) <= trail
      ensures records == Mem(old(records), p)
      ensures Journaled(old(Now()), if batching then [] else Boundaries(old(records), p))
      decreases p, 0
    {
      match p {
        case Done =>
        case Then(cmd, rest) =>
          var _ := Do(cmd);
          ghost var mid := Now();
          Run(rest);
          if !batching {
            JournalThen(old(Now()), mid, [MemCmd(old(records), cmd)], Boundaries(MemCmd(old(records), cmd), rest));
          }
      }
    }

    /** Journals compose. */
    lemma JournalThen(past: Past, mid: Past, first: seq<Image>, rest: seq<Image>)
      requires past.trail <= mid.trail <= trail && mid.images == past.images + first
      requires Kept(past.disk, mid.trail[|past.trail|..] + [mid.disk], first) && Journaled(mid, rest) && first != []
      ensures Journaled(past, first + rest)
    {
      var a, b := mid.trail[|past.trail|..], trail[|mid.trail|..] + [disk];
      KeptThen(past.disk, a, first, mid.disk, b, rest);
      assert trail[|past.trail|..] + [disk] == a + b;
    }

    method Do(cmd: Cmd) returns (ok: bool)
      requires Valid()
      modifies this
      ensures Stored(MemCmd(old(records), cmd), old(Now()))
      decreases cmd, 2
    {
      match cmd {
        case Put(r) => ok := Upsert(r);
        case DropSource(s) => ok := Delete(s);
        case DropRecord(r) => ok := DeleteRecord(r);
        case InBatch(body, fnFails) => ok := Batch(body, fnFails);
      }
    }
  }

  /** Handing flush one more image keeps every disk state whole. */
  lemma MoreImages(start: Option<Image>, d: Disk, trail: seq<Disk>, images: seq<Image>, more: seq<Image>)
    requires images <= more && Whole(d, start, images) && forall t :: t in trail ==> Whole(t, start, images)
    ensures Whole(d, start, more) && forall t :: t in trail ==> Whole(t, start, more)
  {
  }

  /** Store refinement: splitting a program into batches, at any nesting, never changes the map it builds. */
  function Flat(p: Prog): Prog {
    match p
    case Done => Done
    case Then(InBatch(body, _), rest) => Append(Flat(body), Flat(rest))
    case Then(cmd, rest) => Then(cmd, Flat(rest))
  }

  function Append(p: Prog, q: Prog): Prog {
    match p
    case Done => q
    case Then(cmd, rest) => Then(cmd, Append(rest, q))
  }

  lemma {:induction false} MemAppend(m: Image, p: Prog, q: Prog)
    ensures Mem(m, Append(p, q)) == Mem(Mem(m, p), q)
    decreases p
  {
    match p
    case Done =>
    case Then(cmd, rest) => MemAppend(MemCmd(m, cmd), rest, q);
  }

  lemma {:induction false} BatchingIsInvisible(m: Image, p: Prog)
    ensures Mem(m, Flat(p)) == Mem(m, p)
    decreases p
  {
    match p
    case Done =>
    case Then(cmd, rest) =>
      BatchingIsInvisible(MemCmd(m, cmd), rest);
      match cmd {
        case InBatch(body, _) =>
          BatchingIsInvisible(m, body);
          MemAppend(m, Flat(body), Flat(rest));
        case Put(_) =>
        case DropSource(_) =>
        case DropRecord(_) =>
      }
  }

  /** Every flushed image is what MemoryStore holds after some whole number of outermost commands: never mid-batch. */
  function Take(p: Prog, n: nat): Prog {
    if n == 0 || p.Done? then Done else Then(p.cmd, Take(p.rest, n - 1))
  }

  lemma {:induction false} FlushedAtBoundary(m: Image, p: Prog, n: nat)
    requires n < |Boundaries(m, p)|
    ensures Boundaries(m, p)[n] == Mem(m, Take(p, n + 1))
    decreases n
  {
    if n == 0 {
      assert Take(p.rest, 0) == Done;
    } else {
      FlushedAtBoundary(MemCmd(m, p.cmd), p.rest, n - 1);
    }
  }
}
