/** The quota ledger of the session-file store: concurrent uploads, release and deletion. */
module SessionFiles {
  import opened Sequences
  import opened Sums
  import opened Wrappers

  const MAX_FILE_BYTES: nat := 250 * 1024 * 1024
  const MAX_SESSION_BYTES: nat := 250 * 1024 * 1024
  const MAX_UPLOAD_CHUNK_BYTES: nat := 256 * 1024
  const MAX_SESSION_FILES: nat := 512
  const U64_MAX: nat := 0xFFFF_FFFF_FFFF_FFFF

  datatype Failure =
    | BadSize | StorageFull | TooManyFiles | TooManyBytes | Overflow | Storage
    | BadChunk | BadOffset | TooLong | Incomplete | AlreadyFinished | OverReserved
    | SameId | Mismatch | BadSelection | UploadActive | Protected

  datatype Origin = Observation | Upload | Artifact

  datatype File = File(session: string, id: string, size: nat, hash: string, origin: Origin, kept: bool)

  /**
   An upload. `open` is whether it may still be written or finished. `spent` is history: a failed
   publication put its content into the blob store, where collection may have left it.
   */
  datatype Write = Write(file: File, written: nat, open: bool, spent: bool)

  datatype Blob = Blob(hash: string, size: nat)

  datatype Totals = Totals(files: nat, bytes: nat)

  // ---------- counting ----------

  function FileCount(session: string): File -> nat {
    (f: File) => if f.session == session then 1 else 0
  }

  function FileBytes(session: string): File -> nat {
    (f: File) => if f.session == session then f.size else 0
  }

  function WriteCount(session: string): Write -> nat {
    (w: Write) => if w.file.session == session then 1 else 0
  }

  function WriteBytes(session: string): Write -> nat {
    (w: Write) => if w.file.session == session then w.file.size else 0
  }

  function WriteSize(): Write -> nat {
    (w: Write) => w.file.size
  }

  function UnspentSize(): Write -> nat {
    (w: Write) => if w.spent then 0 else w.file.size
  }

  function SpentSize(): Write -> nat {
    (w: Write) => if w.spent then w.file.size else 0
  }

  function BlobSize(): Blob -> nat {
    (b: Blob) => b.size
  }

  ghost function BytesBySession(m: map<string, Totals>): map<string, nat> {
    map s | s in m :: m[s].bytes
  }

  /** What the live uploads reserve, over all sessions. */
  ghost function Reserved(m: map<string, Totals>): nat {
    SumKeys(BytesBySession(m), BytesBySession(m).Keys)
  }

  predicate Referenced(completed: seq<File>, hash: string) {
    exists i :: 0 <= i < |completed| && completed[i].hash == hash
  }

  /** The blobs that survive collection; `swept` limits a collection that failed part way. */
  function Collected(completed: seq<File>, blobs: seq<Blob>, swept: Option<set<string>>): seq<Blob> {
    Filter(Survives(completed, swept), blobs)
  }

  function Survives(completed: seq<File>, swept: Option<set<string>>): Blob -> bool {
    (b: Blob) => Referenced(completed, b.hash) || (swept.Some? && b.hash !in swept.value)
  }

  /**
   What publishing meets: the content's hash, a taken file ID, whether the link and the later
   steps work, and how far the collection after a failure gets.
   */
  datatype Publication = Publication(
    hash: string, idTaken: bool, linked: bool, moved: bool, swept: Option<set<string>>)

  datatype Selection = All | Ids(ids: seq<string>) | Origins(origins: set<Origin>)

  predicate Selected(sessions: set<string>, selection: Selection, f: File) {
    f.session in sessions
    && match selection
       case All => true
       case Ids(ids) => f.id in ids
       case Origins(origins) => f.origin in origins && !f.kept
  }

  function Unselected(sessions: set<string>, selection: Selection): File -> bool {
    (f: File) => !Selected(sessions, selection, f)
  }

  /** The ledger has an entry for exactly the sessions with a live upload, with their totals. */
  ghost predicate Balanced(m: map<string, Totals>, live: seq<Write>) {
    && (forall s :: Matches(m, live, s))
    && Reserved(m) == Sum(WriteSize(), live)
  }

  ghost predicate Matches(m: map<string, Totals>, live: seq<Write>, s: string) {
    && (s in m <==> Sum(WriteCount(s), live) > 0)
    && (s in m ==> m[s] == Totals(Sum(WriteCount(s), live), Sum(WriteBytes(s), live)))
  }

  /** Every session with a live upload is within its limits, counting what it reserved. */
  ghost predicate WithinLimits(m: map<string, Totals>, completed: seq<File>) {
    forall s :: s in m ==>
                  && Sum(FileCount(s), completed) + m[s].files <= MAX_SESSION_FILES
                  && Sum(FileBytes(s), completed) + m[s].bytes <= MAX_SESSION_BYTES
  }

  /** Every stored file has its content. */
  ghost predicate Backed(completed: seq<File>, blobs: seq<Blob>) {
    forall i :: 0 <= i < |completed| ==> Blob(completed[i].hash, completed[i].size) in blobs
  }

  ghost predicate UploadsFit(live: seq<Write>) {
    forall i :: 0 <= i < |live| ==>
                  && 1 <= live[i].file.size <= MAX_FILE_BYTES
                  && live[i].written <= live[i].file.size
                  && (live[i].spent ==> !live[i].open)
  }

  // ---------- the store in plain terms ----------

  function FilesIn(files: seq<File>, session: string): nat
    decreases |files|
  {
    if files == [] then 0
    else FilesIn(files[..|files| - 1], session) + if files[|files| - 1].session == session then 1 else 0
  }

  function BytesIn(files: seq<File>, session: string): nat
    decreases |files|
  {
    if files == [] then 0
    else
      BytesIn(files[..|files| - 1], session)
      + if files[|files| - 1].session == session then files[|files| - 1].size else 0
  }

  /** The files that live uploads will become. */
  function Uploading(live: seq<Write>): seq<File> {
    seq(|live|, i requires 0 <= i < |live| => live[i].file)
  }

  /** All bytes of a list of files. */
  function TotalSize(files: seq<File>): nat
    decreases |files|
  {
    if files == [] then 0 else TotalSize(files[..|files| - 1]) + files[|files| - 1].size
  }

  function Content(blobs: seq<Blob>): nat
    decreases |blobs|
  {
    if blobs == [] then 0 else Content(blobs[..|blobs| - 1]) + blobs[|blobs| - 1].size
  }

  lemma {:induction false} FilesAre(files: seq<File>, session: string)
    ensures Sum(FileCount(session), files) == FilesIn(files, session)
    ensures Sum(FileBytes(session), files) == BytesIn(files, session)
    decreases |files|
  {
    if files != [] {
      FilesAre(files[..|files| - 1], session);
    }
  }

  lemma {:induction false} UploadsAre(live: seq<Write>, session: string)
    ensures Sum(WriteCount(session), live) == FilesIn(Uploading(live), session)
    ensures Sum(WriteBytes(session), live) == BytesIn(Uploading(live), session)
    ensures Sum(WriteSize(), live) == TotalSize(Uploading(live))
    decreases |live|
  {
    if live != [] {
      UploadsAre(live[..|live| - 1], session);
      assert Uploading(live)[..|live| - 1] == Uploading(live[..|live| - 1]);
    }
  }

  lemma {:induction false} ContentIs(blobs: seq<Blob>)
    ensures Sum(BlobSize(), blobs) == Content(blobs)
    decreases |blobs|
  {
    if blobs != [] {
      ContentIs(blobs[..|blobs| - 1]);
    }
  }

  /** The ledger counts exactly the live uploads, session by session and in all. */
  lemma LedgerIs(m: map<string, Totals>, live: seq<Write>, session: string)
    requires Balanced(m, live)
    ensures Pending(m, session).files == FilesIn(Uploading(live), session)
    ensures Pending(m, session).bytes == BytesIn(Uploading(live), session)
    ensures Reserved(m) == TotalSize(Uploading(live))
    ensures session in m <==> exists i :: 0 <= i < |live| && live[i].file.session == session
  {
    assert Matches(m, live, session);
    UploadsAre(live, session);
    NoWritesNoBytes(live, session);
    UploadsNamed(live, session);
  }

  lemma {:induction false} UploadsNamed(live: seq<Write>, session: string)
    ensures Sum(WriteCount(session), live) > 0
            <==> exists i :: 0 <= i < |live| && live[i].file.session == session
    decreases |live|
  {
    if live != [] {
      UploadsNamed(live[..|live| - 1], session);
      assert forall i :: 0 <= i < |live| - 1 ==> live[..|live| - 1][i] == live[i];
    }
  }

  /** Room for one more upload: its own size, the store's limit, and the two limits of its session. */
  predicate HasRoom(limit: Option<nat>, stored: seq<File>, uploads: seq<File>, blobs: seq<Blob>, file: File) {
    var s := file.session;
    && 1 <= file.size <= 250 * 1024 * 1024
    && (limit.Some? ==>
          && Content(blobs) + TotalSize(uploads) + file.size <= limit.value
          && Content(blobs) + TotalSize(uploads) + file.size <= 0xFFFF_FFFF_FFFF_FFFF)
    && FilesIn(stored, s) + FilesIn(uploads, s) < 512
    && BytesIn(stored, s) + BytesIn(uploads, s) + file.size <= 250 * 1024 * 1024
  }

  /** The ledger admits an upload exactly when the stored files and the live uploads leave room. */
  lemma RoomIs(m: map<string, Totals>, limit: Option<nat>, completed: seq<File>, live: seq<Write>,
               blobs: seq<Blob>, file: File)
    requires Balanced(m, live)
    ensures HasRoom(limit, completed, Uploading(live), blobs, file) <==>
            var charged := Sum(BlobSize(), blobs) + file.size + Reserved(m);
            && 1 <= file.size <= MAX_FILE_BYTES
            && (limit.Some? ==> charged <= U64_MAX && charged <= limit.value)
            && Sum(FileCount(file.session), completed) + Pending(m, file.session).files < MAX_SESSION_FILES
            && Sum(FileBytes(file.session), completed) + Pending(m, file.session).bytes + file.size
               <= MAX_SESSION_BYTES
  {
    hide Balanced, Reserved;
    LedgerIs(m, live, file.session);
    FilesAre(completed, file.session);
    ContentIs(blobs);
  }

  /** Whether a deletion names the file: in its sessions, and by its kind of selection. */
  predicate Names(sessions: seq<string>, selection: Selection, f: File) {
    && f.session in sessions
    && (selection.All? || (selection.Ids? && f.id in selection.ids)
        || (selection.Origins? && f.origin in selection.origins && !f.kept))
  }

  class SessionFileStore {
    const limit: Option<nat>
    ghost const cap: nat
    var reservations: map<string, Totals>
    var completed: seq<File>
    var blobs: seq<Blob>
    var live: seq<Write>

    constructor (limit: Option<nat>, completed: seq<File>, blobs: seq<Blob>)
      requires Backed(completed, blobs)
      ensures Valid() && live == [] && reservations == map[]
      ensures this.limit == limit && this.completed == completed && this.blobs == blobs
      ensures limit.Some? ==>
                cap == if Sum(BlobSize(), blobs) > limit.value then Sum(BlobSize(), blobs) else limit.value
      ensures limit.Some? ==> Charge() <= cap
    {
      this.limit, this.completed, this.blobs := limit, completed, blobs;
      cap := if limit.Some? && Sum(BlobSize(), blobs) <= limit.value then limit.value
             else Sum(BlobSize(), blobs);
      reservations, live := map[], [];
    }

    ghost predicate Valid()
      reads this
    {
      && Balanced(reservations, live)
      && WithinLimits(reservations, completed)
      && Backed(completed, blobs)
      && UploadsFit(live)
      && (limit.Some? ==> limit.value <= cap && Sum(BlobSize(), blobs) + Sum(UnspentSize(), live) <= cap)
    }

    /** What counts against the store's limit: its content and every reservation. */
    ghost function Charge(): nat
      reads this
    {
      Sum(BlobSize(), blobs) + Reserved(reservations)
    }

    /**
     The charge passes `cap`, the limit or what the store already held when it was opened above it,
     by no more than the uploads whose failed publication left its content behind and whose
     reservation their owner has not dropped yet.
     */
    lemma ChargedWithinLimit()
      requires Valid() && limit.Some?
      ensures Charge() <= cap + Sum(SpentSize(), live)
      ensures (forall w :: w in live ==> !w.spent) ==> Charge() <= cap
    {
      UnspentAtMost(live);
    }

    // ---------- admission ----------

    /** Admits `size` more bytes when the blobs and all reservations leave room for them. */
    method ValidateStorageCapacity(size: nat) returns (r: Result<(), Failure>)
      ensures limit.None? ==> r.Ok?
      ensures limit.Some? ==>
                var charged := Sum(BlobSize(), blobs) + size + Reserved(reservations);
                r == if charged > U64_MAX then Err(Overflow)
                     else if charged > limit.value then Err(StorageFull) else Ok(())
    {
      if limit.None? {
        return Ok(());
      }
      var total, i := 0, 0;
      while i < |blobs|
        invariant i <= |blobs|
        invariant total == Sum(BlobSize(), blobs[..i])
      {
        assert blobs[..i + 1][..i] == blobs[..i];
        total := total + blobs[i].size;
        if total > U64_MAX {
          SumPrefix(BlobSize(), blobs, i + 1);
          return Err(Overflow);
        }
        i := i + 1;
      }
      assert blobs[..|blobs|] == blobs;
      total := total + size;
      if total > U64_MAX {
        return Err(Overflow);
      }
      ghost var bytes := BytesBySession(reservations);
      ghost var start := total;
      var left := reservations.Keys;
      assert left == bytes.Keys;
      while left != {}
        invariant left <= bytes.Keys
        invariant total + SumKeys(bytes, left) == start + Reserved(reservations)
        invariant total <= U64_MAX
        decreases left
      {
        var s :| s in left;
        SumKeysTake(bytes, left, s);
        total := total + reservations[s].bytes;
        if total > U64_MAX {
          return Err(Overflow);
        }
        left := left - {s};
      }
      if total > limit.value {
        return Err(StorageFull);
      }
      return Ok(());
    }

    /** Sums the sizes of a session's completed files. */
    method CompletedBytes(session: string) returns (bytes: Option<nat>)
      ensures bytes == if Sum(FileBytes(session), completed) > U64_MAX then None
                       else Some(Sum(FileBytes(session), completed))
    {
      var total, i := 0, 0;
      while i < |completed|
        invariant i <= |completed|
        invariant total == Sum(FileBytes(session), completed[..i]) <= U64_MAX
      {
        assert completed[..i + 1][..i] == completed[..i];
        if completed[i].session == session {
          if total + completed[i].size > U64_MAX {
            SumPrefix(FileBytes(session), completed, i + 1);
            return None;
          }
          total := total + completed[i].size;
        }
        i := i + 1;
      }
      assert completed[..|completed|] == completed;
      return Some(total);
    }

    method CompletedFiles(session: string) returns (files: nat)
      ensures files == Sum(FileCount(session), completed)
    {
      files := 0;
      var i := 0;
      while i < |completed|
        invariant i <= |completed|
        invariant files == Sum(FileCount(session), completed[..i])
      {
        assert completed[..i + 1][..i] == completed[..i];
        if completed[i].session == session {
          files := files + 1;
        }
        i := i + 1;
      }
      assert completed[..|completed|] == completed;
    }

    /** Adds one upload to the session's totals unless it would pass a session limit. */
    method ReserveSession(session: string, size: nat) returns (r: Result<(), Failure>)
      modifies this`reservations
      ensures var before := Pending(old(reservations), session);
              var files := Sum(FileCount(session), completed) + before.files;
              var bytes := Sum(FileBytes(session), completed) + before.bytes + size;
              && (r.Ok? <==> files < MAX_SESSION_FILES && bytes <= MAX_SESSION_BYTES)
              && (r.Ok? ==> reservations == Reservation(old(reservations), session, size))
              && (r.Err? ==> reservations == old(reservations))
    {
      var bytes := CompletedBytes(session);
      if bytes.None? {
        return Err(Overflow);
      }
      var files := CompletedFiles(session);
      var pending := Pending(reservations, session);
      if files + pending.files >= MAX_SESSION_FILES {
        return Err(TooManyFiles);
      }
      if bytes.value + pending.bytes + size > U64_MAX {
        return Err(Overflow);
      }
      if bytes.value + pending.bytes + size > MAX_SESSION_BYTES {
        return Err(TooManyBytes);
      }
      reservations := reservations[session := Totals(pending.files + 1, pending.bytes + size)];
      return Ok(());
    }

    /** Reserves an upload's share of the store and of its session, or changes nothing. */
    method ReserveUpload(file: File) returns (r: Result<(), Failure>)
      requires Balanced(reservations, live)
      modifies this`reservations
      ensures r.Err? ==> reservations == old(reservations)
      ensures r.Ok? ==> reservations == Reservation(old(reservations), file.session, file.size)
      ensures r.Ok? <==> HasRoom(limit, completed, Uploading(live), blobs, file)
      ensures var pending := Pending(old(reservations), file.session);
              var charged := Sum(BlobSize(), blobs) + file.size + Reserved(old(reservations));
              r.Ok? <==>
              && 1 <= file.size <= MAX_FILE_BYTES
              && (limit.Some? ==> charged <= U64_MAX && charged <= limit.value)
              && Sum(FileCount(file.session), completed) + pending.files < MAX_SESSION_FILES
              && Sum(FileBytes(file.session), completed) + pending.bytes + file.size <= MAX_SESSION_BYTES
    {
      RoomIs(reservations, limit, completed, live, blobs, file);
      hide HasRoom, Uploading, Balanced, Reserved;
      if file.size < 1 || file.size > MAX_FILE_BYTES {
        return Err(BadSize);
      }
      var capacity := ValidateStorageCapacity(file.size);
      if capacity.Err? {
        return Err(capacity.error);
      }
      r := ReserveSession(file.session, file.size);
    }

    /** Begins an upload: it counts against both limits before a byte of it is written. */
    method Begin(file: File, created: bool) returns (r: Result<(), Failure>)
      requires Valid()
      modifies this`reservations, this`live
      ensures Valid()
      ensures r.Ok? ==> live == old(live) + [Write(file, 0, true, false)]
      ensures r.Err? ==> live == old(live) && reservations == old(reservations)
      ensures limit.Some? ==> Charge() <= old(Charge()) || Charge() <= cap
      ensures var pending := Pending(old(reservations), file.session);
              var charged := Sum(BlobSize(), blobs) + file.size + Reserved(old(reservations));
              r.Ok? <==>
              && 1 <= file.size <= MAX_FILE_BYTES
              && (limit.Some? ==> charged <= U64_MAX && charged <= limit.value)
              && Sum(FileCount(file.session), completed) + pending.files < MAX_SESSION_FILES
              && Sum(FileBytes(file.session), completed) + pending.bytes + file.size <= MAX_SESSION_BYTES
              && created
      ensures r.Ok? <==> created && HasRoom(limit, completed, Uploading(old(live)), blobs, file)
    {
      hide Balanced, WithinLimits, Backed, UploadsFit, Reserved, HasRoom, Uploading;
      r := ReserveUpload(file);
      if r.Err? {
        return;
      }
      var write := Write(file, 0, true, false);
      ReserveTotal(old(reservations), file.session, file.size);
      ReserveBalances(old(reservations), live, write);
      ReserveWithin(old(reservations), completed, file);
      SizesPush(live, write);
      UnspentIsReserved(old(reservations), live);
      SumPush(UnspentSize(), live, write);
      if !created {
        ReleaseUndoesReserve(old(reservations), live, write);
        reservations := Released(reservations, file.session, file.size);
        return Err(Storage);
      }
      live := live + [write];
    }

    // ---------- writing ----------

    /** Appends the next chunk; anything but the exact next bytes is refused. */
    method Append(i: nat, offset: nat, length: nat, stored: bool) returns (r: Result<nat, Failure>)
      requires Valid() && i < |live|
      modifies this`live
      ensures Valid()
      ensures r.Ok? <==> && 1 <= length <= 256 * 1024 && offset == old(live)[i].written
                         && offset + length <= old(live)[i].file.size && old(live)[i].open && stored
      ensures r.Ok? ==> r.value == offset + length
                        && live == old(live)[i := old(live)[i].(written := offset + length)]
      ensures r.Err? ==> live == old(live)
      ensures Charge() == old(Charge())
    {
      hide Balanced, WithinLimits, Backed;
      if length == 0 || length > MAX_UPLOAD_CHUNK_BYTES {
        return Err(BadChunk);
      }
      var w := live[i];
      if offset != w.written {
        return Err(BadOffset);
      }
      var next := w.written + length;
      if next > U64_MAX {
        return Err(Overflow);
      }
      if next > w.file.size {
        return Err(TooLong);
      }
      if !w.open {
        return Err(AlreadyFinished);
      }
      if !stored {
        return Err(Storage);
      }
      SameFilesBalance(reservations, live, i, w.(written := next));
      SumUpdate(UnspentSize(), live, i, w.(written := next));
      live := live[i := w.(written := next)];
      return Ok(next);
    }

    /** Rechecks a session's limits when an upload is about to be published. */
    method ValidateReservedCapacity(session: string) returns (r: Result<(), Failure>)
      ensures var pending := Pending(reservations, session);
              r.Ok? <==>
              && Sum(FileBytes(session), completed) <= U64_MAX
              && Sum(FileCount(session), completed) + pending.files <= MAX_SESSION_FILES
              && Sum(FileBytes(session), completed) + pending.bytes <= MAX_SESSION_BYTES
    {
      var bytes := CompletedBytes(session);
      if bytes.None? {
        return Err(Overflow);
      }
      var files := CompletedFiles(session);
      var pending := Pending(reservations, session);
      if files + pending.files > MAX_SESSION_FILES || bytes.value + pending.bytes > U64_MAX
         || bytes.value + pending.bytes > MAX_SESSION_BYTES {
        return Err(OverReserved);
      }
      return Ok(());
    }

    /**
     Publishes an upload. Its file joins the catalog and its reservation ends in one step. A failure
     leaves the catalog and the ledger alone, and closes the upload, which its owner then drops.
     The recheck of the session limits never fails.
     */
    method Finish(i: nat, p: Publication) returns (r: Result<File, Failure>)
      requires Valid() && i < |live|
      modifies this
      ensures Valid()
      ensures r.Ok? ==>
                var w := old(live)[i];
                && r.value == w.file.(hash := p.hash)
                && completed == old(completed) + [r.value]
                && live == Without(old(live), i)
                && reservations == Released(old(reservations), w.file.session, w.file.size)
                && blobs == if HasBlob(old(blobs), p.hash) then old(blobs)
                            else old(blobs) + [Blob(p.hash, w.file.size)]
      ensures r.Err? ==>
                && completed == old(completed) && reservations == old(reservations)
                && live == old(live)[i := old(live)[i].(
                                     open := false,
                                     spent := old(live)[i].spent || LeavesContent(old(live)[i], old(blobs), p))]
                && blobs == AfterFailure(old(completed), old(blobs), old(live)[i], p)
                && r.error != OverReserved && r.error != Overflow
      ensures r.Ok? <==>
              var w := old(live)[i];
              && w.open && w.written == w.file.size && !p.idTaken && p.moved
              && if HasBlob(old(blobs), p.hash) then Blob(p.hash, w.file.size) in old(blobs) else p.linked
      ensures r.Ok? ==> Charge() <= old(Charge())
      ensures r.Err? && old(Charge()) <= cap ==>
                (Charge() > cap <==>
                 Overcharges(old(completed), old(blobs), old(live)[i], p, Reserved(reservations), cap))
    {
      hide Balanced, WithinLimits, Backed, UploadsFit, Collected, Released, Without, HasBlob, Reserved,
           Overcharges, AfterFailure;
      var w := live[i];
      if Charge() <= cap {
        FailureOvercharges(completed, blobs, w, p, Reserved(reservations), cap);
      }
      FailsAs(completed, blobs, w, p);
      if w.open {
        OpenIsUnspent(live, i);
      }
      LiveHasEntry(reservations, live, i);
      EntryWithin(reservations, completed, w.file.session);
      if w.written != w.file.size || !w.open {
        Close(i, false);
        return Err(if w.written != w.file.size then Incomplete else AlreadyFinished);
      }
      var capacity := ValidateReservedCapacity(w.file.session);
      if capacity.Err? {
        assert false;
      }
      if p.idTaken {
        Close(i, false);
        return Err(SameId);
      }
      var file := w.file.(hash := p.hash);
      var blob := Blob(p.hash, w.file.size);
      var found := HasBlob(blobs, p.hash);
      if found && blob !in blobs {
        Close(i, false);
        CollectBlobs(p.swept);
        return Err(Mismatch);
      }
      if !found && !p.linked {
        Close(i, false);
        CollectBlobs(p.swept);
        return Err(Storage);
      }
      if !p.moved {
        Close(i, !found);
        if !found {
          AddBlob(blob);
        }
        CollectBlobs(p.swept);
        return Err(Storage);
      }
      Publish(i, file);
      return Ok(file);
    }

    /** Moves an upload from the ledger to the catalog. */
    method Publish(i: nat, file: File)
      requires Valid() && i < |live| && live[i].open
      requires file.session == live[i].file.session && file.size == live[i].file.size
      requires HasBlob(blobs, file.hash) ==> Blob(file.hash, file.size) in blobs
      modifies this
      ensures Valid()
      ensures completed == old(completed) + [file] && live == Without(old(live), i)
      ensures reservations == Released(old(reservations), file.session, file.size)
      ensures blobs == if HasBlob(old(blobs), file.hash) then old(blobs)
                       else old(blobs) + [Blob(file.hash, file.size)]
      ensures Charge() <= old(Charge())
    {
      hide Balanced, WithinLimits, Backed, UploadsFit, HasBlob;
      LiveHasEntry(reservations, live, i);
      ReleaseTotal(reservations, file.session, file.size);
      var blob := Blob(file.hash, file.size);
      OpenIsUnspent(live, i);
      PublishBalances(reservations, live, completed, i, file);
      SizesWithout(live, i);
      SumWithout(UnspentSize(), live, i);
      SumPush(BlobSize(), blobs, blob);
      BackedPush(completed, blobs, file, blob);
      if !HasBlob(blobs, file.hash) {
        blobs := blobs + [blob];
      }
      completed := completed + [file];
      reservations := Released(reservations, file.session, file.size);
      live := Without(live, i);
    }

    /** Closes an upload that can no longer be finished. */
    method Close(i: nat, spent: bool)
      requires Valid() && i < |live|
      modifies this`live
      ensures Valid()
      ensures live == old(live)[i := old(live)[i].(open := false, spent := spent || old(live)[i].spent)]
      ensures spent && !old(live)[i].spent && limit.Some? ==>
                Sum(BlobSize(), blobs) + Sum(UnspentSize(), live) + old(live)[i].file.size <= cap
    {
      hide Balanced, WithinLimits, Backed;
      var closed := live[i].(open := false, spent := spent || live[i].spent);
      SameFilesBalance(reservations, live, i, closed);
      SumUpdate(UnspentSize(), live, i, closed);
      live := live[i := closed];
    }

    /** Puts content into the blob store. */
    method AddBlob(blob: Blob)
      requires Valid()
      requires limit.Some? ==>
                 Sum(BlobSize(), blobs) + Sum(UnspentSize(), live) + blob.size <= cap
      modifies this`blobs
      ensures Valid() && blobs == old(blobs) + [blob]
    {
      hide Balanced, WithinLimits, UploadsFit;
      SumPush(BlobSize(), blobs, blob);
      blobs := blobs + [blob];
    }

    /** Removes content that no stored file refers to; a failed collection removes some of it. */
    method CollectBlobs(swept: Option<set<string>>)
      requires Valid()
      modifies this`blobs
      ensures Valid() && blobs == Collected(completed, old(blobs), swept)
      ensures Charge() <= old(Charge())
      ensures forall b :: b in blobs <==>
                          b in old(blobs) && ((exists i :: 0 <= i < |completed| && completed[i].hash == b.hash)
                                              || (swept.Some? && b.hash !in swept.value))
    {
      forall b ensures b in Collected(completed, blobs, swept) <==>
                       b in blobs && (Referenced(completed, b.hash) || (swept.Some? && b.hash !in swept.value))
      {
        FilterMembers(Survives(completed, swept), blobs, b);
      }
      hide Balanced, WithinLimits, UploadsFit;
      var kept, i := [], 0;
      while i < |blobs|
        invariant i <= |blobs| && blobs == old(blobs)
        invariant kept == Filter(Survives(completed, swept), blobs[..i])
      {
        assert blobs[..i + 1][..i] == blobs[..i];
        if Referenced(completed, blobs[i].hash) || (swept.Some? && blobs[i].hash !in swept.value) {
          kept := kept + [blobs[i]];
        }
        i := i + 1;
      }
      assert blobs[..|blobs|] == blobs;
      SumFilter(BlobSize(), Survives(completed, swept), blobs);
      CollectionKeepsContent(completed, blobs, swept);
      blobs := kept;
    }

    /** Drops an upload: its share of the ledger goes, and the entry with the last one. */
    method Release(i: nat)
      requires Valid() && i < |live|
      modifies this`reservations, this`live
      ensures Valid()
      ensures live == Without(old(live), i)
      ensures var f := old(live)[i].file;
              && f.session in old(reservations)
              && old(reservations)[f.session].files >= 1
              && old(reservations)[f.session].bytes >= f.size
              && reservations == Released(old(reservations), f.session, f.size)
      ensures Charge() == old(Charge()) - old(live)[i].file.size
    {
      hide Balanced, WithinLimits, Backed, UploadsFit;
      var session, size := live[i].file.session, live[i].file.size;
      LiveHasEntry(reservations, live, i);
      ReleaseTotal(reservations, session, size);
      ReleaseBalances(reservations, live, i);
      ReleaseWithin(reservations, completed, session, size);
      SizesWithout(live, i);
      SumWithout(UnspentSize(), live, i);
      var remove := false;
      if session in reservations {
        var pending := reservations[session];
        var files := if pending.files >= 1 then pending.files - 1 else 0;
        var bytes := if pending.bytes >= size then pending.bytes - size else 0;
        reservations := reservations[session := Totals(files, bytes)];
        remove := files == 0;
      }
      if remove {
        reservations := reservations - {session};
        assert reservations == old(reservations) - {session};
      }
      live := Without(live, i);
    }

    // ---------- deletion ----------

    /** Checks a deletion: a proper selection, no live upload in the way, and no kept file named. */
    method PrepareDelete(sessions: seq<string>, selection: Selection) returns (r: Result<(), Failure>)
      requires Valid()
      ensures r.Ok? <==>
              && !(selection.Ids? && selection.ids == []) && !(selection.Origins? && selection.origins == {})
              && (selection.Ids? ==>
                    |sessions| == 1 && forall f :: f in completed && Names(sessions, selection, f) ==> !f.kept)
              && (selection.All? ==> forall w :: w in live ==> w.file.session !in sessions)
    {
      hide WithinLimits, Backed, UploadsFit, Balanced;
      if (selection.Ids? && selection.ids == []) || (selection.Origins? && selection.origins == {}) {
        return Err(BadSelection);
      }
      if selection.Ids? && |sessions| != 1 {
        return Err(BadSelection);
      }
      if sessions == [] {
        return Ok(());
      }
      if selection.All? {
        forall s ensures s in reservations <==> exists i :: 0 <= i < |live| && live[i].file.session == s {
          LedgerIs(reservations, live, s);
        }
        var named := set s | s in sessions;
        var left := named;
        while left != {}
          invariant left <= named
          invariant forall s :: s in named && s !in left ==> s !in reservations
          decreases left
        {
          var s :| s in left;
          if s in reservations {
            return Err(UploadActive);
          }
          left := left - {s};
        }
      }
      if selection.Ids? && exists i :: 0 <= i < |completed| && completed[i].session == sessions[0]
                                       && completed[i].id in selection.ids && completed[i].kept {
        return Err(Protected);
      }
      forall w | selection.All? && w in live ensures w.file.session !in sessions {
        var i :| 0 <= i < |live| && live[i] == w;
        LedgerIs(reservations, live, w.file.session);
      }
      if selection.Ids? {
        assert sessions == [sessions[0]];
        forall f | f in completed && Names(sessions, selection, f) ensures !f.kept {
          var i :| 0 <= i < |completed| && completed[i] == f;
        }
      }
      return Ok(());
    }

    /**
     Deletes files and then their content, unless some other file still shares it. Deleting all of a
     session's files is refused while it has a live upload.
     */
    method Delete(sessions: seq<string>, selection: Selection, swept: Option<set<string>>)
      returns (r: Result<(), Failure>)
      requires Valid()
      modifies this`completed, this`blobs
      ensures Valid()
      ensures r.Err? ==> completed == old(completed) && blobs == old(blobs)
      ensures r.Ok? && sessions != [] ==>
                && completed == Filter(Unselected((set s | s in sessions), selection), old(completed))
                && completed == Filter((f: File) => !Names(sessions, selection, f), old(completed))
                && blobs == Collected(completed, old(blobs), swept)
      ensures Charge() <= old(Charge())
      ensures r.Ok? <==>
              && !(selection.Ids? && selection.ids == []) && !(selection.Origins? && selection.origins == {})
              && (selection.Ids? ==>
                    |sessions| == 1 && forall f :: f in old(completed) && Names(sessions, selection, f) ==> !f.kept)
              && (selection.All? ==> forall w :: w in live ==> w.file.session !in sessions)
    {
      hide Balanced, WithinLimits, Backed, UploadsFit;
      FilterSame(Unselected((set s | s in sessions), selection),
                 (f: File) => !Names(sessions, selection, f), completed);
      hide Selected, Names, Filter;
      r := PrepareDelete(sessions, selection);
      if r.Err? || sessions == [] {
        return;
      }
      var named := set s | s in sessions;
      FilterWithin(reservations, completed, Unselected(named, selection));
      FilterBacked(completed, blobs, Unselected(named, selection));
      completed := Filter(Unselected(named, selection), completed);
      CollectBlobs(swept);
      return Ok(());
    }
  }

  function Pending(m: map<string, Totals>, session: string): Totals {
    if session in m then m[session] else Totals(0, 0)
  }

  /** Whether a publication links its content before it fails. */
  predicate LeavesContent(w: Write, blobs: seq<Blob>, p: Publication) {
    w.open && w.written == w.file.size && !p.idTaken && !HasBlob(blobs, p.hash) && p.linked
  }

  /** The blobs after a failed publication: it collects once it got as far as linking. */
  function AfterFailure(completed: seq<File>, blobs: seq<Blob>, w: Write, p: Publication): seq<Blob> {
    if !w.open || w.written != w.file.size || p.idTaken then blobs
    else if LeavesContent(w, blobs, p) then
      Collected(completed, blobs + [Blob(p.hash, w.file.size)], p.swept)
    else Collected(completed, blobs, p.swept)
  }

  /**
   A failed publication takes the charge past `cap` exactly when it linked new content that the
   collection after it neither removed nor made room for.
   */
  predicate Overcharges(completed: seq<File>, blobs: seq<Blob>, w: Write, p: Publication,
                        reserved: nat, cap: nat)
  {
    && LeavesContent(w, blobs, p) && p.swept.Some? && p.hash !in p.swept.value
    && Sum(BlobSize(), Collected(completed, blobs, p.swept)) + w.file.size + reserved > cap
  }

  lemma FailureOvercharges(completed: seq<File>, blobs: seq<Blob>, w: Write, p: Publication,
                           reserved: nat, cap: nat)
    requires Backed(completed, blobs) && Sum(BlobSize(), blobs) + reserved <= cap
    ensures Sum(BlobSize(), AfterFailure(completed, blobs, w, p)) + reserved > cap
            <==> Overcharges(completed, blobs, w, p, reserved, cap)
  {
    hide Backed, HasBlob;
    SumFilter(BlobSize(), Survives(completed, p.swept), blobs);
    if LeavesContent(w, blobs, p) {
      NewContentIsUnreferenced(completed, blobs, p.hash);
      CollectOneMore(completed, blobs, Blob(p.hash, w.file.size), p.swept);
    }
  }

  lemma NewContentIsUnreferenced(completed: seq<File>, blobs: seq<Blob>, hash: string)
    requires Backed(completed, blobs) && !HasBlob(blobs, hash)
    ensures !Referenced(completed, hash)
  {
  }

  lemma CollectOneMore(completed: seq<File>, blobs: seq<Blob>, b: Blob, swept: Option<set<string>>)
    ensures Sum(BlobSize(), Collected(completed, blobs + [b], swept))
            == Sum(BlobSize(), Collected(completed, blobs, swept))
               + if Survives(completed, swept)(b) then b.size else 0
  {
    hide Filter, Survives;
    var kept := Collected(completed, blobs, swept);
    FilterConcat(Survives(completed, swept), blobs, [b]);
    FilterOne(Survives(completed, swept), b);
    SumPush(BlobSize(), kept, b);
    assert kept + [] == kept;
  }

  lemma FailsAs(completed: seq<File>, blobs: seq<Blob>, w: Write, p: Publication)
    ensures AfterFailure(completed, blobs, w, p)
            == if !w.open || w.written != w.file.size || p.idTaken then blobs
               else if LeavesContent(w, blobs, p) then
                 Collected(completed, blobs + [Blob(p.hash, w.file.size)], p.swept)
               else Collected(completed, blobs, p.swept)
  {
  }

  /** The ledger with one more upload of `size` bytes. */
  function Reservation(m: map<string, Totals>, session: string, size: nat): map<string, Totals> {
    m[session := Totals(Pending(m, session).files + 1, Pending(m, session).bytes + size)]
  }

  predicate HasBlob(blobs: seq<Blob>, hash: string) {
    exists i :: 0 <= i < |blobs| && blobs[i].hash == hash
  }

  /** Content is shared by its hash alone. */
  lemma BlobNamed(blobs: seq<Blob>, hash: string)
    ensures HasBlob(blobs, hash) <==> exists b :: b in blobs && b.hash == hash
  {
  }

  /** The ledger without one upload of `size` bytes. */
  function Released(m: map<string, Totals>, session: string, size: nat): map<string, Totals> {
    if session !in m || m[session].files < 1 || m[session].bytes < size then m
    else if m[session].files == 1 then m - {session}
    else m[session := Totals(m[session].files - 1, m[session].bytes - size)]
  }

  // ---------- the ledger ----------

  lemma LiveHasEntry(m: map<string, Totals>, live: seq<Write>, i: nat)
    requires Balanced(m, live) && i < |live|
    ensures var f := live[i].file;
            && f.session in m && m[f.session].files >= 1 && m[f.session].bytes >= f.size
            && (m[f.session].files == 1 ==> m[f.session].bytes == f.size)
  {
    var s := live[i].file.session;
    assert Matches(m, live, s);
    SumWithout(WriteCount(s), live, i);
    SumWithout(WriteBytes(s), live, i);
    NoWritesNoBytes(Without(live, i), s);
    SumPositive(WriteCount(live[i].file.session), live, i);
    SumPositive(WriteBytes(live[i].file.session), live, i);
  }

  lemma EntryWithin(m: map<string, Totals>, completed: seq<File>, session: string)
    requires WithinLimits(m, completed) && session in m
    ensures Sum(FileCount(session), completed) + m[session].files <= MAX_SESSION_FILES
    ensures Sum(FileBytes(session), completed) + m[session].bytes <= MAX_SESSION_BYTES
  {
  }

  lemma ReserveBalances(m: map<string, Totals>, live: seq<Write>, w: Write)
    requires Balanced(m, live)
    ensures Balanced(Reservation(m, w.file.session, w.file.size), live + [w])
  {
    hide Matches, Reserved;
    forall t ensures Matches(Reservation(m, w.file.session, w.file.size), live + [w], t) {
      ReserveMatches(m, live, w, t);
    }
    ReserveTotal(m, w.file.session, w.file.size);
    SumPush(WriteSize(), live, w);
  }

  lemma ReserveMatches(m: map<string, Totals>, live: seq<Write>, w: Write, t: string)
    requires Matches(m, live, t)
    ensures Matches(Reservation(m, w.file.session, w.file.size), live + [w], t)
  {
    SumPush(WriteCount(t), live, w);
    SumPush(WriteBytes(t), live, w);
    NoWritesNoBytes(live, t);
  }

  lemma ReserveTotal(m: map<string, Totals>, session: string, size: nat)
    ensures Reserved(Reservation(m, session, size)) == Reserved(m) + size
  {
    var bytes := Pending(m, session).bytes + size;
    SumKeysSet(BytesBySession(m), session, bytes);
    assert BytesBySession(Reservation(m, session, size)) == BytesBySession(m)[session := bytes];
  }

  lemma {:induction false} NoWritesNoBytes(live: seq<Write>, session: string)
    ensures Sum(WriteCount(session), live) == 0 ==> Sum(WriteBytes(session), live) == 0
    decreases |live|
  {
    if live != [] {
      NoWritesNoBytes(live[..|live| - 1], session);
    }
  }

  lemma ReleaseBalances(m: map<string, Totals>, live: seq<Write>, i: nat)
    requires Balanced(m, live) && i < |live|
    ensures Balanced(Released(m, live[i].file.session, live[i].file.size), Without(live, i))
  {
    var f := live[i].file;
    LiveHasEntry(m, live, i);
    hide Matches, Reserved, Without;
    forall t ensures Matches(Released(m, f.session, f.size), Without(live, i), t) {
      ReleaseMatches(m, live, i, t);
    }
    ReleaseTotal(m, f.session, f.size);
    SumWithout(WriteSize(), live, i);
  }

  lemma ReleaseMatches(m: map<string, Totals>, live: seq<Write>, i: nat, t: string)
    requires i < |live| && Matches(m, live, t) && Matches(m, live, live[i].file.session)
    ensures Matches(Released(m, live[i].file.session, live[i].file.size), Without(live, i), t)
  {
    hide Without;
    var f := live[i].file;
    SumPositive(WriteCount(f.session), live, i);
    SumPositive(WriteBytes(f.session), live, i);
    SumWithout(WriteCount(t), live, i);
    SumWithout(WriteBytes(t), live, i);
    NoWritesNoBytes(Without(live, i), t);
  }

  lemma ReleaseTotal(m: map<string, Totals>, session: string, size: nat)
    requires session in m && m[session].files >= 1 && m[session].bytes >= size
    requires m[session].files == 1 ==> m[session].bytes == size
    ensures Reserved(Released(m, session, size)) == Reserved(m) - size
  {
    var after := Released(m, session, size);
    if m[session].files == 1 {
      SumKeysDrop(BytesBySession(m), session);
      assert BytesBySession(after) == BytesBySession(m) - {session};
    } else {
      SumKeysSet(BytesBySession(m), session, m[session].bytes - size);
      assert BytesBySession(after) == BytesBySession(m)[session := m[session].bytes - size];
    }
  }

  /** An upload that could not be created leaves the ledger exactly as it was. */
  lemma ReleaseUndoesReserve(m: map<string, Totals>, live: seq<Write>, w: Write)
    requires Balanced(m, live)
    ensures Released(Reservation(m, w.file.session, w.file.size), w.file.session, w.file.size) == m
  {
    assert Matches(m, live, w.file.session);
    if w.file.session !in m {
      assert m[w.file.session := Totals(1, w.file.size)] - {w.file.session} == m;
    }
  }

  lemma SameFilesBalance(m: map<string, Totals>, live: seq<Write>, i: nat, w: Write)
    requires Balanced(m, live) && i < |live| && w.file == live[i].file
    ensures Balanced(m, live[i := w])
  {
    var after := live[i := w];
    forall t ensures Matches(m, after, t) {
      assert Matches(m, live, t);
      SumUpdate(WriteCount(t), live, i, w);
      SumUpdate(WriteBytes(t), live, i, w);
    }
    SumUpdate(WriteSize(), live, i, w);
  }

  lemma {:induction false} UnspentAtMost(live: seq<Write>)
    ensures Sum(UnspentSize(), live) + Sum(SpentSize(), live) == Sum(WriteSize(), live)
    ensures (forall w :: w in live ==> !w.spent) ==> Sum(UnspentSize(), live) == Sum(WriteSize(), live)
    decreases |live|
  {
    if live != [] {
      UnspentAtMost(live[..|live| - 1]);
      assert live[|live| - 1] in live;
    }
  }

  lemma UnspentIsReserved(m: map<string, Totals>, live: seq<Write>)
    requires Balanced(m, live)
    ensures Sum(UnspentSize(), live) <= Reserved(m)
  {
    UnspentAtMost(live);
  }

  /** Uploads all four bytes of a file into an empty store with room for just those. */
  method FillStore() returns (store: SessionFileStore)
    ensures fresh(store) && store.Valid() && store.limit == Some(4)
    ensures store.blobs == [] && store.completed == []
    ensures store.live == [Write(File("session", "id", 4, "", Upload, false), 4, true, false)]
  {
    hide Balanced, WithinLimits, Backed, UploadsFit;
    BackedNothing();
    store := new SessionFileStore(Some(4), [], []);
    var file := File("session", "id", 4, "", Upload, false);
    assert Reserved(map[]) == 0;
    var begun := store.Begin(file, true);
    assert [] + [Write(file, 0, true, false)] == [Write(file, 0, true, false)];
    var written := store.Append(0, 0, 4, true);
  }

  lemma BackedNothing()
    ensures Backed([], [])
  {
  }

  /** The excess is real: content left behind is charged twice until its upload is dropped. */
  method LeftoverIsChargedTwice() returns (store: SessionFileStore)
    ensures store.Valid() && store.limit == Some(4)
    ensures Sum(BlobSize(), store.blobs) == 4 && Reserved(store.reservations) == 4
  {
    hide Balanced, WithinLimits, Backed, UploadsFit, Released, Without;
    store := FillStore();
    var p := Publication("hash", false, true, false, Some({}));
    var write := store.live[0];
    NothingSwept(Blob("hash", 4));
    var done := store.Finish(0, p);
    SumPush(WriteSize(), [], store.live[0]);
    SumPush(BlobSize(), [], Blob("hash", 4));
    assert store.live == [] + [store.live[0]] && store.blobs == [] + [Blob("hash", 4)];
    LedgerTotal(store);
  }

  lemma LedgerTotal(store: SessionFileStore)
    requires store.Valid()
    ensures Reserved(store.reservations) == Sum(WriteSize(), store.live)
  {
  }

  lemma NothingSwept(b: Blob)
    ensures Collected([], [] + [b], Some({})) == [b]
  {
    var p := Survives([], Some({}));
    assert p(b);
    FilterConcat(p, [], [b]);
    FilterNothing(p);
    FilterOne(p, b);
    assert [] + [b] == [b];
  }

  lemma FilterOne<T>(p: T -> bool, x: T)
    ensures Filter(p, [x]) == if p(x) then [x] else []
  {
    assert [x][..0] == [];
    FilterNothing(p);
    assert [] + [x] == [x];
  }

  // ---------- the limits ----------

  lemma ReserveWithin(m: map<string, Totals>, completed: seq<File>, file: File)
    requires WithinLimits(m, completed)
    requires var p := Pending(m, file.session);
             && Sum(FileCount(file.session), completed) + p.files < MAX_SESSION_FILES
             && Sum(FileBytes(file.session), completed) + p.bytes + file.size <= MAX_SESSION_BYTES
    ensures WithinLimits(Reservation(m, file.session, file.size), completed)
  {
  }

  lemma ReleaseWithin(m: map<string, Totals>, completed: seq<File>, session: string, size: nat)
    requires WithinLimits(m, completed)
    ensures WithinLimits(Released(m, session, size), completed)
  {
  }

  /** A published file takes over exactly what its upload reserved. */
  lemma PublishBalances(m: map<string, Totals>, live: seq<Write>, completed: seq<File>, i: nat, file: File)
    requires Balanced(m, live) && WithinLimits(m, completed) && i < |live|
    requires file.session == live[i].file.session && file.size == live[i].file.size
    ensures var after := Released(m, file.session, file.size);
            Balanced(after, Without(live, i)) && WithinLimits(after, completed + [file])
  {
    hide Balanced, WithinLimits, Released, Without;
    LiveHasEntry(m, live, i);
    ReleaseBalances(m, live, i);
    PublishWithin(m, completed, file);
  }

  lemma PublishWithin(m: map<string, Totals>, completed: seq<File>, file: File)
    requires WithinLimits(m, completed) && file.session in m
    requires m[file.session].files >= 1 && m[file.session].bytes >= file.size
    ensures WithinLimits(Released(m, file.session, file.size), completed + [file])
  {
    forall t | t in Released(m, file.session, file.size)
      ensures Sum(FileCount(t), completed + [file])
              == Sum(FileCount(t), completed) + if t == file.session then 1 else 0
      ensures Sum(FileBytes(t), completed + [file])
              == Sum(FileBytes(t), completed) + if t == file.session then file.size else 0
    {
      SumPush(FileCount(t), completed, file);
      SumPush(FileBytes(t), completed, file);
    }
  }

  lemma FilterWithin(m: map<string, Totals>, completed: seq<File>, p: File -> bool)
    requires WithinLimits(m, completed)
    ensures WithinLimits(m, Filter(p, completed))
  {
    forall t
      ensures Sum(FileCount(t), Filter(p, completed)) <= Sum(FileCount(t), completed)
      ensures Sum(FileBytes(t), Filter(p, completed)) <= Sum(FileBytes(t), completed)
    {
      SumFilter(FileCount(t), p, completed);
      SumFilter(FileBytes(t), p, completed);
    }
  }

  lemma SizesPush(live: seq<Write>, w: Write)
    requires UploadsFit(live) && 1 <= w.file.size <= MAX_FILE_BYTES && w.written <= w.file.size
    requires !w.spent
    ensures UploadsFit(live + [w])
  {
  }

  lemma OpenIsUnspent(live: seq<Write>, i: nat)
    requires UploadsFit(live) && i < |live| && live[i].open
    ensures !live[i].spent
  {
  }

  lemma SizesWithout(live: seq<Write>, i: nat)
    requires UploadsFit(live) && i < |live|
    ensures UploadsFit(Without(live, i))
  {
  }

  // ---------- content ----------

  lemma BackedPush(completed: seq<File>, blobs: seq<Blob>, file: File, blob: Blob)
    requires Backed(completed, blobs) && blob == Blob(file.hash, file.size)
    ensures Backed(completed + [file], blobs + [blob])
    ensures blob in blobs ==> Backed(completed + [file], blobs)
  {
  }

  lemma FilterBacked(completed: seq<File>, blobs: seq<Blob>, p: File -> bool)
    requires Backed(completed, blobs)
    ensures Backed(Filter(p, completed), blobs)
  {
    forall f | f in Filter(p, completed) ensures Blob(f.hash, f.size) in blobs {
      FilterMembers(p, completed, f);
    }
  }

  /** Collection never removes content that a stored file refers to. */
  lemma CollectionKeepsContent(completed: seq<File>, blobs: seq<Blob>, swept: Option<set<string>>)
    requires Backed(completed, blobs)
    ensures Backed(completed, Collected(completed, blobs, swept))
    ensures swept.None? ==>
              forall b :: b in Collected(completed, blobs, swept) ==> Referenced(completed, b.hash)
  {
    forall i | 0 <= i < |completed|
      ensures Blob(completed[i].hash, completed[i].size) in Collected(completed, blobs, swept)
    {
      FilterMembers(Survives(completed, swept), blobs, Blob(completed[i].hash, completed[i].size));
    }
    forall b | b in Collected(completed, blobs, swept)
      ensures swept.None? ==> Referenced(completed, b.hash)
    {
      FilterMembers(Survives(completed, swept), blobs, b);
    }
  }
}
