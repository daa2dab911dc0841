/**
 What one upload or blob upload does when it runs alone
 (uploadPacket, go/internal/api/changes_handlers.go:72-188; InsertPacket,
 go/internal/store/store.go:521-573; the storage checks,
 go/internal/api/limits.go:153-241; putBlob, go/internal/api/blobs_handlers.go:23-62).
 */
module Handlers {
  import opened Tables
  import opened Pruning

  /** The decoded upload. covers is None when no declaration was sent. */
  datatype Request = Request(
    user: User, origin: Device, counter: int, payload: Bytes,
    covers: Option<map<Device, int>>, blobs: seq<BlobId>)
  {
    function Slot(): Slot { Tables.Slot(Stream(user, origin), counter) }

    function Claim(): Claim
      requires covers.Some?
    {
      Pruning.Claim(user, covers.value, origin, counter)
    }

    function Row(hash: Hash): Row { Tables.Row(payload, hash, covers.Some?) }
  }

  /** Limits; 0 switches quota and maxStreams off. */
  datatype Config = Config(maxPayload: nat, maxBlob: nat, quota: nat, maxStreams: nat)

  datatype Outcome =
    | TooLarge
    | Invalid
    | BlobsMissing(ids: seq<BlobId>)
    | NoStorage
    | Gap(next: int)
    | Created(pruned: Option<PruneResult>)
    | AlreadyHeld(pruned: Option<PruneResult>)

  /** Devices with a row in stream_marks or packets (StreamCount). */
  function Streams(db: Db, user: User): set<Device> {
    (set t | t in db.marks && t.user == user :: t.device) +
    (set s | s in db.packets && s.stream.user == user :: s.stream.device)
  }

  // --------------------------------------------------------------- the checks

  /** checkQuota: growth of delta bytes is admitted. */
  ghost predicate QuotaAdmits(db: Db, cfg: Config, user: User, delta: int) {
    cfg.quota == 0 || delta <= 0 || StorageBytes(db, user) + delta <= cfg.quota
  }

  /** CoveredBytes: the credit a declaration earns. */
  ghost function Credit(db: Db, cfg: Config, req: Request): nat {
    if req.covers.Some? && cfg.quota > 0 then BytesOf(db.packets, CoveredSlots(db, req.Claim())) else 0
  }

  /** checkPacketStorage. diskOk is the free-space reading. */
  ghost predicate StorageAdmits(db: Db, cfg: Config, req: Request, diskOk: bool) {
    IsNext(db, req.Slot()) ==>
      && diskOk
      && (StreamMark(db, req.Slot().stream) == 0 && cfg.maxStreams > 0 ==> |Streams(db, req.user)| < cfg.maxStreams)
      && QuotaAdmits(db, cfg, req.user, |req.payload| - Credit(db, cfg, req))
  }

  function Missing(db: Db, user: User, ids: seq<BlobId>): seq<BlobId> {
    if ids == [] then []
    else
      var rest := Missing(db, user, ids[..|ids| - 1]);
      var id := ids[|ids| - 1];
      if BlobKey(user, id) in db.blobs then rest else rest + [id]
  }

  // ------------------------------------------------------------- InsertPacket

  datatype Insertion = Insertion(db: Db, inserted: bool, held: int)

  ghost function Insert(db: Db, s: Slot, row: Row, blobs: seq<BlobId>): Insertion {
    if IsNext(db, s) then
      Insertion(ReferencedAll(Raised(Inserted(db, s, row), s.stream, s.counter), s, blobs), true, s.counter)
    else if s.counter <= StreamMark(db, s.stream) then
      var recorded := ReferencedAll(db, s, blobs);
      Insertion(if row.snapshot then Flagged(recorded, s) else recorded, false, StreamMark(db, s.stream))
    else
      Insertion(db, false, StreamMark(db, s.stream))
  }

  lemma InsertKeepsValid(db: Db, s: Slot, row: Row, blobs: seq<BlobId>)
    requires db.Valid() && s.stream.user in db.users && s.counter >= 1
    ensures Insert(db, s, row, blobs).db.Valid()
  {
  }

  // ------------------------------------------------------------- uploadPacket

  ghost function Upload(db: Db, cfg: Config, hash: Hash, req: Request, diskOk: bool): (Db, Outcome) {
    if |req.payload| > cfg.maxPayload then (db, TooLarge)
    else if req.payload == [] || req.counter < 1 then (db, Invalid)
    else if Missing(db, req.user, req.blobs) != [] then (db, BlobsMissing(Missing(db, req.user, req.blobs)))
    else if !StorageAdmits(db, cfg, req, diskOk) then (db, NoStorage)
    else Stored(db, hash, req)
  }

  /** The part of uploadPacket after the checks. */
  ghost function Stored(db: Db, hash: Hash, req: Request): (Db, Outcome) {
    var ins := Insert(db, req.Slot(), req.Row(hash), req.blobs);
    if !ins.inserted && req.counter > ins.held then (ins.db, Gap(ins.held + 1))
    else
      var after := if req.covers.Some? then Pruned(ins.db, req.Claim()) else ins.db;
      var pruned := if req.covers.Some? then Some(PruneTally(ins.db, req.Claim())) else None;
      (after, if ins.inserted then Created(pruned) else AlreadyHeld(pruned))
  }

  // ------------------------------------------------------------------ putBlob

  datatype BlobOutcome = BlobInvalid | BlobTooLarge | BlobRefused | BlobCreated | BlobHeld

  ghost predicate BlobAdmits(db: Db, cfg: Config, b: BlobKey, size: nat, diskOk: bool) {
    b in db.blobs || (diskOk && QuotaAdmits(db, cfg, b.user, size))
  }

  ghost function PutBlob(db: Db, cfg: Config, b: BlobKey, payload: Bytes, diskOk: bool): (Db, BlobOutcome) {
    if |payload| > cfg.maxBlob then (db, BlobTooLarge)
    else if payload == [] then (db, BlobInvalid)
    else if !BlobAdmits(db, cfg, b, |payload|, diskOk) then (db, BlobRefused)
    else (BlobPut(db, b, payload), if b in db.blobs then BlobHeld else BlobCreated)
  }
}
