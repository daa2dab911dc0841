/**
 Runs in which handlers take turns, and the storage quota over them
 (go/internal/api/limits.go:145-241, go/internal/api/changes_handlers.go:153-179).
 */
module Accounts {
  import opened Sums
  import opened Tables
  import opened Pruning
  import opened Handlers

  datatype Turn =
    | UploadTurn(req: Request, diskOk: bool)
    | BlobTurn(blob: BlobKey, payload: Bytes, diskOk: bool)
    | RegisterTurn(newUser: User)
    | DeleteTurn(oldUser: User)

  /** The database after one handler. Only a registered user gets past
      authentication. */
  ghost function Take(db: Db, cfg: Config, hashOf: Bytes -> Hash, t: Turn): Db {
    match t
    case UploadTurn(req, diskOk) =>
      if req.user in db.users then Upload(db, cfg, hashOf(req.payload), req, diskOk).0 else db
    case BlobTurn(b, payload, diskOk) =>
      if b.user in db.users then PutBlob(db, cfg, b, payload, diskOk).0 else db
    case RegisterTurn(u) => db.(users := db.users + {u})
    case DeleteTurn(u) => UserDeleted(db, u)
  }

  ghost function Run(db: Db, cfg: Config, hashOf: Bytes -> Hash, ts: seq<Turn>): Db
    decreases |ts|
  {
    if ts == [] then db else Take(Run(db, cfg, hashOf, ts[..|ts| - 1]), cfg, hashOf, ts[|ts| - 1])
  }

  lemma StoredKeepsValid(db: Db, hash: Hash, req: Request)
    requires db.Valid() && req.user in db.users && req.counter >= 1
    ensures Stored(db, hash, req).0.Valid()
  {
    var ins := Insert(db, req.Slot(), req.Row(hash), req.blobs);
    InsertKeepsValid(db, req.Slot(), req.Row(hash), req.blobs);
    if req.covers.Some? { PruneKeepsValid(ins.db, req.Claim()); }
  }

  lemma TakeKeepsValid(db: Db, cfg: Config, hashOf: Bytes -> Hash, t: Turn)
    requires db.Valid()
    ensures Take(db, cfg, hashOf, t).Valid()
  {
    if t.UploadTurn? && t.req.user in db.users && t.req.counter >= 1 {
      StoredKeepsValid(db, hashOf(t.req.payload), t.req);
    }
  }

  lemma {:induction false} RunKeepsValid(db: Db, cfg: Config, hashOf: Bytes -> Hash, ts: seq<Turn>)
    requires db.Valid()
    ensures Run(db, cfg, hashOf, ts).Valid()
    decreases |ts|
  {
    if ts != [] {
      RunKeepsValid(db, cfg, hashOf, ts[..|ts| - 1]);
      TakeKeepsValid(Run(db, cfg, hashOf, ts[..|ts| - 1]), cfg, hashOf, ts[|ts| - 1]);
    }
  }

  // ------------------------------------------------------------------- quota

  /** A new packet adds its size to its own account. */
  lemma InsertGrows(db: Db, s: Slot, row: Row, blobs: seq<BlobId>, user: User)
    requires IsNext(db, s)
    ensures var after := Insert(db, s, row, blobs).db;
            StorageBytes(after, user) == StorageBytes(db, user) + if user == s.stream.user then |row.payload| else 0
  {
    var after := Insert(db, s, row, blobs).db;
    assert s == Slot(s.stream, s.counter) && s !in db.packets;
    assert UserBlobs(after, user) == UserBlobs(db, user);
    if user == s.stream.user {
      assert Sizes(after.packets, UserSlots(after, user)) == Sizes(db.packets, UserSlots(db, user))[s := |row.payload|];
      SumAdd(Sizes(db.packets, UserSlots(db, user)), s, |row.payload|);
    } else {
      assert Sizes(after.packets, UserSlots(after, user)) == Sizes(db.packets, UserSlots(db, user));
    }
  }

  /** Re-sending a held slot stores nothing. */
  lemma HeldKeepsBytes(db: Db, s: Slot, row: Row, blobs: seq<BlobId>, user: User)
    requires !IsNext(db, s)
    ensures StorageBytes(Insert(db, s, row, blobs).db, user) == StorageBytes(db, user)
  {
    var after := Insert(db, s, row, blobs).db;
    assert UserBlobs(after, user) == UserBlobs(db, user);
    assert Sizes(after.packets, UserSlots(after, user)) == Sizes(db.packets, UserSlots(db, user));
  }

  /** A prune never adds, and takes from the claiming account only. */
  lemma PruneShrinks(db: Db, c: Claim, user: User)
    requires db.Valid()
    ensures StorageBytes(Pruned(db, c), user)
            == StorageBytes(db, user) - if user == c.user then PruneTally(db, c).bytes + PruneTally(db, c).blobBytes
                else 0
  {
    if user == c.user {
      hide PruneTally, Pruned, StorageBytes;
      PruneTallyIsConservation(db, c);
    } else {
      PruneSparesOthers(db, c, user);
    }
  }

  lemma PruneSparesOthers(db: Db, c: Claim, user: User)
    requires db.Valid() && user != c.user
    ensures StorageBytes(Pruned(db, c), user) == StorageBytes(db, user)
  {
    PruneBlastRadius(db, c);
    hide Pruned, StorageBytes;
    SameBytes(db, Pruned(db, c), user);
  }

  /** An account's bytes depend on its own rows only. */
  lemma SameBytes(db: Db, after: Db, user: User)
    requires forall s: Slot :: s.stream.user == user ==> (s in db.packets <==> s in after.packets)
    requires forall s: Slot :: s.stream.user == user && s in db.packets ==>
               db.packets[s].payload == after.packets[s].payload
    requires forall b: BlobKey :: b.user == user ==> (b in db.blobs <==> b in after.blobs)
    requires forall b: BlobKey :: b.user == user && b in db.blobs ==> db.blobs[b] == after.blobs[b]
    ensures StorageBytes(after, user) == StorageBytes(db, user)
  {
    assert Sizes(after.packets, UserSlots(after, user)) == Sizes(db.packets, UserSlots(db, user));
    assert BlobSizes(after.blobs, UserBlobs(after, user)) == BlobSizes(db.blobs, UserBlobs(db, user));
  }

  /** What an accepted upload does to its account's bytes: the new payload, less
      what the prune reports. */
  lemma StoredBytes(db: Db, hash: Hash, req: Request, user: User)
    requires db.Valid() && req.user in db.users && req.counter >= 1
    ensures var (after, outcome) := Stored(db, hash, req);
            var added := if IsNext(db, req.Slot()) && user == req.user then |req.payload| else 0;
            var ins := Insert(db, req.Slot(), req.Row(hash), req.blobs).db;
            var freed := if req.covers.Some? && !outcome.Gap? && user == req.user
                         then PruneTally(ins, req.Claim()).bytes + PruneTally(ins, req.Claim()).blobBytes else 0;
            StorageBytes(after, user) == StorageBytes(db, user) + added - freed
  {
    var ins := Insert(db, req.Slot(), req.Row(hash), req.blobs);
    InsertKeepsValid(db, req.Slot(), req.Row(hash), req.blobs);
    if IsNext(db, req.Slot()) {
      InsertGrows(db, req.Slot(), req.Row(hash), req.blobs, user);
    } else {
      HeldKeepsBytes(db, req.Slot(), req.Row(hash), req.blobs, user);
    }
    if req.covers.Some? { PruneShrinks(ins.db, req.Claim(), user); }
  }

  /** A completed upload leaves every account at or below the greater of what it
      used before and the quota. */
  lemma UploadRespectsQuota(db: Db, cfg: Config, hash: Hash, req: Request, diskOk: bool, user: User)
    requires db.Valid() && req.user in db.users && cfg.quota > 0
    ensures StorageBytes(Upload(db, cfg, hash, req, diskOk).0, user) <= Max(StorageBytes(db, user), cfg.quota)
  {
    UploadCases(db, cfg, hash, req, diskOk);
    hide Upload, StorageBytes, StorageAdmits, Stored;
    if Upload(db, cfg, hash, req, diskOk).0 != db { StoredRespectsQuota(db, cfg, hash, req, diskOk, user); }
  }

  lemma UploadCases(db: Db, cfg: Config, hash: Hash, req: Request, diskOk: bool)
    ensures var after := Upload(db, cfg, hash, req, diskOk).0;
            after == db || (after == Stored(db, hash, req).0 && req.counter >= 1 && StorageAdmits(db, cfg, req, diskOk))
  {
    hide Stored, StorageAdmits;
  }

  lemma StoredRespectsQuota(db: Db, cfg: Config, hash: Hash, req: Request, diskOk: bool, user: User)
    requires db.Valid() && req.user in db.users && cfg.quota > 0 && req.counter >= 1
             && StorageAdmits(db, cfg, req, diskOk)
    ensures StorageBytes(Stored(db, hash, req).0, user) <= Max(StorageBytes(db, user), cfg.quota)
  {
    StoredBytes(db, hash, req, user);
    assert Stored(db, hash, req).1.Gap? ==> !IsNext(db, req.Slot());
    if IsNext(db, req.Slot()) && req.covers.Some? { CreditIsFreed(db, cfg, hash, req); }
    hide Stored, StorageBytes, Insert, PruneTally, IsNext, CoveredSlots;
  }

  /** The credit is what the upload's own prune will report. */
  lemma CreditIsFreed(db: Db, cfg: Config, hash: Hash, req: Request)
    requires db.Valid() && req.user in db.users && req.counter >= 1 && IsNext(db, req.Slot()) && req.covers.Some?
    ensures var ins := Insert(db, req.Slot(), req.Row(hash), req.blobs).db;
            PruneTally(ins, req.Claim()).bytes == BytesOf(db.packets, CoveredSlots(db, req.Claim()))
  {
    var ins := Insert(db, req.Slot(), req.Row(hash), req.blobs).db;
    InsertKeepsValid(db, req.Slot(), req.Row(hash), req.blobs);
    hide PruneTally, CoveredSlots, StreamMark;
    CreditMatchesPrune(db, req.Claim(), req.Row(hash), ins);
  }

  lemma BlobRespectsQuota(db: Db, cfg: Config, b: BlobKey, payload: Bytes, diskOk: bool, user: User)
    requires cfg.quota > 0
    ensures StorageBytes(PutBlob(db, cfg, b, payload, diskOk).0, user) <= Max(StorageBytes(db, user), cfg.quota)
  {
    var after := PutBlob(db, cfg, b, payload, diskOk).0;
    if after != db {
      if user == b.user {
        assert BlobSizes(after.blobs, UserBlobs(after, user))
                 == BlobSizes(db.blobs, UserBlobs(db, user))[b := |payload|];
        SumAdd(BlobSizes(db.blobs, UserBlobs(db, user)), b, |payload|);
      } else {
        assert BlobSizes(after.blobs, UserBlobs(after, user)) == BlobSizes(db.blobs, UserBlobs(db, user));
      }
    }
  }

  lemma DeletionShrinks(db: Db, u: User, user: User)
    ensures StorageBytes(UserDeleted(db, u), user) <= StorageBytes(db, user)
  {
    var after := UserDeleted(db, u);
    SumPart(Sizes(after.packets, UserSlots(after, user)), Sizes(db.packets, UserSlots(db, user)));
    SumPart(BlobSizes(after.blobs, UserBlobs(after, user)), BlobSizes(db.blobs, UserBlobs(db, user)));
  }

  lemma TurnRespectsQuota(db: Db, cfg: Config, hashOf: Bytes -> Hash, t: Turn, user: User)
    requires db.Valid() && cfg.quota > 0
    ensures StorageBytes(Take(db, cfg, hashOf, t), user) <= Max(StorageBytes(db, user), cfg.quota)
  {
    match t {
      case UploadTurn(req, diskOk) =>
        if req.user in db.users { UploadRespectsQuota(db, cfg, hashOf(req.payload), req, diskOk, user); }
      case BlobTurn(b, payload, diskOk) => BlobRespectsQuota(db, cfg, b, payload, diskOk, user);
      case RegisterTurn(u) => SameBytes(db, Take(db, cfg, hashOf, t), user);
      case DeleteTurn(u) => DeletionShrinks(db, u, user);
    }
  }

  /** Over any run of handlers with a fixed quota, no account ends a handler
      above the greater of where it began and the quota; one that began empty
      is never above its quota. */
  lemma {:induction false} RunRespectsQuota(db: Db, cfg: Config, hashOf: Bytes -> Hash, ts: seq<Turn>, user: User)
    requires db.Valid() && cfg.quota > 0
    ensures StorageBytes(Run(db, cfg, hashOf, ts), user) <= Max(StorageBytes(db, user), cfg.quota)
    decreases |ts|
  {
    if ts != [] {
      hide Take, StorageBytes;
      RunRespectsQuota(db, cfg, hashOf, ts[..|ts| - 1], user);
      RunKeepsValid(db, cfg, hashOf, ts[..|ts| - 1]);
      TurnRespectsQuota(Run(db, cfg, hashOf, ts[..|ts| - 1]), cfg, hashOf, ts[|ts| - 1], user);
    }
  }

  /** The quota bounds completed handlers only: a snapshot of one byte that
      covers a packet of two is admitted to an account standing at its quota of
      two, which it exceeds until the prune. */
  lemma SnapshotPassesAboveQuota(hash: Hash)
    ensures var t := Stream(1, "d");
            var db := Db({1}, map[Slot(t, 1) := Row([0, 0], hash, false)], map[t := 1], map[], {});
            var req := Request(1, "d", 2, [0], Some(map["d" := 1]), []);
            var cfg := Config(10, 10, 2, 0);
            && StorageBytes(db, 1) == cfg.quota
            && Upload(db, cfg, hash, req, true) == Stored(db, hash, req)
            && StorageBytes(Insert(db, req.Slot(), req.Row(hash), req.blobs).db, 1) > cfg.quota
  {
    var t := Stream(1, "d");
    var db := Db({1}, map[Slot(t, 1) := Row([0, 0], hash, false)], map[t := 1], map[], {});
    var req := Request(1, "d", 2, [0], Some(map["d" := 1]), []);
    assert IsMark(db, t, 1);
    OneRow(db, 1, Slot(t, 1), 2);
    InsertGrows(db, req.Slot(), req.Row(hash), req.blobs, 1);
    assert CoveredSlots(db, req.Claim()) == UserSlots(db, 1);
    assert BlobSizes(db.blobs, UserBlobs(db, 1)) == map[];
  }

  lemma OneRow(db: Db, user: User, s: Slot, size: nat)
    requires s.stream.user == user && db.packets.Keys == {s} && |db.packets[s].payload| == size && db.blobs == map[]
    ensures StorageBytes(db, user) == size
  {
    assert Sizes(db.packets, UserSlots(db, user)) == map[][s := size];
    SumAdd<Slot>(map[], s, size);
    assert BlobSizes(db.blobs, UserBlobs(db, user)) == map[];
  }
}
