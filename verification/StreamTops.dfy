/**
 The independent answers to "how far has this stream got", and the cap on how
 many streams an account may have (go/internal/store/store.go:448-491, 719-723,
 limits.go:48-61, admin.go:97-105; go/internal/api/limits.go:168-179).
 */
module StreamTops {
  import opened Tables
  import opened Pruning
  import opened Paging
  import opened Handlers
  import opened Stores
  import opened Accounts

  /** In every valid database the version vector, the mark of each stream and
      the stream count describe the same streams. */
  lemma ViewsAgree(db: Db, user: User, v: Vector)
    requires db.Valid()
    ensures IsUserVector(db, user, v) <==>
            v.Keys == Streams(db, user) && forall d :: d in v ==> v[d] == StreamMark(db, Stream(user, d))
    ensures IsUserVector(db, user, v) ==> |v| == |Streams(db, user)|
  {
    StreamsArePositive(db, user);
    hide StreamMark, Streams;
    if IsUserVector(db, user, v) {
      VectorCounts(db, user, v);
    } else if v.Keys == Streams(db, user) {
      hide IsUserVector;
      assert IsUserVector(db, user, v) <==> forall d :: d in v ==> v[d] == StreamMark(db, Stream(user, d)) by {
        KeysMakeVector(db, user, v);
      }
    }
  }

  lemma KeysMakeVector(db: Db, user: User, v: Vector)
    requires v.Keys == Streams(db, user) && forall d :: d in Streams(db, user) <==> StreamMark(db, Stream(user, d)) > 0
    ensures IsUserVector(db, user, v) <==> forall d :: d in v ==> v[d] == StreamMark(db, Stream(user, d))
  {
    hide StreamMark, Streams;
  }

  /** A prune creates no stream and loses none, whatever devices it names. */
  lemma PruneKeepsStreams(db: Db, c: Claim, user: User)
    requires db.Valid()
    ensures Streams(Pruned(db, c), user) == Streams(db, user)
  {
    PruneBlastRadius(db, c);
    hide Pruned, Streams;
    StreamsArePositive(db, user);
    StreamsArePositive(Pruned(db, c), user);
  }

  lemma InsertAddsStream(db: Db, s: Slot, row: Row, blobs: seq<BlobId>, user: User)
    requires db.Valid() && s.stream.user in db.users && s.counter >= 1
    ensures Streams(Insert(db, s, row, blobs).db, user)
            == Streams(db, user) + if IsNext(db, s) && s.stream.user == user then {s.stream.device} else {}
  {
    var after := Insert(db, s, row, blobs).db;
    if IsNext(db, s) {
      assert after.packets.Keys == db.packets.Keys + {s};
      assert after.marks.Keys == db.marks.Keys + {s.stream};
    } else {
      assert after.packets.Keys == db.packets.Keys && after.marks == db.marks;
    }
    hide Insert;
  }

  ghost predicate Capped(db: Db, cfg: Config, user: User) {
    cfg.maxStreams > 0 ==> |Streams(db, user)| <= cfg.maxStreams
  }

  lemma UploadRespectsCap(db: Db, cfg: Config, hash: Hash, req: Request, diskOk: bool, user: User)
    requires db.Valid() && req.user in db.users && Capped(db, cfg, user)
    ensures Capped(Upload(db, cfg, hash, req, diskOk).0, cfg, user)
  {
    hide Upload, Streams, IsNext, StorageAdmits, Stored;
    UploadCases(db, cfg, hash, req, diskOk);
    if Upload(db, cfg, hash, req, diskOk).0 != db {
      StoredStreams(db, hash, req, user);
      if IsNext(db, req.Slot()) && req.user == user { NewStreamFits(db, cfg, req, diskOk); }
      assert Streams(db, user) + {} == Streams(db, user);
    }
  }

  lemma NewStreamFits(db: Db, cfg: Config, req: Request, diskOk: bool)
    requires db.Valid() && Capped(db, cfg, req.user) && IsNext(db, req.Slot()) && StorageAdmits(db, cfg, req, diskOk)
    ensures cfg.maxStreams > 0 ==> |Streams(db, req.user) + {req.origin}| <= cfg.maxStreams
  {
    StreamsArePositive(db, req.user);
    hide Streams, StreamMark, QuotaAdmits, Credit;
    assert req.Slot().stream == Stream(req.user, req.origin);
    OneMore(Streams(db, req.user), req.origin);
  }

  lemma OneMore(devices: set<Device>, d: Device)
    ensures |devices + {d}| == |devices| + if d in devices then 0 else 1
  {
    assert d in devices ==> devices + {d} == devices;
  }

  lemma StoredStreams(db: Db, hash: Hash, req: Request, user: User)
    requires db.Valid() && req.user in db.users && req.counter >= 1
    ensures Streams(Stored(db, hash, req).0, user)
            == Streams(db, user) + if IsNext(db, req.Slot()) && req.user == user then {req.origin} else {}
  {
    var ins := Insert(db, req.Slot(), req.Row(hash), req.blobs);
    InsertKeepsValid(db, req.Slot(), req.Row(hash), req.blobs);
    InsertAddsStream(db, req.Slot(), req.Row(hash), req.blobs, user);
    hide Insert, Pruned, Streams, PruneTally, StreamMark, IsNext;
    if req.covers.Some? { PruneKeepsStreams(ins.db, req.Claim(), user); }
  }

  lemma TurnRespectsCap(db: Db, cfg: Config, hashOf: Bytes -> Hash, t: Turn, user: User)
    requires db.Valid() && Capped(db, cfg, user)
    ensures Capped(Take(db, cfg, hashOf, t), cfg, user)
  {
    var after := Take(db, cfg, hashOf, t);
    hide Upload, Streams, UserDeleted;
    match t {
      case UploadTurn(req, diskOk) =>
        if req.user in db.users { UploadRespectsCap(db, cfg, hashOf(req.payload), req, diskOk, user); }
      case BlobTurn(b, payload, diskOk) => SameStreams(db, after, user);
      case RegisterTurn(u) => SameStreams(db, after, user);
      case DeleteTurn(u) =>
        DeletionLosesStreams(db, u, user);
        Fewer(Streams(after, user), Streams(db, user));
    }
  }

  lemma SameStreams(db: Db, after: Db, user: User)
    ensures after.marks == db.marks && after.packets == db.packets ==> Streams(after, user) == Streams(db, user)
  {
  }

  lemma DeletionLosesStreams(db: Db, u: User, user: User)
    ensures Streams(UserDeleted(db, u), user) <= Streams(db, user)
  {
  }

  lemma Fewer(some: set<Device>, all: set<Device>)
    requires some <= all
    ensures |some| <= |all|
  {
    assert all == some + (all - some);
  }

  /** Over any run of handlers no account exceeds the cap on its streams. */
  lemma {:induction false} RunRespectsCap(db: Db, cfg: Config, hashOf: Bytes -> Hash, ts: seq<Turn>, user: User)
    requires db.Valid() && Capped(db, cfg, user)
    ensures Capped(Run(db, cfg, hashOf, ts), cfg, user)
    decreases |ts|
  {
    if ts != [] {
      hide Take, Capped;
      RunRespectsCap(db, cfg, hashOf, ts[..|ts| - 1], user);
      RunKeepsValid(db, cfg, hashOf, ts[..|ts| - 1]);
      TurnRespectsCap(Run(db, cfg, hashOf, ts[..|ts| - 1]), cfg, hashOf, ts[|ts| - 1], user);
    }
  }
}
