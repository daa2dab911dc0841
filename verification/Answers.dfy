/**
 When an upload is admitted and what every answer means, for packets
 (go/internal/api/changes_handlers.go:103-187, go/internal/api/limits.go:145-189)
 and for blobs (go/internal/api/blobs_handlers.go:29-61), in terms of what the
 account holds before and after.
 */
module Answers {
  import opened Sums
  import opened Tables
  import opened Pruning
  import opened Paging
  import opened Handlers
  import opened Stores
  import opened Accounts
  import opened Attachments
  import opened Retries

  ghost function PacketBytes(db: Db, user: User): nat { BytesOf(db.packets, UserSlots(db, user)) }

  /** How many packet bytes the account loses if the upload is stored and pruned,
      its own payload aside. */
  ghost function Reclaimed(db: Db, hash: Hash, req: Request): int {
    PacketBytes(db, req.user) + |req.payload| - PacketBytes(Stored(db, hash, req).0, req.user)
  }

  lemma InsertedBytes(db: Db, s: Slot, row: Row, blobs: seq<BlobId>)
    requires db.Valid() && IsNext(db, s)
    ensures PacketBytes(Insert(db, s, row, blobs).db, s.stream.user) == PacketBytes(db, s.stream.user) + |row.payload|
  {
    var u, after := s.stream.user, Insert(db, s, row, blobs).db;
    assert s !in db.packets by { assert s == Slot(s.stream, s.counter); }
    assert Sizes(after.packets, UserSlots(after, u)) == Sizes(db.packets, UserSlots(db, u))[s := |row.payload|];
    SumAdd(Sizes(db.packets, UserSlots(db, u)), s, |row.payload|);
  }

  /** What a declaration is credited with is what its prune will reclaim, from all
      the streams it covers. */
  lemma CreditIsReclaimed(db: Db, cfg: Config, hash: Hash, req: Request)
    requires db.Valid() && req.user in db.users && req.counter >= 1 && IsNext(db, req.Slot()) && cfg.quota > 0
    ensures Credit(db, cfg, req) == Reclaimed(db, hash, req)
  {
    var ins := Insert(db, req.Slot(), req.Row(hash), req.blobs).db;
    InsertKeepsValid(db, req.Slot(), req.Row(hash), req.blobs);
    InsertedBytes(db, req.Slot(), req.Row(hash), req.blobs);
    if req.covers.Some? {
      CreditIsFreed(db, cfg, hash, req);
      PruneTallyIsConservation(ins, req.Claim());
      assert Stored(db, hash, req).0 == Pruned(ins, req.Claim());
    } else {
      assert Stored(db, hash, req).0 == ins;
    }
    hide Insert, Stored, Pruned, PruneTally, CoveredSlots, IsNext, StorageBytes;
  }

  /** An acceptable upload whose blobs are held is refused for storage exactly when
      it is the next of its stream and the disk refuses, or it would begin a stream
      the account may not have, or its payload exceeds what its prune will reclaim
      and takes the account over its quota nonetheless. */
  lemma RefusedIff(db: Db, cfg: Config, hash: Hash, req: Request, diskOk: bool, v: Vector)
    requires db.Valid() && req.user in db.users && req.counter >= 1 && 0 < |req.payload| <= cfg.maxPayload
    requires forall id :: id in req.blobs ==> BlobKey(req.user, id) in db.blobs
    requires IsUserVector(db, req.user, v)
    ensures Upload(db, cfg, hash, req, diskOk).1.NoStorage? <==>
              && req.counter == Held(v, req.origin) + 1
              && (|| !diskOk
                  || (req.origin !in v && cfg.maxStreams > 0 && |v| >= cfg.maxStreams)
                  || (cfg.quota > 0 && |req.payload| > Reclaimed(db, hash, req)
                      && StorageBytes(db, req.user) + |req.payload| - Reclaimed(db, hash, req) > cfg.quota))
  {
    hide Upload, Stored, StorageBytes, Streams, StreamMark, IsUserVector, Missing, Reclaimed, IsNext, Credit;
    NothingMissing(db, req.user, req.blobs);
    RefusedUnlessAdmitted(db, cfg, hash, req, diskOk);
    VectorCounts(db, req.user, v);
    NextByVector(db, req, v);
    if IsNext(db, req.Slot()) && cfg.quota > 0 { CreditIsReclaimed(db, cfg, hash, req); }
  }

  lemma RefusedUnlessAdmitted(db: Db, cfg: Config, hash: Hash, req: Request, diskOk: bool)
    requires req.counter >= 1 && 0 < |req.payload| <= cfg.maxPayload && Missing(db, req.user, req.blobs) == []
    ensures Upload(db, cfg, hash, req, diskOk).1.NoStorage? <==> !StorageAdmits(db, cfg, req, diskOk)
    ensures StorageAdmits(db, cfg, req, diskOk) ==> Upload(db, cfg, hash, req, diskOk) == Stored(db, hash, req)
  {
    hide StorageAdmits, Insert, Pruned, PruneTally;
  }

  lemma NextByVector(db: Db, req: Request, v: Vector)
    requires db.Valid() && IsUserVector(db, req.user, v)
    ensures IsNext(db, req.Slot()) <==> req.counter == Held(v, req.origin) + 1
    ensures StreamMark(db, req.Slot().stream) == 0 <==> req.origin !in v
  {
    hide StreamMark;
    assert req.Slot().stream == Stream(req.user, req.origin);
  }

  /** All that storing a packet changes, before any prune. A new slot gets the bytes
      sent, their hash, and a flag if coverage was declared, and its stream's mark
      becomes its counter. A held one is flagged if coverage was declared and
      otherwise left as it is. Both get the declared references, and no other slot,
      mark or reference is touched. */
  lemma InsertIs(db: Db, s: Slot, row: Row, blobs: seq<BlobId>)
    requires db.Valid() && s.counter >= 1
    ensures var after := Insert(db, s, row, blobs).db;
            var m := StreamMark(db, s.stream);
            && after.users == db.users && after.blobs == db.blobs
            && (forall x :: x in after.packets <==> x in db.packets || (x == s && s.counter == m + 1))
            && (forall x :: x in db.packets && x != s ==> after.packets[x] == db.packets[x])
            && (s.counter == m + 1 ==> after.packets[s] == row && after.marks == db.marks[s.stream := s.counter])
            && (s.counter != m + 1 ==> after.marks == db.marks)
            && (s in db.packets ==>
                  after.packets[s] == db.packets[s].(snapshot := db.packets[s].snapshot || row.snapshot))
            && (forall r :: r in after.refs <==> r in db.refs || (r.slot == s && r.blob in blobs && s.counter <= m + 1))
  {
    assert s == Slot(s.stream, s.counter);
    assert s in db.packets ==> s.counter <= StreamMark(db, s.stream);
    hide StreamMark;
  }

  /** Every other answer of an upload: too large, empty or not positive, naming
      blobs that are not held, and past those and storage whatever the stream's
      mark decides. A refusal changes nothing. */
  lemma UploadAnswers(db: Db, cfg: Config, hash: Hash, req: Request, diskOk: bool)
    requires db.Valid() && req.user in db.users
    ensures var (after, answer) := Upload(db, cfg, hash, req, diskOk);
            var wellFormed := 0 < |req.payload| <= cfg.maxPayload && req.counter >= 1;
            var held := forall id :: id in req.blobs ==> BlobKey(req.user, id) in db.blobs;
            var m := StreamMark(db, req.Slot().stream);
            && (answer.TooLarge? <==> |req.payload| > cfg.maxPayload)
            && (answer.Invalid? <==> |req.payload| <= cfg.maxPayload && (req.payload == [] || req.counter < 1))
            && (answer.BlobsMissing? <==> wellFormed && !held)
            && (answer.BlobsMissing? ==>
                  forall id :: id in answer.ids <==> id in req.blobs && BlobKey(req.user, id) !in db.blobs)
            && (answer.Created? ==> wellFormed && held && req.counter == m + 1)
            && (answer.AlreadyHeld? <==> wellFormed && held && req.counter <= m)
            && (answer.Gap? <==> wellFormed && held && req.counter > m + 1)
            && (!answer.Created? && !answer.AlreadyHeld? ==> after == db)
  {
    NothingMissing(db, req.user, req.blobs);
    if 0 < |req.payload| <= cfg.maxPayload && req.counter >= 1 {
      AnswerTellsMark(db, hash, req);
      hide Stored, StreamMark, QuotaAdmits, Credit, Streams, Missing;
    }
  }

  /** What a 200 or 201 reports is what left the tables: packets, blobs, and the
      bytes by which the account is smaller than it would have been unpruned. It
      is reported exactly when coverage was declared. */
  lemma PrunedIsReported(db: Db, hash: Hash, req: Request)
    requires db.Valid() && req.user in db.users && req.counter >= 1 && !Stored(db, hash, req).1.Gap?
    ensures var (after, answer) := Stored(db, hash, req);
            var taken := if answer.Created? then 1 else 0;
            var pruned := answer.pruned;
            && (pruned.Some? <==> req.covers.Some?)
            && (pruned.Some? ==>
                  && pruned.value.packets == |db.packets| + taken - |after.packets|
                  && pruned.value.blobs == |db.blobs| - |after.blobs|
                  && pruned.value.bytes + pruned.value.blobBytes
                     == StorageBytes(db, req.user) + taken * |req.payload| - StorageBytes(after, req.user))
            && (pruned.None? ==> |after.packets| == |db.packets| + taken && after.blobs == db.blobs)
  {
    StoredBytes(db, hash, req, req.user);
    InsertedRows(db, req.Slot(), req.Row(hash), req.blobs);
    InsertKeepsValid(db, req.Slot(), req.Row(hash), req.blobs);
    var ins := Insert(db, req.Slot(), req.Row(hash), req.blobs);
    if req.covers.Some? { PruneTallyIsConservation(ins.db, req.Claim()); }
    hide Insert, Pruned, PruneTally, StorageBytes;
  }

  lemma InsertedKeys(db: Db, s: Slot, row: Row, blobs: seq<BlobId>)
    ensures var ins := Insert(db, s, row, blobs);
            && ins.inserted == IsNext(db, s) && ins.db.blobs == db.blobs
            && ins.db.packets.Keys == db.packets.Keys + (if ins.inserted then {s} else {})
    ensures IsNext(db, s) ==> s !in db.packets
  {
    assert s == Slot(s.stream, s.counter);
    hide StreamMark;
  }

  lemma InsertedRows(db: Db, s: Slot, row: Row, blobs: seq<BlobId>)
    ensures var ins := Insert(db, s, row, blobs);
            && ins.inserted == IsNext(db, s)
            && |ins.db.packets| == |db.packets| + (if ins.inserted then 1 else 0) && ins.db.blobs == db.blobs
  {
    hide *;
    InsertedKeys(db, s, row, blobs);
    var ins := Insert(db, s, row, blobs);
    if ins.inserted {
      KeysAdded(db.packets, ins.db.packets, {s});
    } else {
      KeysAdded(db.packets, ins.db.packets, {});
    }
  }

  lemma KeysAdded(before: map<Slot, Row>, after: map<Slot, Row>, added: set<Slot>)
    requires after.Keys == before.Keys + added && added !! before.Keys
    ensures |after| == |before| + |added|
  {
    assert |after| == |after.Keys| && |before| == |before.Keys|;
  }

  /** The ids reported missing come in the order, and as often, as declared. */
  lemma {:induction false} MissingInOrder(db: Db, user: User, ids: seq<BlobId>, more: seq<BlobId>)
    ensures Missing(db, user, ids + more) == Missing(db, user, ids) + Missing(db, user, more)
    ensures forall id :: Missing(db, user, [id]) == if BlobKey(user, id) in db.blobs then [] else [id]
    decreases |more|
  {
    forall id ensures Missing(db, user, [id]) == if BlobKey(user, id) in db.blobs then [] else [id] {
      assert [id][..0] == [] && Missing(db, user, []) == [];
    }
    if more == [] {
      assert ids + more == ids;
    } else {
      var fewer := more[..|more| - 1];
      MissingInOrder(db, user, ids, fewer);
      assert (ids + more)[..|ids + more| - 1] == ids + fewer;
    }
  }

  // ---------------------------------------------------------------------- blobs

  /** The answers of a blob upload, each exactly when. 201 means that the blob was
      not held and now is, with the bytes sent; 200 that it was held, whatever the
      disk and the quota say; only a 201 changes anything, and nothing but that
      blob. */
  lemma BlobAnswers(db: Db, cfg: Config, b: BlobKey, payload: Bytes, diskOk: bool)
    ensures var (after, answer) := PutBlob(db, cfg, b, payload, diskOk);
            var acceptable := 0 < |payload| <= cfg.maxBlob;
            var over := cfg.quota > 0 && StorageBytes(db, b.user) + |payload| > cfg.quota;
            && (answer.BlobTooLarge? <==> |payload| > cfg.maxBlob)
            && (answer.BlobInvalid? <==> payload == [])
            && (answer.BlobRefused? <==> acceptable && b !in db.blobs && (!diskOk || over))
            && (answer.BlobHeld? <==> acceptable && b in db.blobs)
            && (answer.BlobCreated? <==> b !in db.blobs && b in after.blobs)
            && (answer.BlobCreated? ==> after == db.(blobs := db.blobs[b := payload]))
            && (!answer.BlobCreated? ==> after == db)
  {
    hide StorageBytes;
  }

  /** An admitted blob sent again, with any bytes and whatever the disk says by
      then, is answered 200 and changes nothing. */
  lemma BlobAgain(db: Db, cfg: Config, b: BlobKey, payload: Bytes, diskOk: bool, bytes: Bytes, diskThen: bool)
    requires var answer := PutBlob(db, cfg, b, payload, diskOk).1; answer.BlobCreated? || answer.BlobHeld?
    requires 0 < |bytes| <= cfg.maxBlob
    ensures var after := PutBlob(db, cfg, b, payload, diskOk).0;
            PutBlob(after, cfg, b, bytes, diskThen) == (after, BlobHeld)
  {
    hide StorageBytes;
  }
}
