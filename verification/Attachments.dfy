/**
 Attachment blobs and the references that keep them alive, over runs in which
 handlers take turns (go/internal/api/changes_handlers.go:133-151,
 go/internal/store/store.go:556-560, 643-662, 748-764).
 */
module Attachments {
  import opened Tables
  import opened Pruning
  import opened Handlers
  import opened Accounts

  /** Every recorded reference names a blob that is held. */
  ghost predicate RefsResolve(db: Db) {
    forall r :: r in db.refs ==> BlobKey(r.slot.stream.user, r.blob) in db.blobs
  }

  lemma {:induction false} NothingMissing(db: Db, user: User, ids: seq<BlobId>)
    ensures Missing(db, user, ids) == [] <==> forall id :: id in ids ==> BlobKey(user, id) in db.blobs
    ensures forall id :: id in Missing(db, user, ids) <==> id in ids && BlobKey(user, id) !in db.blobs
    decreases |ids|
  {
    if ids != [] {
      var fewer := ids[..|ids| - 1];
      NothingMissing(db, user, fewer);
      assert forall id :: id in ids <==> id in fewer || id == ids[|ids| - 1];
      assert forall id :: id in Missing(db, user, ids) ==> Missing(db, user, ids) != [];
      if Missing(db, user, ids) != [] { assert Missing(db, user, ids)[0] in Missing(db, user, ids); }
    }
  }

  /** Collection deletes no blob that a reference names. */
  lemma CollectionKeepsNamed(db: Db, c: Claim)
    requires RefsResolve(db)
    ensures RefsResolve(Pruned(db, c))
  {
    hide Doomed, Cuts;
    var after := Pruned(db, c);
    forall r | r in after.refs ensures BlobKey(r.slot.stream.user, r.blob) in after.blobs {
      assert r in db.refs;
    }
  }

  lemma UploadKeepsRefs(db: Db, cfg: Config, hash: Hash, req: Request, diskOk: bool)
    requires RefsResolve(db)
    ensures RefsResolve(Upload(db, cfg, hash, req, diskOk).0)
  {
    if Missing(db, req.user, req.blobs) == [] {
      NothingMissing(db, req.user, req.blobs);
      var ins := Insert(db, req.Slot(), req.Row(hash), req.blobs);
      assert RefsResolve(ins.db);
      if req.covers.Some? { CollectionKeepsNamed(ins.db, req.Claim()); }
    }
  }

  /** Over any run of handlers, every reference resolves. */
  lemma {:induction false} RunKeepsRefs(db: Db, cfg: Config, hashOf: Bytes -> Hash, ts: seq<Turn>)
    requires RefsResolve(db)
    ensures RefsResolve(Run(db, cfg, hashOf, ts))
    decreases |ts|
  {
    if ts != [] {
      var sofar, t := Run(db, cfg, hashOf, ts[..|ts| - 1]), ts[|ts| - 1];
      RunKeepsRefs(db, cfg, hashOf, ts[..|ts| - 1]);
      if t.UploadTurn? {
        hide Upload;
        UploadKeepsRefs(sofar, cfg, hashOf(t.req.payload), t.req, t.diskOk);
      }
    }
  }

  /** A surviving packet keeps every blob it declared. */
  lemma SurvivorsKeepBlobs(db: Db, c: Claim, r: Ref)
    requires db.Valid() && RefsResolve(db) && r in db.refs && r.slot in Pruned(db, c).packets
    ensures r in Pruned(db, c).refs
    ensures BlobKey(r.slot.stream.user, r.blob) in Pruned(db, c).blobs
  {
    CollectionKeepsNamed(db, c);
    hide Cuts;
    assert r.slot !in Doomed(db, Cuts(db, c));
  }

  /** A prune that removed a packet leaves of the account exactly the blobs some
      remaining reference names. */
  lemma PruneLeavesNamedBlobs(db: Db, c: Claim, b: BlobKey)
    requires db.Valid() && RefsResolve(db) && PruneTally(db, c).packets > 0 && b.user == c.user
    ensures b in Pruned(db, c).blobs <==>
              exists r :: r in Pruned(db, c).refs && r.slot.stream.user == b.user && r.blob == b.id
  {
    CollectionKeepsNamed(db, c);
    hide Doomed, Cuts;
    assert b == BlobKey(b.user, b.id);
  }

  // -------------------------------------------------- references to no packet

  /** Every reference belongs to a stored packet. The schema comment promises
      this (go/internal/store/store.go:82-84); it is not what the code keeps. */
  ghost predicate RefsStored(db: Db) {
    forall r :: r in db.refs ==> r.slot in db.packets
  }

  lemma PruneKeepsRefsStored(db: Db, c: Claim)
    requires RefsStored(db)
    ensures RefsStored(Pruned(db, c))
  {
    hide Cuts;
    var cuts := Cuts(db, c);
    forall r | r in Pruned(db, c).refs ensures r.slot in Pruned(db, c).packets {
      DoomedReleases(db, cuts, r);
    }
  }

  /** A pruned packet releases its references. */
  lemma DoomedReleases(db: Db, cuts: map<Stream, nat>, r: Ref)
    ensures r.slot in Doomed(db, cuts) ==> IsReleased(db, cuts, r)
  {
    if r.slot in Doomed(db, cuts) {
      assert r.slot in UpTo(db, r.slot.stream, cuts[r.slot.stream]);
    }
  }

  /** Exactly when an upload leaves a reference to no packet: it re-sends, with
      blobs, a slot whose packet was pruned. */
  lemma WhenReferencesDangle(db: Db, hash: Hash, req: Request)
    requires db.Valid() && RefsStored(db) && req.user in db.users && req.counter >= 1
    ensures RefsStored(Stored(db, hash, req).0) <==>
            !(req.counter <= StreamMark(db, req.Slot().stream) && req.Slot() !in db.packets && req.blobs != [])
  {
    var s := req.Slot();
    var ins := Insert(db, s, req.Row(hash), req.blobs);
    var dangles := req.counter <= StreamMark(db, s.stream) && s !in db.packets && req.blobs != [];
    InsertKeepsValid(db, s, req.Row(hash), req.blobs);
    if dangles {
      var r := Ref(s, req.blobs[0]);
      assert r in ins.db.refs && s !in ins.db.packets;
      if req.covers.Some? { OwnRefSurvives(ins.db, req.Claim(), r); }
      assert r in Stored(db, hash, req).0.refs;
    } else {
      assert RefsStored(ins.db);
      if req.covers.Some? { PruneKeepsRefsStored(ins.db, req.Claim()); }
    }
  }

  lemma OwnRefSurvives(db: Db, c: Claim, r: Ref)
    requires db.Valid() && r in db.refs && r.slot == Slot(Stream(c.user, c.keepOrigin), c.keepCounter)
             && r.slot !in db.packets
    ensures r in Pruned(db, c).refs && r.slot !in Pruned(db, c).packets
  {
    var cuts := Cuts(db, c);
    assert r.slot.stream in cuts ==> cuts[r.slot.stream] < c.keepCounter;
    hide Cuts, Doomed;
    assert !IsReleased(db, cuts, r);
    assert Pruned(db, c).packets.Keys <= db.packets.Keys;
  }

  const PLAIN: Request := Request(1, "d", 1, [0], None, [])
  const SNAPSHOT: Request := Request(1, "d", 2, [0], Some(map["d" := 1]), [])
  const RESENT: Request := Request(1, "d", 1, [0], None, ["b"])

  /** Such an upload passes every check: packet 1 is pruned by the snapshot that
      is packet 2, a blob is uploaded, and packet 1 is sent again declaring it. */
  lemma ResendingDangles(hashOf: Bytes -> Hash)
    ensures var empty, cfg := Db({}, map[], map[], map[], {}), Config(10, 10, 0, 0);
            var ts := [RegisterTurn(1), UploadTurn(PLAIN, true), UploadTurn(SNAPSHOT, true),
                       BlobTurn(BlobKey(1, "b"), [0], true)];
            && RefsStored(Run(empty, cfg, hashOf, ts))
            && !RefsStored(Run(empty, cfg, hashOf, ts + [UploadTurn(RESENT, true)]))
  {
    var empty, cfg, h := Db({}, map[], map[], map[], {}), Config(10, 10, 0, 0), hashOf([0]);
    var ts := [RegisterTurn(1), UploadTurn(PLAIN, true), UploadTurn(SNAPSHOT, true),
               BlobTurn(BlobKey(1, "b"), [0], true)];
    RunOfFour(empty, cfg, hashOf, ts[0], ts[1], ts[2], ts[3]);
    RunOneMore(empty, cfg, hashOf, ts, UploadTurn(RESENT, true));
    hide Run, Upload, PutBlob, StreamMark, RefsStored;
    assert Take(empty, cfg, hashOf, ts[0]) == empty.(users := {1});
    FirstStored(empty.(users := {1}), cfg, h);
    var stored := empty.(users := {1}, packets := map[PLAIN.Slot() := PLAIN.Row(h)], marks := map[Stream(1, "d") := 1]);
    SnapshotPrunes(stored, cfg, h);
    var pruned := Upload(stored, cfg, h, SNAPSHOT, true).0;
    BlobUploaded(pruned, cfg);
    ResentRecorded(PutBlob(pruned, cfg, BlobKey(1, "b"), [0], true).0, cfg, h);
  }

  lemma RunOneMore(db: Db, cfg: Config, hashOf: Bytes -> Hash, ts: seq<Turn>, t: Turn)
    ensures Run(db, cfg, hashOf, ts + [t]) == Take(Run(db, cfg, hashOf, ts), cfg, hashOf, t)
  {
    assert (ts + [t])[..|ts|] == ts;
  }

  lemma RunOfFour(db: Db, cfg: Config, hashOf: Bytes -> Hash, a: Turn, b: Turn, c: Turn, d: Turn)
    ensures Run(db, cfg, hashOf, [a, b, c, d])
            == Take(Take(Take(Take(db, cfg, hashOf, a), cfg, hashOf, b), cfg, hashOf, c), cfg, hashOf, d)
  {
    hide Take;
    RunOneMore(db, cfg, hashOf, [], a);
    RunOneMore(db, cfg, hashOf, [a], b);
    RunOneMore(db, cfg, hashOf, [a, b], c);
    RunOneMore(db, cfg, hashOf, [a, b, c], d);
    assert [] + [a] == [a] && [a] + [b] == [a, b] && [a, b] + [c] == [a, b, c] && [a, b, c] + [d] == [a, b, c, d];
  }

  lemma FirstStored(db: Db, cfg: Config, h: Hash)
    requires db == Db({1}, map[], map[], map[], {}) && cfg == Config(10, 10, 0, 0)
    ensures Upload(db, cfg, h, PLAIN, true).0
              == db.(packets := map[PLAIN.Slot() := PLAIN.Row(h)], marks := map[Stream(1, "d") := 1])
  {
    assert IsMark(db, Stream(1, "d"), 0);
  }

  lemma SnapshotStored(db: Db, cfg: Config, h: Hash)
    requires cfg == Config(10, 10, 0, 0)
    requires db == Db({1}, map[PLAIN.Slot() := PLAIN.Row(h)], map[Stream(1, "d") := 1], map[], {})
    ensures Upload(db, cfg, h, SNAPSHOT, true) == Stored(db, h, SNAPSHOT)
    ensures Insert(db, SNAPSHOT.Slot(), SNAPSHOT.Row(h), [])
            == Insertion(db.(packets := db.packets[SNAPSHOT.Slot() := SNAPSHOT.Row(h)],
                             marks := map[Stream(1, "d") := 2]), true, 2)
  {
    hide Stored;
    assert IsMark(db, Stream(1, "d"), 1);
  }

  lemma SnapshotPrunes(db: Db, cfg: Config, h: Hash)
    requires cfg == Config(10, 10, 0, 0)
    requires db == Db({1}, map[PLAIN.Slot() := PLAIN.Row(h)], map[Stream(1, "d") := 1], map[], {})
    ensures var after := Upload(db, cfg, h, SNAPSHOT, true).0;
            && after.Valid() && after.users == {1} && after.refs == {}
            && StreamMark(after, Stream(1, "d")) == 2 && PLAIN.Slot() !in after.packets
  {
    SnapshotStored(db, cfg, h);
    var stored := db.(packets := db.packets[SNAPSHOT.Slot() := SNAPSHOT.Row(h)], marks := map[Stream(1, "d") := 2]);
    PrunedOfOne(stored, h);
    hide Upload, Insert, Pruned, PruneTally, StreamMark;
    assert Upload(db, cfg, h, SNAPSHOT, true).0 == Pruned(stored, SNAPSHOT.Claim());
  }

  lemma PrunedOfOne(db: Db, h: Hash)
    requires db == Db({1}, map[PLAIN.Slot() := PLAIN.Row(h)][SNAPSHOT.Slot() := SNAPSHOT.Row(h)],
                      map[Stream(1, "d") := 2], map[], {})
    ensures var after := Pruned(db, SNAPSHOT.Claim());
            && after.Valid() && after.users == {1} && after.refs == {}
            && StreamMark(after, Stream(1, "d")) == 2 && PLAIN.Slot() !in after.packets
  {
    assert IsMark(db, Stream(1, "d"), 2);
    PruneBlastRadius(db, SNAPSHOT.Claim());
    hide Pruned, StreamMark;
  }

  lemma BlobUploaded(db: Db, cfg: Config)
    requires cfg == Config(10, 10, 0, 0)
    ensures var after := PutBlob(db, cfg, BlobKey(1, "b"), [0], true).0;
            && BlobKey(1, "b") in after.blobs && after == db.(blobs := after.blobs)
            && (db.Valid() && 1 in db.users ==> after.Valid())
            && StreamMark(after, Stream(1, "d")) == StreamMark(db, Stream(1, "d"))
  {
    var after := PutBlob(db, cfg, BlobKey(1, "b"), [0], true).0;
    assert after == BlobPut(db, BlobKey(1, "b"), [0]);
    assert IsMark(after, Stream(1, "d"), StreamMark(db, Stream(1, "d")));
  }

  lemma ResentRecorded(db: Db, cfg: Config, h: Hash)
    requires cfg == Config(10, 10, 0, 0) && BlobKey(1, "b") in db.blobs
    requires db.Valid() && db.users == {1} && db.refs == {} && StreamMark(db, Stream(1, "d")) == 2
             && PLAIN.Slot() !in db.packets
    ensures RefsStored(db) && !RefsStored(Upload(db, cfg, h, RESENT, true).0)
  {
    hide StreamMark, Stored;
    NothingMissing(db, 1, ["b"]);
    assert Upload(db, cfg, h, RESENT, true) == Stored(db, h, RESENT);
    WhenReferencesDangle(db, h, RESENT);
  }
}
