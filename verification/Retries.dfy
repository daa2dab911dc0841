/**
 What an upload's answer tells the uploader, and what sending it again does
 (go/internal/store/store.go:493-505, go/internal/api/changes_handlers.go:68-71, 157-187).
 */
module Retries {
  import opened Tables
  import opened Pruning
  import opened Handlers
  import opened Attachments

  /** 201 exactly at the next counter, 200 at or below the mark, 409 with the
      next counter beyond; the mark moves with a 201 only, and a 409 changes
      nothing. */
  lemma AnswerTellsMark(db: Db, hash: Hash, req: Request)
    requires db.Valid() && req.user in db.users && req.counter >= 1
    ensures var (after, outcome) := Stored(db, hash, req);
            var m := StreamMark(db, req.Slot().stream);
            && (outcome.Created? <==> req.counter == m + 1)
            && (outcome.AlreadyHeld? <==> req.counter <= m)
            && (req.counter > m + 1 ==> outcome == Gap(m + 1) && after == db)
            && (forall t :: StreamMark(after, t) == if outcome.Created? && t == req.Slot().stream then req.counter
                else StreamMark(db, t))
            && (outcome.Created? ==> req.Slot() in after.packets && after.packets[req.Slot()] == req.Row(hash))
  {
    var s := req.Slot();
    var ins := Insert(db, s, req.Row(hash), req.blobs);
    InsertKeepsValid(db, s, req.Row(hash), req.blobs);
    forall t ensures StreamMark(ins.db, t) == if ins.inserted && t == s.stream then req.counter else StreamMark(db, t) {
      InsertMoves(db, s, req.Row(hash), req.blobs, t);
    }
    hide Insert;
    if req.covers.Some? { PruneBlastRadius(ins.db, req.Claim()); }
    hide Pruned, PruneTally, StreamMark;
  }

  lemma InsertMoves(db: Db, s: Slot, row: Row, blobs: seq<BlobId>, t: Stream)
    requires s.counter >= 1
    ensures var ins := Insert(db, s, row, blobs);
            && ins.inserted == (s.counter == StreamMark(db, s.stream) + 1)
            && (!ins.inserted ==> ins.held == StreamMark(db, s.stream) && (s.counter > ins.held ==> ins.db == db))
            && (ins.inserted ==> s in ins.db.packets && ins.db.packets[s] == row)
            && StreamMark(ins.db, t) == if ins.inserted && t == s.stream then s.counter else StreamMark(db, t)
  {
    var ins := Insert(db, s, row, blobs).db;
    var m := if IsNext(db, s) && t == s.stream then s.counter else StreamMark(db, t);
    assert s == Slot(s.stream, s.counter);
    assert forall c :: Slot(t, c) in ins.packets <==> Slot(t, c) in db.packets || (IsNext(db, s) && Slot(t, c) == s);
    assert IsMark(ins, t, m);
  }

  // -------------------------------------------------------------------- re-sending

  lemma SameCuts(db: Db, c: Claim)
    requires db.Valid()
    ensures Cuts(Pruned(db, c), c) == Cuts(db, c)
  {
    var after := Pruned(db, c);
    forall d | d in c.covers ensures Cut(after, c, d) == Cut(db, c, d) {
      PruneKeepsMark(db, c, Stream(c.user, d));
    }
    hide Pruned, Cut;
    CutsUnique(after, c, c.covers.Keys, Cuts(db, c));
    CutsUnique(db, c, c.covers.Keys, Cuts(db, c));
  }

  /** A claim finds nothing left to prune where it has been pruned. */
  lemma PrunedLeavesNothing(db: Db, c: Claim)
    requires db.Valid()
    ensures Doomed(Pruned(db, c), Cuts(Pruned(db, c), c)) == {}
  {
    PruneBlastRadius(db, c);
    DoomedIsCovered(Pruned(db, c), c);
    assert CoveredSlots(Pruned(db, c), c) == {};
  }

  lemma PruneTwice(db: Db, c: Claim)
    requires db.Valid()
    ensures Pruned(Pruned(db, c), c) == Pruned(db, c)
    ensures PruneTally(Pruned(db, c), c) == PruneResult(0, 0, 0, 0)
  {
    var p, cuts := Pruned(db, c), Cuts(db, c);
    SameCuts(db, c);
    PrunedLeavesNothing(db, c);
    MarksRemembered(db, c);
    hide Cuts;
    NothingToClear(p, cuts);
    assert Sizes(p.packets, {}) == map[];
    assert BlobSizes(p.blobs, {}) == map[];
  }

  /** A prune leaves every stream it cut with its mark remembered. */
  lemma MarksRemembered(db: Db, c: Claim)
    requires db.Valid()
    ensures var p := Pruned(db, c);
            forall t :: t in Cuts(db, c) ==> t in p.marks && p.marks[t] == StreamMark(p, t)
  {
    forall t | t in Cuts(db, c) ensures StreamMark(Pruned(db, c), t) == StreamMark(db, t) {
      PruneKeepsMark(db, c, t);
    }
    hide Cuts, StreamMark, Doomed, IsReleased, Collected;
  }

  lemma NothingToClear(p: Db, cuts: map<Stream, nat>)
    requires Doomed(p, cuts) == {}
    requires forall t :: t in cuts ==> t in p.marks && p.marks[t] == StreamMark(p, t)
    ensures Cleared(p, cuts) == p
  {
    hide StreamMark;
    forall r | r in p.refs ensures !IsReleased(p, cuts, r) {
      if r.slot.stream in cuts {
        assert UpTo(p, r.slot.stream, cuts[r.slot.stream]) <= Doomed(p, cuts);
      }
    }
    assert (set r | r in p.refs && !IsReleased(p, cuts, r)) == p.refs;
    assert p.packets - {} == p.packets;
    assert p.marks + (map t | t in cuts :: StreamMark(p, t)) == p.marks;
  }

  /** An upload's own references survive its own prune. */
  lemma OwnRefsKept(db: Db, c: Claim, r: Ref)
    requires r in db.refs && r.slot == Slot(Stream(c.user, c.keepOrigin), c.keepCounter)
    ensures r in Pruned(db, c).refs
  {
    var cuts := Cuts(db, c);
    assert r.slot.stream in cuts ==> cuts[r.slot.stream] < c.keepCounter;
    hide Cuts, Doomed;
    assert !IsReleased(db, cuts, r);
  }

  /** What a first upload leaves holds all that a second one would record. */
  lemma FirstRecordsAll(db: Db, hash: Hash, req: Request)
    requires db.Valid() && req.user in db.users && req.counter >= 1 && !Stored(db, hash, req).1.Gap?
    ensures var after, s := Stored(db, hash, req).0, req.Slot();
            && (forall b :: b in req.blobs ==> Ref(s, b) in after.refs)
            && (req.covers.Some? && s in after.packets ==> after.packets[s].snapshot)
  {
    var s := req.Slot();
    var ins := Insert(db, s, req.Row(hash), req.blobs).db;
    InsertKeepsValid(db, s, req.Row(hash), req.blobs);
    assert forall b :: b in req.blobs ==> Ref(s, b) in ins.refs;
    assert req.covers.Some? && s in ins.packets ==> ins.packets[s].snapshot;
    hide Insert;
    if req.covers.Some? {
      PruneBlastRadius(ins, req.Claim());
      hide Pruned, PruneTally;
      forall b | b in req.blobs ensures Ref(s, b) in Pruned(ins, req.Claim()).refs {
        OwnRefsKept(ins, req.Claim(), Ref(s, b));
      }
    }
  }

  lemma HeldChangesNothing(db: Db, s: Slot, row: Row, blobs: seq<BlobId>)
    requires s.counter <= StreamMark(db, s.stream)
    requires forall b :: b in blobs ==> Ref(s, b) in db.refs
    requires row.snapshot && s in db.packets ==> db.packets[s].snapshot
    ensures Insert(db, s, row, blobs) == Insertion(db, false, StreamMark(db, s.stream))
  {
    assert ReferencedAll(db, s, blobs) == db;
    assert row.snapshot ==> Flagged(db, s) == db;
  }

  /** Sending an answered upload again, as a client whose answer was lost does,
      is answered 200 and changes nothing. */
  lemma RetryChangesNothing(db: Db, hash: Hash, req: Request)
    requires db.Valid() && req.user in db.users && req.counter >= 1 && !Stored(db, hash, req).1.Gap?
    ensures var after := Stored(db, hash, req).0;
            Stored(after, hash, req)
            == (after, AlreadyHeld(if req.covers.Some? then Some(PruneResult(0, 0, 0, 0)) else None))
  {
    var s := req.Slot();
    var ins := Insert(db, s, req.Row(hash), req.blobs).db;
    var after := Stored(db, hash, req).0;
    InsertKeepsValid(db, s, req.Row(hash), req.blobs);
    AnswerTellsMark(db, hash, req);
    FirstRecordsAll(db, hash, req);
    HeldChangesNothing(after, s, req.Row(hash), req.blobs);
    hide Insert, Pruned, PruneTally, StreamMark;
    if req.covers.Some? { PruneTwice(ins, req.Claim()); }
  }

  /** So does the whole handler: an accepted upload sent again passes its checks
      again, whatever the disk says by then, and changes nothing. */
  lemma UploadAgain(db: Db, cfg: Config, hash: Hash, req: Request, diskOk: bool, diskThen: bool)
    requires db.Valid() && req.user in db.users && RefsResolve(db)
    requires var outcome := Upload(db, cfg, hash, req, diskOk).1; outcome.Created? || outcome.AlreadyHeld?
    ensures var after := Upload(db, cfg, hash, req, diskOk).0;
            Upload(after, cfg, hash, req, diskThen)
            == (after, AlreadyHeld(if req.covers.Some? then Some(PruneResult(0, 0, 0, 0)) else None))
  {
    var after := Upload(db, cfg, hash, req, diskOk).0;
    UploadKeepsRefs(db, cfg, hash, req, diskOk);
    FirstRecordsAll(db, hash, req);
    AnswerTellsMark(db, hash, req);
    NothingMissing(after, req.user, req.blobs);
    RetryChangesNothing(db, hash, req);
    hide Stored, StreamMark, Missing;
  }
}
