/**
 An upload that covers its own stream below itself, once answered, has its
 packet lead the stream: flagged, and the lowest that is stored. Proved for an
 upload in one step and for one whose statements interleave with anything
 (go/internal/store/store.go:561-572, 709-745, go/internal/api/changes_handlers.go:169-187).
 */
module Leaders {
  import opened Tables
  import opened Pruning
  import opened Handlers
  import opened Statements
  import opened Interleaving

  /** s is stored, flagged, and the lowest stored packet of its stream. */
  ghost predicate Leads(db: Db, s: Slot) {
    && s in db.packets && db.packets[s].snapshot
    && forall c :: Slot(s.stream, c) in db.packets ==> s.counter <= c
  }

  /** The declaration covers the upload's own stream below itself. */
  predicate CoversItself(req: Request) {
    req.covers.Some? && req.origin in req.covers.value && req.covers.value[req.origin] >= req.counter - 1
  }

  /** An upload that covers its own stream below itself, whether it is new or
      re-sent, leaves its packet leading if that packet is stored at all. */
  lemma CompactionMakesLeader(db: Db, hash: Hash, req: Request)
    requires db.Valid() && req.user in db.users && req.counter >= 1
    requires CoversItself(req)
    requires !Stored(db, hash, req).1.Gap? && req.Slot() in Stored(db, hash, req).0.packets
    ensures Leads(Stored(db, hash, req).0, req.Slot())
  {
    var s := req.Slot();
    var ins := Insert(db, s, req.Row(hash), req.blobs);
    InsertKeepsValid(db, s, req.Row(hash), req.blobs);
    PruneBlastRadius(ins.db, req.Claim());
    assert s in ins.db.packets && ins.db.packets[s].snapshot;
  }

  // ------------------------------------------------------ statements interleaved

  ghost predicate FlaggedIfStored(db: Db, x: Slot) { x in db.packets ==> db.packets[x].snapshot }

  /** Nothing below x is stored of its stream. */
  ghost predicate NothingBelow(db: Db, x: Slot) {
    forall c :: Slot(x.stream, c) in db.packets ==> x.counter <= c
  }

  predicate AnsweredHeld(p: Phase) { p.Answered? && (p.outcome.Created? || p.outcome.AlreadyHeld?) }

  /** The prune has its own stream behind it. */
  predicate OwnStreamDone(t: Task) {
    || AnsweredHeld(t.phase)
    || (t.phase.Prune? && match t.phase.at
                          case CountOrphans => true
                          case DeleteOrphans(_, _) => true
                          case NextDevice => t.req.origin !in t.todo
                          case ReleaseRefs(_, _, _, _) => t.req.origin !in t.todo
                          case ReadMark(d, _) => t.req.origin !in t.todo + {d}
                          case Reassert(d, _, _) => t.req.origin !in t.todo + {d}
                          case CountRows(d, _) => t.req.origin !in t.todo + {d}
                          case DeleteRows(d, _, _, _) => t.req.origin !in t.todo + {d})
  }

  /** While the prune is on its own stream it cuts just below the upload. */
  predicate CutsBelowItself(t: Task) {
    t.phase.Prune? ==>
      match t.phase.at
      case ReadMark(d, upTo) => d == t.req.origin ==> upTo == t.req.counter - 1
      case Reassert(d, upTo, _) => d == t.req.origin ==> upTo == t.req.counter - 1
      case CountRows(d, upTo) => d == t.req.origin ==> upTo == t.req.counter - 1
      case DeleteRows(d, upTo, _, _) => d == t.req.origin ==> upTo == t.req.counter - 1
      case _ => true
  }

  ghost predicate Leading(db: Db, t: Task) {
    CoversItself(t.req) ==>
      && (t.inserted || t.phase.Prune? || AnsweredHeld(t.phase) ==> FlaggedIfStored(db, t.req.Slot()))
      && (OwnStreamDone(t) ==> NothingBelow(db, t.req.Slot()))
      && CutsBelowItself(t)
  }

  ghost predicate LeadersOk(s: Sys) {
    forall p :: p in s.tasks ==> Leading(s.db, s.tasks[p])
  }

  /** Nothing that happens elsewhere disturbs it: an accepted slot is not filled
      again, and what is filled lies above the mark. */
  lemma LeadingStays(s: Sys, after: Sys, p: Pid)
    requires Inv(s) && Inv(after) && Stepped(s, after) && p in s.tasks && Leading(s.db, s.tasks[p])
    ensures Leading(after.db, s.tasks[p])
  {
    var t := s.tasks[p];
    var x := t.req.Slot();
    assert SlotOk(s.accepted, p, t);
    if CoversItself(t.req) && (t.inserted || t.phase.Prune? || AnsweredHeld(t.phase)) {
      assert x in s.accepted;
      forall c | OwnStreamDone(t) && Slot(x.stream, c) in after.db.packets ensures x.counter <= c {
        if Slot(x.stream, c) !in s.db.packets {
          assert c == StreamMark(s.db, x.stream) + 1;
          assert x.stream.user in s.db.users;
          assert x == Slot(x.stream, x.counter);
        }
      }
    }
  }

  lemma NothingOfTheGone(db: Db, t: Stream)
    requires db.Valid() && t.user !in db.users
    ensures StreamMark(db, t) == 0
  {
    assert IsMark(db, t, 0);
  }

  /** A mark of 0 has nothing stored under it. */
  lemma UnmarkedIsEmpty(db: Db, x: Slot)
    requires db.Valid() && (StreamMark(db, x.stream) == 0 || x.counter <= 1)
    ensures NothingBelow(db, x)
  {
  }

  /** The cut read for the upload's own stream is not clamped further. */
  lemma OwnMarkIsAbove(db: Db, accepted: map<Slot, Acceptance>, x: Slot)
    requires db.Valid() && MarksOk(db, accepted) && x in accepted
    ensures StreamMark(db, x.stream) == 0 || StreamMark(db, x.stream) >= x.counter
  {
    assert x == Slot(x.stream, x.counter);
    if x.stream.user !in db.users { NothingOfTheGone(db, x.stream); }
  }

  /** Finding no row below x, or deleting those there are. */
  lemma CutLeavesNothingBelow(db: Db, x: Slot)
    ensures UpTo(db, x.stream, x.counter - 1) == {} ==> NothingBelow(db, x)
    ensures NothingBelow(Deleted(db, x.stream, x.counter - 1), x)
  {
    assert forall c :: Slot(x.stream, c) in db.packets && c <= x.counter - 1 ==>
             Slot(x.stream, c) in UpTo(db, x.stream, x.counter - 1);
  }

  lemma PruneOnlyRemoves(db: Db, t: Task, at: PrunePhase, pick: Device, x: Slot)
    ensures var after := NextPrune(db, t, at, pick).0;
            && (NothingBelow(db, x) ==> NothingBelow(after, x))
            && (FlaggedIfStored(db, x) ==> FlaggedIfStored(after, x))
  {
    assert NextPrune(db, t, at, pick).0.packets.Keys <= db.packets.Keys;
  }

  /** The cut carried into the upload's own stream. */
  lemma PruneCuts(db: Db, t: Task, pick: Device)
    requires t.phase.Prune? && CoversItself(t.req) && CutsBelowItself(t)
    requires StreamMark(db, t.req.Slot().stream) == 0 || StreamMark(db, t.req.Slot().stream) >= t.req.counter
    ensures CutsBelowItself(NextPrune(db, t, t.phase.at, pick).1)
  {
    hide StreamMark, UpTo, Deleted, Raised, Released, Collected, Orphans, BytesOf, BlobBytesOf;
  }

  lemma PruneCompletes(db: Db, t: Task, pick: Device)
    requires t.phase.Prune? && CoversItself(t.req) && CutsBelowItself(t) && db.Valid()
    requires OwnStreamDone(t) ==> NothingBelow(db, t.req.Slot())
    ensures var after := NextPrune(db, t, t.phase.at, pick);
            OwnStreamDone(after.1) ==> NothingBelow(after.0, t.req.Slot())
  {
    var x := t.req.Slot();
    if StreamMark(db, x.stream) == 0 || x.counter <= 1 { UnmarkedIsEmpty(db, x); }
    CutLeavesNothingBelow(db, x);
    PruneOnlyRemoves(db, t, t.phase.at, pick, x);
    hide NothingBelow, UpTo, Deleted, StreamMark, Raised, Released, Collected, Orphans, BytesOf, BlobBytesOf;
  }

  lemma PruneLeads(db: Db, accepted: map<Slot, Acceptance>, t: Task, pick: Device)
    requires db.Valid() && MarksOk(db, accepted) && t.req.Slot() in accepted && t.req.counter >= 1
    requires t.phase.Prune? && Leading(db, t)
    ensures var after := NextPrune(db, t, t.phase.at, pick); Leading(after.0, after.1)
  {
    if CoversItself(t.req) {
      OwnMarkIsAbove(db, accepted, t.req.Slot());
      PruneCuts(db, t, pick);
      PruneCompletes(db, t, pick);
      PruneOnlyRemoves(db, t, t.phase.at, pick, t.req.Slot());
    }
    PruneKeepsRequest(db, t, pick);
    hide NextPrune, CutsBelowItself, OwnStreamDone, NothingBelow, FlaggedIfStored, StreamMark, MarksOk;
  }

  lemma PruneKeepsRequest(db: Db, t: Task, pick: Device)
    requires t.phase.Prune?
    ensures NextPrune(db, t, t.phase.at, pick).1.req == t.req
  {
  }

  /** A flag stays; a snapshot's insert sets it, and so does flagging the row. */
  lemma UploadFlags(db: Db, hashOf: Bytes -> Hash, t: Task, pick: Device)
    requires !t.phase.Prune? && t.req.covers.Some?
    ensures var after, x := Next(db, hashOf, t, pick), t.req.Slot();
            FlaggedIfStored(db, x) || t.phase.FlagRow? || (after.1.inserted && !t.inserted) ==>
              FlaggedIfStored(after.0, x)
  {
    hide StreamMark;
  }

  lemma UploadLeads(db: Db, hashOf: Bytes -> Hash, t: Task, pick: Device)
    requires !t.phase.Prune? && Leading(db, t) && !(t.phase.InsertRow? && t.inserted)
    ensures var after := Next(db, hashOf, t, pick); Leading(after.0, after.1)
  {
    UploadMoves(db, hashOf, t, pick);
    if CoversItself(t.req) { UploadFlags(db, hashOf, t, pick); }
    hide Next, FlaggedIfStored, NothingBelow;
  }

  /** Outside its prune an upload does not complete its own stream, and enters the
      prune, or counts as inserted, through the insert or the flagging of its row. */
  lemma UploadMoves(db: Db, hashOf: Bytes -> Hash, t: Task, pick: Device)
    requires !t.phase.Prune? && !(t.phase.InsertRow? && t.inserted)
    ensures var after := Next(db, hashOf, t, pick);
            && after.1.req == t.req
            && (OwnStreamDone(after.1) && CoversItself(t.req) ==> OwnStreamDone(t) && after.0 == db)
            && (CutsBelowItself(after.1) || !CoversItself(t.req))
            && (CoversItself(t.req) && (after.1.phase.Prune? || AnsweredHeld(after.1.phase)) ==>
                  after.1.inserted || t.phase.FlagRow? || AnsweredHeld(t.phase))
  {
    hide StreamMark, Inserted, Raised, Referenced, Flagged;
  }

  lemma NextLeads(s: Sys, pid: Pid, pick: Device)
    requires Inv(s) && pid in s.tasks && Leading(s.db, s.tasks[pid])
    ensures var next := Next(s.db, s.hashOf, s.tasks[pid], pick); Leading(next.0, next.1)
  {
    var t := s.tasks[pid];
    assert SlotOk(s.accepted, pid, t);
    hide Leading, Inv;
    if t.phase.Prune? {
      PruneLeads(s.db, s.accepted, t, pick);
    } else {
      UploadLeads(s.db, s.hashOf, t, pick);
    }
  }

  lemma OutsideLeads(db: Db, t: Task, req: Request)
    ensures Leading(db, NewTask(req))
    ensures Leading(db, t) ==> Leading(db, t.Goto(Dead)) && Leading(db, t.Goto(Answered(NoStorage)))
  {
  }

  lemma StepKeepsLeaders(s: Sys, e: Event)
    requires Inv(s) && LeadersOk(s)
    ensures LeadersOk(Apply(s, e))
  {
    var after := Apply(s, e);
    StepKeepsInv(s, e);
    EverySteps(s, e);
    hide Inv, Stepped, Leading, Apply;
    forall p | p in after.tasks ensures Leading(after.db, after.tasks[p]) {
      TaskKeepsLeading(s, e, p);
    }
  }

  lemma TaskKeepsLeading(s: Sys, e: Event, p: Pid)
    requires Inv(s) && Inv(Apply(s, e)) && Stepped(s, Apply(s, e)) && p in Apply(s, e).tasks
    requires p in s.tasks ==> Leading(s.db, s.tasks[p])
    ensures Leading(Apply(s, e).db, Apply(s, e).tasks[p])
  {
    hide Inv, Stepped, Leading, Next;
    var after := Apply(s, e);
    if p in s.tasks {
      LeadingStays(s, after, p);
      OutsideLeads(s.db, s.tasks[p], s.tasks[p].req);
      if e.Advance? && e.pid == p { NextLeads(s, p, e.pick); }
    } else {
      OutsideLeads(s.db, after.tasks[p], after.tasks[p].req);
    }
  }

  lemma {:induction false} RunKeepsLeaders(s: Sys, es: seq<Event>)
    requires Initial(s)
    ensures Inv(Exec(s, es)) && LeadersOk(Exec(s, es))
    decreases |es|
  {
    ReachableInv(s, es);
    if es != [] {
      RunKeepsLeaders(s, es[..|es| - 1]);
      StepKeepsLeaders(Exec(s, es[..|es| - 1]), es[|es| - 1]);
    }
  }

  /** Whatever interleaved with it, and however long ago it was answered: an
      upload that covers itself has its packet lead, if it is stored at all. */
  lemma AnsweredSnapshotLeads(s: Sys, es: seq<Event>, p: Pid)
    requires Initial(s) && p in Exec(s, es).tasks
    requires var t := Exec(s, es).tasks[p];
             AnsweredHeld(t.phase) && CoversItself(t.req) && t.req.Slot() in Exec(s, es).db.packets
    ensures Leads(Exec(s, es).db, Exec(s, es).tasks[p].req.Slot())
  {
    RunKeepsLeaders(s, es);
    LeadingIsLeader(Exec(s, es).db, Exec(s, es).tasks[p]);
  }

  lemma LeadingIsLeader(db: Db, t: Task)
    requires Leading(db, t) && AnsweredHeld(t.phase) && CoversItself(t.req) && t.req.Slot() in db.packets
    ensures Leads(db, t.req.Slot())
  {
  }
}
