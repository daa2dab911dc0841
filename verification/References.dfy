/**
 How a recorded reference to a blob may go, when statements interleave, and how
 long it stays (go/internal/store/store.go:575-587, 748-754; the user_id cascade of
 packet_blobs, go/internal/store/store.go:85-91). It is what keeps a blob that a
 stored packet declares from being collected.
 */
module References {
  import opened Tables
  import opened Handlers
  import opened Statements
  import opened Interleaving
  import opened Leaders
  import opened Dangling

  /** A prune of upload q is about to release references at or below its cut. */
  ghost predicate Releases(s: Sys, e: Event, q: Pid, r: Ref) {
    && e.Advance? && e.pid == q && q in s.tasks
    && var t := s.tasks[q];
       && t.phase.Prune? && t.phase.at.ReleaseRefs?
       && r.slot.stream == Stream(t.req.user, t.phase.at.device) && r.slot.counter <= t.phase.at.upTo
  }

  /** A reference leaves with a release of its own stream at or above its counter,
      or with its own account, and in no other way. */
  lemma HowRefsGo(s: Sys, e: Event, r: Ref)
    requires r in s.db.refs
    ensures r !in Apply(s, e).db.refs <==>
              (e.Advance? && Releases(s, e, e.pid, r)) || e == RemoveUser(r.slot.stream.user)
  {
  }

  // ------------------------------------------------------------------- invariant

  /** An upload about to release references has nothing stored under them. */
  ghost predicate Emptied(db: Db, t: Task) {
    t.phase.Prune? && t.phase.at.ReleaseRefs? ==>
      forall c :: Slot(Stream(t.req.user, t.phase.at.device), c) in db.packets ==> c > t.phase.at.upTo
  }

  /** How many of its declared blobs an upload has recorded. */
  function RecordedSoFar(t: Task): nat {
    match t.phase
    case RecordBlob(i) => i
    case FlagRow => |t.req.blobs|
    case Prune(_) => |t.req.blobs|
    case Answered(outcome) => if AnsweredHeld(t.phase) then |t.req.blobs| else 0
    case _ => 0
  }

  /** What it has recorded is there, for as long as its packet is stored. */
  ghost predicate Recorded(db: Db, t: Task) {
    t.req.Slot() in db.packets ==>
      forall k :: 0 <= k < RecordedSoFar(t) && k < |t.req.blobs| ==> Ref(t.req.Slot(), t.req.blobs[k]) in db.refs
  }

  ghost predicate RefsOk(s: Sys) {
    forall p :: p in s.tasks ==> Emptied(s.db, s.tasks[p]) && Recorded(s.db, s.tasks[p])
  }

  // ------------------------------------------------------------------ single steps

  /** A reference of a packet that is stored, and stays so, stays. */
  lemma RefStays(s: Sys, e: Event, r: Ref)
    requires Inv(s) && RefsOk(s) && r in s.db.refs && r.slot in s.db.packets && r.slot in Apply(s, e).db.packets
    ensures r in Apply(s, e).db.refs
  {
    HowRefsGo(s, e, r);
    assert r.slot == Slot(r.slot.stream, r.slot.counter);
    hide Inv, Apply;
  }

  /** A cut that has been persisted lies at or below the mark. */
  lemma CutBelowMark(s: Sys, p: Pid)
    requires Inv(s) && p in s.tasks && s.tasks[p].phase.Prune? && s.tasks[p].phase.at.ReleaseRefs?
    ensures var t := s.tasks[p];
            && t.req.user in s.everUsers
            && (t.req.user in s.db.users ==>
                  t.phase.at.upTo <= StreamMark(s.db, Stream(t.req.user, t.phase.at.device)))
  {
    assert PhaseOk(s.db, s.tasks[p].req, s.tasks[p].phase);
  }

  lemma StoredIsLive(s: Sys, x: Slot)
    requires Inv(s) && x in s.db.packets
    ensures x.stream.user in s.db.users
  {
  }

  /** What is filled lies above it. */
  lemma EmptiedStays(s: Sys, after: Sys, p: Pid)
    requires Inv(s) && Inv(after) && Stepped(s, after) && p in s.tasks && Emptied(s.db, s.tasks[p])
    ensures Emptied(after.db, s.tasks[p])
  {
    hide Inv, StreamMark;
    var t := s.tasks[p];
    if t.phase.Prune? && t.phase.at.ReleaseRefs? {
      var u := Stream(t.req.user, t.phase.at.device);
      CutBelowMark(s, p);
      forall c | Slot(u, c) in after.db.packets ensures c > t.phase.at.upTo {
        if Slot(u, c) !in s.db.packets {
          StoredIsLive(after, Slot(u, c));
          assert c == StreamMark(s.db, u) + 1;
        }
      }
    }
  }

  lemma RecordingIsAccepted(s: Sys, p: Pid)
    requires Inv(s) && p in s.tasks && RecordedSoFar(s.tasks[p]) > 0
    ensures s.tasks[p].req.Slot() in s.accepted
  {
    assert SlotOk(s.accepted, p, s.tasks[p]);
  }

  lemma StoredBefore(s: Sys, after: Sys, x: Slot)
    requires Stepped(s, after) && x in s.accepted && x in after.db.packets
    ensures x in s.db.packets
  {
  }

  /** What an upload has recorded stays, whatever happens, while its packet does. */
  lemma RecordedStays(s: Sys, e: Event, p: Pid)
    requires Inv(s) && RefsOk(s) && Stepped(s, Apply(s, e)) && p in s.tasks
    ensures Recorded(Apply(s, e).db, s.tasks[p])
  {
    hide Inv, Apply, Stepped;
    var t, after := s.tasks[p], Apply(s, e);
    var x := t.req.Slot();
    if x in after.db.packets && RecordedSoFar(t) > 0 {
      RecordingIsAccepted(s, p);
      StoredBefore(s, after, x);
      forall k | 0 <= k < RecordedSoFar(t) && k < |t.req.blobs| ensures Ref(x, t.req.blobs[k]) in after.db.refs {
        assert Recorded(s.db, t);
        hide RefsOk;
        RefStays(s, e, Ref(x, t.req.blobs[k]));
      }
    }
  }

  /** One statement records at most the next blob, and says so. */
  lemma NextCounts(db: Db, hashOf: Bytes -> Hash, t: Task, pick: Device)
    ensures var (after, next) := Next(db, hashOf, t, pick);
            && next.req == t.req
            && (|| RecordedSoFar(next) <= RecordedSoFar(t)
                || |t.req.blobs| == 0
                || (t.phase.RecordBlob? && t.phase.next < |t.req.blobs| && RecordedSoFar(next) <= t.phase.next + 1
                    && Ref(t.req.Slot(), t.req.blobs[t.phase.next]) in after.refs))
  {
    hide StreamMark, UpTo, Orphans, Raised, Deleted, Released, Collected, BytesOf, BlobBytesOf, Inserted, Flagged;
    match t.phase {
      case Prune(at) => PruneCounts(db, t, at, pick);
      case _ =>
    }
  }

  lemma PruneCounts(db: Db, t: Task, at: PrunePhase, pick: Device)
    requires t.phase == Prune(at)
    ensures var next := NextPrune(db, t, at, pick).1;
            next.req == t.req && RecordedSoFar(next) <= RecordedSoFar(t)
  {
    hide StreamMark, UpTo, Orphans, Raised, Deleted, Released, Collected, BytesOf, BlobBytesOf;
  }

  /** A release follows the delete of the same rows. */
  lemma NextEmpties(db: Db, hashOf: Bytes -> Hash, t: Task, pick: Device)
    ensures var (after, next) := Next(db, hashOf, t, pick);
            Emptied(db, t) || !(t.phase.Prune? && t.phase.at.ReleaseRefs?) ==> Emptied(after, next)
  {
    hide StreamMark, Orphans, Raised, Released, Collected, BytesOf, BlobBytesOf, Inserted, Flagged;
  }

  lemma NextRecords(db: Db, hashOf: Bytes -> Hash, t: Task, pick: Device)
    requires Recorded(Next(db, hashOf, t, pick).0, t)
    ensures var (after, next) := Next(db, hashOf, t, pick); Recorded(after, next)
  {
    NextCounts(db, hashOf, t, pick);
    hide Next;
  }

  lemma OutsideRecords(db: Db, t: Task, req: Request)
    ensures Recorded(db, NewTask(req)) && Emptied(db, NewTask(req))
    ensures Recorded(db, t.Goto(Dead)) && Recorded(db, t.Goto(Answered(NoStorage)))
    ensures Emptied(db, t.Goto(Dead)) && Emptied(db, t.Goto(Answered(NoStorage)))
  {
  }

  lemma TaskKeepsRefs(s: Sys, e: Event, p: Pid)
    requires Inv(s) && Inv(Apply(s, e)) && Stepped(s, Apply(s, e)) && RefsOk(s) && p in Apply(s, e).tasks
    ensures Recorded(Apply(s, e).db, Apply(s, e).tasks[p]) && Emptied(Apply(s, e).db, Apply(s, e).tasks[p])
  {
    hide Inv, Stepped, Recorded, Emptied, Next;
    var after := Apply(s, e);
    if p in s.tasks {
      var t := s.tasks[p];
      RecordedStays(s, e, p);
      EmptiedStays(s, after, p);
      OutsideRecords(after.db, t, t.req);
      if e.Advance? && e.pid == p {
        NextRecords(s.db, s.hashOf, t, e.pick);
        NextEmpties(s.db, s.hashOf, t, e.pick);
      }
    } else {
      OutsideRecords(after.db, after.tasks[p], after.tasks[p].req);
    }
  }

  lemma StepKeepsRefs(s: Sys, e: Event)
    requires Inv(s) && RefsOk(s)
    ensures RefsOk(Apply(s, e))
  {
    StepKeepsInv(s, e);
    EverySteps(s, e);
    hide Inv, Stepped, Apply, Recorded, Emptied;
    forall p | p in Apply(s, e).tasks
      ensures Recorded(Apply(s, e).db, Apply(s, e).tasks[p]) && Emptied(Apply(s, e).db, Apply(s, e).tasks[p])
    {
      assert RefsOk(s);
      TaskKeepsRefs(s, e, p);
    }
  }

  // ------------------------------------------------------------------------- runs

  lemma {:induction false} RunKeepsRefs(s: Sys, es: seq<Event>)
    requires Initial(s)
    ensures Inv(Exec(s, es)) && RefsOk(Exec(s, es))
    decreases |es|
  {
    ReachableInv(s, es);
    if es != [] {
      RunKeepsRefs(s, es[..|es| - 1]);
      hide Inv, RefsOk, Apply;
      ExecLast(s, es);
      StepKeepsRefs(Exec(s, es[..|es| - 1]), es[|es| - 1]);
    }
  }

  /** A recorded reference of a stored packet stays recorded for as long as the
      packet is stored, whatever else is pruned and whoever else is removed. */
  lemma {:induction false} StoredKeepsRefs(s: Sys, es: seq<Event>, more: seq<Event>, r: Ref)
    requires Initial(s) && r in Exec(s, es).db.refs && r.slot in Exec(s, es).db.packets
    requires r.slot in Exec(s, es + more).db.packets
    ensures r in Exec(s, es + more).db.refs
    decreases |more|
  {
    if more == [] {
      assert es + more == es;
    } else {
      var fewer, e := more[..|more| - 1], more[|more| - 1];
      assert (es + more)[..|es + more| - 1] == es + fewer;
      ExecLast(s, es + more);
      RunKeepsRefs(s, es + fewer);
      StoredAllAlong(s, es, fewer, e, r.slot);
      hide Exec, Apply, Inv, RefsOk;
      StoredKeepsRefs(s, es, fewer, r);
      RefStays(Exec(s, es + fewer), e, r);
    }
  }

  /** A packet that is stored, and is again after the next event, was all along. */
  lemma StoredAllAlong(s: Sys, es: seq<Event>, more: seq<Event>, e: Event, x: Slot)
    requires Initial(s) && x in Exec(s, es).db.packets && x in Apply(Exec(s, es + more), e).db.packets
    ensures x in Exec(s, es + more).db.packets
  {
    ReachableInv(s, es);
    ExecSplit(s, es, more);
    hide Exec, Apply, Inv;
    NeverAgain(Exec(s, es), more, e, x);
  }

  /** Whoever was answered 200 or 201 finds every blob it declared recorded for its
      packet, for as long as the packet is stored. */
  lemma AnsweredIsReferenced(s: Sys, es: seq<Event>, p: Pid, id: BlobId)
    requires Initial(s) && p in Exec(s, es).tasks && AnsweredHeld(Exec(s, es).tasks[p].phase)
    requires id in Exec(s, es).tasks[p].req.blobs && Exec(s, es).tasks[p].req.Slot() in Exec(s, es).db.packets
    ensures Ref(Exec(s, es).tasks[p].req.Slot(), id) in Exec(s, es).db.refs
  {
    RunKeepsRefs(s, es);
    hide Exec, Inv;
    assert Recorded(Exec(s, es).db, Exec(s, es).tasks[p]);
  }

  /** Removing one account leaves every other exactly as it was: its packets,
      marks, blobs and references, and which of its blobs nothing names. */
  lemma RemovalSparesOthers(db: Db, u: User)
    ensures var after := UserDeleted(db, u);
            && after.users == db.users - {u}
            && (forall x: Slot :: x in after.packets <==> x in db.packets && x.stream.user != u)
            && (forall x :: x in after.packets ==> after.packets[x] == db.packets[x])
            && (forall t: Stream :: t in after.marks <==> t in db.marks && t.user != u)
            && (forall t :: t in after.marks ==> after.marks[t] == db.marks[t])
            && (forall b: BlobKey :: b in after.blobs <==> b in db.blobs && b.user != u)
            && (forall b :: b in after.blobs ==> after.blobs[b] == db.blobs[b])
            && (forall r: Ref :: r in after.refs <==> r in db.refs && r.slot.stream.user != u)
            && (forall v :: v != u ==> Orphans(after, v) == Orphans(db, v))
  {
  }
}
