/**
 The relay at the granularity of single SQL statements. Any number of uploads
 are in flight, their statements interleave in any order, and any of them may
 die between two statements (a crash, a cancelled request, a database error).
 The program uses no transaction here; its comments argue that none is needed
 (go/internal/store/store.go:507-511, 534-537, 727-728). That argument is the
 invariant below.
 */
module Statements {
  import opened Tables
  import opened Pruning
  import opened Handlers

  type Pid = nat

  datatype Phase =
    | CheckBlobs(next: nat)
    | CheckStorage
    | InsertRow
    | RaiseMark
    | ReadHeld
    | RecordBlob(next: nat)
    | FlagRow
    | Prune(at: PrunePhase)
    | Answered(outcome: Outcome)
    | Dead

  datatype PrunePhase =
    | NextDevice
    | ReadMark(device: Device, upTo: int)
    | Reassert(device: Device, upTo: int, mark: int)
    | CountRows(device: Device, upTo: int)
    | DeleteRows(device: Device, upTo: int, packets: int, bytes: int)
    | ReleaseRefs(device: Device, upTo: int, packets: int, bytes: int)
    | CountOrphans
    | DeleteOrphans(blobs: int, bytes: int)

  /** One upload in flight: its request and its local variables. */
  datatype Task = Task(req: Request, phase: Phase, inserted: bool, todo: set<Device>, tally: PruneResult)
  {
    function Goto(p: Phase): Task { this.(phase := p) }

    function PruneAt(p: PrunePhase): Task { this.(phase := Prune(p)) }

    /** Past the checks and the insert: blobs from i on, then flag, then prune. */
    function Recording(i: nat): Task {
      if i < |req.blobs| then Goto(RecordBlob(i))
      else if !inserted && req.covers.Some? then Goto(FlagRow)
      else Pruning()
    }

    function Pruning(): Task {
      if req.covers.Some? then this.(phase := Prune(NextDevice), todo := req.covers.value.Keys) else Finished()
    }

    function Finished(): Task {
      var pruned := if req.covers.Some? then Some(tally) else None;
      Goto(Answered(if inserted then Created(pruned) else AlreadyHeld(pruned)))
    }
  }

  function NewTask(req: Request): Task {
    Task(req, CheckBlobs(0), false, {}, PruneResult(0, 0, 0, 0))
  }

  /** One statement of one task. `pick` is the device the map iteration yields
      next. A write for an account that is gone fails its foreign key. */
  ghost function Next(db: Db, hashOf: Bytes -> Hash, t: Task, pick: Device): (Db, Task) {
    var req, s := t.req, t.req.Slot();
    match t.phase
    case CheckBlobs(i) =>
      if i >= |req.blobs| then (db, t.Goto(CheckStorage))
      else if BlobKey(req.user, req.blobs[i]) in db.blobs then (db, t.Goto(CheckBlobs(i + 1)))
      else (db, t.Goto(Answered(BlobsMissing([req.blobs[i]]))))
    case CheckStorage => (db, t.Goto(InsertRow))
    case InsertRow =>
      if !IsNext(db, s) then (db, t.Goto(ReadHeld))
      else if req.user !in db.users then (db, t.Goto(Dead))
      else if s in db.packets then (db, t.Goto(ReadHeld))
      else (Inserted(db, s, req.Row(hashOf(req.payload))), t.(phase := RaiseMark, inserted := true))
    case RaiseMark =>
      if req.user !in db.users then (db, t.Goto(Dead))
      else (Raised(db, s.stream, s.counter), t.Recording(0))
    case ReadHeld =>
      if s.counter <= StreamMark(db, s.stream) then (db, t.Recording(0))
      else (db, t.Goto(Answered(Gap(StreamMark(db, s.stream) + 1))))
    case RecordBlob(i) =>
      if req.user !in db.users || i >= |req.blobs| then (db, t.Goto(Dead))
      else (Referenced(db, s, req.blobs[i]), t.Recording(i + 1))
    case FlagRow => (Flagged(db, s), t.Pruning())
    case Prune(at) => NextPrune(db, t, at, pick)
    case Answered(_) => (db, t)
    case Dead => (db, t)
  }

  /** One statement of PruneCovered. */
  ghost function NextPrune(db: Db, t: Task, at: PrunePhase, pick: Device): (Db, Task) {
    var req := t.req;
    match at
    case NextDevice =>
      if t.todo == {} then (db, if t.tally.packets > 0 then t.PruneAt(CountOrphans) else t.Finished())
      else if pick !in t.todo || req.covers.None? || pick !in req.covers.value then (db, t)
      else
        var rest := t.(todo := t.todo - {pick});
        var upTo := Declared(req.Claim(), pick);
        (db, if upTo < 1 then rest else rest.PruneAt(ReadMark(pick, upTo)))
    case ReadMark(d, upTo) =>
      var mark := StreamMark(db, Stream(req.user, d));
      (db, t.PruneAt(if mark == 0 then NextDevice else Reassert(d, Min(upTo, mark), mark)))
    case Reassert(d, upTo, mark) =>
      if req.user !in db.users then (db, t.Goto(Dead))
      else (Raised(db, Stream(req.user, d), mark), t.PruneAt(CountRows(d, upTo)))
    case CountRows(d, upTo) =>
      var rows := UpTo(db, Stream(req.user, d), upTo);
      (db, t.PruneAt(if rows == {} then NextDevice else DeleteRows(d, upTo, |rows|, BytesOf(db.packets, rows))))
    case DeleteRows(d, upTo, packets, bytes) =>
      (Deleted(db, Stream(req.user, d), upTo), t.PruneAt(ReleaseRefs(d, upTo, packets, bytes)))
    case ReleaseRefs(d, upTo, packets, bytes) =>
      (Released(db, Stream(req.user, d), upTo),
       t.PruneAt(NextDevice).(tally := t.tally.(packets := t.tally.packets + packets, bytes := t.tally.bytes + bytes)))
    case CountOrphans =>
      var rows := Orphans(db, req.user);
      (db, if rows == {} then t.Finished() else t.PruneAt(DeleteOrphans(|rows|, BlobBytesOf(db.blobs, rows))))
    case DeleteOrphans(blobs, bytes) =>
      (Collected(db, req.user), t.(tally := t.tally.(blobs := blobs, blobBytes := bytes)).Finished())
  }

  // ------------------------------------------------------------------ system

  /** Who filled a slot, and with what. */
  datatype Acceptance = Acceptance(pid: Pid, payload: Bytes)

  /** everUsers: account ids are never reused (AUTOINCREMENT). accepted is
      history: nothing the program reads. */
  datatype Sys = Sys(
    hashOf: Bytes -> Hash, db: Db, tasks: map<Pid, Task>, everUsers: set<User>,
    accepted: map<Slot, Acceptance>)

  datatype Event =
    | Start(pid: Pid, req: Request)
    | Advance(pid: Pid, pick: Device)
    | Refuse(pid: Pid)
    | Die(pid: Pid)
    | StoreBlob(blob: BlobKey, payload: Bytes)
    | NewUser(user: User)
    | RemoveUser(user: User)

  /** The history after one upload's statement. */
  ghost function Accepting(s: Sys, pid: Pid, t: Task, after: Task): map<Slot, Acceptance> {
    if after.inserted && !t.inserted then s.accepted[t.req.Slot() := Acceptance(pid, t.req.payload)] else s.accepted
  }

  /** One event; an event that is not possible changes nothing. */
  ghost function Apply(s: Sys, e: Event): Sys {
    match e
    case Start(pid, req) =>
      if pid in s.tasks || req.user !in s.db.users || req.counter < 1 then s
      else s.(tasks := s.tasks[pid := NewTask(req)])
    case Advance(pid, pick) =>
      if pid !in s.tasks then s
      else
        var t := s.tasks[pid];
        var (db, after) := Next(s.db, s.hashOf, t, pick);
        s.(db := db, tasks := s.tasks[pid := after], accepted := Accepting(s, pid, t, after))
    case Refuse(pid) =>
      if pid !in s.tasks || s.tasks[pid].phase != CheckStorage then s
      else s.(tasks := s.tasks[pid := s.tasks[pid].Goto(Answered(NoStorage))])
    case Die(pid) =>
      if pid !in s.tasks then s else s.(tasks := s.tasks[pid := s.tasks[pid].Goto(Dead)])
    case StoreBlob(b, payload) =>
      if b.user !in s.db.users then s else s.(db := BlobPut(s.db, b, payload))
    case NewUser(u) =>
      if u in s.everUsers then s else s.(db := s.db.(users := s.db.users + {u}), everUsers := s.everUsers + {u})
    case RemoveUser(u) =>
      s.(db := UserDeleted(s.db, u))
  }

  ghost function Exec(s: Sys, es: seq<Event>): Sys
    decreases |es|
  {
    if es == [] then s else Apply(Exec(s, es[..|es| - 1]), es[|es| - 1])
  }

  ghost predicate Initial(s: Sys) {
    s.db == Db({}, map[], map[], map[], {}) && s.tasks == map[] && s.everUsers == {} && s.accepted == map[]
  }

  // --------------------------------------------------------------- invariant

  /** Stored rows are valid and hold what was first accepted in their slot. */
  ghost predicate RowsOk(s: Sys) {
    && s.db.Valid()
    && s.db.users <= s.everUsers
    && (forall x :: x in s.accepted ==> x.stream.user in s.everUsers)
    && (forall x :: x in s.db.packets ==>
          && x in s.accepted
          && s.db.packets[x].payload == s.accepted[x].payload
          && s.db.packets[x].hash == s.hashOf(s.accepted[x].payload))
  }

  /** The accepted counters of a live account's stream are 1..mark. */
  ghost predicate MarksOk(db: Db, accepted: map<Slot, Acceptance>) {
    forall t: Stream, c: int :: t.user in db.users ==> (Slot(t, c) in accepted <==> 1 <= c <= StreamMark(db, t))
  }

  /** The device cut next is declared, and the cut stays within the declaration. */
  predicate Declares(req: Request, d: Device, upTo: int) {
    && req.covers.Some? && d in req.covers.value && upTo <= Declared(req.Claim(), d)
  }

  /** The mark is persisted at or above the cut, so the delete cannot lower it. */
  predicate MarkPersisted(db: Db, t: Stream, upTo: int) {
    t.user in db.users ==> t in db.marks && upTo <= db.marks[t]
  }

  predicate BeforeInsert(p: Phase) {
    p.CheckBlobs? || p.CheckStorage? || p.InsertRow? || p.ReadHeld?
  }

  predicate AfterInsert(p: Phase) {
    !BeforeInsert(p) && !p.Answered? && !p.Dead?
  }

  /** What a task in its prune loop knows. */
  ghost predicate PruneOk(db: Db, req: Request, at: PrunePhase) {
    match at
    case ReadMark(d, upTo) => Declares(req, d, upTo)
    case Reassert(d, upTo, mark) =>
      && Declares(req, d, upTo) && 1 <= mark && upTo <= mark
      && (req.user in db.users ==> mark <= StreamMark(db, Stream(req.user, d)))
    case CountRows(d, upTo) => Declares(req, d, upTo) && MarkPersisted(db, Stream(req.user, d), upTo)
    case DeleteRows(d, upTo, _, _) => Declares(req, d, upTo) && MarkPersisted(db, Stream(req.user, d), upTo)
    case ReleaseRefs(d, upTo, _, _) => Declares(req, d, upTo) && MarkPersisted(db, Stream(req.user, d), upTo)
    case _ => true
  }

  ghost predicate PhaseOk(db: Db, req: Request, p: Phase) {
    p.Prune? ==> PruneOk(db, req, p.at)
  }

  /** What a task knows about its own slot. */
  ghost predicate SlotOk(accepted: map<Slot, Acceptance>, pid: Pid, t: Task) {
    && t.req.counter >= 1
    && (t.inserted <==> t.req.Slot() in accepted && accepted[t.req.Slot()].pid == pid)
    && (BeforeInsert(t.phase) ==> !t.inserted)
    && (AfterInsert(t.phase) ==> t.req.Slot() in accepted)
    && (t.phase.Answered? && t.phase.outcome.Created? ==> t.inserted)
    && (t.phase.RaiseMark? ==> t.inserted)
    && (t.inserted ==> accepted[t.req.Slot()].payload == t.req.payload)
    && (t.phase.Answered? && t.phase.outcome.AlreadyHeld? ==> t.req.Slot() in accepted && !t.inserted)
  }

  ghost predicate TaskOk(db: Db, accepted: map<Slot, Acceptance>, pid: Pid, t: Task) {
    SlotOk(accepted, pid, t) && PhaseOk(db, t.req, t.phase)
  }

  ghost predicate TasksOk(s: Sys) {
    && (forall p :: p in s.tasks ==> TaskOk(s.db, s.accepted, p, s.tasks[p]) && s.tasks[p].req.user in s.everUsers)
    && (forall x :: x in s.accepted ==> s.accepted[x].pid in s.tasks)
  }

  ghost predicate Inv(s: Sys) {
    RowsOk(s) && MarksOk(s.db, s.accepted) && TasksOk(s)
  }

  // ------------------------------------------- what a statement does to marks

  /** No mark falls, no persisted mark is lost, no account appears or goes. */
  ghost predicate Onward(db: Db, after: Db) {
    && after.users == db.users
    && (forall t :: StreamMark(db, t) <= StreamMark(after, t))
    && (forall t :: t in db.marks ==> t in after.marks && db.marks[t] <= after.marks[t])
  }

  ghost predicate SameMarks(db: Db, after: Db) {
    Onward(db, after) && forall t :: StreamMark(after, t) == StreamMark(db, t)
  }

  lemma RowsAlikeKeepMarks(db: Db, after: Db)
    requires after.users == db.users && after.marks == db.marks && after.packets.Keys == db.packets.Keys
    ensures SameMarks(db, after)
  {
    forall t ensures StreamMark(after, t) == StreamMark(db, t) {
      assert IsMark(after, t, StreamMark(db, t)) by {
        assert forall c :: Slot(t, c) in after.packets <==> Slot(t, c) in db.packets;
      }
    }
  }

  lemma InsertMovesOneMark(db: Db, s: Slot, row: Row)
    requires IsNext(db, s) && s.counter >= 1
    ensures Onward(db, Inserted(db, s, row))
    ensures forall t :: StreamMark(Inserted(db, s, row), t) == if t == s.stream then s.counter else StreamMark(db, t)
  {
    var after := Inserted(db, s, row);
    forall t ensures StreamMark(after, t) == if t == s.stream then s.counter else StreamMark(db, t) {
      if t == s.stream {
        assert s == Slot(t, s.counter);
        assert IsMark(after, t, s.counter);
      } else {
        assert IsMark(after, t, StreamMark(db, t));
      }
    }
  }

  lemma RaiseKeepsMarks(db: Db, t: Stream, counter: int)
    requires 1 <= counter <= StreamMark(db, t)
    ensures SameMarks(db, Raised(db, t, counter))
    ensures t in Raised(db, t, counter).marks && counter <= Raised(db, t, counter).marks[t]
  {
    var after := Raised(db, t, counter);
    forall u ensures StreamMark(after, u) == StreamMark(db, u) {
      assert IsMark(after, u, StreamMark(db, u));
    }
  }

  /** The heart of the argument: after the mark is re-asserted, deleting at or
      below it cannot lower what comes next. */
  lemma DeleteKeepsMarks(db: Db, t: Stream, n: int)
    requires db.Valid() && MarkPersisted(db, t, n)
    ensures SameMarks(db, Deleted(db, t, n))
  {
    var after := Deleted(db, t, n);
    forall u ensures StreamMark(after, u) == StreamMark(db, u) {
      var m := StreamMark(db, u);
      if m != 0 && Slot(u, m) in db.packets && Slot(u, m) !in after.packets {
        assert Slot(u, m).stream.user in db.users;
        assert db.marks[t] == m;
      }
      assert IsMark(after, u, m);
    }
  }

  // ------------------------------------------------- every step keeps it

  /** Whether this statement fills the upload's slot. */
  ghost predicate Fills(db: Db, t: Task) {
    t.phase.InsertRow? && IsNext(db, t.req.Slot()) && t.req.user in db.users && t.req.Slot() !in db.packets
  }

  lemma NextMarks(db: Db, accepted: map<Slot, Acceptance>, hashOf: Bytes -> Hash, pid: Pid, t: Task, pick: Device)
    requires db.Valid() && MarksOk(db, accepted) && TaskOk(db, accepted, pid, t)
    ensures var (after, _) := Next(db, hashOf, t, pick);
            && Onward(db, after)
            && (if Fills(db, t) then after == Inserted(db, t.req.Slot(), t.req.Row(hashOf(t.req.payload)))
                else SameMarks(db, after))
  {
    hide StreamMark;
    var s := t.req.Slot();
    match t.phase {
      case InsertRow =>
        if Fills(db, t) { InsertMovesOneMark(db, s, t.req.Row(hashOf(t.req.payload))); }
      case RaiseMark =>
        if t.req.user in db.users {
          assert s == Slot(s.stream, s.counter);
          RaiseKeepsMarks(db, s.stream, s.counter);
        }
      case RecordBlob(i) =>
        if t.req.user in db.users && i < |t.req.blobs| {
          RowsAlikeKeepMarks(db, Referenced(db, s, t.req.blobs[i]));
        }
      case FlagRow => RowsAlikeKeepMarks(db, Flagged(db, s));
      case Prune(at) => PruneKeepsMarks(db, t, at, pick);
      case _ =>
    }
  }

  lemma PruneKeepsMarks(db: Db, t: Task, at: PrunePhase, pick: Device)
    requires db.Valid() && PruneOk(db, t.req, at)
    ensures SameMarks(db, NextPrune(db, t, at, pick).0)
  {
    match at {
      case Reassert(d, upTo, mark) =>
        if t.req.user in db.users { RaiseKeepsMarks(db, Stream(t.req.user, d), mark); }
      case DeleteRows(d, upTo, _, _) => DeleteKeepsMarks(db, Stream(t.req.user, d), upTo);
      case ReleaseRefs(d, upTo, _, _) => RowsAlikeKeepMarks(db, Released(db, Stream(t.req.user, d), upTo));
      case DeleteOrphans(_, _) => RowsAlikeKeepMarks(db, Collected(db, t.req.user));
      case _ =>
    }
  }

  /** The inserted flag is set by the filling statement and by no other. */
  lemma NextInserted(db: Db, hashOf: Bytes -> Hash, t: Task, pick: Device)
    requires !(t.phase.InsertRow? && t.inserted)
    ensures var (_, after) := Next(db, hashOf, t, pick);
            && after.req == t.req
            && after.inserted == (t.inserted || Fills(db, t))
  {
  }

  lemma NextKeepsMarksOk(db: Db, accepted: map<Slot, Acceptance>, hashOf: Bytes -> Hash, pid: Pid, t: Task,
                         pick: Device)
    requires db.Valid() && MarksOk(db, accepted) && TaskOk(db, accepted, pid, t)
    ensures var (after, _) := Next(db, hashOf, t, pick);
            var s := t.req.Slot();
            && (Fills(db, t) ==> s !in accepted)
            && MarksOk(after, if Fills(db, t) then accepted[s := Acceptance(pid, t.req.payload)] else accepted)
  {
    NextMarks(db, accepted, hashOf, pid, t, pick);
    var s := t.req.Slot();
    assert s == Slot(s.stream, s.counter);
    if Fills(db, t) {
      InsertMovesOneMark(db, s, t.req.Row(hashOf(t.req.payload)));
    }
  }

  /** A statement keeps the tables valid. */
  lemma NextKeepsValid(db: Db, accepted: map<Slot, Acceptance>, hashOf: Bytes -> Hash, pid: Pid, t: Task, pick: Device)
    requires db.Valid() && TaskOk(db, accepted, pid, t)
    ensures Next(db, hashOf, t, pick).0.Valid()
  {
    if t.phase.Prune? { NextPruneKeepsValid(db, t, t.phase.at, pick); }
  }

  lemma NextPruneKeepsValid(db: Db, t: Task, at: PrunePhase, pick: Device)
    requires db.Valid() && PruneOk(db, t.req, at)
    ensures NextPrune(db, t, at, pick).0.Valid()
  {
  }

  /** The rows it leaves were there before, except the slot it fills; payloads
      and hashes never change, and a snapshot flag is never cleared. */
  lemma NextRows(db: Db, hashOf: Bytes -> Hash, t: Task, pick: Device, x: Slot)
    requires x in Next(db, hashOf, t, pick).0.packets
    ensures var after := Next(db, hashOf, t, pick).0.packets;
            if x in db.packets then
              && after[x].payload == db.packets[x].payload && after[x].hash == db.packets[x].hash
              && (db.packets[x].snapshot ==> after[x].snapshot)
            else
              && Fills(db, t) && x == t.req.Slot() && after[x] == t.req.Row(hashOf(t.req.payload))
  {
    var s := t.req.Slot();
  }

  /** The system after an upload's statement. */
  lemma AdvanceIs(s: Sys, pid: Pid, pick: Device)
    requires s.db.Valid() && MarksOk(s.db, s.accepted) && pid in s.tasks && TaskOk(s.db, s.accepted, pid, s.tasks[pid])
    ensures var t := s.tasks[pid];
            var next := Next(s.db, s.hashOf, t, pick);
            var more := if Fills(s.db, t) then s.accepted[t.req.Slot() := Acceptance(pid, t.req.payload)]
                else s.accepted;
            && Apply(s, Advance(pid, pick)) == Sys(s.hashOf, next.0, s.tasks[pid := next.1], s.everUsers, more)
            && next.1.req == t.req && (Fills(s.db, t) ==> t.req.Slot() !in s.accepted)
            && Onward(s.db, next.0) && MarksOk(next.0, more)
  {
    var t := s.tasks[pid];
    assert !(t.phase.InsertRow? && t.inserted);
    assert Fills(s.db, t) ==> !t.inserted;
    hide Next, TaskOk, StreamMark, Onward, MarksOk, Fills;
    NextInserted(s.db, s.hashOf, t, pick);
    NextMarks(s.db, s.accepted, s.hashOf, pid, t, pick);
    NextKeepsMarksOk(s.db, s.accepted, s.hashOf, pid, t, pick);
  }

  lemma NextKeepsRows(s: Sys, pid: Pid, pick: Device)
    requires RowsOk(s) && MarksOk(s.db, s.accepted) && pid in s.tasks && TaskOk(s.db, s.accepted, pid, s.tasks[pid])
    requires s.tasks[pid].req.user in s.everUsers
    ensures RowsOk(Apply(s, Advance(pid, pick)))
  {
    hide Next, TaskOk, StreamMark, MarksOk, Fills, Apply;
    var t := s.tasks[pid];
    AdvanceIs(s, pid, pick);
    NextKeepsValid(s.db, s.accepted, s.hashOf, pid, t, pick);
    forall x | x in Next(s.db, s.hashOf, t, pick).0.packets
      ensures var after := Apply(s, Advance(pid, pick));
              && x in after.accepted
              && after.db.packets[x].payload == after.accepted[x].payload
              && after.db.packets[x].hash == s.hashOf(after.accepted[x].payload)
    {
      NextRows(s.db, s.hashOf, t, pick, x);
    }
  }

  /** Other uploads are not disturbed by one upload's statement. */
  lemma OthersUndisturbed(db: Db, after: Db, accepted: map<Slot, Acceptance>, more: map<Slot, Acceptance>, pid: Pid,
                          t: Task)
    requires TaskOk(db, accepted, pid, t) && Onward(db, after)
    requires forall x :: x in accepted ==> x in more && more[x] == accepted[x]
    requires forall x :: x in more && x !in accepted ==> more[x].pid != pid
    ensures TaskOk(after, more, pid, t)
  {
    if t.phase.Prune? && t.phase.at.Reassert? {
      var u := Stream(t.req.user, t.phase.at.device);
      assert StreamMark(db, u) <= StreamMark(after, u);
    }
  }

  lemma NextKeepsSlot(db: Db, accepted: map<Slot, Acceptance>, hashOf: Bytes -> Hash, pid: Pid, t: Task, pick: Device)
    requires db.Valid() && MarksOk(db, accepted) && TaskOk(db, accepted, pid, t)
    ensures var more := if Fills(db, t) then accepted[t.req.Slot() := Acceptance(pid, t.req.payload)] else accepted;
            SlotOk(more, pid, Next(db, hashOf, t, pick).1)
  {
    HeldIsAccepted(db, accepted, t.req.Slot());
    if Fills(db, t) { NextKeepsMarksOk(db, accepted, hashOf, pid, t, pick); }
    SlotStep(db, accepted, hashOf, pid, t, pick);
  }

  lemma SlotStep(db: Db, accepted: map<Slot, Acceptance>, hashOf: Bytes -> Hash, pid: Pid, t: Task, pick: Device)
    requires SlotOk(accepted, pid, t)
    requires t.req.counter <= StreamMark(db, t.req.Slot().stream) ==> t.req.Slot() in accepted
    requires Fills(db, t) ==> t.req.Slot() !in accepted
    ensures var more := if Fills(db, t) then accepted[t.req.Slot() := Acceptance(pid, t.req.payload)] else accepted;
            SlotOk(more, pid, Next(db, hashOf, t, pick).1)
  {
    NextInserted(db, hashOf, t, pick);
    match t.phase {
      case Prune(at) =>
      case _ =>
    }
  }

  /** A counter at or below the mark was accepted. */
  lemma HeldIsAccepted(db: Db, accepted: map<Slot, Acceptance>, s: Slot)
    requires db.Valid() && MarksOk(db, accepted)
    ensures 1 <= s.counter <= StreamMark(db, s.stream) ==> s in accepted
  {
    assert s == Slot(s.stream, s.counter);
    if s.stream.user !in db.users {
      assert IsMark(db, s.stream, 0);
    }
  }

  lemma NextKeepsPhase(db: Db, accepted: map<Slot, Acceptance>, hashOf: Bytes -> Hash, pid: Pid, t: Task, pick: Device)
    requires db.Valid() && MarksOk(db, accepted) && TaskOk(db, accepted, pid, t)
    ensures var (after, next) := Next(db, hashOf, t, pick);
            PhaseOk(after, t.req, next.phase)
  {
    if t.phase.Prune? {
      PruneKeepsPhase(db, t, t.phase.at, pick);
    }
  }

  lemma PruneKeepsPhase(db: Db, t: Task, at: PrunePhase, pick: Device)
    requires t.phase == Prune(at) && PruneOk(db, t.req, at)
    ensures var (after, next) := NextPrune(db, t, at, pick);
            PhaseOk(after, t.req, next.phase)
  {
  }

  lemma NextIsTaskOk(db: Db, accepted: map<Slot, Acceptance>, hashOf: Bytes -> Hash, pid: Pid, t: Task, pick: Device)
    requires db.Valid() && MarksOk(db, accepted) && TaskOk(db, accepted, pid, t)
    ensures var (after, next) := Next(db, hashOf, t, pick);
            var more := if Fills(db, t) then accepted[t.req.Slot() := Acceptance(pid, t.req.payload)] else accepted;
            TaskOk(after, more, pid, next)
  {
    NextInserted(db, hashOf, t, pick);
    hide Next, SlotOk, MarksOk, StreamMark;
    NextKeepsSlot(db, accepted, hashOf, pid, t, pick);
    NextKeepsPhase(db, accepted, hashOf, pid, t, pick);
  }

  lemma AdvanceKeepsTasks(s: Sys, pid: Pid, pick: Device)
    requires s.db.Valid() && MarksOk(s.db, s.accepted) && TasksOk(s) && pid in s.tasks
    ensures TasksOk(Apply(s, Advance(pid, pick)))
  {
    var t := s.tasks[pid];
    var after := Apply(s, Advance(pid, pick));
    AdvanceIs(s, pid, pick);
    NextIsTaskOk(s.db, s.accepted, s.hashOf, pid, t, pick);
    hide Next, TaskOk, StreamMark, Onward, MarksOk, Fills, Apply;
    forall p | p in after.tasks
      ensures TaskOk(after.db, after.accepted, p, after.tasks[p]) && after.tasks[p].req.user in after.everUsers
    {
      if p != pid {
        OthersUndisturbed(s.db, after.db, s.accepted, after.accepted, p, s.tasks[p]);
      }
    }
  }

  lemma AdvanceKeepsInv(s: Sys, pid: Pid, pick: Device)
    requires Inv(s)
    ensures Inv(Apply(s, Advance(pid, pick)))
  {
    if pid in s.tasks {
      NextInserted(s.db, s.hashOf, s.tasks[pid], pick);
      NextKeepsMarksOk(s.db, s.accepted, s.hashOf, pid, s.tasks[pid], pick);
      NextKeepsRows(s, pid, pick);
      AdvanceKeepsTasks(s, pid, pick);
    }
  }

  lemma RemoveUserMarks(db: Db, u: User)
    ensures forall t: Stream :: t.user != u ==> StreamMark(UserDeleted(db, u), t) == StreamMark(db, t)
  {
    forall t: Stream | t.user != u ensures StreamMark(UserDeleted(db, u), t) == StreamMark(db, t) {
      assert IsMark(UserDeleted(db, u), t, StreamMark(db, t));
    }
  }

  lemma RemoveUserRows(s: Sys, u: User)
    requires RowsOk(s)
    ensures RowsOk(Apply(s, RemoveUser(u)))
  {
  }

  lemma RemoveUserTasks(s: Sys, u: User)
    requires TasksOk(s)
    ensures TasksOk(Apply(s, RemoveUser(u)))
  {
    var after := Apply(s, RemoveUser(u));
    RemoveUserMarks(s.db, u);
    forall p | p in after.tasks ensures TaskOk(after.db, after.accepted, p, after.tasks[p]) {
      assert TaskOk(s.db, s.accepted, p, s.tasks[p]);
    }
  }

  lemma RemoveUserKeepsInv(s: Sys, u: User)
    requires Inv(s)
    ensures Inv(Apply(s, RemoveUser(u)))
  {
    RemoveUserMarks(s.db, u);
    RemoveUserRows(s, u);
    RemoveUserTasks(s, u);
    assert MarksOk(UserDeleted(s.db, u), s.accepted);
  }

  lemma NewUserKeepsInv(s: Sys, u: User)
    requires Inv(s)
    ensures Inv(Apply(s, NewUser(u)))
  {
    if u !in s.everUsers {
      var after := Apply(s, NewUser(u));
      forall t ensures StreamMark(after.db, t) == StreamMark(s.db, t) {
        assert IsMark(after.db, t, StreamMark(s.db, t));
      }
      forall p | p in after.tasks ensures TaskOk(after.db, after.accepted, p, after.tasks[p]) {
        assert TaskOk(s.db, s.accepted, p, s.tasks[p]);
      }
      forall t: Stream, c: int | t.user == u ensures Slot(t, c) !in s.accepted && StreamMark(s.db, t) == 0 {
        assert IsMark(s.db, t, 0);
      }
    }
  }

  lemma StoreBlobTasks(s: Sys, b: BlobKey, payload: Bytes)
    requires TasksOk(s)
    ensures TasksOk(Apply(s, StoreBlob(b, payload)))
  {
    var after := Apply(s, StoreBlob(b, payload));
    RowsAlikeKeepMarks(s.db, after.db);
    forall p | p in s.tasks ensures TaskOk(after.db, s.accepted, p, s.tasks[p]) {
      OthersUndisturbed(s.db, after.db, s.accepted, s.accepted, p, s.tasks[p]);
    }
  }

  /** Neither invariant looks at the blobs. */
  lemma BlobsAside(s: Sys, blobs: map<BlobKey, Bytes>)
    requires RowsOk(s) && MarksOk(s.db, s.accepted) && forall b :: b in blobs ==> b.user in s.db.users
    ensures RowsOk(s.(db := s.db.(blobs := blobs))) && MarksOk(s.db.(blobs := blobs), s.accepted)
  {
    RowsAlikeKeepMarks(s.db, s.db.(blobs := blobs));
    hide StreamMark;
  }

  lemma StoreBlobRows(s: Sys, b: BlobKey, payload: Bytes)
    requires RowsOk(s) && MarksOk(s.db, s.accepted)
    ensures var after := Apply(s, StoreBlob(b, payload));
            RowsOk(after) && MarksOk(after.db, after.accepted)
  {
    if b.user in s.db.users && b !in s.db.blobs {
      BlobsAside(s, s.db.blobs[b := payload]);
    }
    hide RowsOk, MarksOk;
  }

  lemma StoreBlobKeepsInv(s: Sys, b: BlobKey, payload: Bytes)
    requires Inv(s)
    ensures Inv(Apply(s, StoreBlob(b, payload)))
  {
    StoreBlobRows(s, b, payload);
    StoreBlobTasks(s, b, payload);
  }

  lemma TaskOnlyKeepsTasks(s: Sys, e: Event)
    requires TasksOk(s) && s.db.users <= s.everUsers && (e.Start? || e.Refuse? || e.Die?)
    ensures TasksOk(Apply(s, e))
  {
    var after := Apply(s, e);
    forall p | p in after.tasks
      ensures TaskOk(s.db, s.accepted, p, after.tasks[p]) && after.tasks[p].req.user in s.everUsers
    {
      if p in s.tasks { assert TaskOk(s.db, s.accepted, p, s.tasks[p]); }
    }
  }

  /** The rows are not about the uploads in flight. */
  lemma RowsAside(s: Sys, tasks: map<Pid, Task>)
    requires RowsOk(s)
    ensures RowsOk(s.(tasks := tasks))
  {
  }

  lemma TaskOnlyKeepsInv(s: Sys, e: Event)
    requires Inv(s) && (e.Start? || e.Refuse? || e.Die?)
    ensures Inv(Apply(s, e))
  {
    TaskOnlyKeepsTasks(s, e);
    RowsAside(s, Apply(s, e).tasks);
    assert Apply(s, e) == s.(tasks := Apply(s, e).tasks);
    hide TasksOk, RowsOk, MarksOk, Apply;
  }

  /** Every event keeps the invariant, whatever is in flight. */
  lemma StepKeepsInv(s: Sys, e: Event)
    requires Inv(s)
    ensures Inv(Apply(s, e))
  {
    match e {
      case Advance(pid, pick) => AdvanceKeepsInv(s, pid, pick);
      case RemoveUser(u) => RemoveUserKeepsInv(s, u);
      case NewUser(u) => NewUserKeepsInv(s, u);
      case StoreBlob(b, payload) => StoreBlobKeepsInv(s, b, payload);
      case _ => TaskOnlyKeepsInv(s, e);
    }
  }
}
