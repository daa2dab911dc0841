/**
 The two granularities agree: an upload whose statements nothing interleaves
 with does what Handlers.Stored says, in whatever order the program walks the
 declaration.
 */
module Alone {
  import opened Tables
  import opened Pruning
  import opened Handlers
  import opened Statements

  /** It has persisted the mark of one more device it is to cut. */
  ghost predicate Persisted(base: Db, db: Db, c: Claim, done: set<Device>, d: Device, tally: PruneResult) {
    var sofar, s := Cleared(base, CutsOver(base, c, done)), Stream(c.user, d);
    TallyOf(base, CutsOver(base, c, done), tally) && db == Raised(sofar, s, StreamMark(base, s))
  }

  /** It has deleted that device's covered packets too. */
  ghost predicate Emptied(base: Db, db: Db, c: Claim, done: set<Device>, d: Device, upTo: int, tally: PruneResult) {
    var sofar, s := Cleared(base, CutsOver(base, c, done)), Stream(c.user, d);
    TallyOf(base, CutsOver(base, c, done), tally) && db == Deleted(Raised(sofar, s, StreamMark(base, s)), s, upTo)
  }

  ghost predicate IsCut(base: Db, c: Claim, d: Device, upTo: int) {
    d in c.covers && upTo == Cut(base, c, d) >= 1
  }

  ghost predicate Counted(base: Db, c: Claim, d: Device, upTo: int, packets: int, bytes: int) {
    var rows := UpTo(base, Stream(c.user, d), upTo);
    rows != {} && packets == |rows| && bytes == BytesOf(base.packets, rows)
  }

  ghost predicate PruneStands(base: Db, db: Db, c: Claim, todo: set<Device>, tally: PruneResult, at: PrunePhase) {
    && todo <= c.covers.Keys
    && (OnDevice(at) ==> at.device in c.covers && at.device !in todo)
    && var done := Past(c, todo, if OnDevice(at) then {at.device} else {});
    match at
    case NextDevice => Walked(base, db, c, done, tally)
    case ReadMark(d, upTo) => upTo == Declared(c, d) >= 1 && Walked(base, db, c, done, tally)
    case Reassert(d, upTo, mark) =>
      IsCut(base, c, d, upTo) && mark == StreamMark(base, Stream(c.user, d)) && Walked(base, db, c, done, tally)
    case CountRows(d, upTo) => IsCut(base, c, d, upTo) && Persisted(base, db, c, done, d, tally)
    case DeleteRows(d, upTo, packets, bytes) =>
      IsCut(base, c, d, upTo) && Counted(base, c, d, upTo, packets, bytes) && Persisted(base, db, c, done, d, tally)
    case ReleaseRefs(d, upTo, packets, bytes) =>
      IsCut(base, c, d, upTo) && Counted(base, c, d, upTo, packets, bytes) && Emptied(base, db, c, done, d, upTo, tally)
    case CountOrphans => todo == {} && Walked(base, db, c, done, tally) && tally.packets > 0
    case DeleteOrphans(blobs, bytes) =>
      && todo == {} && Walked(base, db, c, done, tally) && tally.packets > 0
      && blobs == |Orphans(db, c.user)| && bytes == BlobBytesOf(db.blobs, Orphans(db, c.user))
  }

  /** The devices behind the walk, which is on the devices in `on`. */
  function Past(c: Claim, todo: set<Device>, on: set<Device>): set<Device> { c.covers.Keys - todo - on }

  lemma Onwards(c: Claim, todo: set<Device>, d: Device)
    requires d in c.covers
    ensures d !in todo ==> Past(c, todo, {d}) + {d} == Past(c, todo, {})
    ensures d !in Past(c, todo, {d})
    ensures d in todo ==> Past(c, todo - {d}, {d}) == Past(c, todo, {})
    ensures d in todo ==> Past(c, todo - {d}, {}) == Past(c, todo, {}) + {d}
  {
  }

  predicate OnDevice(at: PrunePhase) {
    at.ReadMark? || at.Reassert? || at.CountRows? || at.DeleteRows? || at.ReleaseRefs?
  }

  /** What the insert and its records made of `db0`. */
  ghost function Began(db0: Db, hash: Hash, req: Request): Db {
    var s := req.Slot();
    if IsNext(db0, s) then Raised(Inserted(db0, s, req.Row(hash)), s.stream, s.counter) else db0
  }

  /** Where a lone upload that began at `db0` stands. */
  ghost predicate Stands(db0: Db, hash: Hash, db: Db, t: Task) {
    var req, s := t.req, t.req.Slot();
    var next := IsNext(db0, s);
    var began := Began(db0, hash, req);
    var ins := Insert(db0, s, req.Row(hash), req.blobs);
    && db0.Valid() && req.user in db0.users && s.counter >= 1
    && match t.phase
       case InsertRow => db == db0 && !t.inserted && t.tally == PruneResult(0, 0, 0, 0)
       case RaiseMark =>
         next && db == Inserted(db0, s, req.Row(hash)) && t.inserted && t.tally == PruneResult(0, 0, 0, 0)
       case ReadHeld => !next && db == db0 && !t.inserted && t.tally == PruneResult(0, 0, 0, 0)
       case RecordBlob(i) =>
         && Recorded(db0, s, began, db, t, i) && i < |req.blobs|
       case FlagRow => Recorded(db0, s, began, db, t, |req.blobs|) && !t.inserted && req.covers.Some?
       case Prune(at) =>
         && ins.inserted == t.inserted && (t.inserted || s.counter <= ins.held) && req.covers.Some?
         && PruneStands(ins.db, db, req.Claim(), t.todo, t.tally, at)
       case Answered(outcome) => (db, outcome) == Stored(db0, hash, req)
       case _ => false
  }

  /** The slot is taken or held, and i of the declared blobs are recorded. */
  ghost predicate Recorded(db0: Db, s: Slot, began: Db, db: Db, t: Task, i: nat) {
    && t.inserted == IsNext(db0, s) && (t.inserted || s.counter <= StreamMark(db0, s.stream))
    && i <= |t.req.blobs| && db == ReferencedAll(began, s, t.req.blobs[..i])
    && t.tally == PruneResult(0, 0, 0, 0)
  }

  // ------------------------------------------------------------------ the prune

  lemma ReadDecides(base: Db, db: Db, c: Claim, done: set<Device>, d: Device, tally: PruneResult)
    requires Walked(base, db, c, done, tally) && d in c.covers && Declared(c, d) >= 1
    ensures var mark := StreamMark(db, Stream(c.user, d));
            && mark == StreamMark(base, Stream(c.user, d))
            && (mark == 0 ==> Walked(base, db, c, done + {d}, tally))
            && (mark > 0 ==> IsCut(base, c, d, Min(Declared(c, d), mark)))
  {
    WalkKeepsMark(base, db, c, done, tally, Stream(c.user, d));
    hide Walked, StreamMark;
    if Cut(base, c, d) == 0 { WalkPast(base, db, c, done, d, tally); }
  }

  /** What counting a stream's covered rows finds. */
  lemma CountDecides(base: Db, db: Db, c: Claim, done: set<Device>, d: Device, upTo: int, tally: PruneResult)
    requires IsCut(base, c, d, upTo) && d !in done && Persisted(base, db, c, done, d, tally)
    ensures var rows := UpTo(db, Stream(c.user, d), upTo);
            && (rows == {} ==> Walked(base, db, c, done + {d}, tally))
            && (rows != {} ==> Counted(base, c, d, upTo, |rows|, BytesOf(db.packets, rows)))
  {
    hide Cleared, Cut, CutsOver, UpTo, Deleted, Released, TallyOf, StreamMark, Walked;
    WalkOver(base, c, done, d, tally);
    NoBytes(base.packets);
  }

  lemma ReleaseCompletes(base: Db, db: Db, c: Claim, done: set<Device>, d: Device, upTo: int, tally: PruneResult,
                         packets: int, bytes: int)
    requires IsCut(base, c, d, upTo) && d !in done && Emptied(base, db, c, done, d, upTo, tally)
    requires Counted(base, c, d, upTo, packets, bytes)
    ensures Walked(base, Released(db, Stream(c.user, d), upTo), c, done + {d},
                   tally.(packets := tally.packets + packets, bytes := tally.bytes + bytes))
  {
    hide Cleared, Cut, CutsOver, UpTo, Deleted, Released, Raised, TallyOf, StreamMark, Walked;
    WalkOver(base, c, done, d, tally);
  }

  /** One statement of a lone prune: it stands further on, or is done. */
  ghost predicate PruneMoves(base: Db, t: Task, after: (Db, Task))
    requires t.req.covers.Some?
  {
    || (after.1.phase.Prune? && after.1.req == t.req && after.1.inserted == t.inserted
        && PruneStands(base, after.0, t.req.Claim(), after.1.todo, after.1.tally, after.1.phase.at))
    || (after.0 == Pruned(base, t.req.Claim()) && after.1 == t.(tally := PruneTally(base, t.req.Claim())).Finished())
  }

  lemma WalkAlone(base: Db, db: Db, t: Task, pick: Device)
    requires t.req.covers.Some? && t.phase.Prune? && OnDevice(t.phase.at) && t.req.user in db.users
    requires PruneStands(base, db, t.req.Claim(), t.todo, t.tally, t.phase.at)
    ensures PruneMoves(base, t, NextPrune(db, t, t.phase.at, pick))
  {
    hide Cut, CutsOver, UpTo, Cleared, Released, TallyOf, StreamMark, Walked, Counted, IsCut, Declared, Past,
        BytesOf, Raised, Deleted;
    var c, d := t.req.Claim(), t.phase.at.device;
    var done := Past(c, t.todo, {d});
    Onwards(c, t.todo, d);
    match t.phase.at {
      case ReadMark(_, upTo) => ReadDecides(base, db, c, done, d, t.tally);
      case Reassert(_, upTo, mark) => ReassertDecides(base, db, c, done, d, t.tally);
      case CountRows(_, upTo) => CountDecides(base, db, c, done, d, upTo, t.tally);
      case DeleteRows(_, upTo, packets, bytes) => DeleteDecides(base, db, c, done, d, upTo, t.tally);
      case ReleaseRefs(_, upTo, packets, bytes) =>
        ReleaseCompletes(base, db, c, done, d, upTo, t.tally, packets, bytes);
    }
    hide Persisted, Emptied;
  }

  lemma ReassertDecides(base: Db, db: Db, c: Claim, done: set<Device>, d: Device, tally: PruneResult)
    requires Walked(base, db, c, done, tally)
    ensures var s := Stream(c.user, d);
            Persisted(base, Raised(db, s, StreamMark(base, s)), c, done, d, tally)
  {
  }

  lemma DeleteDecides(base: Db, db: Db, c: Claim, done: set<Device>, d: Device, upTo: int, tally: PruneResult)
    requires Persisted(base, db, c, done, d, tally)
    ensures Emptied(base, Deleted(db, Stream(c.user, d), upTo), c, done, d, upTo, tally)
  {
  }

  lemma BetweenAlone(base: Db, db: Db, t: Task, pick: Device)
    requires t.req.covers.Some? && t.phase.Prune? && !OnDevice(t.phase.at)
    requires PruneStands(base, db, t.req.Claim(), t.todo, t.tally, t.phase.at)
    ensures PruneMoves(base, t, NextPrune(db, t, t.phase.at, pick))
  {
    hide CutsOver, Cuts, Pruned, PruneTally, Doomed, Cleared, StreamMark, Walked, Orphans, Collected, Past, BlobBytesOf;
    var c := t.req.Claim();
    if t.todo == {} {
      assert Past(c, {}, {}) == c.covers.Keys by { NothingLeft(c); }
      AllWalked(base, db, c, t.tally);
      if Orphans(db, c.user) == {} { NothingToCollect(db, c.user); }
    } else if pick in t.todo {
      Onwards(c, t.todo, pick);
      if Declared(c, pick) < 1 { WalkPast(base, db, c, Past(c, t.todo, {}), pick, t.tally); }
    }
  }

  lemma NothingLeft(c: Claim)
    ensures Past(c, {}, {}) == c.covers.Keys
  {
  }

  // ----------------------------------------------------------------- the upload

  /** The insert is over: the claim is pruned, or the upload answered. */
  lemma PruneBegins(db0: Db, hash: Hash, db: Db, t: Task)
    requires db0.Valid() && t.req.user in db0.users && t.req.counter >= 1 && t.tally == PruneResult(0, 0, 0, 0)
    requires var ins := Insert(db0, t.req.Slot(), t.req.Row(hash), t.req.blobs);
             db == ins.db && t.inserted == ins.inserted && (t.inserted || t.req.counter <= ins.held)
    ensures Stands(db0, hash, db, t.Pruning())
  {
    hide Insert, IsNext, Began, Recorded, Pruned, PruneTally, Walked, StreamMark;
    if t.req.covers.Some? {
      var c := t.req.Claim();
      NoneWalked(db, c);
      assert Past(c, c.covers.Keys, {}) == {};
    }
  }

  lemma RecordingStands(db0: Db, hash: Hash, db: Db, t: Task, i: nat)
    requires db0.Valid() && t.req.user in db0.users && t.req.counter >= 1
    requires Recorded(db0, t.req.Slot(), Began(db0, hash, t.req), db, t, i)
    ensures Stands(db0, hash, db, t.Recording(i))
  {
    if i == |t.req.blobs| && (t.inserted || t.req.covers.None?) {
      assert t.req.blobs[..i] == t.req.blobs;
      PruneBegins(db0, hash, db, t);
    }
    assert i == |t.req.blobs| ==> t.req.blobs[..i] == t.req.blobs;
  }

  lemma InsertAlone(db0: Db, hashOf: Bytes -> Hash, db: Db, t: Task, pick: Device)
    requires Stands(db0, hashOf(t.req.payload), db, t)
             && (t.phase.InsertRow? || t.phase.RaiseMark? || t.phase.ReadHeld?)
    ensures var after := Next(db, hashOf, t, pick);
            after.1.req == t.req && Stands(db0, hashOf(t.req.payload), after.0, after.1)
  {
    hide StreamMark;
    var hash, s := hashOf(t.req.payload), t.req.Slot();
    var after := Next(db, hashOf, t, pick);
    NextIsFree(db0, s);
    if after.1.phase == t.Recording(0).phase {
      NoneRecorded(after.0, s, t.req.blobs);
      RecordingStands(db0, hash, after.0, t, 0);
    }
  }

  lemma NextIsFree(db: Db, s: Slot)
    ensures IsNext(db, s) ==> s !in db.packets
  {
    assert s == Slot(s.stream, s.counter);
  }

  lemma NoneRecorded(db: Db, s: Slot, blobs: seq<BlobId>)
    ensures ReferencedAll(db, s, blobs[..0]) == db
  {
  }

  lemma OneRecorded(db: Db, s: Slot, blobs: seq<BlobId>, i: nat)
    requires i < |blobs|
    ensures Referenced(ReferencedAll(db, s, blobs[..i]), s, blobs[i]) == ReferencedAll(db, s, blobs[..i + 1])
  {
  }

  lemma RecordAlone(db0: Db, hashOf: Bytes -> Hash, db: Db, t: Task, pick: Device)
    requires Stands(db0, hashOf(t.req.payload), db, t) && (t.phase.RecordBlob? || t.phase.FlagRow?)
    requires t.req.user in db.users
    ensures var after := Next(db, hashOf, t, pick);
            after.1.req == t.req && Stands(db0, hashOf(t.req.payload), after.0, after.1)
  {
    hide StreamMark, Referenced, ReferencedAll;
    var hash, s, blobs := hashOf(t.req.payload), t.req.Slot(), t.req.blobs;
    var after := Next(db, hashOf, t, pick);
    if t.phase.RecordBlob? {
      OneRecorded(Began(db0, hash, t.req), s, blobs, t.phase.next);
      RecordingStands(db0, hash, after.0, t, t.phase.next + 1);
    } else {
      assert blobs[..|blobs|] == blobs;
      PruneBegins(db0, hash, after.0, t);
    }
  }

  lemma PruneAlone(db0: Db, hashOf: Bytes -> Hash, db: Db, t: Task, pick: Device)
    requires Stands(db0, hashOf(t.req.payload), db, t) && t.phase.Prune? && t.req.user in db.users
    ensures var after := Next(db, hashOf, t, pick);
            after.1.req == t.req && Stands(db0, hashOf(t.req.payload), after.0, after.1)
  {
    hide Insert, IsNext, PruneStands, NextPrune, Pruned, PruneTally, Began;
    var base := Insert(db0, t.req.Slot(), t.req.Row(hashOf(t.req.payload)), t.req.blobs).db;
    if OnDevice(t.phase.at) {
      WalkAlone(base, db, t, pick);
    } else {
      BetweenAlone(base, db, t, pick);
    }
  }

  lemma PruneKeepsUsers(base: Db, db: Db, c: Claim, todo: set<Device>, tally: PruneResult, at: PrunePhase)
    requires PruneStands(base, db, c, todo, tally, at)
    ensures db.users == base.users
  {
    hide CutsOver, Past, TallyOf, IsCut, Counted, StreamMark, UpTo;
  }

  /** The account is there for as long as nothing else runs. */
  lemma AccountStays(db0: Db, hash: Hash, db: Db, t: Task)
    requires Stands(db0, hash, db, t) && !t.phase.Answered?
    ensures t.req.user in db.users
  {
    hide StreamMark, PruneStands;
    if t.phase.Prune? {
      var base := Insert(db0, t.req.Slot(), t.req.Row(hash), t.req.blobs).db;
      PruneKeepsUsers(base, db, t.req.Claim(), t.todo, t.tally, t.phase.at);
    }
  }

  lemma StepAlone(db0: Db, hashOf: Bytes -> Hash, db: Db, t: Task, pick: Device)
    requires Stands(db0, hashOf(t.req.payload), db, t)
    ensures var after := Next(db, hashOf, t, pick);
            after.1.req == t.req && Stands(db0, hashOf(t.req.payload), after.0, after.1)
  {
    if !t.phase.Answered? { AccountStays(db0, hashOf(t.req.payload), db, t); }
    match t.phase {
      case InsertRow | RaiseMark | ReadHeld => InsertAlone(db0, hashOf, db, t, pick);
      case RecordBlob(_) | FlagRow => RecordAlone(db0, hashOf, db, t, pick);
      case Prune(_) => PruneAlone(db0, hashOf, db, t, pick);
      case Answered(_) =>
    }
  }

  // -------------------------------------------------------------------- whole runs

  /** The statements of one upload, one after another. */
  ghost function RunAlone(db: Db, hashOf: Bytes -> Hash, t: Task, picks: seq<Device>): (Db, Task)
    decreases |picks|
  {
    if picks == [] then (db, t)
    else
      var after := Next(db, hashOf, t, picks[0]);
      RunAlone(after.0, hashOf, after.1, picks[1..])
  }

  lemma {:induction false} RunStands(db0: Db, hashOf: Bytes -> Hash, db: Db, t: Task, picks: seq<Device>)
    requires Stands(db0, hashOf(t.req.payload), db, t)
    ensures var after := RunAlone(db, hashOf, t, picks);
            after.1.req == t.req && Stands(db0, hashOf(t.req.payload), after.0, after.1)
    decreases |picks|
  {
    hide Stands, Next;
    if picks != [] {
      var after := Next(db, hashOf, t, picks[0]);
      StepAlone(db0, hashOf, db, t, picks[0]);
      RunStands(db0, hashOf, after.0, after.1, picks[1..]);
    }
  }

  /** An upload that has passed its checks. */
  function Checked(req: Request): Task { NewTask(req).Goto(InsertRow) }

  /** Whichever way the declaration is walked, an upload that runs to its answer
      alone leaves the database and gives the answer of Handlers.Stored, prune
      totals included. */
  lemma AloneIsAtomic(db: Db, hashOf: Bytes -> Hash, req: Request, picks: seq<Device>)
    requires db.Valid() && req.user in db.users && req.counter >= 1
    requires RunAlone(db, hashOf, Checked(req), picks).1.phase.Answered?
    ensures var (after, t) := RunAlone(db, hashOf, Checked(req), picks);
            (after, t.phase.outcome) == Stored(db, hashOf(req.payload), req)
  {
    RunStands(db, hashOf, db, Checked(req), picks);
  }

  // ---------------------------------------------------------------- from the start

  /** The account holds the first n of the blobs the upload declares. */
  predicate Holds(db: Db, req: Request, n: nat)
    requires n <= |req.blobs|
  {
    forall k :: 0 <= k < n ==> BlobKey(req.user, req.blobs[k]) in db.blobs
  }

  /** The first declared blob that is not held is the i-th. */
  predicate FirstMissing(db: Db, req: Request, i: nat) {
    i < |req.blobs| && Holds(db, req, i) && BlobKey(req.user, req.blobs[i]) !in db.blobs
  }

  /** Where a lone upload that began at `db0` with its blob check stands. */
  ghost predicate Opens(db0: Db, hash: Hash, db: Db, t: Task) {
    var req := t.req;
    match t.phase
    case CheckBlobs(i) =>
      && i <= |req.blobs| && Holds(db0, req, i)
      && db0.Valid() && req.user in db0.users && req.counter >= 1 && db == db0 && t == NewTask(req).Goto(CheckBlobs(i))
    case CheckStorage =>
      && Holds(db0, req, |req.blobs|)
      && db0.Valid() && req.user in db0.users && req.counter >= 1 && db == db0 && t == NewTask(req).Goto(CheckStorage)
    case _ =>
      || (Holds(db0, req, |req.blobs|) && Stands(db0, hash, db, t))
      || (db == db0 && exists i: nat :: FirstMissing(db0, req, i) && t.phase == Answered(BlobsMissing([req.blobs[i]])))
  }

  lemma StepOpens(db0: Db, hashOf: Bytes -> Hash, db: Db, t: Task, pick: Device)
    requires Opens(db0, hashOf(t.req.payload), db, t)
    ensures var after := Next(db, hashOf, t, pick);
            after.1.req == t.req && Opens(db0, hashOf(t.req.payload), after.0, after.1)
  {
    if t.phase.CheckBlobs? || t.phase.CheckStorage? {
      CheckOpens(db0, hashOf, db, t, pick);
    } else if Stands(db0, hashOf(t.req.payload), db, t) {
      StepAlone(db0, hashOf, db, t, pick);
      StaysPastChecks(db, hashOf, t, pick);
      hide Stands, Next;
    } else {
      hide Stands;
    }
  }

  lemma CheckOpens(db0: Db, hashOf: Bytes -> Hash, db: Db, t: Task, pick: Device)
    requires Opens(db0, hashOf(t.req.payload), db, t) && (t.phase.CheckBlobs? || t.phase.CheckStorage?)
    ensures var after := Next(db, hashOf, t, pick);
            after.1.req == t.req && Opens(db0, hashOf(t.req.payload), after.0, after.1)
  {
    hide PruneStands, Recorded, Began, Insert;
    if t.phase.CheckBlobs? && t.phase.next < |t.req.blobs| {
      assert BlobKey(t.req.user, t.req.blobs[t.phase.next]) !in db.blobs ==> FirstMissing(db0, t.req, t.phase.next);
    }
  }

  lemma StaysPastChecks(db: Db, hashOf: Bytes -> Hash, t: Task, pick: Device)
    requires !t.phase.CheckBlobs? && !t.phase.CheckStorage?
    ensures var next := Next(db, hashOf, t, pick).1; !next.phase.CheckBlobs? && !next.phase.CheckStorage?
  {
    hide StreamMark, UpTo, Orphans, Raised, Deleted, Released, Collected, BytesOf, BlobBytesOf, Inserted, Flagged;
  }

  lemma {:induction false} RunOpens(db0: Db, hashOf: Bytes -> Hash, db: Db, t: Task, picks: seq<Device>)
    requires Opens(db0, hashOf(t.req.payload), db, t)
    ensures var after := RunAlone(db, hashOf, t, picks);
            after.1.req == t.req && Opens(db0, hashOf(t.req.payload), after.0, after.1)
    decreases |picks|
  {
    hide Opens, Next;
    if picks != [] {
      var after := Next(db, hashOf, t, picks[0]);
      StepOpens(db0, hashOf, db, t, picks[0]);
      RunOpens(db0, hashOf, after.0, after.1, picks[1..]);
    }
  }

  /** From its first statement: a lone upload that is not refused for storage and
      runs to its answer does what the one-step specification says if it holds
      every blob it declares, and otherwise changes nothing and names the first
      one it does not. */
  lemma AloneFromTheStart(db: Db, hashOf: Bytes -> Hash, req: Request, picks: seq<Device>)
    requires db.Valid() && req.user in db.users && req.counter >= 1
    requires RunAlone(db, hashOf, NewTask(req), picks).1.phase.Answered?
    ensures var (after, t) := RunAlone(db, hashOf, NewTask(req), picks);
            if Holds(db, req, |req.blobs|) then (after, t.phase.outcome) == Stored(db, hashOf(req.payload), req)
            else
              after == db
              && exists i: nat :: FirstMissing(db, req, i) && t.phase.outcome == BlobsMissing([req.blobs[i]])
  {
    RunOpens(db, hashOf, db, NewTask(req), picks);
    hide RunAlone, Stored, Opens;
    var (after, t) := RunAlone(db, hashOf, NewTask(req), picks);
    AnsweredAlone(db, hashOf(req.payload), after, t);
  }

  lemma AnsweredAlone(db0: Db, hash: Hash, db: Db, t: Task)
    requires Opens(db0, hash, db, t) && t.phase.Answered?
    ensures if Holds(db0, t.req, |t.req.blobs|) then (db, t.phase.outcome) == Stored(db0, hash, t.req)
            else
              db == db0
              && exists i: nat :: FirstMissing(db0, t.req, i) && t.phase.outcome == BlobsMissing([t.req.blobs[i]])
  {
    hide Stored, PruneStands, Recorded;
  }

  /** Statements left to run, at most. */
  function Left(t: Task): nat {
    var devices := if t.req.covers.Some? then |t.req.covers.value| else 0;
    match t.phase
    case CheckBlobs(i) => 7 * devices + |t.req.blobs| + 9 + (if i < |t.req.blobs| then |t.req.blobs| - i else 0)
    case CheckStorage => 7 * devices + |t.req.blobs| + 8
    case InsertRow => 7 * devices + |t.req.blobs| + 7
    case RaiseMark | ReadHeld => 7 * devices + |t.req.blobs| + 6
    case RecordBlob(i) => 7 * devices + (if i < |t.req.blobs| then |t.req.blobs| - i else 0) + 5
    case FlagRow => 7 * devices + 5
    case Prune(NextDevice) => 7 * |t.todo| + 3
    case Prune(ReadMark(_, _)) => 7 * |t.todo| + 8
    case Prune(Reassert(_, _, _)) => 7 * |t.todo| + 7
    case Prune(CountRows(_, _)) => 7 * |t.todo| + 6
    case Prune(DeleteRows(_, _, _, _)) => 7 * |t.todo| + 5
    case Prune(ReleaseRefs(_, _, _, _)) => 7 * |t.todo| + 4
    case Prune(CountOrphans) => 2
    case Prune(DeleteOrphans(_, _)) => 1
    case _ => 0
  }

  lemma PruneNearer(db: Db, t: Task, pick: Device)
    requires t.phase.Prune? && t.req.covers.Some?
    requires t.phase == Prune(NextDevice) ==> t.todo == {} || (pick in t.todo && pick in t.req.covers.value)
    ensures Left(NextPrune(db, t, t.phase.at, pick).1) < Left(t)
  {
    hide StreamMark, UpTo, Orphans, BytesOf, BlobBytesOf, Raised, Deleted, Released, Collected, Declared, Min;
    if t.phase.at.NextDevice? { DeviceNearer(db, t, pick); }
  }

  lemma DeviceNearer(db: Db, t: Task, pick: Device)
    requires t.phase == Prune(NextDevice) && t.req.covers.Some?
    requires t.todo == {} || (pick in t.todo && pick in t.req.covers.value)
    ensures Left(NextPrune(db, t, NextDevice, pick).1) < Left(t)
  {
    hide StreamMark, Declared;
    if t.todo != {} {
      assert t.todo == (t.todo - {pick}) + {pick};
      assert |t.todo - {pick}| == |t.todo| - 1;
    }
  }

  lemma UploadNearer(db: Db, hashOf: Bytes -> Hash, t: Task, pick: Device)
    requires Left(t) > 0 && !t.phase.Prune?
    ensures Left(Next(db, hashOf, t, pick).1) < Left(t)
  {
    hide IsNext, StreamMark, Inserted, Raised, Referenced, Flagged;
    match t.phase {
      case CheckBlobs(i) => CheckNearer(db, hashOf, t, pick);
      case RecordBlob(i) => RecordNearer(db, hashOf, t, pick);
      case FlagRow => RecordNearer(db, hashOf, t, pick);
      case RaiseMark => RecordingLeft(t, 0);
      case ReadHeld => RecordingLeft(t, 0);
      case _ =>
    }
  }

  lemma CheckNearer(db: Db, hashOf: Bytes -> Hash, t: Task, pick: Device)
    requires t.phase.CheckBlobs?
    ensures Left(Next(db, hashOf, t, pick).1) < Left(t)
  {
  }

  lemma RecordNearer(db: Db, hashOf: Bytes -> Hash, t: Task, pick: Device)
    requires t.phase.RecordBlob? || t.phase.FlagRow?
    ensures Left(Next(db, hashOf, t, pick).1) < Left(t)
  {
    hide Referenced, Flagged;
    if t.phase.RecordBlob? { RecordingLeft(t, t.phase.next + 1); }
  }

  lemma RecordingLeft(t: Task, i: nat)
    ensures var devices := if t.req.covers.Some? then |t.req.covers.value| else 0;
            Left(t.Recording(i)) <= 7 * devices + (if i < |t.req.blobs| then |t.req.blobs| - i else 0) + 5
  {
  }

  /** And such a run can always be completed. */
  lemma {:induction false} AloneCompletes(db0: Db, hashOf: Bytes -> Hash, db: Db, t: Task) returns (picks: seq<Device>)
    requires Stands(db0, hashOf(t.req.payload), db, t)
    ensures |picks| <= Left(t) && RunAlone(db, hashOf, t, picks).1.phase.Answered?
    decreases Left(t)
  {
    if Left(t) == 0 {
      picks := [];
    } else {
      var pick := "";
      if t.phase.Prune? {
        if t.todo != {} { pick :| pick in t.todo; }
        PruneNearer(db, t, pick);
      } else {
        UploadNearer(db, hashOf, t, pick);
      }
      hide Next;
      var after := Next(db, hashOf, t, pick);
      StepAlone(db0, hashOf, db, t, pick);
      var rest := AloneCompletes(db0, hashOf, after.0, after.1);
      picks := [pick] + rest;
      assert picks[1..] == rest;
    }
  }

  /** From the start too. */
  lemma {:induction false} StartCompletes(db0: Db, hashOf: Bytes -> Hash, db: Db, t: Task) returns (picks: seq<Device>)
    requires Opens(db0, hashOf(t.req.payload), db, t)
    ensures |picks| <= Left(t) && RunAlone(db, hashOf, t, picks).1.phase.Answered?
    decreases Left(t)
  {
    if t.phase.CheckBlobs? || t.phase.CheckStorage? {
      UploadNearer(db, hashOf, t, "");
      StepOpens(db0, hashOf, db, t, "");
      hide Next, Opens;
      var after := Next(db, hashOf, t, "");
      var rest := StartCompletes(db0, hashOf, after.0, after.1);
      picks := [""] + rest;
      assert picks[1..] == rest;
    } else if t.phase.Answered? {
      picks := [];
    } else {
      picks := AloneCompletes(db0, hashOf, db, t);
    }
  }
}
