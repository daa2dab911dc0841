/**
 How far concurrent uploads may take an account over its quota. Each upload, of a
 packet or of a blob, reads the account's size, decides, and writes later, and
 nothing holds the reads and the write together
 (go/internal/api/limits.go:145-206, 224-241, go/internal/api/blobs_handlers.go:49-52).
 */
module Overshoot {
  import opened Sums
  import opened Tables
  import opened Pruning
  import opened Handlers
  import opened Statements
  import opened Interleaving

  /** When in the run an upload's storage check read what it read: the stream's
      mark, the bytes each declared device's covered packets hold, the size of the
      account. These are separate statements. */
  datatype Check = Check(mark: nat, covered: map<Device, nat>, used: nat)

  /** When a blob upload looked for the blob, and when it read the account's size. */
  datatype Look = Look(held: nat, used: nat)

  /** The reads of a run: one check for each upload, one look for each position at
      which a blob is put. */
  datatype Reads = Reads(checks: Pid -> Check, looks: nat -> Look)

  ghost function UsedAt(s: Sys, es: seq<Event>, i: nat, u: User): nat
    requires i <= |es|
  {
    StorageBytes(Exec(s, es[..i]).db, u)
  }

  /** What CoveredBytes counts for one device, read at one moment. */
  ghost function CoveredAt(s: Sys, es: seq<Event>, i: nat, req: Request, d: Device): nat
    requires i <= |es| && req.covers.Some? && d in req.covers.value
  {
    var db := Exec(s, es[..i]).db;
    BytesOf(db.packets, UpTo(db, Stream(req.user, d), Declared(req.Claim(), d)))
  }

  ghost function EarnedBy(s: Sys, es: seq<Event>, req: Request, c: Check): map<Device, nat>
    requires req.covers.Some?
  {
    map d | d in req.covers.value && Declared(req.Claim(), d) >= 1 && d in c.covered && c.covered[d] <= |es| ::
      CoveredAt(s, es, c.covered[d], req, d)
  }

  /** The credit an upload's declaration earned it, device by device. */
  ghost function Earned(s: Sys, es: seq<Event>, req: Request, c: Check): nat {
    if req.covers.Some? then Sum(EarnedBy(s, es, req, c)) else 0
  }

  ghost predicate ChecksStorage(s: Sys, e: Event, p: Pid) {
    e.Advance? && e.pid == p && p in s.tasks && s.tasks[p].phase.CheckStorage?
  }

  /** The reads of upload p, which leaves its check at position i, are in the
      program's order, and admit it if it is to take a slot. */
  ghost predicate Passes(s: Sys, es: seq<Event>, cfg: Config, i: nat, p: Pid, c: Check)
    requires i < |es| && p in Exec(s, es[..i]).tasks
  {
    var req := Exec(s, es[..i]).tasks[p].req;
    && c.mark <= c.used <= i
    && p in Exec(s, es[..c.mark]).tasks && Exec(s, es[..c.mark]).tasks[p].phase.CheckStorage?
    && (req.covers.Some? ==>
          forall d :: d in req.covers.value ==> d in c.covered && c.mark <= c.covered[d] <= c.used)
    && (IsNext(Exec(s, es[..c.mark]).db, req.Slot()) ==>
          || |req.payload| <= Earned(s, es, req, c)
          || UsedAt(s, es, c.used, req.user) + |req.payload| <= cfg.quota + Earned(s, es, req, c))
  }

  /** A blob put at position j was held when it was looked for, or fitted when the
      account's size was read. */
  ghost predicate LookPasses(s: Sys, es: seq<Event>, cfg: Config, j: nat, b: BlobKey, size: nat, l: Look)
    requires j <= |es|
  {
    && l.held <= l.used <= j
    && (b in Exec(s, es[..l.held]).db.blobs || size == 0 || UsedAt(s, es, l.used, b.user) + size <= cfg.quota)
  }

  /** The quota is enforced in this run as the program does, with these reads. */
  ghost predicate Enforced(s: Sys, es: seq<Event>, cfg: Config, r: Reads) {
    && (forall i, p :: 0 <= i < |es| && ChecksStorage(Exec(s, es[..i]), es[i], p) ==>
        Passes(s, es, cfg, i, p, r.checks(p)))
    && (forall j :: 0 <= j < |es| && es[j].StoreBlob? ==>
        LookPasses(s, es, cfg, j, es[j].blob, |es[j].payload|, r.looks(j)))
  }

  /** This statement fills the slot of an upload of the account. */
  ghost predicate FillsFor(s: Sys, e: Event, u: User) {
    e.Advance? && e.pid in s.tasks && s.tasks[e.pid].req.user == u && Fills(s.db, s.tasks[e.pid])
  }

  /** This event adds to the account. */
  ghost predicate Adds(s: Sys, e: Event, u: User) {
    FillsFor(s, e, u) || (e.StoreBlob? && e.blob.user == u && e.blob !in s.db.blobs && u in s.db.users)
  }

  /** Something was added to the account at one of these positions. */
  ghost predicate AddedBetween(s: Sys, es: seq<Event>, m: nat, n: nat, u: User)
    requires n <= |es|
  {
    exists k :: m <= k < n && Adds(Exec(s, es[..k]), es[k], u)
  }

  /** What the event after es is charged with. An upload or a blob that was
      overtaken, something having been added to the account since its first read,
      is charged in full; so is a blob that was held when it was looked for and has
      been collected since. Any other upload is charged with no more than the
      credit it earned, and any other blob with nothing. */
  ghost function Charge(s: Sys, es: seq<Event>, e: Event, r: Reads, u: User): nat {
    if FillsFor(Exec(s, es), e, u) then
      var req, c := Exec(s, es).tasks[e.pid].req, r.checks(e.pid);
      if AddedBetween(s, es, c.mark, |es|, u) || |req.payload| <= Earned(s, es, req, c) then |req.payload|
      else Earned(s, es, req, c)
    else if Adds(Exec(s, es), e, u) then
      var l := r.looks(|es|);
      if AddedBetween(s, es, l.held, |es|, u) || (l.held <= |es| && e.blob in Exec(s, es[..l.held]).db.blobs)
      then |e.payload| else 0
    else 0
  }

  /** The charges since the account last stood within its quota. */
  ghost function Overdraft(s: Sys, es: seq<Event>, cfg: Config, r: Reads, u: User): nat
    decreases |es|
  {
    if es == [] || StorageBytes(Exec(s, es).db, u) <= cfg.quota then 0
    else Overdraft(s, es[..|es| - 1], cfg, r, u) + Charge(s, es[..|es| - 1], es[|es| - 1], r, u)
  }

  // ------------------------------------------------------------------- one event

  lemma FewerBytes(db: Db, after: Db, u: User)
    requires forall x :: x in after.packets && x.stream.user == u ==>
               x in db.packets && after.packets[x].payload == db.packets[x].payload
    requires forall b :: b in after.blobs && b.user == u ==> b in db.blobs && after.blobs[b] == db.blobs[b]
    ensures StorageBytes(after, u) <= StorageBytes(db, u)
  {
    SumPart(Sizes(after.packets, UserSlots(after, u)), Sizes(db.packets, UserSlots(db, u)));
    SumPart(BlobSizes(after.blobs, UserBlobs(after, u)), BlobSizes(db.blobs, UserBlobs(db, u)));
  }

  lemma FillGrows(db: Db, x: Slot, row: Row)
    requires x !in db.packets
    ensures StorageBytes(Inserted(db, x, row), x.stream.user) == StorageBytes(db, x.stream.user) + |row.payload|
  {
    var u, after := x.stream.user, Inserted(db, x, row);
    assert Sizes(after.packets, UserSlots(after, u)) == Sizes(db.packets, UserSlots(db, u))[x := |row.payload|];
    SumAdd(Sizes(db.packets, UserSlots(db, u)), x, |row.payload|);
    assert BlobSizes(after.blobs, UserBlobs(after, u)) == BlobSizes(db.blobs, UserBlobs(db, u));
  }

  lemma PutGrows(db: Db, b: BlobKey, payload: Bytes)
    requires b !in db.blobs
    ensures StorageBytes(BlobPut(db, b, payload), b.user) == StorageBytes(db, b.user) + |payload|
  {
    var u, after := b.user, BlobPut(db, b, payload);
    assert BlobSizes(after.blobs, UserBlobs(after, u)) == BlobSizes(db.blobs, UserBlobs(db, u))[b := |payload|];
    SumAdd(BlobSizes(db.blobs, UserBlobs(db, u)), b, |payload|);
    assert Sizes(after.packets, UserSlots(after, u)) == Sizes(db.packets, UserSlots(db, u));
  }

  lemma NextBlobs(db: Db, hashOf: Bytes -> Hash, t: Task, pick: Device)
    ensures var after := Next(db, hashOf, t, pick).0;
            forall b :: b in after.blobs ==> b in db.blobs && after.blobs[b] == db.blobs[b]
  {
  }

  /** Nothing else makes an account grow. */
  lemma OnlyAddsGrow(s: Sys, e: Event, u: User)
    requires Inv(s) && !Adds(s, e, u)
    ensures StorageBytes(Apply(s, e).db, u) <= StorageBytes(s.db, u)
  {
    hide StorageBytes, Inv;
    if e.Advance? && e.pid in s.tasks {
      NextAddsNothing(s.db, s.hashOf, s.tasks[e.pid], e.pick, u);
      hide Next;
    } else if e.RemoveUser? || e.StoreBlob? {
      FewerBytes(s.db, Apply(s, e).db, u);
    } else {
      FewerBytes(s.db, Apply(s, e).db, u);
    }
  }

  lemma NextAddsNothing(db: Db, hashOf: Bytes -> Hash, t: Task, pick: Device, u: User)
    requires Fills(db, t) ==> t.req.user != u
    ensures StorageBytes(Next(db, hashOf, t, pick).0, u) <= StorageBytes(db, u)
  {
    var after := Next(db, hashOf, t, pick).0;
    NextBlobs(db, hashOf, t, pick);
    hide StorageBytes, Next, Fills;
    forall x | x in after.packets && x.stream.user == u
      ensures x in db.packets && after.packets[x].payload == db.packets[x].payload
    {
      NextRows(db, hashOf, t, pick, x);
    }
    FewerBytes(db, after, u);
  }

  lemma AddsGrow(s: Sys, e: Event, u: User)
    requires Inv(s) && Adds(s, e, u)
    ensures StorageBytes(Apply(s, e).db, u)
            == StorageBytes(s.db, u) + if e.StoreBlob? then |e.payload| else |s.tasks[e.pid].req.payload|
  {
    hide StorageBytes;
    if e.StoreBlob? {
      PutGrows(s.db, e.blob, e.payload);
    } else {
      var t := s.tasks[e.pid];
      FillGrows(s.db, t.req.Slot(), t.req.Row(s.hashOf(t.req.payload)));
    }
  }

  /** An upload keeps its request and, once inserted, stays so. */
  lemma UploadStays(s: Sys, e: Event, p: Pid)
    requires Inv(s) && p in s.tasks
    ensures p in Apply(s, e).tasks
    ensures var t, after := s.tasks[p], Apply(s, e).tasks[p];
            after.req == t.req && after.inserted == (t.inserted || (e.Advance? && e.pid == p && Fills(s.db, t)))
  {
    var t := s.tasks[p];
    assert SlotOk(s.accepted, p, t);
    if e.Advance? && e.pid == p { NextInserted(s.db, s.hashOf, t, e.pick); }
  }

  // ------------------------------------------------------------------------ runs

  lemma NothingStored(db: Db, u: User)
    requires db.packets == map[] && db.blobs == map[]
    ensures StorageBytes(db, u) == 0
  {
    assert Sizes(db.packets, UserSlots(db, u)) == map[] && BlobSizes(db.blobs, UserBlobs(db, u)) == map[];
  }

  /** A stream's mark moves only when something is inserted for the account. */
  lemma MarkStill(s: Sys, e: Event, t: Stream)
    requires Inv(s) && !Adds(s, e, t.user) && t.user in Apply(s, e).db.users && t.user in s.db.users
    ensures StreamMark(Apply(s, e).db, t) == StreamMark(s.db, t)
  {
    hide StreamMark;
    match e {
      case Advance(p, pick) =>
        if p in s.tasks {
          var task := s.tasks[p];
          NextMarks(s.db, s.accepted, s.hashOf, p, task, pick);
          if Fills(s.db, task) { InsertMovesOneMark(s.db, task.req.Slot(), task.req.Row(s.hashOf(task.req.payload))); }
        }
      case NewUser(u) => NewUserMarks(s.db, u);
      case RemoveUser(u) => RemoveUserMarks(s.db, u);
      case StoreBlob(b, payload) => RowsAlikeKeepMarks(s.db, BlobPut(s.db, b, payload));
      case _ =>
    }
  }

  /** An upload about to insert has passed its storage check. */
  lemma {:induction false} CheckedBefore(s: Sys, es: seq<Event>, p: Pid) returns (i: nat)
    requires Initial(s) && p in Exec(s, es).tasks && Exec(s, es).tasks[p].phase.InsertRow?
    ensures i < |es| && ChecksStorage(Exec(s, es[..i]), es[i], p)
    ensures Exec(s, es[..i]).tasks[p].req == Exec(s, es).tasks[p].req
    ensures p in Exec(s, es[..i + 1]).tasks && Exec(s, es[..i + 1]).tasks[p].req == Exec(s, es).tasks[p].req
    ensures Exec(s, es[..i + 1]).db == Exec(s, es[..i]).db
    decreases |es|
  {
    var fewer, e := es[..|es| - 1], es[|es| - 1];
    ReachableInv(s, fewer);
    BeforeInserting(Exec(s, fewer), e, p);
    hide Inv, Apply, ChecksStorage;
    if ChecksStorage(Exec(s, fewer), e, p) {
      i := |es| - 1;
      assert es[..i + 1] == es;
    } else {
      i := CheckedBefore(s, fewer, p);
      assert fewer[..i] == es[..i] && fewer[..i + 1] == es[..i + 1];
    }
  }

  lemma PruneInsertsNothing(db: Db, t: Task, at: PrunePhase, pick: Device)
    requires t.phase.Prune?
    ensures !NextPrune(db, t, at, pick).1.phase.InsertRow?
  {
    hide StreamMark, UpTo, Orphans, Raised, Deleted, Released, Collected, BytesOf, BlobBytesOf;
  }

  lemma BeforeInserting(s: Sys, e: Event, p: Pid)
    requires Inv(s) && p in Apply(s, e).tasks && Apply(s, e).tasks[p].phase.InsertRow?
    ensures p in s.tasks && s.tasks[p].req == Apply(s, e).tasks[p].req
    ensures s.tasks[p].phase.InsertRow? || (ChecksStorage(s, e, p) && Apply(s, e).db == s.db)
  {
    hide NextPrune, Inv, StreamMark;
    if p in s.tasks {
      UploadStays(s, e, p);
      if s.tasks[p].phase.Prune? && e.Advance? { PruneInsertsNothing(s.db, s.tasks[p], s.tasks[p].phase.at, e.pick); }
    }
  }

  lemma {:induction false} UploadRemains(s: Sys, es: seq<Event>, p: Pid)
    requires Inv(s) && p in s.tasks
    ensures p in Exec(s, es).tasks && Exec(s, es).tasks[p].req == s.tasks[p].req
    decreases |es|
  {
    if es != [] {
      var fewer := es[..|es| - 1];
      RunKeepsInv(s, fewer);
      UploadRemains(s, fewer, p);
      hide Inv, Apply;
      UploadStays(Exec(s, fewer), es[|es| - 1], p);
    }
  }

  lemma AddedLater(s: Sys, es: seq<Event>, m: nat, n: nat, u: User)
    requires n < |es| && AddedBetween(s, es[..n], m, n, u)
    ensures AddedBetween(s, es, m, n, u) && AddedBetween(s, es, m, n + 1, u)
  {
    var fewer := es[..n];
    var k :| m <= k < n && Adds(Exec(s, fewer[..k]), fewer[k], u);
    assert fewer[..k] == es[..k];
  }

  /** Either something was added for the account since position m, or the account
      has not grown. */
  lemma {:induction false} BytesSince(s: Sys, es: seq<Event>, m: nat, u: User)
    requires Initial(s) && m <= |es|
    ensures AddedBetween(s, es, m, |es|, u) || StorageBytes(Exec(s, es).db, u) <= UsedAt(s, es, m, u)
    decreases |es|
  {
    assert es[..|es|] == es;
    if m < |es| {
      var n := |es| - 1;
      assert es[..n][..m] == es[..m];
      BytesSince(s, es[..n], m, u);
      ReachableInv(s, es[..n]);
      ExecLast(s, es);
      hide Exec, Apply, Inv, StorageBytes, Adds;
      if AddedBetween(s, es[..n], m, n, u) {
        AddedLater(s, es, m, n, u);
      } else if !Adds(Exec(s, es[..n]), es[n], u) {
        OnlyAddsGrow(Exec(s, es[..n]), es[n], u);
      }
    }
  }

  lemma ExecLast(s: Sys, es: seq<Event>)
    requires es != []
    ensures Exec(s, es) == Apply(Exec(s, es[..|es| - 1]), es[|es| - 1])
  {
  }

  /** An account whose upload was in flight, and which lives after the next event,
      lives now. */
  lemma LivedThen(s: Sys, es: seq<Event>, m: nat, p: Pid, e: Event)
    requires Initial(s) && m <= |es| && p in Exec(s, es[..m]).tasks
    requires Exec(s, es[..m]).tasks[p].req.user in Apply(Exec(s, es), e).db.users
    ensures Exec(s, es[..m]).tasks[p].req.user in Exec(s, es).db.users
  {
    var once := Exec(s, es[..m]);
    ReachableInv(s, es[..m]);
    ReachableInv(s, es);
    ExecSplit(s, es[..m], es[m..]);
    assert es[..m] + es[m..] == es;
    hide Exec, Apply;
    HistoryGrows(once, es[m..]);
    EverySteps(Exec(s, es), e);
    assert once.tasks[p].req.user in once.everUsers;
  }

  /** Likewise for the mark of a stream, of an account that lives. */
  lemma {:induction false} MarkSince(s: Sys, es: seq<Event>, m: nat, p: Pid, t: Stream)
    requires Initial(s) && m <= |es| && p in Exec(s, es[..m]).tasks && Exec(s, es[..m]).tasks[p].req.user == t.user
    requires t.user in Exec(s, es).db.users
    ensures AddedBetween(s, es, m, |es|, t.user) || StreamMark(Exec(s, es).db, t) == StreamMark(Exec(s, es[..m]).db, t)
    decreases |es|
  {
    assert es[..|es|] == es;
    if m < |es| {
      var n := |es| - 1;
      assert es[..n][..m] == es[..m];
      ExecLast(s, es);
      LivedThen(s, es[..n], m, p, es[n]);
      MarkSince(s, es[..n], m, p, t);
      ReachableInv(s, es[..n]);
      hide Exec, Apply, Inv, Adds, StreamMark;
      if AddedBetween(s, es[..n], m, n, t.user) {
        AddedLater(s, es, m, n, t.user);
      } else if !Adds(Exec(s, es[..n]), es[n], t.user) {
        MarkStill(Exec(s, es[..n]), es[n], t);
      }
    }
  }

  // ------------------------------------------------------ the reads of a shorter run

  lemma EarnedSoFar(s: Sys, es: seq<Event>, req: Request, c: Check)
    requires es != []
    requires req.covers.Some? ==> forall d :: d in req.covers.value ==> d in c.covered && c.covered[d] < |es|
    ensures Earned(s, es[..|es| - 1], req, c) == Earned(s, es, req, c)
  {
    var fewer := es[..|es| - 1];
    hide Exec;
    if req.covers.Some? {
      forall d | d in req.covers.value
        ensures CoveredAt(s, fewer, c.covered[d], req, d) == CoveredAt(s, es, c.covered[d], req, d)
      {
        assert fewer[..c.covered[d]] == es[..c.covered[d]];
      }
      hide CoveredAt;
      assert EarnedBy(s, fewer, req, c) == EarnedBy(s, es, req, c);
    }
  }

  lemma PassesSoFar(s: Sys, es: seq<Event>, cfg: Config, i: nat, p: Pid, c: Check)
    requires i < |es| - 1 && p in Exec(s, es[..i]).tasks && Passes(s, es, cfg, i, p, c)
    ensures es[..|es| - 1][..i] == es[..i] && Passes(s, es[..|es| - 1], cfg, i, p, c)
  {
    hide Exec, Earned, StorageBytes, IsNext;
    var fewer := es[..|es| - 1];
    assert fewer[..i] == es[..i] && fewer[..c.mark] == es[..c.mark] && fewer[..c.used] == es[..c.used];
    EarnedSoFar(s, es, Exec(s, es[..i]).tasks[p].req, c);
  }

  lemma EnforcedSoFar(s: Sys, es: seq<Event>, cfg: Config, r: Reads)
    requires Enforced(s, es, cfg, r) && es != []
    ensures Enforced(s, es[..|es| - 1], cfg, r)
    ensures var n := |es| - 1;
            es[n].StoreBlob? ==> LookPasses(s, es[..n], cfg, n, es[n].blob, |es[n].payload|, r.looks(n))
  {
    var n := |es| - 1;
    var fewer := es[..n];
    forall i, p | 0 <= i < n && ChecksStorage(Exec(s, fewer[..i]), fewer[i], p)
      ensures Passes(s, fewer, cfg, i, p, r.checks(p))
    {
      assert fewer[..i] == es[..i];
      hide Exec, Passes;
      PassesSoFar(s, es, cfg, i, p, r.checks(p));
    }
    forall j | 0 <= j <= n && es[j].StoreBlob?
      ensures LookPasses(s, fewer, cfg, j, es[j].blob, |es[j].payload|, r.looks(j))
    {
      var l := r.looks(j);
      hide Exec, StorageBytes;
      assert fewer[..l.held] == es[..l.held] && fewer[..l.used] == es[..l.used];
    }
  }

  // -------------------------------------------------------------------- the bound

  /** An upload that nothing overtook was admitted by what it read. */
  lemma FillIsCharged(s: Sys, es: seq<Event>, e: Event, cfg: Config, r: Reads, u: User)
    requires Initial(s) && Enforced(s, es, cfg, r) && FillsFor(Exec(s, es), e, u)
    ensures var now, charge := StorageBytes(Apply(Exec(s, es), e).db, u), Charge(s, es, e, r, u);
            now <= cfg.quota + charge || now <= StorageBytes(Exec(s, es).db, u) + charge
  {
    var p, before := e.pid, Exec(s, es);
    var c, req := r.checks(p), before.tasks[p].req;
    ReachableInv(s, es);
    var i := CheckedBefore(s, es, p);
    assert Passes(s, es, cfg, i, p, c);
    AddsGrow(before, e, u);
    if !AddedBetween(s, es, c.mark, |es|, u) {
      CheckStillHolds(s, es, p, c, u);
    }
    hide Exec, Apply, StorageBytes, Earned, Inv;
  }

  lemma CheckStillHolds(s: Sys, es: seq<Event>, p: Pid, c: Check, u: User)
    requires Initial(s) && c.mark <= c.used <= |es| && p in Exec(s, es[..c.mark]).tasks
    requires p in Exec(s, es).tasks && Exec(s, es).tasks[p].req.user == u && u in Exec(s, es).db.users
    requires !AddedBetween(s, es, c.mark, |es|, u)
    ensures StorageBytes(Exec(s, es).db, u) <= UsedAt(s, es, c.used, u)
    ensures var x := Exec(s, es).tasks[p].req.Slot();
            IsNext(Exec(s, es).db, x) ==> IsNext(Exec(s, es[..c.mark]).db, x)
  {
    ReachableInv(s, es[..c.mark]);
    ExecSplit(s, es[..c.mark], es[c.mark..]);
    assert es[..c.mark] + es[c.mark..] == es;
    hide Exec, StorageBytes, StreamMark, Adds;
    UploadRemains(Exec(s, es[..c.mark]), es[c.mark..], p);
    MarkSince(s, es, c.mark, p, Exec(s, es).tasks[p].req.Slot().stream);
    BytesSince(s, es, c.used, u);
  }

  lemma PutIsCharged(s: Sys, es: seq<Event>, e: Event, cfg: Config, r: Reads, u: User)
    requires Initial(s) && e.StoreBlob? && LookPasses(s, es, cfg, |es|, e.blob, |e.payload|, r.looks(|es|))
    requires Adds(Exec(s, es), e, u)
    ensures var now, charge := StorageBytes(Apply(Exec(s, es), e).db, u), Charge(s, es, e, r, u);
            now <= cfg.quota + charge || now <= StorageBytes(Exec(s, es).db, u) + charge
  {
    var l := r.looks(|es|);
    ReachableInv(s, es);
    AddsGrow(Exec(s, es), e, u);
    BytesSince(s, es, l.used, u);
    hide Exec, Apply, StorageBytes, Inv;
  }

  /** Statements interleaved and uploads dying anywhere, an account exceeds its
      quota by at most what has been charged since it last stood within it: one
      packet or blob for each upload that another overtook, credit for each upload
      that claimed some, and one blob for each that was held when looked at. */
  lemma {:induction false} OvershootIsBounded(s: Sys, es: seq<Event>, cfg: Config, r: Reads, u: User)
    requires Initial(s) && cfg.quota > 0 && Enforced(s, es, cfg, r)
    ensures StorageBytes(Exec(s, es).db, u) <= cfg.quota + Overdraft(s, es, cfg, r, u)
    decreases |es|
  {
    if es == [] {
      NothingStored(s.db, u);
    } else if StorageBytes(Exec(s, es).db, u) > cfg.quota {
      var fewer, e := es[..|es| - 1], es[|es| - 1];
      EnforcedSoFar(s, es, cfg, r);
      OvershootIsBounded(s, fewer, cfg, r, u);
      ExecLast(s, es);
      ReachableInv(s, fewer);
      EventIsCharged(s, fewer, e, cfg, r, u);
      hide Exec, Apply, StorageBytes, Enforced, Charge, Inv;
    }
  }

  lemma EventIsCharged(s: Sys, es: seq<Event>, e: Event, cfg: Config, r: Reads, u: User)
    requires Initial(s) && Enforced(s, es, cfg, r)
    requires e.StoreBlob? ==> LookPasses(s, es, cfg, |es|, e.blob, |e.payload|, r.looks(|es|))
    ensures var now, charge := StorageBytes(Apply(Exec(s, es), e).db, u), Charge(s, es, e, r, u);
            now <= cfg.quota + charge || now <= StorageBytes(Exec(s, es).db, u) + charge
  {
    ReachableInv(s, es);
    hide Exec, Apply, StorageBytes, Enforced, LookPasses, Charge, Inv;
    if FillsFor(Exec(s, es), e, u) {
      FillIsCharged(s, es, e, cfg, r, u);
    } else if Adds(Exec(s, es), e, u) {
      PutIsCharged(s, es, e, cfg, r, u);
    } else {
      OnlyAddsGrow(Exec(s, es), e, u);
    }
  }

  /** Whatever takes an account over its quota, or further over, was overtaken,
      or had earned credit, or is a blob that was held when it was looked for. */
  lemma WhoGoesOver(s: Sys, es: seq<Event>, e: Event, cfg: Config, r: Reads, u: User)
    requires Initial(s) && Enforced(s, es, cfg, r)
    requires e.StoreBlob? ==> LookPasses(s, es, cfg, |es|, e.blob, |e.payload|, r.looks(|es|))
    requires var now := StorageBytes(Apply(Exec(s, es), e).db, u);
             now > cfg.quota && now > StorageBytes(Exec(s, es).db, u)
    ensures Adds(Exec(s, es), e, u)
    ensures FillsFor(Exec(s, es), e, u) ==>
              var c := r.checks(e.pid);
              AddedBetween(s, es, c.mark, |es|, u) || Earned(s, es, Exec(s, es).tasks[e.pid].req, c) > 0
    ensures e.StoreBlob? ==>
              var l := r.looks(|es|);
              AddedBetween(s, es, l.held, |es|, u) || e.blob in Exec(s, es[..l.held]).db.blobs
  {
    hide Exec, Apply, StorageBytes, Enforced, AddedBetween, Earned, Inv, LookPasses;
    ReachableInv(s, es);
    EventIsCharged(s, es, e, cfg, r, u);
    if !Adds(Exec(s, es), e, u) { OnlyAddsGrow(Exec(s, es), e, u); }
  }

  // ------------------------------------------------------------------ such a run

  const TWO_BLOBS: seq<Event> :=
    [NewUser(1), StoreBlob(BlobKey(1, "a"), [0, 0]), StoreBlob(BlobKey(1, "b"), [0, 0])]

  function OneLook(): Reads { Reads(_ => Check(0, map[], 0), _ => Look(1, 1)) }

  lemma TwoBlobsGrow(s: Sys)
    requires Initial(s)
    ensures UsedAt(s, TWO_BLOBS, 1, 1) == 0 && UsedAt(s, TWO_BLOBS, 2, 1) == 2 && UsedAt(s, TWO_BLOBS, 3, 1) == 4
    ensures Exec(s, TWO_BLOBS[..1]).db.users == {1} && Exec(s, TWO_BLOBS[..1]).db.blobs == map[]
    ensures Exec(s, TWO_BLOBS[..2]).db.users == {1} && BlobKey(1, "b") !in Exec(s, TWO_BLOBS[..2]).db.blobs
  {
    var es := TWO_BLOBS;
    assert es[..0] == [];
    ExecOneMore(s, es, 0);
    ExecOneMore(s, es, 1);
    ExecOneMore(s, es, 2);
    var db1, db2 := Exec(s, es[..1]).db, Exec(s, es[..2]).db;
    hide StorageBytes;
    NothingStored(db1, 1);
    PutGrows(db1, BlobKey(1, "a"), [0, 0]);
    PutGrows(db2, BlobKey(1, "b"), [0, 0]);
  }

  lemma TwoBlobsPass(s: Sys)
    requires Initial(s)
    ensures Enforced(s, TWO_BLOBS, Config(10, 10, 2, 0), OneLook())
  {
    hide Exec, StorageBytes, Apply;
    TwoBlobsGrow(s);
    var es := TWO_BLOBS;
    assert !es[0].Advance? && !es[1].Advance? && !es[2].Advance? && !es[0].StoreBlob?;
  }

  /** Two blobs, each the size of the quota, are put after both read an empty
      account: it ends at twice its quota, as far over as the bound allows. */
  lemma TwoBlobsOvershoot(s: Sys)
    requires Initial(s)
    ensures var cfg, r := Config(10, 10, 2, 0), OneLook();
            && Enforced(s, TWO_BLOBS, cfg, r)
            && StorageBytes(Exec(s, TWO_BLOBS).db, 1) == 4 == cfg.quota + Overdraft(s, TWO_BLOBS, cfg, r, 1)
  {
    var es, cfg, r := TWO_BLOBS, Config(10, 10, 2, 0), OneLook();
    TwoBlobsGrow(s);
    TwoBlobsPass(s);
    assert es[..3] == es && es[..2][..1] == es[..1] && es[..2][1] == es[1];
    hide Exec, StorageBytes, Enforced;
    assert Adds(Exec(s, es[..2][..1]), es[..2][1], 1);
    assert AddedBetween(s, es[..2], 1, 2, 1);
    assert Charge(s, es[..2], es[2], r, 1) == 2;
  }
}
