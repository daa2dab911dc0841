/**
 Compaction: what a snapshot upload's coverage declaration deletes
 (PruneCovered, go/internal/store/store.go:705-766) and the credit the quota
 check gives for it (CoveredBytes, go/internal/store/limits.go:27-46).

 The program walks the declaration in map order. Here the outcome is stated
 without any order; Store.PruneCovered proves its loop against it.
 */
module Pruning {
  import opened Tables

  /** A coverage declaration and the upload that authorises it. */
  datatype Claim = Claim(user: User, covers: map<Device, int>, keepOrigin: Device, keepCounter: int)

  datatype PruneResult = PruneResult(packets: int, bytes: int, blobs: int, blobBytes: int)

  /** The declared counter, kept below the authorising packet on its own stream. */
  function Declared(c: Claim, d: Device): int
    requires d in c.covers
  {
    if d == c.keepOrigin && c.covers[d] >= c.keepCounter then c.keepCounter - 1 else c.covers[d]
  }

  /** How deep the claim cuts into one declared device's stream; 0 when the
      program skips the device. */
  ghost function Cut(db: Db, c: Claim, d: Device): nat
    requires d in c.covers
  {
    if Declared(c, d) < 1 then 0 else Min(Declared(c, d), StreamMark(db, Stream(c.user, d)))
  }

  /** The cut of every stream that is not skipped, for the devices in `done`. */
  ghost predicate IsCuts(db: Db, c: Claim, done: set<Device>, cuts: map<Stream, nat>) {
    && (forall t :: t in cuts ==>
          && t.user == c.user && t.device in c.covers && t.device in done
          && cuts[t] == Cut(db, c, t.device) >= 1)
    && (forall d :: d in c.covers && d in done && Cut(db, c, d) >= 1 ==> Stream(c.user, d) in cuts)
  }

  /** The cuts of the devices in `done`. */
  ghost function CutsOver(db: Db, c: Claim, done: set<Device>): (cuts: map<Stream, nat>)
    ensures IsCuts(db, c, done, cuts)
  {
    var hit := set d | d in c.covers && d in done && Cut(db, c, d) >= 1 :: Stream(c.user, d);
    map t | t in hit :: Cut(db, c, t.device)
  }

  /** The cuts of the whole declaration. */
  ghost function Cuts(db: Db, c: Claim): (cuts: map<Stream, nat>)
    ensures IsCuts(db, c, c.covers.Keys, cuts)
  {
    CutsOver(db, c, c.covers.Keys)
  }

  ghost function Doomed(db: Db, cuts: map<Stream, nat>): set<Slot> {
    set s | s in db.packets && s.stream in cuts && s.counter <= cuts[s.stream]
  }

  /** References released along with pruned packets; a stream that lost no
      packet keeps all of its own. */
  ghost predicate IsReleased(db: Db, cuts: map<Stream, nat>, r: Ref) {
    && r.slot.stream in cuts
    && r.slot.counter <= cuts[r.slot.stream]
    && UpTo(db, r.slot.stream, cuts[r.slot.stream]) != {}
  }

  /** The database once these streams have been cut. */
  ghost function Cleared(db: Db, cuts: map<Stream, nat>): Db {
    db.(packets := db.packets - Doomed(db, cuts),
        marks := db.marks + map t | t in cuts :: StreamMark(db, t),
        refs := set r | r in db.refs && !IsReleased(db, cuts, r))
  }

  /** The database after PruneCovered. */
  ghost function Pruned(db: Db, c: Claim): Db {
    var cuts := Cuts(db, c);
    if Doomed(db, cuts) == {} then Cleared(db, cuts) else Collected(Cleared(db, cuts), c.user)
  }

  ghost function Collectable(db: Db, c: Claim): set<BlobKey> {
    var cuts := Cuts(db, c);
    if Doomed(db, cuts) == {} then {} else Orphans(Cleared(db, cuts), c.user)
  }

  ghost function PruneTally(db: Db, c: Claim): PruneResult {
    var gone := Doomed(db, Cuts(db, c));
    var orphans := Collectable(db, c);
    PruneResult(|gone|, BytesOf(db.packets, gone), |orphans|, BlobBytesOf(db.blobs, orphans))
  }

  // ------------------------------------------------- one stream at a time

  /** The statements PruneCovered runs for one device it does not skip. */
  function PrunedStream(db: Db, t: Stream, mark: int, n: int): Db {
    var raised := Raised(db, t, mark);
    if UpTo(raised, t, n) == {} then raised else Released(Deleted(raised, t, n), t, n)
  }

  lemma ClearedKeepsMark(db: Db, cuts: map<Stream, nat>, t: Stream)
    requires forall u :: u in cuts ==> cuts[u] <= StreamMark(db, u)
    ensures StreamMark(Cleared(db, cuts), t) == StreamMark(db, t)
  {
    var m := StreamMark(db, t);
    if t !in cuts && m != 0 && Slot(t, m) in db.packets {
      assert Slot(t, m) in Cleared(db, cuts).packets;
    }
    assert IsMark(Cleared(db, cuts), t, m);
  }

  /** Cutting one more stream extends the outcome by that stream, whichever
      streams were cut before it. */
  lemma ClearedStep(db: Db, cuts: map<Stream, nat>, t: Stream, n: nat)
    requires t !in cuts && n <= StreamMark(db, t)
    requires forall u :: u in cuts ==> cuts[u] <= StreamMark(db, u)
    ensures var sofar := Cleared(db, cuts);
            && StreamMark(sofar, t) == StreamMark(db, t)
            && UpTo(sofar, t, n) == UpTo(db, t, n)
            && Doomed(db, cuts[t := n]) == Doomed(db, cuts) + UpTo(db, t, n)
            && Doomed(db, cuts) !! UpTo(db, t, n)
            && Cleared(db, cuts[t := n]) == PrunedStream(sofar, t, StreamMark(db, t), n)
  {
    ClearedKeepsMark(db, cuts, t);
    DoomedStep(db, cuts, t, n);
    MarksStep(db, cuts, t, n);
    ClearedStepRefs(db, cuts, t, n);
    ClearedStepPackets(db, cuts, t, n);
  }

  lemma ClearedStepPackets(db: Db, cuts: map<Stream, nat>, t: Stream, n: nat)
    requires t !in cuts
    ensures var sofar := Cleared(db, cuts);
            && UpTo(Raised(sofar, t, StreamMark(db, t)), t, n) == UpTo(sofar, t, n)
            && Cleared(db, cuts[t := n]).packets == PrunedStream(sofar, t, StreamMark(db, t), n).packets
  {
    DoomedStep(db, cuts, t, n);
    var sofar, next := Cleared(db, cuts), Cleared(db, cuts[t := n]);
    var raised := Raised(sofar, t, StreamMark(db, t));
    assert UpTo(raised, t, n) == UpTo(sofar, t, n);
    if UpTo(sofar, t, n) == {} {
      assert next.packets == sofar.packets;
    } else {
      assert next.packets == sofar.packets - UpTo(db, t, n);
    }
  }

  lemma DoomedStep(db: Db, cuts: map<Stream, nat>, t: Stream, n: nat)
    requires t !in cuts
    ensures Doomed(db, cuts[t := n]) == Doomed(db, cuts) + UpTo(db, t, n)
    ensures Doomed(db, cuts) !! UpTo(db, t, n)
    ensures UpTo(Cleared(db, cuts), t, n) == UpTo(db, t, n)
  {
  }

  lemma MarksStep(db: Db, cuts: map<Stream, nat>, t: Stream, n: nat)
    requires t !in cuts
    ensures Cleared(db, cuts[t := n]).marks == Raised(Cleared(db, cuts), t, StreamMark(db, t)).marks
  {
    var m := StreamMark(db, t);
    var added := map u | u in cuts :: StreamMark(db, u);
    var more := map u | u in cuts[t := n] :: StreamMark(db, u);
    assert more == added[t := m];
    assert Cleared(db, cuts[t := n]).marks == db.marks + more;
    Overlay(db.marks, added, t, m);
    assert Get(db.marks + added, t, m) <= m;
  }

  lemma Overlay<K, V>(a: map<K, V>, b: map<K, V>, k: K, v: V)
    ensures a + b[k := v] == (a + b)[k := v]
  {
  }

  lemma ClearedStepRefs(db: Db, cuts: map<Stream, nat>, t: Stream, n: nat)
    requires t !in cuts
    ensures Cleared(db, cuts[t := n]).refs
            == if UpTo(db, t, n) == {} then Cleared(db, cuts).refs else Released(Cleared(db, cuts), t, n).refs
  {
    forall r ensures IsReleased(db, cuts[t := n], r)
                     <==> IsReleased(db, cuts, r)
                          || (r.slot.stream == t && r.slot.counter <= n && UpTo(db, t, n) != {})
    {
      hide UpTo;
    }
    hide IsReleased, UpTo, Doomed, StreamMark;
  }

  lemma CutsUnique(db: Db, c: Claim, done: set<Device>, cuts: map<Stream, nat>)
    requires IsCuts(db, c, done, cuts)
    ensures cuts == CutsOver(db, c, done)
  {
    var all := CutsOver(db, c, done);
    assert forall t :: t in cuts ==> t == Stream(c.user, t.device) && t in all;
    assert forall t :: t in all ==> t == Stream(c.user, t.device) && t in cuts;
  }

  /** A device the program skips adds no cut. */
  lemma CutsSkip(db: Db, c: Claim, done: set<Device>, cuts: map<Stream, nat>, d: Device)
    requires IsCuts(db, c, done, cuts) && d in c.covers && Cut(db, c, d) == 0
    ensures IsCuts(db, c, done + {d}, cuts)
  {
  }

  /** Any other device adds one. */
  lemma CutsAdd(db: Db, c: Claim, done: set<Device>, cuts: map<Stream, nat>, d: Device)
    requires IsCuts(db, c, done, cuts) && d in c.covers && d !in done && Cut(db, c, d) >= 1
    ensures Stream(c.user, d) !in cuts
    ensures IsCuts(db, c, done + {d}, cuts[Stream(c.user, d) := Cut(db, c, d)])
  {
  }

  lemma CutsBelowMarks(db: Db, c: Claim, done: set<Device>, cuts: map<Stream, nat>)
    requires IsCuts(db, c, done, cuts)
    ensures forall u :: u in cuts ==> cuts[u] <= StreamMark(db, u)
  {
    assert forall u :: u in cuts ==> u == Stream(c.user, u.device);
  }

  // ------------------------------------------------------ walking a declaration

  ghost predicate TallyOf(base: Db, cuts: map<Stream, nat>, tally: PruneResult) {
    tally == PruneResult(|Doomed(base, cuts)|, BytesOf(base.packets, Doomed(base, cuts)), 0, 0)
  }

  /** A prune of `base` has walked these devices, in any order, and nothing else
      has happened: its database and its running totals. */
  ghost predicate Walked(base: Db, db: Db, c: Claim, done: set<Device>, tally: PruneResult) {
    db == Cleared(base, CutsOver(base, c, done)) && TallyOf(base, CutsOver(base, c, done), tally)
  }

  /** Before the first device nothing has happened. */
  lemma NoneWalked(db: Db, c: Claim)
    ensures Walked(db, db, c, {}, PruneResult(0, 0, 0, 0))
  {
    assert CutsOver(db, c, {}) == map[];
    assert Doomed(db, map[]) == {};
    assert Cleared(db, map[]) == db;
    NoBytes(db.packets);
  }

  /** A device that is skipped. */
  lemma WalkPast(base: Db, db: Db, c: Claim, done: set<Device>, d: Device, tally: PruneResult)
    requires Walked(base, db, c, done, tally) && d in c.covers && Cut(base, c, d) == 0
    ensures Walked(base, db, c, done + {d}, tally)
  {
    CutsSkip(base, c, done, CutsOver(base, c, done), d);
    CutsUnique(base, c, done + {d}, CutsOver(base, c, done));
  }

  /** The mark a prune reads is the one it began with. */
  lemma WalkKeepsMark(base: Db, db: Db, c: Claim, done: set<Device>, tally: PruneResult, t: Stream)
    requires Walked(base, db, c, done, tally)
    ensures StreamMark(db, t) == StreamMark(base, t)
  {
    CutsBelowMarks(base, c, done, CutsOver(base, c, done));
    ClearedKeepsMark(base, CutsOver(base, c, done), t);
  }

  /** A device that is cut. */
  lemma WalkOver(base: Db, c: Claim, done: set<Device>, d: Device, tally: PruneResult)
    requires d in c.covers && d !in done && Cut(base, c, d) >= 1 && TallyOf(base, CutsOver(base, c, done), tally)
    ensures var sofar, s, n := Cleared(base, CutsOver(base, c, done)), Stream(c.user, d), Cut(base, c, d);
            var rows := UpTo(base, s, n);
            && UpTo(sofar, s, n) == rows && UpTo(Raised(sofar, s, StreamMark(base, s)), s, n) == rows
            && BytesOf(sofar.packets, rows) == BytesOf(base.packets, rows)
            && Walked(base, PrunedStream(sofar, s, StreamMark(base, s), n), c, done + {d},
                      tally.(packets := tally.packets + |rows|, bytes := tally.bytes + BytesOf(base.packets, rows)))
  {
    var cuts, s, n := CutsOver(base, c, done), Stream(c.user, d), Cut(base, c, d);
    CutsAdd(base, c, done, cuts, d);
    CutsUnique(base, c, done + {d}, cuts[s := n]);
    CutsBelowMarks(base, c, done, cuts);
    CutAtMostMark(base, c, d);
    hide CutsOver, Cut, IsCuts;
    StreamOver(base, cuts, s, n, tally);
    hide Cleared, PrunedStream, UpTo, Raised, TallyOf, BytesOf, StreamMark;
  }

  /** The same for a stream, whatever was cut before it. */
  lemma StreamOver(base: Db, cuts: map<Stream, nat>, s: Stream, n: nat, tally: PruneResult)
    requires s !in cuts && n <= StreamMark(base, s) && TallyOf(base, cuts, tally)
    requires forall u :: u in cuts ==> cuts[u] <= StreamMark(base, u)
    ensures var sofar, rows := Cleared(base, cuts), UpTo(base, s, n);
            && UpTo(sofar, s, n) == rows && UpTo(Raised(sofar, s, StreamMark(base, s)), s, n) == rows
            && BytesOf(sofar.packets, rows) == BytesOf(base.packets, rows)
            && Cleared(base, cuts[s := n]) == PrunedStream(sofar, s, StreamMark(base, s), n)
            && TallyOf(base, cuts[s := n],
                       tally.(packets := tally.packets + |rows|, bytes := tally.bytes + BytesOf(base.packets, rows)))
  {
    hide Cleared, PrunedStream, UpTo, Raised, TallyOf, BytesOf, StreamMark, Doomed;
    ClearedStep(base, cuts, s, n);
    RowsIntact(base, cuts, s, n);
    TallyStep(base, cuts, s, n, tally);
  }

  lemma CutAtMostMark(base: Db, c: Claim, d: Device)
    requires d in c.covers
    ensures Cut(base, c, d) <= StreamMark(base, Stream(c.user, d))
  {
  }

  lemma TallyStep(base: Db, cuts: map<Stream, nat>, s: Stream, n: nat, tally: PruneResult)
    requires s !in cuts && TallyOf(base, cuts, tally)
    ensures var rows := UpTo(base, s, n);
            TallyOf(base, cuts[s := n],
                    tally.(packets := tally.packets + |rows|, bytes := tally.bytes + BytesOf(base.packets, rows)))
  {
    var rows := UpTo(base, s, n);
    DoomedStep(base, cuts, s, n);
    DoomedStored(base, cuts);
    hide UpTo, Doomed;
    BytesUnion(base.packets, Doomed(base, cuts), rows);
    assert |Doomed(base, cuts) + rows| == |Doomed(base, cuts)| + |rows|;
  }

  lemma DoomedStored(base: Db, cuts: map<Stream, nat>)
    ensures Doomed(base, cuts) <= base.packets.Keys
  {
  }

  lemma RowsIntact(base: Db, cuts: map<Stream, nat>, s: Stream, n: nat)
    requires s !in cuts
    ensures var sofar, rows := Cleared(base, cuts), UpTo(base, s, n);
            && UpTo(sofar, s, n) == rows && UpTo(Raised(sofar, s, StreamMark(base, s)), s, n) == rows
            && BytesOf(sofar.packets, rows) == BytesOf(base.packets, rows)
  {
    DoomedStep(base, cuts, s, n);
    BytesUnmoved(Cleared(base, cuts).packets, base.packets, UpTo(base, s, n));
  }

  lemma NoBytes(packets: map<Slot, Row>)
    ensures BytesOf(packets, {}) == 0
  {
    assert Sizes(packets, {}) == map[];
  }

  /** All devices have been walked. */
  lemma AllWalked(base: Db, db: Db, c: Claim, tally: PruneResult)
    requires Walked(base, db, c, c.covers.Keys, tally)
    ensures tally.packets == 0 ==> Pruned(base, c) == db && PruneTally(base, c) == tally
    ensures tally.packets > 0 ==> Pruned(base, c) == Collected(db, c.user)
    ensures tally.packets > 0 ==>
              PruneTally(base, c) == tally.(blobs := |Orphans(db, c.user)|,
                                            blobBytes := BlobBytesOf(db.blobs, Orphans(db, c.user)))
    ensures tally.packets >= 0 && tally.blobs == 0 && tally.blobBytes == 0
  {
    assert Cuts(base, c) == CutsOver(base, c, c.covers.Keys);
    PrunedIs(base, c);
    NoneDoomed(base, c);
    hide CutsOver, Cuts, Pruned, PruneTally, Orphans, Collected, Doomed, Cleared;
  }

  lemma PrunedIs(base: Db, c: Claim)
    ensures var cuts := Cuts(base, c);
            && (Doomed(base, cuts) == {} ==>
                Pruned(base, c) == Cleared(base, cuts) && PruneTally(base, c) == PruneResult(0, 0, 0, 0))
            && (Doomed(base, cuts) != {} ==>
                  && Pruned(base, c) == Collected(Cleared(base, cuts), c.user)
                  && PruneTally(base, c) == PruneResult(|Doomed(base, cuts)|, BytesOf(base.packets, Doomed(base, cuts)),
                       |Orphans(Cleared(base, cuts), c.user)|,
                       BlobBytesOf(base.blobs, Orphans(Cleared(base, cuts), c.user))))
  {
    assert Sizes(base.packets, {}) == map[];
    assert BlobSizes(base.blobs, {}) == map[];
  }

  lemma NoneDoomed(base: Db, c: Claim)
    ensures Cleared(base, Cuts(base, c)).blobs == base.blobs
  {
  }

  /** Nothing to collect is nothing to delete. */
  lemma NothingToCollect(db: Db, user: User)
    requires Orphans(db, user) == {}
    ensures Collected(db, user) == db && BlobBytesOf(db.blobs, Orphans(db, user)) == 0
  {
    assert BlobSizes(db.blobs, {}) == map[];
    assert db.blobs - Orphans(db, user) == db.blobs;
  }

  // ------------------------------------------------------ what a prune means

  /** The stored packets a declaration covers, as CoveredBytes selects them:
      without the clamp to the mark. */
  function CoveredSlots(db: Db, c: Claim): set<Slot> {
    set s | s in db.packets && s.stream.user == c.user && s.stream.device in c.covers
            && s.counter <= Declared(c, s.stream.device)
  }

  /** Clamping to the mark changes nothing: nothing is stored above it. */
  lemma DoomedIsCovered(db: Db, c: Claim)
    requires db.Valid()
    ensures Doomed(db, Cuts(db, c)) == CoveredSlots(db, c)
  {
    var cuts := Cuts(db, c);
    forall s | s in db.packets ensures s in Doomed(db, cuts) <==> s in CoveredSlots(db, c) {
      assert s == Slot(s.stream, s.counter);
      assert s.counter <= StreamMark(db, s.stream);
      assert s.stream == Stream(s.stream.user, s.stream.device);
    }
  }

  lemma PruneKeepsMark(db: Db, c: Claim, t: Stream)
    ensures StreamMark(Pruned(db, c), t) == StreamMark(db, t)
  {
    var cuts := Cuts(db, c);
    assert forall u :: u in cuts ==> u == Stream(c.user, u.device);
    ClearedKeepsMark(db, cuts, t);
    assert IsMark(Pruned(db, c), t, StreamMark(db, t));
  }

  lemma PruneKeepsValid(db: Db, c: Claim)
    requires db.Valid()
    ensures Pruned(db, c).Valid()
  {
    var cuts := Cuts(db, c);
    forall t | t in cuts ensures StreamMark(db, t) >= 1 && t.user in db.users {
      assert t == Stream(c.user, t.device);
      var m := StreamMark(db, t);
      assert Slot(t, m) in db.packets ==> Slot(t, m).stream.user in db.users;
    }
  }

  /** A prune removes exactly what is covered, never the authorising packet,
      and leaves every stream's next counter where it was. */
  lemma PruneBlastRadius(db: Db, c: Claim)
    requires db.Valid()
    ensures Pruned(db, c).Valid()
    ensures forall t :: StreamMark(Pruned(db, c), t) == StreamMark(db, t)
    ensures forall s :: s in Pruned(db, c).packets <==>
              && s in db.packets
              && !(&& s.stream.user == c.user && s.stream.device in c.covers
                   && s.counter <= c.covers[s.stream.device]
                   && (s.stream.device == c.keepOrigin ==> s.counter < c.keepCounter))
    ensures forall s :: s in Pruned(db, c).packets ==> Pruned(db, c).packets[s] == db.packets[s]
    ensures forall b :: b in Pruned(db, c).blobs ==> b in db.blobs && Pruned(db, c).blobs[b] == db.blobs[b]
    ensures forall b :: b in db.blobs && b.user != c.user ==> b in Pruned(db, c).blobs
    ensures Pruned(db, c).users == db.users && Pruned(db, c).refs <= db.refs
  {
    forall t ensures StreamMark(Pruned(db, c), t) == StreamMark(db, t) {
      PruneKeepsMark(db, c, t);
    }
    DoomedIsCovered(db, c);
    PruneKeepsValid(db, c);
    assert Pruned(db, c).packets == db.packets - CoveredSlots(db, c);
  }

  /** A slot that the declaration covers, the authorising one and what follows it
      in its stream excepted. */
  predicate Covers(c: Claim, s: Slot) {
    && s.stream.user == c.user && s.stream.device in c.covers && s.counter <= c.covers[s.stream.device]
    && (s.stream.device == c.keepOrigin ==> s.counter < c.keepCounter)
  }

  /** Which references a prune releases: the covered ones, below the mark, of the
      streams that lose a packet. */
  lemma PrunedRefs(db: Db, c: Claim, r: Ref)
    requires db.Valid()
    ensures r in Pruned(db, c).refs <==>
              && r in db.refs
              && !(&& Covers(c, r.slot) && r.slot.counter <= StreamMark(db, r.slot.stream)
                   && exists s :: s in db.packets && s.stream == r.slot.stream && Covers(c, s))
  {
    var cuts, t := Cuts(db, c), r.slot.stream;
    CutIs(db, c, t);
    if t in cuts {
      UpToIsCovered(db, c, t);
      hide Cuts, Doomed, StreamMark, Cut, UpTo;
    } else {
      NothingCoveredUncut(db, c, t);
      hide Cuts, Doomed, StreamMark, Cut, UpTo;
    }
  }

  lemma CutIs(db: Db, c: Claim, t: Stream)
    ensures t in Cuts(db, c) <==> t.user == c.user && t.device in c.covers && Cut(db, c, t.device) >= 1
    ensures t in Cuts(db, c) ==> Cuts(db, c)[t] == Cut(db, c, t.device)
  {
    assert t == Stream(t.user, t.device);
    hide Cut;
  }

  lemma UpToIsCovered(db: Db, c: Claim, t: Stream)
    requires db.Valid() && t in Cuts(db, c)
    ensures UpTo(db, t, Cuts(db, c)[t]) != {} <==> exists s :: s in db.packets && s.stream == t && Covers(c, s)
    ensures forall n: int :: n <= Cuts(db, c)[t] <==> Covers(c, Slot(t, n)) && n <= StreamMark(db, t)
  {
    CutIs(db, c, t);
    assert t == Stream(t.user, t.device);
    hide Cuts;
    if exists s :: s in db.packets && s.stream == t && Covers(c, s) {
      var s :| s in db.packets && s.stream == t && Covers(c, s);
      assert s == Slot(t, s.counter);
      assert s in UpTo(db, t, Cut(db, c, t.device));
    }
    if UpTo(db, t, Cut(db, c, t.device)) != {} {
      var s :| s in UpTo(db, t, Cut(db, c, t.device));
      assert Covers(c, s);
    }
  }

  lemma NothingCoveredUncut(db: Db, c: Claim, t: Stream)
    requires db.Valid() && t !in Cuts(db, c)
    ensures forall s :: s in db.packets && s.stream == t ==> !Covers(c, s)
  {
    CutIs(db, c, t);
    assert t == Stream(t.user, t.device);
    hide Cuts;
    forall s | s in db.packets && s.stream == t ensures !Covers(c, s) {
      assert s == Slot(t, s.counter);
    }
  }

  /** Which marks a prune persists: those of the declared streams that ever held a
      packet, where the declaration reaches at least their first. */
  lemma PrunedMarks(db: Db, c: Claim, t: Stream)
    requires db.Valid()
    ensures var after := Pruned(db, c);
            if Covers(c, Slot(t, 1)) && StreamMark(db, t) > 0 then
              t in after.marks && after.marks[t] == StreamMark(db, t)
            else (t in after.marks <==> t in db.marks) && (t in db.marks ==> after.marks[t] == db.marks[t])
  {
    CutIs(db, c, t);
    assert t == Stream(t.user, t.device);
    assert Pruned(db, c).marks == Cleared(db, Cuts(db, c)).marks;
    hide Pruned, Cuts, StreamMark;
  }

  lemma CoveredIs(db: Db, c: Claim)
    ensures CoveredSlots(db, c) == {} <==> forall s :: s in db.packets ==> !Covers(c, s)
  {
    assert forall s :: s in db.packets ==> (s in CoveredSlots(db, c) <==> Covers(c, s));
    if CoveredSlots(db, c) != {} {
      var s :| s in CoveredSlots(db, c);
      assert Covers(c, s);
    }
  }

  /** Which blobs a prune collects: none if it removed no packet, and otherwise of
      the account exactly those that no reference it left names. */
  lemma PrunedBlobsAre(db: Db, c: Claim, b: BlobKey)
    requires db.Valid()
    ensures b in Pruned(db, c).blobs <==>
              && b in db.blobs
              && (|| b.user != c.user
                  || (forall s :: s in db.packets ==> !Covers(c, s))
                  || exists r :: r in Pruned(db, c).refs && r.slot.stream.user == b.user && r.blob == b.id)
  {
    var cuts := Cuts(db, c);
    DoomedIsCovered(db, c);
    CoveredIs(db, c);
    assert Cleared(db, cuts).blobs == db.blobs;
    hide Doomed, Cuts, Cleared, CoveredSlots, Covers;
  }

  /** The tally is the difference between the tables before and after. */
  lemma PruneTallyIsConservation(db: Db, c: Claim)
    requires db.Valid()
    ensures var after, tally := Pruned(db, c), PruneTally(db, c);
            && tally.packets == |db.packets| - |after.packets|
            && tally.bytes == BytesOf(db.packets, UserSlots(db, c.user))
                 - BytesOf(after.packets, UserSlots(after, c.user))
            && tally.blobs == |db.blobs| - |after.blobs|
            && tally.blobBytes == BlobBytesOf(db.blobs, UserBlobs(db, c.user))
                 - BlobBytesOf(after.blobs, UserBlobs(after, c.user))
            && tally.bytes + tally.blobBytes == StorageBytes(db, c.user) - StorageBytes(after, c.user)
  {
    PacketTally(db, c);
    BlobTally(db, c);
  }

  lemma PacketTally(db: Db, c: Claim)
    requires db.Valid()
    ensures var after, gone := Pruned(db, c), Doomed(db, Cuts(db, c));
            && |gone| == |db.packets| - |after.packets|
            && BytesOf(db.packets, gone) == BytesOf(db.packets, UserSlots(db, c.user))
                 - BytesOf(after.packets, UserSlots(after, c.user))
  {
    var after, gone := Pruned(db, c), Doomed(db, Cuts(db, c));
    assert gone <= UserSlots(db, c.user) by { DoomedIsCovered(db, c); }
    assert after.packets == db.packets - gone;
    TakenOut(db, after, c.user, gone);
  }

  /** Removing rows of one user: how many go and how many bytes. */
  lemma TakenOut(db: Db, after: Db, user: User, gone: set<Slot>)
    requires gone <= UserSlots(db, user) && after.packets == db.packets - gone
    ensures |gone| == |db.packets| - |after.packets|
    ensures BytesOf(db.packets, gone)
              == BytesOf(db.packets, UserSlots(db, user)) - BytesOf(after.packets, UserSlots(after, user))
  {
    assert |gone| == |db.packets| - |after.packets| by {
      assert after.packets.Keys == db.packets.Keys - gone;
      assert gone <= db.packets.Keys;
    }
    BytesSplit(db.packets, UserSlots(db, user), gone);
    assert UserSlots(after, user) == UserSlots(db, user) - gone;
  }

  lemma BlobTally(db: Db, c: Claim)
    ensures var after, orphans := Pruned(db, c), Collectable(db, c);
            && |orphans| == |db.blobs| - |after.blobs|
            && BlobBytesOf(db.blobs, orphans)
                 == BlobBytesOf(db.blobs, UserBlobs(db, c.user)) - BlobBytesOf(after.blobs, UserBlobs(after, c.user))
  {
    hide *;
    PrunedBlobs(db, c);
    BlobsTakenOut(db, Pruned(db, c), c.user, Collectable(db, c));
  }

  lemma PrunedBlobs(db: Db, c: Claim)
    ensures Pruned(db, c).blobs == db.blobs - Collectable(db, c)
    ensures Collectable(db, c) <= UserBlobs(db, c.user)
  {
    assert Cleared(db, Cuts(db, c)).blobs == db.blobs;
    hide Doomed, Cuts, Cleared;
  }

  lemma BlobsTakenOut(db: Db, after: Db, user: User, gone: set<BlobKey>)
    requires gone <= UserBlobs(db, user) && after.blobs == db.blobs - gone
    ensures |gone| == |db.blobs| - |after.blobs|
    ensures BlobBytesOf(db.blobs, gone)
              == BlobBytesOf(db.blobs, UserBlobs(db, user)) - BlobBytesOf(after.blobs, UserBlobs(after, user))
  {
    assert |gone| == |db.blobs| - |after.blobs| by {
      assert after.blobs.Keys == db.blobs.Keys - gone;
      assert gone <= db.blobs.Keys;
    }
    BlobBytesSplit(db.blobs, UserBlobs(db, user), gone);
    assert UserBlobs(after, user) == UserBlobs(db, user) - gone;
  }

  /** The credit taken before the snapshot is inserted is what the prune run
      after the insert frees in packets. */
  lemma CreditMatchesPrune(db: Db, c: Claim, row: Row, after: Db)
    requires IsNext(db, Slot(Stream(c.user, c.keepOrigin), c.keepCounter))
    requires after.Valid()
    requires after.packets == Inserted(db, Slot(Stream(c.user, c.keepOrigin), c.keepCounter), row).packets
    ensures Doomed(after, Cuts(after, c)) == CoveredSlots(db, c)
    ensures PruneTally(after, c).bytes == BytesOf(db.packets, CoveredSlots(db, c))
  {
    var s := Slot(Stream(c.user, c.keepOrigin), c.keepCounter);
    assert s !in db.packets;
    assert CoveredSlots(after, c) == CoveredSlots(db, c);
    DoomedIsCovered(after, c);
    BytesUnmoved(db.packets, after.packets, CoveredSlots(db, c));
  }
}
