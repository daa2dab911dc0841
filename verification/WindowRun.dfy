/**
 A run of the relay, statement by statement, that ends with a reference to a blob
 that is not held: an upload looks for its blob, another upload's prune collects
 it, the first upload records it (go/internal/api/changes_handlers.go:141-157,
 go/internal/store/store.go:743-764).
 */
module WindowRun {
  import opened Sums
  import opened Tables
  import opened Pruning
  import opened Handlers
  import opened Statements
  import opened Interleaving
  import opened Alone
  import opened Dangling

  /** Upload p runs its next statements. */
  function Steps(p: Pid, picks: seq<Device>): seq<Event> {
    seq(|picks|, i requires 0 <= i < |picks| => Advance(p, picks[i]))
  }

  lemma {:induction false} Driven(s: Sys, p: Pid, picks: seq<Device>)
    requires p in s.tasks
    ensures var now, run := Exec(s, Steps(p, picks)), RunAlone(s.db, s.hashOf, s.tasks[p], picks);
            now.db == run.0 && now.tasks == s.tasks[p := run.1] && now.hashOf == s.hashOf
    decreases |picks|
  {
    if picks != [] {
      var e := Advance(p, picks[0]);
      var next := Apply(s, e);
      assert Steps(p, picks) == [e] + Steps(p, picks[1..]);
      assert Exec(s, []) == s && [e][..0] == [];
      assert Exec(s, [e]) == next;
      ExecSplit(s, [e], Steps(p, picks[1..]));
      Driven(next, p, picks[1..]);
    }
  }

  const BLOB: BlobKey := BlobKey(1, "b")
  /** Declares the blob. */
  const NAMING: Request := Request(1, "e", 1, [0], None, ["b"])
  const PLAIN: Request := Request(1, "d", 1, [0], None, [])
  /** A snapshot that covers it. */
  const COVERING: Request := Request(1, "c", 1, [0], Some(map["d" := 1]), [])

  /** The naming upload looks for its blob; the plain packet is stored; the
      snapshot's upload runs to its answer, pruning that packet and collecting the
      blob; the naming upload goes on. */
  const WINDOW_RUN: seq<Event> :=
    [NewUser(1), StoreBlob(BLOB, [0]), Start(0, NAMING), Start(1, PLAIN), Start(2, COVERING)]
    + Steps(0, [""]) + Steps(1, ["", "", ""])
    + Steps(2, ["", "", "", ""]) + Steps(2, ["d", "", "", ""]) + Steps(2, ["", ""]) + Steps(2, ["", "", ""])
    + Steps(0, ["", "", "", "", ""])

  /** After the events above: only the blob, and three uploads. */
  const BEGUN: Db := Db({1}, map[], map[], map[BLOB := [0]], {})

  function PlainStored(h: Hash): Db { BEGUN.(packets := map[PLAIN.Slot() := PLAIN.Row(h)]) }

  function BothStored(h: Hash): Db {
    BEGUN.(packets := map[PLAIN.Slot() := PLAIN.Row(h), COVERING.Slot() := COVERING.Row(h)],
           marks := map[Stream(1, "c") := 1])
  }

  function Remembered(h: Hash): Db { BothStored(h).(marks := map[Stream(1, "c") := 1, Stream(1, "d") := 1]) }

  function Gathered(h: Hash): Db {
    Remembered(h).(packets := map[COVERING.Slot() := COVERING.Row(h)], blobs := map[])
  }

  lemma PlainRuns(hashOf: Bytes -> Hash)
    ensures RunAlone(BEGUN, hashOf, NewTask(PLAIN), ["", "", ""]).0 == PlainStored(hashOf([0]))
  {
    var db, t := BEGUN, NewTask(PLAIN);
    assert IsMark(db, Stream(1, "d"), 0);
    assert Next(db, hashOf, t, "") == (db, t.Goto(CheckStorage));
    assert Next(db, hashOf, t.Goto(CheckStorage), "") == (db, t.Goto(InsertRow));
    var after := Next(db, hashOf, t.Goto(InsertRow), "");
    assert RunAlone(after.0, hashOf, after.1, []) == after;
    assert RunAlone(db, hashOf, t.Goto(InsertRow), [""]) == after;
    assert RunAlone(db, hashOf, t.Goto(CheckStorage), ["", ""]) == after;
  }

  function Counting(at: PrunePhase, n: nat): Task {
    Task(COVERING, Prune(at), true, {}, PruneResult(n, n, 0, 0))
  }

  lemma CoveringStores(hashOf: Bytes -> Hash)
    ensures RunAlone(PlainStored(hashOf([0])), hashOf, NewTask(COVERING), ["", "", "", ""])
            == (BothStored(hashOf([0])), Counting(NextDevice, 0).(todo := {"d"}))
  {
    var db, t := PlainStored(hashOf([0])), NewTask(COVERING);
    assert IsMark(db, Stream(1, "c"), 0);
    assert Next(db, hashOf, t, "") == (db, t.Goto(CheckStorage));
    assert Next(db, hashOf, t.Goto(CheckStorage), "") == (db, t.Goto(InsertRow));
    var (stored, raising) := Next(db, hashOf, t.Goto(InsertRow), "");
    assert raising == t.(phase := RaiseMark, inserted := true);
    var after := Next(stored, hashOf, raising, "");
    assert after.0.packets == BothStored(hashOf([0])).packets;
    assert COVERING.covers.value.Keys == {"d"};
    assert after == (BothStored(hashOf([0])), Counting(NextDevice, 0).(todo := {"d"}));
    assert RunAlone(after.0, hashOf, after.1, []) == after;
    assert RunAlone(stored, hashOf, raising, [""]) == after;
    assert RunAlone(db, hashOf, t.Goto(InsertRow), ["", ""]) == after;
    assert RunAlone(db, hashOf, t.Goto(CheckStorage), ["", "", ""]) == after;
  }

  lemma CoveringCounts(hashOf: Bytes -> Hash)
    ensures RunAlone(BothStored(hashOf([0])), hashOf, Counting(NextDevice, 0).(todo := {"d"}), ["d", "", "", ""])
            == (Remembered(hashOf([0])), Counting(DeleteRows("d", 1, 1, 1), 0))
  {
    var db, t := BothStored(hashOf([0])), Counting(NextDevice, 0);
    var d := Stream(1, "d");
    assert IsMark(db, d, 1);
    assert t.todo == {"d"} - {"d"};
    assert Next(db, hashOf, t.(todo := {"d"}), "d") == (db, Counting(ReadMark("d", 1), 0));
    assert Next(db, hashOf, Counting(ReadMark("d", 1), 0), "") == (db, Counting(Reassert("d", 1, 1), 0));
    var raised := Remembered(hashOf([0]));
    assert Next(db, hashOf, Counting(Reassert("d", 1, 1), 0), "") == (raised, Counting(CountRows("d", 1), 0));
    OneCovered(raised, hashOf([0]));
    var after := Next(raised, hashOf, Counting(CountRows("d", 1), 0), "");
    assert RunAlone(after.0, hashOf, after.1, []) == after;
    assert RunAlone(raised, hashOf, Counting(CountRows("d", 1), 0), [""]) == after;
    assert RunAlone(db, hashOf, Counting(Reassert("d", 1, 1), 0), ["", ""]) == after;
    assert RunAlone(db, hashOf, Counting(ReadMark("d", 1), 0), ["", "", ""]) == after;
  }

  lemma OneCovered(db: Db, h: Hash)
    requires db == Remembered(h)
    ensures UpTo(db, Stream(1, "d"), 1) == {PLAIN.Slot()} && BytesOf(db.packets, {PLAIN.Slot()}) == 1
  {
    assert Sizes(db.packets, {PLAIN.Slot()}) == map[][PLAIN.Slot() := 1];
    SumAdd<Slot>(map[], PLAIN.Slot(), 1);
  }

  function Emptied(h: Hash): Db { Remembered(h).(packets := map[COVERING.Slot() := COVERING.Row(h)]) }

  lemma CoveringEmpties(hashOf: Bytes -> Hash)
    ensures RunAlone(Remembered(hashOf([0])), hashOf, Counting(DeleteRows("d", 1, 1, 1), 0), ["", ""])
            == (Emptied(hashOf([0])), Counting(NextDevice, 1))
  {
    var db, emptied := Remembered(hashOf([0])), Emptied(hashOf([0]));
    OneCovered(db, hashOf([0]));
    assert Deleted(db, Stream(1, "d"), 1) == emptied;
    assert Next(db, hashOf, Counting(DeleteRows("d", 1, 1, 1), 0), "")
             == (emptied, Counting(ReleaseRefs("d", 1, 1, 1), 0));
    assert Released(emptied, Stream(1, "d"), 1) == emptied;
    var after := Next(emptied, hashOf, Counting(ReleaseRefs("d", 1, 1, 1), 0), "");
    assert after == (emptied, Counting(NextDevice, 1));
    assert RunAlone(after.0, hashOf, after.1, []) == after;
    assert RunAlone(emptied, hashOf, Counting(ReleaseRefs("d", 1, 1, 1), 0), [""]) == after;
  }

  lemma CoveringCollects(hashOf: Bytes -> Hash)
    ensures RunAlone(Emptied(hashOf([0])), hashOf, Counting(NextDevice, 1), ["", "", ""]).0 == Gathered(hashOf([0]))
  {
    var db := Emptied(hashOf([0]));
    assert Next(db, hashOf, Counting(NextDevice, 1), "") == (db, Counting(CountOrphans, 1));
    assert Orphans(db, 1) == {BLOB};
    var (same, deleting) := Next(db, hashOf, Counting(CountOrphans, 1), "");
    assert same == db && deleting.phase.Prune? && deleting.phase.at.DeleteOrphans? && deleting.req == COVERING;
    var after := Next(db, hashOf, deleting, "");
    assert after.0 == Gathered(hashOf([0]));
    assert RunAlone(after.0, hashOf, after.1, []) == after;
    assert RunAlone(db, hashOf, deleting, [""]) == after;
    assert RunAlone(db, hashOf, Counting(CountOrphans, 1), ["", ""]) == after;
  }

  lemma NamingLooks(hashOf: Bytes -> Hash)
    ensures RunAlone(BEGUN, hashOf, NewTask(NAMING), [""]) == (BEGUN, NewTask(NAMING).Goto(CheckBlobs(1)))
  {
    var after := Next(BEGUN, hashOf, NewTask(NAMING), "");
    assert RunAlone(after.0, hashOf, after.1, []) == after;
  }

  lemma NamingRecords(hashOf: Bytes -> Hash)
    ensures var after := RunAlone(Gathered(hashOf([0])), hashOf, NewTask(NAMING).Goto(CheckBlobs(1)),
                                  ["", "", "", "", ""]).0;
            Ref(NAMING.Slot(), "b") in after.refs && BLOB !in after.blobs
  {
    var db, t := Gathered(hashOf([0])), NewTask(NAMING);
    assert IsMark(db, Stream(1, "e"), 0);
    assert Next(db, hashOf, t.Goto(CheckBlobs(1)), "") == (db, t.Goto(CheckStorage));
    assert Next(db, hashOf, t.Goto(CheckStorage), "") == (db, t.Goto(InsertRow));
    var (stored, raising) := Next(db, hashOf, t.Goto(InsertRow), "");
    assert raising == t.(phase := RaiseMark, inserted := true);
    var (raised, recording) := Next(stored, hashOf, raising, "");
    assert recording == raising.Goto(RecordBlob(0));
    var after := Next(raised, hashOf, recording, "");
    assert RunAlone(after.0, hashOf, after.1, []) == after;
    assert RunAlone(raised, hashOf, recording, [""]) == after;
    assert RunAlone(stored, hashOf, raising, ["", ""]) == after;
    assert RunAlone(db, hashOf, t.Goto(InsertRow), ["", "", ""]) == after;
    assert RunAlone(db, hashOf, t.Goto(CheckStorage), ["", "", "", ""]) == after;
  }

  lemma Opening(s: Sys)
    requires Initial(s)
    ensures var now := Exec(s, [NewUser(1), StoreBlob(BLOB, [0]), Start(0, NAMING), Start(1, PLAIN),
                                Start(2, COVERING)]);
            && now.hashOf == s.hashOf && now.db == BEGUN
            && now.tasks == map[0 := NewTask(NAMING), 1 := NewTask(PLAIN), 2 := NewTask(COVERING)]
  {
    var es := [NewUser(1), StoreBlob(BLOB, [0]), Start(0, NAMING), Start(1, PLAIN), Start(2, COVERING)];
    assert es[..0] == [];
    ExecOneMore(s, es, 0);
    ExecOneMore(s, es, 1);
    ExecOneMore(s, es, 2);
    ExecOneMore(s, es, 3);
    ExecOneMore(s, es, 4);
    assert es[..5] == es;
  }

  /** The window is real: this run, from an empty relay, leaves a reference to a
      blob that is not held. */
  lemma WindowRunDangles(s: Sys)
    requires Initial(s)
    ensures var now := Exec(s, WINDOW_RUN);
            var r := Ref(NAMING.Slot(), "b");
            r in now.db.refs && BlobOf(r) !in now.db.blobs
  {
    var e0 := [NewUser(1), StoreBlob(BLOB, [0]), Start(0, NAMING), Start(1, PLAIN), Start(2, COVERING)];
    var e1 := e0 + Steps(0, [""]);
    var e2 := e1 + Steps(1, ["", "", ""]);
    var e3 := e2 + Steps(2, ["", "", "", ""]);
    var e4 := e3 + Steps(2, ["d", "", "", ""]);
    var e5 := e4 + Steps(2, ["", ""]);
    var e6 := e5 + Steps(2, ["", "", ""]);
    hide RunAlone, Steps;
    Opening(s);
    NamingLooks(s.hashOf);
    Continues(s, e0, 0, [""]);
    PlainRuns(s.hashOf);
    Continues(s, e1, 1, ["", "", ""]);
    CoveringStores(s.hashOf);
    Continues(s, e2, 2, ["", "", "", ""]);
    CoveringCounts(s.hashOf);
    Continues(s, e3, 2, ["d", "", "", ""]);
    CoveringEmpties(s.hashOf);
    Continues(s, e4, 2, ["", ""]);
    CoveringCollects(s.hashOf);
    Continues(s, e5, 2, ["", "", ""]);
    NamingRecords(s.hashOf);
    Continues(s, e6, 0, ["", "", "", "", ""]);
  }

  lemma Continues(s: Sys, es: seq<Event>, p: Pid, picks: seq<Device>)
    requires p in Exec(s, es).tasks
    ensures var before, now := Exec(s, es), Exec(s, es + Steps(p, picks));
            var run := RunAlone(before.db, before.hashOf, before.tasks[p], picks);
            now.db == run.0 && now.tasks == before.tasks[p := run.1] && now.hashOf == before.hashOf
  {
    ExecSplit(s, es, Steps(p, picks));
    Driven(Exec(s, es), p, picks);
  }
}
