/** What holds over every interleaving of statements and every crash point. */
module Interleaving {
  import opened Tables
  import opened Statements

  lemma {:induction false} RunKeepsInv(s: Sys, es: seq<Event>)
    requires Inv(s)
    ensures Inv(Exec(s, es))
    decreases |es|
  {
    if es != [] {
      RunKeepsInv(s, es[..|es| - 1]);
      StepKeepsInv(Exec(s, es[..|es| - 1]), es[|es| - 1]);
    }
  }

  /** Every reachable state is one of these. */
  lemma ReachableInv(s: Sys, es: seq<Event>)
    requires Initial(s)
    ensures Inv(Exec(s, es))
  {
    RunKeepsInv(s, es);
  }

  // ------------------------------------------------------------ single steps

  /** What one event may do, whatever it is. */
  ghost predicate Stepped(s: Sys, after: Sys) {
    && s.everUsers <= after.everUsers
    && (forall u :: u in after.db.users ==> u in s.db.users || u !in s.everUsers)
    && (forall t: Stream :: t.user in after.db.users ==> StreamMark(s.db, t) <= StreamMark(after.db, t))
    && (forall x :: x in s.accepted ==> x in after.accepted && after.accepted[x] == s.accepted[x])
    && (forall x :: x in after.db.packets && x !in s.db.packets ==>
        x !in s.accepted && x.counter == StreamMark(s.db, x.stream) + 1)
    && (forall x :: x in after.db.packets && x in s.db.packets && s.db.packets[x].snapshot ==>
        after.db.packets[x].snapshot)
  }

  lemma AdvanceSteps(s: Sys, pid: Pid, pick: Device)
    requires Inv(s) && pid in s.tasks
    ensures Stepped(s, Apply(s, Advance(pid, pick)))
  {
    hide Inv, Next, Apply, TaskOk, MarksOk, StreamMark, SameMarks;
    InvNow(s, pid);
    AdvanceIs(s, pid, pick);
    var t, after := s.tasks[pid], Apply(s, Advance(pid, pick));
    forall x | x in after.db.packets
      ensures x !in s.db.packets ==> x !in s.accepted && x.counter == StreamMark(s.db, x.stream) + 1
      ensures x in s.db.packets && s.db.packets[x].snapshot ==> after.db.packets[x].snapshot
    {
      NextRows(s.db, s.hashOf, t, pick, x);
    }
  }

  lemma InvNow(s: Sys, pid: Pid)
    requires Inv(s) && pid in s.tasks
    ensures s.db.Valid() && MarksOk(s.db, s.accepted) && TaskOk(s.db, s.accepted, pid, s.tasks[pid])
  {
  }

  lemma NewUserMarks(db: Db, u: User)
    ensures forall t :: StreamMark(db.(users := db.users + {u}), t) == StreamMark(db, t)
  {
    forall t ensures StreamMark(db.(users := db.users + {u}), t) == StreamMark(db, t) {
      assert IsMark(db.(users := db.users + {u}), t, StreamMark(db, t));
    }
  }

  lemma NewUserSteps(s: Sys, u: User)
    requires Inv(s)
    ensures Stepped(s, Apply(s, NewUser(u)))
  {
    hide Inv, StreamMark;
    NewUserMarks(s.db, u);
  }

  lemma RemoveUserSteps(s: Sys, u: User)
    requires Inv(s)
    ensures Stepped(s, Apply(s, RemoveUser(u)))
  {
    hide Inv, StreamMark;
    RemoveUserMarks(s.db, u);
  }

  lemma StoreBlobSteps(s: Sys, b: BlobKey, payload: Bytes)
    requires Inv(s)
    ensures Stepped(s, Apply(s, StoreBlob(b, payload)))
  {
    hide Inv, StreamMark;
    RowsAlikeKeepMarks(s.db, BlobPut(s.db, b, payload));
  }

  lemma EverySteps(s: Sys, e: Event)
    requires Inv(s)
    ensures Stepped(s, Apply(s, e))
  {
    match e {
      case Advance(pid, pick) => if pid in s.tasks { AdvanceSteps(s, pid, pick); }
      case RemoveUser(u) => RemoveUserSteps(s, u);
      case StoreBlob(b, payload) => StoreBlobSteps(s, b, payload);
      case NewUser(u) => NewUserSteps(s, u);
      case _ =>
        var after := Apply(s, e);
        assert after.db == s.db && after.accepted == s.accepted && after.everUsers == s.everUsers;
    }
  }

  // ---------------------------------------------------------------- theorems

  /** A live account's mark never falls, its accepted counters are exactly
      1..mark, and only accepted counters are stored. */
  lemma AcceptedIsUpToMark(s: Sys, es: seq<Event>, t: Stream, c: int)
    requires Initial(s)
    ensures var now := Exec(s, es);
            t.user in now.db.users ==>
              && (Slot(t, c) in now.accepted <==> 1 <= c <= StreamMark(now.db, t))
              && (Slot(t, c) in now.db.packets ==> Slot(t, c) in now.accepted)
  {
    ReachableInv(s, es);
  }

  lemma {:induction false} HistoryGrows(s: Sys, es: seq<Event>)
    requires Inv(s)
    ensures s.everUsers <= Exec(s, es).everUsers
    ensures forall x :: x in s.accepted ==> x in Exec(s, es).accepted && Exec(s, es).accepted[x] == s.accepted[x]
    decreases |es|
  {
    if es != [] {
      var fewer := es[..|es| - 1];
      HistoryGrows(s, fewer);
      RunKeepsInv(s, fewer);
      EverySteps(Exec(s, fewer), es[|es| - 1]);
    }
  }

  lemma {:induction false} MarkNeverFalls(s: Sys, es: seq<Event>, t: Stream)
    requires Inv(s) && t.user in Exec(s, es).db.users
    ensures StreamMark(s.db, t) <= StreamMark(Exec(s, es).db, t)
    decreases |es|
  {
    if es != [] {
      var fewer := es[..|es| - 1];
      RunKeepsInv(s, fewer);
      HistoryGrows(s, fewer);
      EverySteps(Exec(s, fewer), es[|es| - 1]);
      if t.user in Exec(s, fewer).db.users {
        hide Inv, Apply, StreamMark;
        MarkNeverFalls(s, fewer, t);
      } else {
        hide Apply, Exec;
        assert IsMark(s.db, t, 0);
      }
    }
  }

  /** The i-th event of a run inserts a row for slot x. */
  ghost predicate InsertsAt(s: Sys, es: seq<Event>, i: nat, x: Slot)
    requires i < |es|
  {
    x !in Exec(s, es[..i]).db.packets && x in Exec(s, es[..i + 1]).db.packets
  }

  lemma ExecOneMore(s: Sys, es: seq<Event>, i: nat)
    requires i < |es|
    ensures Exec(s, es[..i + 1]) == Apply(Exec(s, es[..i]), es[i])
  {
    assert es[..i + 1][..i] == es[..i];
  }

  lemma {:induction false} ExecSplit(s: Sys, es: seq<Event>, more: seq<Event>)
    ensures Exec(s, es + more) == Exec(Exec(s, es), more)
    decreases |more|
  {
    if more == [] {
      assert es + more == es;
    } else {
      ExecSplit(s, es, more[..|more| - 1]);
      assert (es + more)[..|es + more| - 1] == es + more[..|more| - 1];
    }
  }

  /** No slot is inserted twice, even after its packet was pruned. */
  lemma InsertedAtMostOnce(s: Sys, es: seq<Event>, i: nat, j: nat, x: Slot)
    requires Initial(s) && i < j < |es|
    ensures !(InsertsAt(s, es, i, x) && InsertsAt(s, es, j, x))
  {
    hide Exec, Apply, Inv;
    ReachableInv(s, es[..i + 1]);
    ExecOneMore(s, es, j);
    ExecSplit(s, es[..i + 1], es[i + 1..j]);
    assert es[..i + 1] + es[i + 1..j] == es[..j];
    NeverAgain(Exec(s, es[..i + 1]), es[i + 1..j], es[j], x);
  }

  lemma NeverAgain(s: Sys, es: seq<Event>, e: Event, x: Slot)
    requires Inv(s)
    ensures x in s.db.packets ==> x in Exec(s, es).db.packets || x !in Apply(Exec(s, es), e).db.packets
  {
    RunKeepsInv(s, es);
    if x in s.db.packets && x !in Exec(s, es).db.packets {
      StaysAccepted(s, es, x);
      NeverReinserted(Exec(s, es), e, x);
    }
  }

  lemma StaysAccepted(s: Sys, es: seq<Event>, x: Slot)
    requires Inv(s) && x in s.db.packets
    ensures x in Exec(s, es).accepted
  {
    HistoryGrows(s, es);
  }

  lemma NeverReinserted(s: Sys, e: Event, x: Slot)
    requires Inv(s) && x in s.accepted && x !in s.db.packets
    ensures x !in Apply(s, e).db.packets
  {
    EverySteps(s, e);
  }

  /** An upload stands answered 201 for this slot. */
  ghost predicate ToldCreated(s: Sys, p: Pid, x: Slot) {
    && p in s.tasks && s.tasks[p].req.Slot() == x
    && s.tasks[p].phase.Answered? && s.tasks[p].phase.outcome.Created?
  }

  /** At most one uploader is ever told its slot was newly filled: whoever was
      told so at one moment of a run and whoever is at a later one are the same,
      even if the first is gone by then; and the slot then holds that uploader's
      bytes for as long as it is stored. */
  lemma OneUploaderCreates(s: Sys, es: seq<Event>, more: seq<Event>, p: Pid, q: Pid, x: Slot)
    requires Initial(s) && ToldCreated(Exec(s, es), p, x)
    ensures ToldCreated(Exec(s, es + more), q, x) ==> p == q
    ensures var later := Exec(s, es + more);
            x in later.db.packets ==> later.db.packets[x].payload == Exec(s, es).tasks[p].req.payload
  {
    var now := Exec(s, es);
    ReachableInv(s, es);
    ReachableInv(s, es + more);
    ExecSplit(s, es, more);
    HistoryGrows(now, more);
    hide Exec;
    assert TaskOk(now.db, now.accepted, p, now.tasks[p]);
  }

  /** An answer of 200 or 201 is never given for a slot that was not accepted. */
  lemma AnswersAreTrue(s: Sys, es: seq<Event>, p: Pid)
    requires Initial(s) && p in Exec(s, es).tasks && Exec(s, es).tasks[p].phase.Answered?
    requires Exec(s, es).tasks[p].phase.outcome.Created? || Exec(s, es).tasks[p].phase.outcome.AlreadyHeld?
    ensures Exec(s, es).tasks[p].req.Slot() in Exec(s, es).accepted
  {
    ReachableInv(s, es);
    var now := Exec(s, es);
    assert TaskOk(now.db, now.accepted, p, now.tasks[p]);
  }

  /** Whatever is stored under an identity is, payload and hash, what the first
      accepted upload put there; and a snapshot flag once seen stays for as
      long as the packet is stored. */
  lemma {:induction false} SlotsAreWriteOnce(s: Sys, es: seq<Event>, x: Slot)
    requires Inv(s) && x in s.accepted && x in Exec(s, es).db.packets
    ensures var row := Exec(s, es).db.packets[x];
            && x in s.db.packets
            && row.payload == s.accepted[x].payload
            && row.hash == s.hashOf(s.accepted[x].payload)
            && (s.db.packets[x].snapshot ==> row.snapshot)
    decreases |es|
  {
    RunKeepsInv(s, es);
    HistoryGrows(s, es);
    HashOfIsFixed(s, es);
    if es != [] {
      var fewer := es[..|es| - 1];
      RunKeepsInv(s, fewer);
      HistoryGrows(s, fewer);
      EverySteps(Exec(s, fewer), es[|es| - 1]);
      SlotsAreWriteOnce(s, fewer, x);
    }
  }

  lemma {:induction false} HashOfIsFixed(s: Sys, es: seq<Event>)
    ensures Exec(s, es).hashOf == s.hashOf
    decreases |es|
  {
    if es != [] { HashOfIsFixed(s, es[..|es| - 1]); }
  }

  /** An upload declared coverage for this slot. */
  ghost predicate DeclaredFor(s: Sys, x: Slot) {
    exists p :: p in s.tasks && s.tasks[p].req.Slot() == x && s.tasks[p].req.covers.Some?
  }

  lemma NextFlags(db: Db, hashOf: Bytes -> Hash, t: Task, pick: Device, x: Slot)
    requires x in Next(db, hashOf, t, pick).0.packets && Next(db, hashOf, t, pick).0.packets[x].snapshot
    requires t.phase.FlagRow? ==> t.req.covers.Some?
    ensures (x in db.packets && db.packets[x].snapshot) || (x == t.req.Slot() && t.req.covers.Some?)
  {
    hide StreamMark;
  }

  /** An upload flags a row only if it declared coverage. */
  ghost predicate FlagsOk(s: Sys) {
    && (forall p :: p in s.tasks && s.tasks[p].phase.FlagRow? ==> s.tasks[p].req.covers.Some?)
    && (forall x :: x in s.db.packets && s.db.packets[x].snapshot ==> DeclaredFor(s, x))
  }

  lemma UploadsRemain(s: Sys, e: Event, x: Slot)
    requires Inv(s) && DeclaredFor(s, x)
    ensures DeclaredFor(Apply(s, e), x)
  {
    var p :| p in s.tasks && s.tasks[p].req.Slot() == x && s.tasks[p].req.covers.Some?;
    assert SlotOk(s.accepted, p, s.tasks[p]);
    if e.Advance? && e.pid == p { NextInserted(s.db, s.hashOf, s.tasks[p], e.pick); }
    hide Next, Inv;
    assert p in Apply(s, e).tasks && Apply(s, e).tasks[p].req == s.tasks[p].req;
  }

  lemma FlaggingDeclares(db: Db, hashOf: Bytes -> Hash, t: Task, pick: Device)
    requires !(t.phase.InsertRow? && t.inserted)
    ensures var next := Next(db, hashOf, t, pick).1;
            next.phase.FlagRow? ==> next.req == t.req && t.req.covers.Some?
  {
    NextInserted(db, hashOf, t, pick);
    hide StreamMark, UpTo, Orphans, Raised, Deleted, Released, Collected, Inserted, Flagged, Referenced;
  }

  lemma WhoFlagged(s: Sys, e: Event, x: Slot)
    requires x in Apply(s, e).db.packets && Apply(s, e).db.packets[x].snapshot
    requires forall p :: p in s.tasks && s.tasks[p].phase.FlagRow? ==> s.tasks[p].req.covers.Some?
    ensures (x in s.db.packets && s.db.packets[x].snapshot) || DeclaredFor(s, x)
  {
    if e.Advance? && e.pid in s.tasks { NextFlags(s.db, s.hashOf, s.tasks[e.pid], e.pick, x); }
    hide Next;
  }

  lemma RowStaysDeclared(s: Sys, e: Event, x: Slot)
    requires Inv(s) && FlagsOk(s) && x in Apply(s, e).db.packets && Apply(s, e).db.packets[x].snapshot
    ensures DeclaredFor(Apply(s, e), x)
  {
    hide Apply, Inv, DeclaredFor;
    WhoFlagged(s, e, x);
    UploadsRemain(s, e, x);
  }

  lemma FlaggersDeclare(s: Sys, e: Event, p: Pid)
    requires Inv(s) && FlagsOk(s) && p in Apply(s, e).tasks && Apply(s, e).tasks[p].phase.FlagRow?
    ensures Apply(s, e).tasks[p].req.covers.Some?
  {
    if e.Advance? && e.pid == p && p in s.tasks {
      assert SlotOk(s.accepted, p, s.tasks[p]);
      FlaggingDeclares(s.db, s.hashOf, s.tasks[p], e.pick);
    }
    hide Next, Inv, DeclaredFor;
  }

  lemma StepKeepsFlags(s: Sys, e: Event)
    requires Inv(s) && FlagsOk(s)
    ensures FlagsOk(Apply(s, e))
  {
    var after := Apply(s, e);
    forall p | p in after.tasks && after.tasks[p].phase.FlagRow? ensures after.tasks[p].req.covers.Some? {
      hide Apply, Inv, FlagsOk;
      FlaggersDeclare(s, e, p);
    }
    forall x | x in after.db.packets && after.db.packets[x].snapshot ensures DeclaredFor(after, x) {
      hide Apply, Inv, FlagsOk;
      RowStaysDeclared(s, e, x);
    }
    hide Apply, Inv, DeclaredFor;
  }

  /** Over every run, a stored packet is flagged as a snapshot only if some upload
      of its slot declared coverage. */
  lemma {:induction false} FlagsWereDeclared(s: Sys, es: seq<Event>)
    requires Initial(s)
    ensures FlagsOk(Exec(s, es))
    decreases |es|
  {
    if es != [] {
      FlagsWereDeclared(s, es[..|es| - 1]);
      ReachableInv(s, es[..|es| - 1]);
      hide FlagsOk, Inv, Apply;
      StepKeepsFlags(Exec(s, es[..|es| - 1]), es[|es| - 1]);
    }
  }
}
