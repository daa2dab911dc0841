/**
 Compaction loses no information when coverage declarations are honest: the
 relay cannot read payloads, so it trusts them
 (go/internal/store/store.go:695-704, go/internal/api/changes_handlers.go:169-179).
 */
module Compaction {
  import opened Tables
  import opened Pruning
  import opened Statements
  import opened Interleaving

  /** The declaration each packet makes about what it supersedes. */
  type Declaration = Slot -> Option<map<Device, int>>

  /** Packet w supersedes packet x, by w's own declaration. */
  predicate Supersedes(decl: Declaration, w: Slot, x: Slot) {
    && decl(w).Some?
    && w.stream.user == x.stream.user
    && x.stream.device in decl(w).value
    && x.counter <= Declared(Claim(w.stream.user, decl(w).value, w.stream.device, w.counter), x.stream.device)
  }

  /** A snapshot of a snapshot still describes what the first one did. */
  ghost predicate Transitive(decl: Declaration) {
    forall a, b, c :: Supersedes(decl, a, b) && Supersedes(decl, b, c) ==> Supersedes(decl, a, c)
  }

  /** Every upload that declares anything declares what its slot's packet does;
      a carrier may declare nothing. */
  ghost predicate Honest(decl: Declaration, s: Sys) {
    forall p :: p in s.tasks && s.tasks[p].req.covers.Some? ==> s.tasks[p].req.covers == decl(s.tasks[p].req.Slot())
  }

  ghost predicate HonestEvent(decl: Declaration, e: Event) {
    e.Start? && e.req.covers.Some? ==> e.req.covers == decl(e.req.Slot())
  }

  /** Packet x is stored, or a stored packet supersedes it. */
  ghost predicate Represented(decl: Declaration, db: Db, x: Slot) {
    x in db.packets || exists w :: w in db.packets && Supersedes(decl, w, x)
  }

  ghost predicate NothingLost(decl: Declaration, s: Sys) {
    forall x :: x in s.accepted && x.stream.user in s.db.users ==> Represented(decl, s.db, x)
  }

  /** The clamp below the packet's own counter makes coverage acyclic. */
  lemma Acyclic(decl: Declaration, a: Slot, b: Slot)
    requires Transitive(decl) && Supersedes(decl, a, b)
    ensures !Supersedes(decl, b, a) && a != b
  {
    assert !Supersedes(decl, a, a);
  }

  /** Deleting what an accepted packet supersedes leaves everything represented:
      by that packet, or by whatever stored packet represents it. */
  lemma DeleteKeepsRepresented(decl: Declaration, db: Db, author: Slot, gone: set<Slot>, x: Slot)
    requires Transitive(decl)
    requires forall g :: g in gone ==> Supersedes(decl, author, g)
    requires Represented(decl, db, author) && Represented(decl, db, x)
    ensures Represented(decl, db.(packets := db.packets - gone), x)
  {
    var after := db.packets - gone;
    var keeper := author;
    if author !in db.packets {
      keeper :| keeper in db.packets && Supersedes(decl, keeper, author);
      Acyclic(decl, keeper, author);
    } else if author in gone {
      Acyclic(decl, author, author);
    }
    assert keeper in after;
    if x in db.packets {
      if x in gone { assert Supersedes(decl, keeper, x); }
    } else {
      var w :| w in db.packets && Supersedes(decl, w, x);
      if w in gone {
        assert Supersedes(decl, author, x);
        assert Supersedes(decl, keeper, x);
      }
    }
  }

  lemma StillRepresented(decl: Declaration, db: Db, after: Db, x: Slot)
    requires Represented(decl, db, x)
    requires forall y :: y in db.packets && y.stream.user == x.stream.user ==> y in after.packets
    ensures Represented(decl, after, x)
  {
    if x !in db.packets {
      var w :| w in db.packets && Supersedes(decl, w, x);
      assert w in after.packets;
    }
  }

  /** The packets an upload's next statement deletes. */
  function Deletes(db: Db, t: Task): set<Slot> {
    if t.phase.Prune? && t.phase.at.DeleteRows? then UpTo(db, Stream(t.req.user, t.phase.at.device), t.phase.at.upTo)
    else {}
  }

  /** Only one statement deletes packets, and what it deletes the upload's own
      packet supersedes. */
  lemma WhatAStatementDeletes(decl: Declaration, db: Db, hashOf: Bytes -> Hash, t: Task, pick: Device)
    requires PhaseOk(db, t.req, t.phase)
    requires t.req.covers.Some? ==> t.req.covers == decl(t.req.Slot())
    ensures var after := Next(db, hashOf, t, pick).0;
            && (Deletes(db, t) == {} ==> forall y :: y in db.packets ==> y in after.packets)
            && (Deletes(db, t) != {} ==> AfterInsert(t.phase) && after == db.(packets := db.packets - Deletes(db, t)))
            && (forall g :: g in Deletes(db, t) ==> Supersedes(decl, t.req.Slot(), g))
  {
  }

  lemma AdvanceLosesNothing(decl: Declaration, s: Sys, pid: Pid, pick: Device, x: Slot)
    requires Transitive(decl) && Honest(decl, s) && NothingLost(decl, s) && pid in s.tasks
    requires TaskOk(s.db, s.accepted, pid, s.tasks[pid])
    requires x in Apply(s, Advance(pid, pick)).accepted && x.stream.user in s.db.users
    ensures Represented(decl, Apply(s, Advance(pid, pick)).db, x)
  {
    var t := s.tasks[pid];
    var after := Apply(s, Advance(pid, pick)).db;
    var author := t.req.Slot();
    NextInserted(s.db, s.hashOf, t, pick);
    WhatAStatementDeletes(decl, s.db, s.hashOf, t, pick);
    if x !in s.accepted {
      assert Fills(s.db, t) && x == author;
    } else if Deletes(s.db, t) == {} {
      StillRepresented(decl, s.db, after, x);
    } else {
      var gone := Deletes(s.db, t);
      if author.stream.user == x.stream.user {
        DeleteKeepsRepresented(decl, s.db, author, gone, x);
      } else {
        StillRepresented(decl, s.db, after, x);
      }
    }
  }

  lemma OtherEventsLoseNothing(decl: Declaration, s: Sys, e: Event)
    requires RowsOk(s) && NothingLost(decl, s) && !e.Advance?
    ensures NothingLost(decl, Apply(s, e))
  {
    var after := Apply(s, e);
    forall x | x in after.accepted && x.stream.user in after.db.users ensures Represented(decl, after.db, x) {
      assert x in s.accepted && x.stream.user in s.db.users;
      StillRepresented(decl, s.db, after.db, x);
    }
  }

  lemma StepLosesNothing(decl: Declaration, s: Sys, e: Event)
    requires Inv(s) && Transitive(decl) && Honest(decl, s) && HonestEvent(decl, e) && NothingLost(decl, s)
    ensures NothingLost(decl, Apply(s, e)) && Honest(decl, Apply(s, e))
  {
    HonestyKept(decl, s, e);
    if e.Advance? && e.pid in s.tasks {
      var after := Apply(s, e);
      NextMarks(s.db, s.accepted, s.hashOf, e.pid, s.tasks[e.pid], e.pick);
      forall x | x in after.accepted && x.stream.user in after.db.users ensures Represented(decl, after.db, x) {
        AdvanceLosesNothing(decl, s, e.pid, e.pick, x);
      }
    } else if !e.Advance? {
      OtherEventsLoseNothing(decl, s, e);
    }
  }

  lemma HonestyKept(decl: Declaration, s: Sys, e: Event)
    requires Inv(s) && Honest(decl, s) && HonestEvent(decl, e)
    ensures Honest(decl, Apply(s, e))
  {
    if e.Advance? && e.pid in s.tasks {
      assert TaskOk(s.db, s.accepted, e.pid, s.tasks[e.pid]);
      NextInserted(s.db, s.hashOf, s.tasks[e.pid], e.pick);
    }
  }

  /** In every reachable state, with statements interleaved, uploads dying
      anywhere and pruned slots re-sent, every accepted packet is stored or
      superseded by one that is. */
  lemma {:induction false} CompactionLosesNothing(decl: Declaration, s: Sys, es: seq<Event>)
    requires Initial(s) && Transitive(decl)
    requires forall e :: e in es ==> HonestEvent(decl, e)
    ensures NothingLost(decl, Exec(s, es)) && Honest(decl, Exec(s, es))
    decreases |es|
  {
    if es != [] {
      var fewer, last := es[..|es| - 1], es[|es| - 1];
      assert last in es;
      CompactionLosesNothing(decl, s, fewer);
      ReachableInv(s, fewer);
      StepLosesNothing(decl, Exec(s, fewer), last);
    }
  }
}
