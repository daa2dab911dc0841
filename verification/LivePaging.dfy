/**
 A client paging through a pull while the relay goes on working: between any
 two of its statements, uploads insert, prunes delete, and uploads die. A pull
 is itself two statements, the vector read and the select
 (go/internal/store/store.go:857-919); the client raises its vector to the
 greatest counter seen (go/internal/api/api_test.go:932-953).
 */
module LivePaging {
  import opened Tables
  import opened Paging
  import opened Handlers
  import opened Statements
  import opened Interleaving

  /** Between the two statements of a pull: the vector that was read, and which
      of the account's packets were stored at that moment. */
  datatype Pull = Idle | Reading(vector: Vector, stored: set<Slot>)

  /** log: the packets delivered, in order; got: the bytes they came with. */
  datatype Client = Client(
    user: User, start: Vector, have: Vector, log: seq<Slot>, got: map<Slot, Bytes>, pull: Pull)

  datatype World = World(sys: Sys, client: Client)

  /** What can happen next: an event of the relay, the two statements of a pull,
      or the end of a pull whose answer is lost. */
  datatype Happening =
    | Relay(event: Event)
    | ReadVector(vector: Vector)
    | SelectPage(limit: nat, maxBytes: int)
    | LosePull

  ghost function SelectedNow(w: World): seq<Slot>
    requires w.client.pull.Reading?
  {
    var c := w.client;
    InPullOrder(w.sys.db, Selected(w.sys.db, c.user, Ahead(c.pull.vector, c.have), c.have))
  }

  ghost function Page(w: World, limit: nat, maxBytes: int): seq<Slot>
    requires w.client.pull.Reading?
  {
    SelectedNow(w)[..PageLength(w.sys.db, SelectedNow(w), limit, maxBytes)]
  }

  ghost function HasMore(w: World, limit: nat, maxBytes: int): bool
    requires w.client.pull.Reading?
  {
    PageLength(w.sys.db, SelectedNow(w), limit, maxBytes) < |SelectedNow(w)|
  }

  ghost function Payloads(db: Db, page: seq<Slot>): map<Slot, Bytes> {
    map x | x in page && x in db.packets :: db.packets[x].payload
  }

  ghost function Happen(w: World, h: Happening): World {
    var c := w.client;
    match h
    case Relay(e) => w.(sys := Apply(w.sys, e))
    case ReadVector(v) =>
      if !c.pull.Idle? || !IsUserVector(w.sys.db, c.user, v) then w
      else w.(client := c.(pull := Reading(v, UserSlots(w.sys.db, c.user))))
    case SelectPage(limit, maxBytes) =>
      if !c.pull.Reading? then w
      else
        var page := Page(w, limit, maxBytes);
        w.(client := c.(have := Advanced(c.have, page), log := c.log + page,
                        got := c.got + Payloads(w.sys.db, page), pull := Idle))
    case LosePull => w.(client := c.(pull := Idle))
  }

  ghost function Unfold(w: World, hs: seq<Happening>): World
    decreases |hs|
  {
    if hs == [] then w else Happen(Unfold(w, hs[..|hs| - 1]), hs[|hs| - 1])
  }

  // --------------------------------------------------------------- invariant

  /** The log holds each packet at most once, at or below the client's vector. */
  ghost predicate LogOk(c: Client) {
    && (forall i, j :: 0 <= i < j < |c.log| ==> c.log[i] != c.log[j])
    && (forall x :: x in c.log ==>
          && x.stream.user == c.user
          && Held(c.start, x.stream.device) < x.counter <= Held(c.have, x.stream.device))
  }

  /** Each packet came with the bytes first accepted under its identity. */
  ghost predicate PayloadsOk(sys: Sys, c: Client) {
    && (forall x :: x in c.log ==> x in c.got)
    && (forall x :: x in c.got ==> x in sys.accepted && c.got[x] == sys.accepted[x].payload)
  }

  /** The client's vector stays between where it started and the marks. */
  ghost predicate VectorOk(sys: Sys, c: Client) {
    && c.user in sys.everUsers
    && (forall d :: Held(c.start, d) <= Held(c.have, d))
    && (c.user in sys.db.users ==> forall d :: Held(c.have, d) <= StreamMark(sys.db, Stream(c.user, d)))
  }

  /** Every stored packet above the starting vector was delivered, or is still
      above the client's vector. */
  ghost predicate NothingStranded(db: Db, c: Client) {
    forall x :: x in db.packets && x.stream.user == c.user && x.counter > Held(c.start, x.stream.device) ==>
      (x in c.log <==> x.counter <= Held(c.have, x.stream.device))
  }

  /** The vector a pull has read covers everything stored at that moment. */
  ghost predicate PullOk(c: Client) {
    c.pull.Reading? ==> forall x :: x in c.pull.stored ==>
      x.stream.device in c.pull.vector && x.counter <= c.pull.vector[x.stream.device]
  }

  ghost predicate WorldOk(w: World) {
    && Inv(w.sys) && LogOk(w.client) && PayloadsOk(w.sys, w.client) && VectorOk(w.sys, w.client)
    && NothingStranded(w.sys.db, w.client) && PullOk(w.client)
  }

  /** A client begins with a vector no further than the marks. */
  ghost predicate Begins(w: World) {
    && Inv(w.sys) && w.client.user in w.sys.db.users
    && w.client.have == w.client.start && w.client.log == [] && w.client.got == map[] && w.client.pull == Idle
    && forall d :: Held(w.client.start, d) <= StreamMark(w.sys.db, Stream(w.client.user, d))
  }

  // ------------------------------------------------------- every step keeps it

  lemma RelayKeepsWorld(w: World, e: Event)
    requires WorldOk(w)
    ensures WorldOk(Happen(w, Relay(e)))
  {
    StepKeepsInv(w.sys, e);
    EverySteps(w.sys, e);
    RelayStrandsNothing(w, e);
  }

  lemma RelayStrandsNothing(w: World, e: Event)
    requires Inv(w.sys) && LogOk(w.client) && VectorOk(w.sys, w.client) && NothingStranded(w.sys.db, w.client)
    requires Stepped(w.sys, Apply(w.sys, e)) && Inv(Apply(w.sys, e))
    ensures NothingStranded(Apply(w.sys, e).db, w.client)
  {
    var s, after, c := w.sys, Apply(w.sys, e), w.client;
    forall x | x in after.db.packets && x.stream.user == c.user && x.counter > Held(c.start, x.stream.device)
      ensures x in c.log <==> x.counter <= Held(c.have, x.stream.device)
    {
      var t := x.stream;
      assert c.user in after.db.users && c.user in s.db.users;
      if x !in s.db.packets {
        assert x.counter == StreamMark(s.db, t) + 1;
        assert Held(c.have, t.device) <= StreamMark(s.db, Stream(c.user, t.device));
        assert t == Stream(c.user, t.device);
      }
    }
  }

  lemma ReadKeepsWorld(w: World, v: Vector)
    requires WorldOk(w)
    ensures WorldOk(Happen(w, ReadVector(v)))
  {
    var after := Happen(w, ReadVector(v)).client;
    if after != w.client {
      forall x | x in after.pull.stored ensures x.stream.device in v && x.counter <= v[x.stream.device] {
        assert x == Slot(Stream(w.client.user, x.stream.device), x.counter);
        assert 1 <= x.counter <= StreamMark(w.sys.db, x.stream);
      }
    }
  }

  /** What a page is, as far as the client is concerned. */
  ghost predicate PageOk(db: Db, c: Client, from: set<Slot>, page: seq<Slot>, next: Vector) {
    && (forall x :: x in from ==> (x in page <==> x.counter <= Held(next, x.stream.device)))
    && (forall x :: x in page ==> x in from)
    && (forall x :: x in from ==>
          x in db.packets && x.stream.user == c.user && x.counter > Held(c.have, x.stream.device))
    && (forall x, y :: x in from && y in db.packets && y.stream == x.stream ==>
          y.counter > Held(c.have, y.stream.device) ==> y in from)
    && (forall i, j :: 0 <= i < j < |page| ==> page[i] != page[j])
    && IsAdvanced(c.have, page, next)
  }

  lemma PageIsOk(w: World, limit: nat, maxBytes: int)
    requires w.client.pull.Reading?
    ensures var c := w.client;
            PageOk(w.sys.db, c, Selected(w.sys.db, c.user, Ahead(c.pull.vector, c.have), c.have),
                   Page(w, limit, maxBytes), Advanced(c.have, Page(w, limit, maxBytes)))
  {
    var c := w.client;
    var n := PageLength(w.sys.db, SelectedNow(w), limit, maxBytes);
    var page := Page(w, limit, maxBytes);
    AdvanceTakesMaximum(c.have, page);
    PageStrandsNothing(w.sys.db, Selected(w.sys.db, c.user, Ahead(c.pull.vector, c.have), c.have), c.have, n,
                       Advanced(c.have, page));
  }

  lemma PageKeepsVector(sys: Sys, c: Client, from: set<Slot>, page: seq<Slot>, next: Vector)
    requires VectorOk(sys, c) && PageOk(sys.db, c, from, page, next)
    ensures VectorOk(sys, c.(have := next))
  {
    forall d | c.user in sys.db.users ensures Held(next, d) <= StreamMark(sys.db, Stream(c.user, d)) {
      if Held(next, d) != Held(c.have, d) {
        var x :| x in page && x.stream.device == d && x.counter == Held(next, d);
        assert x == Slot(Stream(c.user, d), x.counter);
      }
    }
  }

  lemma PageKeepsLog(db: Db, c: Client, from: set<Slot>, page: seq<Slot>, next: Vector)
    requires LogOk(c) && PageOk(db, c, from, page, next)
    requires forall d :: Held(c.start, d) <= Held(c.have, d)
    ensures LogOk(c.(have := next, log := c.log + page))
  {
    forall x | x in c.log + page
      ensures x.stream.user == c.user && Held(c.start, x.stream.device) < x.counter <= Held(next, x.stream.device)
    {
      assert Held(c.have, x.stream.device) <= Held(next, x.stream.device);
      assert Held(c.start, x.stream.device) <= Held(c.have, x.stream.device);
    }
    assert forall x :: x in page ==> x !in c.log;
  }

  lemma PageKeepsPayloads(sys: Sys, c: Client, page: seq<Slot>)
    requires RowsOk(sys) && PayloadsOk(sys, c)
    requires forall x :: x in page ==> x in sys.db.packets
    ensures PayloadsOk(sys, c.(log := c.log + page, got := c.got + Payloads(sys.db, page)))
  {
  }

  /** A stored packet the page did not take is above the new vector: either its
      device was selected, and the page took the low ones, or it was not, and
      the vector did not move there. */
  lemma PageStrands(db: Db, c: Client, from: set<Slot>, page: seq<Slot>, next: Vector)
    requires LogOk(c) && NothingStranded(db, c) && PageOk(db, c, from, page, next)
    ensures NothingStranded(db, c.(have := next, log := c.log + page))
  {
    forall x | x in db.packets && x.stream.user == c.user && x.counter > Held(c.start, x.stream.device)
      ensures x in c.log + page <==> x.counter <= Held(next, x.stream.device)
    {
      var d := x.stream.device;
      assert Held(c.have, d) <= Held(next, d);
      assert forall top :: top in page && top.stream.device == d ==> top.stream == x.stream;
    }
  }

  lemma SelectKeepsWorld(w: World, limit: nat, maxBytes: int)
    requires WorldOk(w) && w.client.pull.Reading?
    ensures WorldOk(Happen(w, SelectPage(limit, maxBytes)))
  {
    PageIsOk(w, limit, maxBytes);
    var c, page := w.client, Page(w, limit, maxBytes);
    var from := Selected(w.sys.db, c.user, Ahead(c.pull.vector, c.have), c.have);
    var next := Advanced(c.have, page);
    PageKeepsVector(w.sys, c, from, page, next);
    PageKeepsLog(w.sys.db, c, from, page, next);
    PageKeepsPayloads(w.sys, c, page);
    PageStrands(w.sys.db, c, from, page, next);
  }

  lemma HappenKeepsWorld(w: World, h: Happening)
    requires WorldOk(w)
    ensures WorldOk(Happen(w, h))
  {
    match h {
      case Relay(e) => RelayKeepsWorld(w, e);
      case ReadVector(v) => ReadKeepsWorld(w, v);
      case SelectPage(limit, maxBytes) =>
        if w.client.pull.Reading? { SelectKeepsWorld(w, limit, maxBytes); }
      case LosePull =>
    }
  }

  // ---------------------------------------------------------------- theorems

  /** Paging over a changing store: at every moment each stored packet above the
      starting vector has been delivered exactly once or is still above the
      client's vector, whatever happened between its pages. */
  lemma {:induction false} PagingStrandsNothing(w: World, hs: seq<Happening>)
    requires Begins(w)
    ensures WorldOk(Unfold(w, hs))
    decreases |hs|
  {
    if hs == [] {
    } else {
      PagingStrandsNothing(w, hs[..|hs| - 1]);
      HappenKeepsWorld(Unfold(w, hs[..|hs| - 1]), hs[|hs| - 1]);
    }
  }

  /** When a page says there is no more, every packet that was stored when the
      pull read its vector, and still is, has been delivered. */
  lemma NoMoreMeansAll(w: World, hs: seq<Happening>, limit: nat, maxBytes: int, x: Slot)
    requires Begins(w)
    requires Unfold(w, hs).client.pull.Reading? && !HasMore(Unfold(w, hs), limit, maxBytes)
    requires x in Unfold(w, hs).client.pull.stored && x in Unfold(w, hs).sys.db.packets
    requires x.stream.user == Unfold(w, hs).client.user && x.counter > Held(Unfold(w, hs).client.start, x.stream.device)
    ensures x in Happen(Unfold(w, hs), SelectPage(limit, maxBytes)).client.log
  {
    PagingStrandsNothing(w, hs);
    LastPageTakesAll(Unfold(w, hs), limit, maxBytes, x);
  }

  /** What a page that says there is no more leaves undelivered of all that is
      stored when its rows are read: exactly the packets above the client's
      vector whose device was not ahead of it when the vector was read. */
  lemma WhatTheLastPageMisses(w: World, hs: seq<Happening>, limit: nat, maxBytes: int, x: Slot)
    requires Begins(w)
    requires var now := Unfold(w, hs);
             && now.client.pull.Reading? && !HasMore(now, limit, maxBytes)
             && x in now.sys.db.packets && x.stream.user == now.client.user
             && x.counter > Held(now.client.start, x.stream.device)
    ensures var c := Unfold(w, hs).client;
            x in Happen(Unfold(w, hs), SelectPage(limit, maxBytes)).client.log <==>
              !(x.counter > Held(c.have, x.stream.device) && x.stream.device !in Ahead(c.pull.vector, c.have))
  {
    PagingStrandsNothing(w, hs);
    hide Unfold, Begins, Happen, HasMore, Inv, LogOk, PayloadsOk, VectorOk, PullOk, NothingStranded;
    MissedNow(Unfold(w, hs), limit, maxBytes, x);
  }

  lemma MissedNow(w: World, limit: nat, maxBytes: int, x: Slot)
    requires NothingStranded(w.sys.db, w.client) && w.client.pull.Reading? && !HasMore(w, limit, maxBytes)
    requires x in w.sys.db.packets && x.stream.user == w.client.user
             && x.counter > Held(w.client.start, x.stream.device)
    ensures var c := w.client;
            x in Happen(w, SelectPage(limit, maxBytes)).client.log <==>
              !(x.counter > Held(c.have, x.stream.device) && x.stream.device !in Ahead(c.pull.vector, c.have))
  {
    LastPageIsAll(w, limit, maxBytes, x);
    hide Page, HasMore;
  }

  /** When a page says that there is more, there is: a packet is stored that it did
      not deliver and that is still above the client's vector. */
  lemma MoreIsThere(w: World, hs: seq<Happening>, limit: nat, maxBytes: int)
    requires Begins(w) && Unfold(w, hs).client.pull.Reading? && HasMore(Unfold(w, hs), limit, maxBytes)
    ensures var after := Happen(Unfold(w, hs), SelectPage(limit, maxBytes));
            exists x :: x in UserSlots(after.sys.db, after.client.user) && x !in after.client.log
                        && x.counter > Held(after.client.have, x.stream.device)
  {
    PagingStrandsNothing(w, hs);
    var now := Unfold(w, hs);
    var x := MoreNow(now, limit, maxBytes);
    hide Unfold, Begins, HasMore;
  }

  lemma MoreNow(w: World, limit: nat, maxBytes: int) returns (x: Slot)
    requires LogOk(w.client) && NothingStranded(w.sys.db, w.client) && VectorOk(w.sys, w.client)
    requires w.client.pull.Reading? && HasMore(w, limit, maxBytes)
    ensures var after := Happen(w, SelectPage(limit, maxBytes));
            x in UserSlots(after.sys.db, after.client.user) && x !in after.client.log
            && x.counter > Held(after.client.have, x.stream.device)
  {
    var c, rows, page := w.client, SelectedNow(w), Page(w, limit, maxBytes);
    var all := Selected(w.sys.db, c.user, Ahead(c.pull.vector, c.have), c.have);
    x := rows[|page|];
    assert x in rows;
    InOrderHasNoDuplicates(Hoisted(w.sys.db, all), rows);
    PageIsOk(w, limit, maxBytes);
  }

  const NEWCOMER: Request := Request(1, "d", 1, [0], None, [])

  /** It does miss one: the first packet of a device, stored between the two
      statements of the pull, is in nobody's page, and the page says there is no
      more. */
  lemma NewDeviceIsMissed(s: Sys)
    requires Initial(s)
    ensures var w := World(Exec(s, [NewUser(1)]), Client(1, map[], map[], [], map[], Idle));
            var hs := [ReadVector(map[]), Relay(Start(0, NEWCOMER)),
                       Relay(Advance(0, "")), Relay(Advance(0, "")), Relay(Advance(0, ""))];
            var now := Unfold(w, hs);
            && Begins(w) && now.client.pull.Reading? && !HasMore(now, 100, 16 * 1024 * 1024)
            && NEWCOMER.Slot() in now.sys.db.packets
            && NEWCOMER.Slot() !in Happen(now, SelectPage(100, 16 * 1024 * 1024)).client.log
  {
    ReachableInv(s, [NewUser(1)]);
    var sys := Exec(s, [NewUser(1)]);
    assert [NewUser(1)][..0] == [] && Exec(s, []) == s;
    var c := Client(1, map[], map[], [], map[], Idle);
    var w := World(sys, c);
    NobodyIsAhead(sys.db);
    var reading := w.(client := c.(pull := Reading(map[], {})));
    assert UserSlots(sys.db, 1) == {};
    assert Happen(w, ReadVector(map[])) == reading;
    var s1 := Apply(sys, Start(0, NEWCOMER));
    var s4 := Apply(Apply(Apply(s1, Advance(0, "")), Advance(0, "")), Advance(0, ""));
    NewcomerStored(sys);
    hide Apply;
    var now := reading.(sys := s4);
    FiveHappen(w, ReadVector(map[]), Relay(Start(0, NEWCOMER)), Relay(Advance(0, "")), Relay(Advance(0, "")),
               Relay(Advance(0, "")));
    assert Selected(now.sys.db, 1, Ahead(map[], map[]), map[]) == {};
    assert SelectedNow(now) == [];
  }

  lemma NewcomerStored(s: Sys)
    requires s.db == Db({1}, map[], map[], map[], {}) && s.tasks == map[]
    ensures var s1 := Apply(s, Start(0, NEWCOMER));
            var s4 := Apply(Apply(Apply(s1, Advance(0, "")), Advance(0, "")), Advance(0, ""));
            NEWCOMER.Slot() in s4.db.packets
  {
    NobodyIsAhead(s.db);
    var t := NewTask(NEWCOMER);
    var s1 := Apply(s, Start(0, NEWCOMER));
    var s2, s3 := s1.(tasks := map[0 := t.Goto(CheckStorage)]), s1.(tasks := map[0 := t.Goto(InsertRow)]);
    assert s1.tasks == map[0 := t] && s1.db == s.db;
    assert Apply(s1, Advance(0, "")) == s2;
    assert Apply(s2, Advance(0, "")) == s3;
    var s4 := Apply(s3, Advance(0, ""));
    assert NEWCOMER.Slot() in s4.db.packets;
  }

  lemma NobodyIsAhead(db: Db)
    requires db == Db({1}, map[], map[], map[], {})
    ensures IsUserVector(db, 1, map[]) && forall d :: StreamMark(db, Stream(1, d)) == 0
  {
    forall d ensures StreamMark(db, Stream(1, d)) == 0 { assert IsMark(db, Stream(1, d), 0); }
  }

  lemma FiveHappen(w: World, a: Happening, b: Happening, c: Happening, d: Happening, e: Happening)
    ensures Unfold(w, [a, b, c, d, e]) == Happen(Happen(Happen(Happen(Happen(w, a), b), c), d), e)
  {
    assert [a, b, c, d, e][..4] == [a, b, c, d] && [a, b, c, d][..3] == [a, b, c];
    assert [a, b, c][..2] == [a, b] && [a, b][..1] == [a] && [a][..0] == [];
    assert Unfold(w, []) == w;
    assert Unfold(w, [a]) == Happen(w, a);
    assert Unfold(w, [a, b]) == Happen(Happen(w, a), b);
    assert Unfold(w, [a, b, c]) == Happen(Happen(Happen(w, a), b), c);
  }

  lemma LastPageIsAll(w: World, limit: nat, maxBytes: int, x: Slot)
    requires w.client.pull.Reading? && !HasMore(w, limit, maxBytes)
    ensures x in Page(w, limit, maxBytes) <==>
              x in Selected(w.sys.db, w.client.user, Ahead(w.client.pull.vector, w.client.have), w.client.have)
  {
    assert Page(w, limit, maxBytes) == SelectedNow(w);
  }

  lemma LastPageTakesAll(w: World, limit: nat, maxBytes: int, x: Slot)
    requires NothingStranded(w.sys.db, w.client) && PullOk(w.client)
    requires w.client.pull.Reading? && !HasMore(w, limit, maxBytes)
    requires x in w.client.pull.stored && x in w.sys.db.packets && x.stream.user == w.client.user
    requires x.counter > Held(w.client.start, x.stream.device)
    ensures x in Happen(w, SelectPage(limit, maxBytes)).client.log
  {
    var c := w.client;
    if x.counter > Held(c.have, x.stream.device) {
      assert x in Selected(w.sys.db, c.user, Ahead(c.pull.vector, c.have), c.have);
      assert Page(w, limit, maxBytes) == SelectedNow(w);
    }
  }

  /** A pull whose two statements see the same database: no more means that
      everything stored at that moment has been delivered. */
  lemma NoMoreAtOnce(w: World, hs: seq<Happening>, v: Vector, limit: nat, maxBytes: int)
    requires Begins(w) && Unfold(w, hs).client.pull.Idle?
    requires IsUserVector(Unfold(w, hs).sys.db, Unfold(w, hs).client.user, v)
    requires !HasMore(Happen(Unfold(w, hs), ReadVector(v)), limit, maxBytes)
    ensures var now := Happen(Happen(Unfold(w, hs), ReadVector(v)), SelectPage(limit, maxBytes));
            forall x :: x in UserSlots(now.sys.db, now.client.user)
              && x.counter > Held(now.client.start, x.stream.device)
              ==> x in now.client.log
  {
    PagingStrandsNothing(w, hs);
    HappenKeepsWorld(Unfold(w, hs), ReadVector(v));
    ReadNow(Unfold(w, hs), v);
    hide Unfold, Happen, HasMore, Begins, WorldOk, IsUserVector;
    var read := Happen(Unfold(w, hs), ReadVector(v));
    PageKeepsStore(read, limit, maxBytes);
    forall x | x in UserSlots(read.sys.db, read.client.user) && x.counter > Held(read.client.start, x.stream.device)
      ensures x in Happen(read, SelectPage(limit, maxBytes)).client.log
    {
      LastPageTakesAll(read, limit, maxBytes, x);
    }
  }

  lemma ReadNow(w: World, v: Vector)
    requires w.client.pull.Idle? && IsUserVector(w.sys.db, w.client.user, v)
    ensures var read := Happen(w, ReadVector(v));
            read.client.pull.Reading? && UserSlots(read.sys.db, read.client.user) <= read.client.pull.stored
  {
  }

  lemma PageKeepsStore(w: World, limit: nat, maxBytes: int)
    ensures var after := Happen(w, SelectPage(limit, maxBytes));
            after.sys == w.sys && after.client.user == w.client.user && after.client.start == w.client.start
  {
  }
}
