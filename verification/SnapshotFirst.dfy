/**
 After compaction a snapshot leads: it is its stream's lowest stored packet, and
 a requester below it receives it before the rest of its stream and before every
 stream without a snapshot, across page boundaries too
 (go/internal/store/store.go:561-572, 709-745, 879-893).
 */
module SnapshotFirst {
  import opened Tables
  import opened Paging
  import opened Statements
  import opened Interleaving
  import opened LivePaging
  import opened Leaders

  // ---------------------------------------------------------------- one page

  /** Rows the leader must come before: the rest of its stream, and streams the
      page does not hoist. */
  predicate Yields(hoisted: set<Device>, s: Slot, x: Slot) {
    x != s && (x.stream == s.stream || x.stream.device !in hoisted)
  }

  /** In a pull that selects the leader, nothing that must yield precedes it. */
  lemma LeaderComesFirst(db: Db, all: set<Slot>, s: Slot, j: nat)
    requires SameUser(all) && all <= db.packets.Keys && s in all && Leads(db, s)
    requires j < |InPullOrder(db, all)| && Yields(Hoisted(db, all), s, InPullOrder(db, all)[j])
    ensures exists i :: 0 <= i < j && InPullOrder(db, all)[i] == s
  {
    var hoisted := Hoisted(db, all);
    var rows := Ordered(hoisted, all);
    var x := rows[j];
    assert s.stream.device in hoisted;
    assert x in all && x == Slot(x.stream, x.counter);
    assert Before(hoisted, s, x);
    var i :| 0 <= i < |rows| && rows[i] == s;
    BeforeIsOrder(hoisted, s, x, s);
  }

  // -------------------------------------------------------------- many pages

  /** No stream called plain has a flagged packet above the client's vector:
      the hoist is computed over the rows that the vector lets through. */
  ghost predicate Plain(w: World, plain: set<Stream>) {
    forall x :: x in w.sys.db.packets && x.stream in plain && x.counter > Held(w.client.have, x.stream.device)
                ==> !w.sys.db.packets[x].snapshot
  }

  /** The leader has been delivered since the log was `from` long. */
  predicate Delivered(c: Client, from: nat, s: Slot) { from <= |c.log| && s in c.log[from..] }

  /** A page is about to be selected: the leader was delivered before, or the
      plain streams are plain. */
  ghost predicate Quiet(w: World, h: Happening, from: nat, s: Slot, plain: set<Stream>) {
    h.SelectPage? ==> Delivered(w.client, from, s) || Plain(w, plain)
  }

  /** The leader is stored until it is delivered. */
  ghost predicate Kept(w: World, from: nat, s: Slot) {
    Delivered(w.client, from, s) || s in w.sys.db.packets
  }

  predicate Late(s: Slot, plain: set<Stream>, x: Slot) {
    x != s && (x.stream == s.stream || x.stream in plain)
  }

  /** Since the log was `from` long, whatever had to come after s did. */
  ghost predicate LedSince(log: seq<Slot>, from: nat, s: Slot, plain: set<Stream>) {
    from <= |log| && forall j :: from <= j < |log| && Late(s, plain, log[j]) ==>
        exists i :: from <= i < j && log[i] == s
  }

  /** A pull in progress has read a vector that shows s. */
  ghost predicate PullKnows(c: Client, s: Slot) {
    c.pull.Reading? ==> s.stream.device in c.pull.vector && c.pull.vector[s.stream.device] >= s.counter
  }

  /** Until the leader has been delivered it leads, the client is below it, and
      a pull in progress knows of it. */
  ghost predicate LeadOk(w: World, from: nat, s: Slot, plain: set<Stream>) {
    && s.stream.user == w.client.user
    && LedSince(w.client.log, from, s, plain)
    && (!Delivered(w.client, from, s) ==>
          && Leads(w.sys.db, s)
          && Held(w.client.have, s.stream.device) < s.counter
          && PullKnows(w.client, s))
  }

  /** A leader stays one for as long as it is stored. */
  lemma LeaderStays(s: Sys, e: Event, x: Slot)
    requires Inv(s) && Leads(s.db, x) && x in Apply(s, e).db.packets
    ensures Leads(Apply(s, e).db, x)
  {
    EverySteps(s, e);
    var after := Apply(s, e).db;
    assert x == Slot(x.stream, x.counter);
    forall c | Slot(x.stream, c) in after.packets ensures x.counter <= c {
      if Slot(x.stream, c) !in s.db.packets {
        assert c == StreamMark(s.db, x.stream) + 1;
      }
    }
  }

  /** What a page appends keeps the leader in front. */
  lemma PageKeepsLead(w: World, limit: nat, maxBytes: int, from: nat, s: Slot, plain: set<Stream>)
    requires w.client.pull.Reading? && LeadOk(w, from, s, plain)
             && Quiet(w, SelectPage(limit, maxBytes), from, s, plain)
    ensures LeadOk(Happen(w, SelectPage(limit, maxBytes)), from, s, plain)
  {
    hide Happen, Page, Plain, Leads, LedSince;
    PageHappens(w, limit, maxBytes);
    var c, page := w.client, Page(w, limit, maxBytes);
    if Delivered(c, from, s) {
      LeadRemains(c.log, page, from, s, plain);
    } else {
      PageLeads(w, limit, maxBytes, s, plain);
      LeadAppends(c.log, page, from, s, plain);
      if s in page {
        InLog(c.log, page, from, s) by { FromWithin(c.log, from, s, plain); }
      } else {
        PageIsOk(w, limit, maxBytes);
        NotReached(w.sys.db, c, page, s, plain, Advanced(c.have, page),
                   Selected(w.sys.db, c.user, Ahead(c.pull.vector, c.have), c.have));
      }
    }
  }

  lemma PageHappens(w: World, limit: nat, maxBytes: int)
    requires w.client.pull.Reading?
    ensures var after, page := Happen(w, SelectPage(limit, maxBytes)), Page(w, limit, maxBytes);
            && after.sys == w.sys && after.client.user == w.client.user && after.client.pull.Idle?
            && after.client.log == w.client.log + page && after.client.have == Advanced(w.client.have, page)
  {
  }

  lemma FromWithin(log: seq<Slot>, from: nat, s: Slot, plain: set<Stream>)
    requires LedSince(log, from, s, plain)
    ensures from <= |log|
  {
  }

  lemma InLog(log: seq<Slot>, page: seq<Slot>, from: nat, s: Slot)
    requires from <= |log| && s in page
    ensures s in (log + page)[from..]
  {
    var k :| 0 <= k < |page| && page[k] == s;
    assert (log + page)[from..][|log| - from + k] == s;
  }

  /** Once delivered, it stays in front of whatever follows. */
  lemma LeadRemains(log: seq<Slot>, page: seq<Slot>, from: nat, s: Slot, plain: set<Stream>)
    requires LedSince(log, from, s, plain) && s in log[from..]
    ensures LedSince(log + page, from, s, plain) && s in (log + page)[from..]
  {
    var both := log + page;
    var i :| from <= i < |log| && log[i] == s;
    assert both[i] == s && both[from..][i - from] == s;
    forall j | from <= j < |both| && Late(s, plain, both[j]) ensures exists k :: from <= k < j && both[k] == s {
      if j < |log| {
        assert log[j] == both[j];
        var k :| from <= k < j && log[k] == s;
        assert both[k] == s;
      }
    }
  }

  lemma PageLeads(w: World, limit: nat, maxBytes: int, s: Slot, plain: set<Stream>)
    requires w.client.pull.Reading? && Leads(w.sys.db, s) && Plain(w, plain) && s.stream.user == w.client.user
    requires Held(w.client.have, s.stream.device) < s.counter
    requires s.stream.device in w.client.pull.vector && w.client.pull.vector[s.stream.device] >= s.counter
    ensures var page := Page(w, limit, maxBytes);
            forall j :: 0 <= j < |page| && Late(s, plain, page[j]) ==> exists i :: 0 <= i < j && page[i] == s
  {
    var c, page := w.client, Page(w, limit, maxBytes);
    var all := Selected(w.sys.db, c.user, Ahead(c.pull.vector, c.have), c.have);
    assert s in all;
    forall j | 0 <= j < |page| && Late(s, plain, page[j]) ensures exists i :: 0 <= i < j && page[i] == s {
      var x := page[j];
      assert x == InPullOrder(w.sys.db, all)[j] && x in all;
      assert x.stream.device in Hoisted(w.sys.db, all) && x.stream != s.stream ==> x.stream !in plain by {
        if x.stream.device in Hoisted(w.sys.db, all) {
          var y :| y in all && w.sys.db.packets[y].snapshot && y.stream.device == x.stream.device;
          assert y.stream == x.stream;
        }
      }
      LeaderComesFirst(w.sys.db, all, s, j);
      var i :| 0 <= i < j && InPullOrder(w.sys.db, all)[i] == s;
      assert page[i] == s;
    }
  }

  lemma LeadAppends(log: seq<Slot>, page: seq<Slot>, from: nat, s: Slot, plain: set<Stream>)
    requires LedSince(log, from, s, plain)
    requires forall j :: 0 <= j < |page| && Late(s, plain, page[j]) ==> exists i :: 0 <= i < j && page[i] == s
    ensures LedSince(log + page, from, s, plain)
  {
    var both := log + page;
    forall j | from <= j < |both| && Late(s, plain, both[j]) ensures exists i :: from <= i < j && both[i] == s {
      if j < |log| {
        assert log[j] == both[j];
        var i :| from <= i < j && log[i] == s;
        assert both[i] == s;
      } else {
        var i :| 0 <= i < j - |log| && page[i] == s;
        assert both[|log| + i] == s;
      }
    }
  }

  /** A page without the leader holds nothing of its stream, so the client's
      vector has not reached it. */
  lemma NotReached(db: Db, c: Client, page: seq<Slot>, s: Slot, plain: set<Stream>, next: Vector, from: set<Slot>)
    requires PageOk(db, c, from, page, next) && s !in page && s.stream.user == c.user
    requires forall j :: 0 <= j < |page| && Late(s, plain, page[j]) ==> exists i :: 0 <= i < j && page[i] == s
    requires Held(c.have, s.stream.device) < s.counter
    ensures Held(next, s.stream.device) < s.counter
  {
    var d := s.stream.device;
    if Held(next, d) != Held(c.have, d) {
      var x :| x in page && x.stream.device == d && x.counter == Held(next, d);
      var j :| 0 <= j < |page| && page[j] == x;
      assert x.stream == s.stream;
      assert Late(s, plain, page[j]);
    }
  }

  lemma RelayKeepsLead(w: World, e: Event, from: nat, s: Slot, plain: set<Stream>)
    requires Inv(w.sys) && LeadOk(w, from, s, plain) && Kept(Happen(w, Relay(e)), from, s)
    ensures LeadOk(Happen(w, Relay(e)), from, s, plain)
  {
    hide Inv, Leads, LedSince, Apply;
    if !Delivered(w.client, from, s) { LeaderStays(w.sys, e, s); }
  }

  lemma ReadKeepsLead(w: World, v: Vector, from: nat, s: Slot, plain: set<Stream>)
    requires Inv(w.sys) && LeadOk(w, from, s, plain)
    ensures LeadOk(Happen(w, ReadVector(v)), from, s, plain)
  {
    assert s == Slot(Stream(w.client.user, s.stream.device), s.counter);
    hide Inv, LedSince;
  }

  lemma HappenKeepsLead(w: World, h: Happening, from: nat, s: Slot, plain: set<Stream>)
    requires WorldOk(w) && LeadOk(w, from, s, plain) && Quiet(w, h, from, s, plain) && Kept(Happen(w, h), from, s)
    ensures LeadOk(Happen(w, h), from, s, plain)
  {
    match h {
      case Relay(e) => RelayKeepsLead(w, e, from, s, plain);
      case ReadVector(v) => ReadKeepsLead(w, v, from, s, plain);
      case SelectPage(limit, maxBytes) =>
        hide LeadOk, WorldOk, Quiet;
        if w.client.pull.Reading? { PageKeepsLead(w, limit, maxBytes, from, s, plain); }
      case LosePull => hide WorldOk, Leads, LedSince;
    }
  }

  /** Throughout these happenings the leader is stored until it is delivered, and
      until then no page is selected while a plain stream is not plain. */
  ghost predicate Undisturbed(w: World, hs: seq<Happening>, s: Slot, plain: set<Stream>) {
    && (forall k :: 0 <= k <= |hs| ==> Kept(Unfold(w, hs[..k]), |w.client.log|, s))
    && (forall k :: 0 <= k < |hs| ==> Quiet(Unfold(w, hs[..k]), hs[k], |w.client.log|, s, plain))
  }

  /** From the moment a snapshot leads its stream and a client below it has no pull
      in progress that began before the snapshot was there: the client receives it before any other packet of its stream
      and before any packet of a stream whose flagged packets, if it has any, are
      not above the client's vector, whatever else happens between its pages. */
  lemma SnapshotArrivesFirst(w: World, hs: seq<Happening>, s: Slot, plain: set<Stream>)
    requires WorldOk(w) && PullKnows(w.client, s) && s.stream.user == w.client.user
    requires Leads(w.sys.db, s) && Held(w.client.have, s.stream.device) < s.counter
    requires Undisturbed(w, hs, s, plain)
    ensures LedSince(Unfold(w, hs).client.log, |w.client.log|, s, plain)
  {
    hide Quiet, Kept, WorldOk, Leads;
    assert LeadOk(w, |w.client.log|, s, plain);
    LeadKept(w, hs, |w.client.log|, s, plain);
  }

  lemma {:induction false} LeadKept(w: World, hs: seq<Happening>, from: nat, s: Slot, plain: set<Stream>)
    requires WorldOk(w) && LeadOk(w, from, s, plain)
    requires forall k :: 0 <= k <= |hs| ==> Kept(Unfold(w, hs[..k]), from, s)
    requires forall k :: 0 <= k < |hs| ==> Quiet(Unfold(w, hs[..k]), hs[k], from, s, plain)
    ensures WorldOk(Unfold(w, hs)) && LeadOk(Unfold(w, hs), from, s, plain)
    decreases |hs|
  {
    hide Quiet, Kept, WorldOk, LeadOk, Happen;
    if hs != [] {
      var fewer, h := hs[..|hs| - 1], hs[|hs| - 1];
      assert forall k :: 0 <= k <= |fewer| ==> fewer[..k] == hs[..k];
      LeadKept(w, fewer, from, s, plain);
      assert hs[..|hs|] == hs;
      HappenKeepsWorld(Unfold(w, fewer), h);
      HappenKeepsLead(Unfold(w, fewer), h, from, s, plain);
    }
  }

  // ---------------------------------------------------- from upload to delivery

  /** What a client is part of is a run of the relay. */
  lemma {:induction false} UnfoldKeepsLeaders(w: World, hs: seq<Happening>)
    requires Begins(w) && LeadersOk(w.sys)
    ensures LeadersOk(Unfold(w, hs).sys)
    decreases |hs|
  {
    if hs != [] {
      var fewer := hs[..|hs| - 1];
      UnfoldKeepsLeaders(w, fewer);
      PagingStrandsNothing(w, fewer);
      HappenOnRelay(Unfold(w, fewer), hs[|hs| - 1]);
      hide LeadersOk, Inv, Happen, Apply, Begins, LogOk, VectorOk, PayloadsOk, NothingStranded, PullOk;
      if hs[|hs| - 1].Relay? { StepKeepsLeaders(Unfold(w, fewer).sys, hs[|hs| - 1].event); }
    }
  }

  lemma HappenOnRelay(w: World, h: Happening)
    ensures Happen(w, h).sys == if h.Relay? then Apply(w.sys, h.event) else w.sys
  {
  }

  /** A client begins in any reachable state of the relay and pages while it
      works. Once an upload covering its own stream below itself has been answered,
      and its packet is stored, a client below it receives it first, from its next
      pull or from one in progress whose vector shows the packet. */
  lemma CompactedArrivesFirst(s: Sys, es: seq<Event>, w: World, before: seq<Happening>, p: Pid, hs: seq<Happening>,
                              plain: set<Stream>)
    requires Initial(s) && Begins(w) && w.sys == Exec(s, es)
    requires var now := Unfold(w, before);
             && p in now.sys.tasks && AnsweredHeld(now.sys.tasks[p].phase) && CoversItself(now.sys.tasks[p].req)
             && var x := now.sys.tasks[p].req.Slot();
                && PullKnows(now.client, x)
                && x in now.sys.db.packets && x.stream.user == now.client.user
                && Held(now.client.have, x.stream.device) < x.counter
                && Undisturbed(now, hs, x, plain)
    ensures var now := Unfold(w, before);
            LedSince(Unfold(now, hs).client.log, |now.client.log|, now.sys.tasks[p].req.Slot(), plain)
  {
    RunKeepsLeaders(s, es);
    UnfoldKeepsLeaders(w, before);
    PagingStrandsNothing(w, before);
    var now := Unfold(w, before);
    LeadingIsLeader(now.sys.db, now.sys.tasks[p]);
    hide Unfold, Undisturbed, WorldOk, Leads;
    SnapshotArrivesFirst(now, hs, now.sys.tasks[p].req.Slot(), plain);
  }
}
