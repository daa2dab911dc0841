/**
 A client's walk over the pages of a store that does not change meanwhile
 (go/internal/api/api_test.go:932-953): what it delivers, in what order, and in
 how many pages.
 */
module Walking {
  import opened Sums
  import opened Tables
  import opened Paging
  import opened Stores

  function PacketAt(db: Db, s: Slot): Packet
    requires s in db.packets
  {
    Packet(s.stream.device, s.counter, db.packets[s].payload)
  }

  /** The walk so far: `order` is everything above the starting vector that the
      current one says is held, each once, ascending within its device. */
  ghost predicate Walked(db: Db, user: User, start: Vector, have: Vector, order: seq<Slot>) {
    && Ascends(order)
    && (forall d :: Held(start, d) <= Held(have, d))
    && (forall s :: s in order ==> s in Eligible(db, user, start))
    && (forall s :: s in Eligible(db, user, start) ==> (s in order <==> s.counter <= Held(have, s.stream.device)))
  }

  lemma WalkOn(db: Db, user: User, start: Vector, have: Vector, order: seq<Slot>, n: nat)
    requires Walked(db, user, start, have, order)
    requires n <= |FullPull(db, user, have)|
    ensures var page := FullPull(db, user, have)[..n];
            Walked(db, user, start, Advanced(have, page), order + page)
  {
    var all := Eligible(db, user, have);
    var page := FullPull(db, user, have)[..n];
    AdvanceTakesMaximum(have, page);
    PageStrandsNothing(db, all, have, n, Advanced(have, page));
    hide *;
    WalkOnPage(db, user, start, have, order, page, Advanced(have, page));
  }

  lemma WalkOnPage(db: Db, user: User, start: Vector, have: Vector, order: seq<Slot>, page: seq<Slot>, next: Vector)
    requires Walked(db, user, start, have, order) && IsAdvanced(have, page, next) && Ascends(page)
    requires forall s :: s in page ==> s in Eligible(db, user, have)
    requires forall s :: s in Eligible(db, user, have) ==> (s in page <==> s.counter <= Held(next, s.stream.device))
    ensures Walked(db, user, start, next, order + page)
  {
    assert forall d :: Held(start, d) <= Held(have, d) <= Held(next, d);
    AscentContinues(have, order, page);
    hide Ascends;
    assert forall s :: s in page ==> s in Eligible(db, user, start);
  }

  lemma AscentContinues(have: Vector, order: seq<Slot>, page: seq<Slot>)
    requires Ascends(order) && Ascends(page)
    requires forall s :: s in order ==> s.counter <= Held(have, s.stream.device)
    requires forall s :: s in page ==> s.counter > Held(have, s.stream.device)
    ensures Ascends(order + page)
  {
  }

  /** The rows of a run without repeats, counted and summed. */
  lemma {:induction false} CountAndBytes(db: Db, rows: seq<Slot>, which: set<Slot>)
    requires forall s :: s in rows <==> s in which
    requires forall i, j :: 0 <= i < j < |rows| ==> rows[i] != rows[j]
    requires which <= db.packets.Keys
    ensures |rows| == |which| && SeqBytes(db, rows) == BytesOf(db.packets, which)
    decreases |rows|
  {
    if rows == [] {
      assert which == {};
      assert Sizes(db.packets, {}) == map[];
    } else {
      var last := rows[|rows| - 1];
      var fewer, rest := rows[..|rows| - 1], which - {last};
      CountAndBytes(db, fewer, rest);
      SumRemove(Sizes(db.packets, which), last);
      assert Sizes(db.packets, which) - {last} == Sizes(db.packets, rest);
    }
  }

  lemma {:induction false} BytesOfTwo(db: Db, rows: seq<Slot>, more: seq<Slot>)
    requires forall s :: s in rows || s in more ==> s in db.packets
    ensures SeqBytes(db, rows + more) == SeqBytes(db, rows) + SeqBytes(db, more)
    decreases |more|
  {
    if more == [] {
      assert rows + more == rows;
    } else {
      BytesOfTwo(db, rows, more[..|more| - 1]);
      assert (rows + more)[..|rows + more| - 1] == rows + more[..|more| - 1];
    }
  }

  lemma AtMost(a: nat, k: int, n: nat)
    requires k >= 1 && a * k <= n
    ensures a <= n / k
  {
    if n / k + 1 <= a { Scaled(n / k + 1, a, k); }
  }

  lemma Scaled(x: nat, y: nat, k: nat)
    requires x <= y
    ensures x * k <= y * k
  {
  }

  /** How full the pages were that said there was more: `a` of them held limit
      packets, the other `b` at least maxBytes. */
  ghost predicate PagesFull(db: Db, order: seq<Slot>, limit: nat, maxBytes: int, a: nat, b: nat) {
    && (forall s :: s in order ==> s in db.packets)
    && a * limit <= |order| && b * maxBytes <= SeqBytes(db, order)
  }

  /** One more page: whichever bound ended it early is charged for it. */
  lemma OneMoreFull(db: Db, order: seq<Slot>, rows: seq<Slot>, n: nat, limit: nat, maxBytes: int, a: nat, b: nat)
    requires PagesFull(db, order, limit, maxBytes, a, b)
    requires forall s :: s in rows ==> s in db.packets
    requires IsPageLength(db, rows, limit, maxBytes, n)
    ensures PagesFull(db, order + rows[..n], limit, maxBytes, EndedByLimit(a, n, |rows|, limit),
                      EndedByBytes(b, n, |rows|, limit))
  {
    PageMakesProgress(db, rows, limit, maxBytes, n);
    BytesOfTwo(db, order, rows[..n]);
    hide SeqBytes, IsPageLength;
    assert (a + 1) * limit == a * limit + limit;
    assert (b + 1) * maxBytes == b * maxBytes + maxBytes;
  }

  function EndedByLimit(a: nat, n: nat, total: nat, limit: nat): nat {
    if n < total && n == limit then a + 1 else a
  }

  function EndedByBytes(b: nat, n: nat, total: nat, limit: nat): nat {
    if n < total && n != limit then b + 1 else b
  }

  /** The client's loop: its variables, and what they mean. */
  ghost predicate OnTheWay(db: Db, user: User, start: Vector, have: Vector, order: seq<Slot>, seen: seq<Packet>,
                           limit: nat, maxBytes: int, a: nat, b: nat) {
    && Walked(db, user, start, have, order)
    && PagesFull(db, order, limit, maxBytes, a, b)
    && Copies(db, order, seen)
  }

  ghost predicate Copies(db: Db, order: seq<Slot>, seen: seq<Packet>) {
    |seen| == |order| && forall i :: 0 <= i < |seen| ==> order[i] in db.packets && seen[i] == PacketAt(db, order[i])
  }

  lemma WalkStarts(db: Db, user: User, start: Vector, limit: nat, maxBytes: int)
    ensures OnTheWay(db, user, start, start, [], [], limit, maxBytes, 0, 0)
  {
  }

  /** One page of the walk. */
  lemma WalkSteps(db: Db, user: User, start: Vector, have: Vector, order: seq<Slot>, seen: seq<Packet>,
                  limit: nat, maxBytes: int, a: nat, b: nat, page: seq<Packet>)
    requires OnTheWay(db, user, start, have, order, seen, limit, maxBytes, a, b) && limit >= 1
    requires IsPageLength(db, FullPull(db, user, have), limit, maxBytes, |page|)
    requires Copies(db, FullPull(db, user, have)[..|page|], page)
    ensures var rows := FullPull(db, user, have);
            var next := Advanced(have, rows[..|page|]);
            && OnTheWay(db, user, start, next, order + rows[..|page|], seen + page, limit, maxBytes,
                 EndedByLimit(a, |page|, |rows|, limit), EndedByBytes(b, |page|, |rows|, limit))
            && (if |page| < |rows| then Eligible(db, user, next) < Eligible(db, user, have)
                else Eligible(db, user, next) == {})
  {
    hide FullPull, Eligible, Advanced, SeqBytes, IsPageLength, Walked, PagesFull, EndedByLimit, EndedByBytes;
    var rows := FullPull(db, user, have);
    EligibleIsStored(db, user, have);
    PageFits(db, rows, limit, maxBytes, |page|);
    WalkOn(db, user, start, have, order, |page|);
    OneStep(db, user, have, |page|, |page| < |rows|, limit, maxBytes);
    OneMoreFull(db, order, rows, |page|, limit, maxBytes, a, b);
  }

  lemma PageFits(db: Db, rows: seq<Slot>, limit: nat, maxBytes: int, n: nat)
    requires forall s :: s in rows ==> s in db.packets
    requires IsPageLength(db, rows, limit, maxBytes, n)
    ensures n <= |rows|
  {
  }

  lemma EligibleIsStored(db: Db, user: User, have: Vector)
    ensures forall s :: s in FullPull(db, user, have) ==> s in db.packets
  {
  }

  lemma WalkEnds(db: Db, user: User, start: Vector, have: Vector, order: seq<Slot>, seen: seq<Packet>,
                 limit: nat, maxBytes: int, a: nat, b: nat)
    requires OnTheWay(db, user, start, have, order, seen, limit, maxBytes, a, b)
    requires Eligible(db, user, have) == {} && limit >= 1 && maxBytes >= 1
    ensures var all := Eligible(db, user, start);
            && Ascends(order) && (forall s :: s in order <==> s in all)
            && |seen| == |all| && Copies(db, order, seen)
            && a <= |all| / limit && b <= BytesOf(db.packets, all) / maxBytes
  {
    var all := Eligible(db, user, start);
    forall s | s in all ensures s in order {
      assert s !in Eligible(db, user, have);
    }
    CountAndBytes(db, order, all);
    AtMost(a, limit, |order|);
    AtMost(b, maxBytes, SeqBytes(db, order));
  }

  /** The identities of delivered packets. */
  function Identities(user: User, seen: seq<Packet>): seq<Slot> {
    seq(|seen|, i requires 0 <= i < |seen| => Slot(Stream(user, seen[i].origin), seen[i].counter))
  }

  lemma CopiesIdentify(db: Db, user: User, order: seq<Slot>, seen: seq<Packet>)
    requires Copies(db, order, seen) && forall s :: s in order ==> s.stream.user == user
    ensures order == Identities(user, seen)
  {
    forall i | 0 <= i < |order| ensures order[i] == Identities(user, seen)[i] {
      assert order[i] in order && order[i].stream == Stream(user, order[i].stream.device);
    }
  }

  /** The client's loop. It ends, has delivered every packet above its starting
      vector exactly once and ascending within each device, and took at most
      n / limit + B / maxBytes + 1 pages for n packets of B bytes. */
  method Walk(store: Store, user: User, start: Vector, limit: nat, maxBytes: int)
    returns (seen: seq<Packet>, pages: nat)
    requires store.Contents().Valid() && limit >= 1 && maxBytes >= 1
    ensures var db := store.Contents();
            var all, order := Eligible(db, user, start), Identities(user, seen);
            && Ascends(order) && (forall s :: s in order <==> s in all)
            && |seen| == |all| && Copies(db, order, seen)
            && pages <= |all| / limit + BytesOf(db.packets, all) / maxBytes + 1
  {
    hide OnTheWay, Eligible, FullPull, Advanced, IsPageLength;
    ghost var db := store.Contents();
    var have := start;
    seen, pages := [], 0;
    ghost var order: seq<Slot> := [];
    ghost var a: nat, b: nat := 0, 0;
    var more := true;
    WalkStarts(db, user, start, limit, maxBytes);
    while more
      invariant OnTheWay(db, user, start, have, order, seen, limit, maxBytes, a, b)
      invariant pages == a + b + (if more then 0 else 1)
      invariant !more ==> Eligible(db, user, have) == {}
      decreases more, Eligible(db, user, have)
    {
      var page, hasMore := store.Pull(user, have, limit, maxBytes);
      ghost var rows := FullPull(db, user, have);
      EligibleIsStored(db, user, have);
      PageFits(db, rows, limit, maxBytes, |page|);
      ghost var slots := rows[..|page|];
      WalkSteps(db, user, start, have, order, seen, limit, maxBytes, a, b, page);
      a, b := EndedByLimit(a, |page|, |rows|, limit), EndedByBytes(b, |page|, |rows|, limit);
      var next := RaiseVector(have, page, slots);
      seen, order, pages, have, more := seen + page, order + slots, pages + 1, next, hasMore;
    }
    WalkEnds(db, user, start, have, order, seen, limit, maxBytes, a, b);
    EligibleIsOwn(db, user, start);
    CopiesIdentify(db, user, order, seen);
  }

  lemma EligibleIsOwn(db: Db, user: User, have: Vector)
    ensures forall s :: s in Eligible(db, user, have) ==> s.stream.user == user
  {
  }

  /** The client's loop over one page. */
  method RaiseVector(have: Vector, page: seq<Packet>, ghost slots: seq<Slot>) returns (next: Vector)
    requires |page| == |slots|
    requires forall i :: 0 <= i < |page| ==>
               page[i].origin == slots[i].stream.device && page[i].counter == slots[i].counter
    ensures next == Advanced(have, slots)
  {
    next := have;
    for i := 0 to |page|
      invariant next == Advanced(have, slots[..i])
    {
      assert slots[..i + 1][..i] == slots[..i];
      if page[i].counter > Held(next, page[i].origin) {
        next := next[page[i].origin := page[i].counter];
      }
    }
    assert slots[..|page|] == slots;
  }

  /** A page that says there is more leaves strictly less; the last one leaves
      nothing. */
  lemma OneStep(db: Db, user: User, have: Vector, n: nat, hasMore: bool, limit: nat, maxBytes: int)
    requires limit >= 1
    requires IsPageLength(db, FullPull(db, user, have), limit, maxBytes, n)
    requires hasMore == (n < |FullPull(db, user, have)|)
    ensures var next := Advanced(have, FullPull(db, user, have)[..n]);
            && (hasMore ==> Eligible(db, user, next) < Eligible(db, user, have))
            && (!hasMore ==> Eligible(db, user, next) == {})
  {
    var rows := FullPull(db, user, have);
    var next := Advanced(have, rows[..n]);
    PageMakesProgress(db, rows, limit, maxBytes, n);
    TakenIsBehind(db, user, have, n);
    hide FullPull, Advanced, IsPageLength, SeqBytes, Eligible;
    assert hasMore ==> rows[0] in rows[..n];
    assert !hasMore ==> rows[..n] == rows;
  }

  /** What a page took is eligible no more, and the rest still is. */
  lemma TakenIsBehind(db: Db, user: User, have: Vector, n: nat)
    requires n <= |FullPull(db, user, have)|
    ensures var rows := FullPull(db, user, have);
            var next := Advanced(have, rows[..n]);
            && (forall s :: s in rows <==> s in Eligible(db, user, have))
            && Eligible(db, user, next) <= Eligible(db, user, have)
            && (forall s :: s in rows[..n] ==> s !in Eligible(db, user, next))
  {
    var rows := FullPull(db, user, have);
    var next := Advanced(have, rows[..n]);
    AdvanceTakesMaximum(have, rows[..n]);
    hide FullPull, Advanced, InOrder;
    forall s | s in Eligible(db, user, next) ensures s in Eligible(db, user, have) && s !in rows[..n] {
      assert Held(have, s.stream.device) <= Held(next, s.stream.device);
    }
  }
}
