/**
 One page of a pull (Pull, go/internal/store/store.go:857-919): which rows are
 eligible, the order they come in, where the page stops, and what the client's
 advanced vector then says about them.
 */
module Paging {
  import opened Tables

  // ------------------------------------------------------------------- order

  /** SQLite's BINARY collation on device ids. */
  predicate Less(a: Device, b: Device) {
    if b == "" then false
    else if a == "" then true
    else if a[0] != b[0] then a[0] < b[0]
    else Less(a[1..], b[1..])
  }

  lemma {:induction false} LessTransitive(a: Device, b: Device, c: Device)
    requires Less(a, b) && Less(b, c)
    ensures Less(a, c)
  {
    if a != "" && a[0] == b[0] == c[0] {
      LessTransitive(a[1..], b[1..], c[1..]);
    }
  }

  lemma {:induction false} LessTrichotomy(a: Device, b: Device)
    ensures a == b || Less(a, b) || Less(b, a)
    ensures !(Less(a, b) && Less(b, a)) && !Less(a, a)
  {
    if a != "" && b != "" {
      LessTrichotomy(a[1..], b[1..]);
      if a[0] == b[0] && a[1..] == b[1..] {
        assert a == [a[0]] + a[1..] == b;
      }
    }
    if a != "" { LessTrichotomy(a[1..], a[1..]); }
  }

  /** ORDER BY: streams of hoisted devices first, then device, then counter. */
  predicate Before(hoisted: set<Device>, x: Slot, y: Slot) {
    var dx, dy := x.stream.device, y.stream.device;
    if dx == dy then x.counter < y.counter
    else if (dx in hoisted) != (dy in hoisted) then dx in hoisted
    else Less(dx, dy)
  }

  lemma BeforeIsOrder(hoisted: set<Device>, x: Slot, y: Slot, z: Slot)
    ensures !Before(hoisted, x, x)
    ensures !(Before(hoisted, x, y) && Before(hoisted, y, x))
    ensures x.stream.user == y.stream.user && x != y ==> Before(hoisted, x, y) || Before(hoisted, y, x)
    ensures Before(hoisted, x, y) && Before(hoisted, y, z) ==> Before(hoisted, x, z)
  {
    var dx, dy, dz := x.stream.device, y.stream.device, z.stream.device;
    LessTrichotomy(dx, dy);
    LessTrichotomy(dy, dz);
    LessTrichotomy(dx, dz);
    if Less(dx, dy) && Less(dy, dz) { LessTransitive(dx, dy, dz); }
  }

  ghost predicate SameUser(rows: set<Slot>) {
    forall x, y :: x in rows && y in rows ==> x.stream.user == y.stream.user
  }

  predicate IsLeast(hoisted: set<Device>, rows: set<Slot>, m: Slot) {
    m in rows && forall x :: x in rows && x != m ==> Before(hoisted, m, x)
  }

  lemma {:induction false} LeastExists(hoisted: set<Device>, rows: set<Slot>)
    requires rows != {} && SameUser(rows)
    ensures exists m :: IsLeast(hoisted, rows, m)
    decreases |rows|
  {
    var x :| x in rows;
    var rest := rows - {x};
    assert forall y :: y in rows ==> y == x || y in rest;
    if rest == {} {
      assert IsLeast(hoisted, rows, x);
    } else {
      LeastExists(hoisted, rest);
      var m :| IsLeast(hoisted, rest, m);
      BeforeIsOrder(hoisted, x, m, x);
      if Before(hoisted, m, x) {
        assert IsLeast(hoisted, rows, m);
      } else {
        assert m in rows && Before(hoisted, x, m);
        forall y | y in rows && y != x ensures Before(hoisted, x, y) {
          assert y in rest;
          BeforeIsOrder(hoisted, x, m, y);
        }
        assert IsLeast(hoisted, rows, x);
      }
    }
  }

  lemma LeastUnique(hoisted: set<Device>, rows: set<Slot>, m: Slot, k: Slot)
    requires IsLeast(hoisted, rows, m) && IsLeast(hoisted, rows, k)
    ensures m == k
  {
    BeforeIsOrder(hoisted, m, k, m);
  }

  ghost predicate InOrder(hoisted: set<Device>, rows: seq<Slot>) {
    forall i, j :: 0 <= i < j < |rows| ==> Before(hoisted, rows[i], rows[j])
  }

  /** A table's rows in ORDER BY order. */
  function Ordered(hoisted: set<Device>, rows: set<Slot>): (out: seq<Slot>)
    requires SameUser(rows)
    ensures InOrder(hoisted, out)
    ensures forall s :: s in out <==> s in rows
    decreases |rows|
  {
    if rows == {} then []
    else
      LeastExists(hoisted, rows);
      assert forall m, k :: IsLeast(hoisted, rows, m) && IsLeast(hoisted, rows, k) ==> m == k by {
        forall m, k | IsLeast(hoisted, rows, m) && IsLeast(hoisted, rows, k) ensures m == k {
          LeastUnique(hoisted, rows, m, k);
        }
      }
      var m :| IsLeast(hoisted, rows, m);
      var rest := Ordered(hoisted, rows - {m});
      LeastFirst(hoisted, rows, m, rest);
      [m] + rest
  }

  lemma LeastFirst(hoisted: set<Device>, rows: set<Slot>, m: Slot, rest: seq<Slot>)
    requires IsLeast(hoisted, rows, m) && InOrder(hoisted, rest)
    requires forall s :: s in rest <==> s in rows - {m}
    ensures InOrder(hoisted, [m] + rest)
    ensures forall s :: s in [m] + rest <==> s in rows
  {
    var out := [m] + rest;
    forall i, j | 0 <= i < j < |out| ensures Before(hoisted, out[i], out[j]) {
      assert out[j] == rest[j - 1] && rest[j - 1] in rows - {m};
      if i > 0 { assert out[i] == rest[i - 1]; }
    }
  }

  lemma InOrderHasNoDuplicates(hoisted: set<Device>, rows: seq<Slot>)
    requires InOrder(hoisted, rows)
    ensures forall i, j :: 0 <= i < j < |rows| ==> rows[i] != rows[j]
  {
    forall i, j | 0 <= i < j < |rows| ensures rows[i] != rows[j] {
      BeforeIsOrder(hoisted, rows[i], rows[j], rows[i]);
    }
  }

  // ---------------------------------------------------------- eligible rows

  type Vector = map<Device, int>

  /** What the caller holds of a device's stream; 0 when it names none. */
  function Held(have: Vector, d: Device): int { Get(have, d, 0) }

  /** The rows the WHERE clause selects, one condition per listed device. */
  function Selected(db: Db, user: User, devices: set<Device>, have: Vector): set<Slot> {
    set s | s in db.packets && s.stream.user == user && s.stream.device in devices
            && s.counter > Held(have, s.stream.device)
  }

  /** Every packet of the account above the caller's vector. */
  function Eligible(db: Db, user: User, have: Vector): set<Slot> {
    set s | s in db.packets && s.stream.user == user && s.counter > Held(have, s.stream.device)
  }

  /** The devices the server knows to be ahead of the caller. */
  function Ahead(vector: Vector, have: Vector): set<Device> {
    set d | d in vector && vector[d] > Held(have, d)
  }

  /** v lists exactly the devices whose stream has a positive mark. */
  ghost predicate IsUserVector(db: Db, user: User, v: Vector) {
    forall d :: (d in v <==> StreamMark(db, Stream(user, d)) > 0)
                && (d in v ==> v[d] == StreamMark(db, Stream(user, d)))
  }

  /** Skipping the devices that are not ahead loses no row. */
  lemma SkippingLosesNothing(db: Db, user: User, v: Vector, have: Vector)
    requires db.Valid() && IsUserVector(db, user, v)
    ensures Selected(db, user, Ahead(v, have), have) == Eligible(db, user, have)
  {
    forall s | s in Eligible(db, user, have) ensures s.stream.device in Ahead(v, have) {
      var d := s.stream.device;
      assert s == Slot(Stream(user, d), s.counter);
      assert 1 <= s.counter <= StreamMark(db, Stream(user, d));
    }
  }

  /** MAX(is_snapshot) OVER (PARTITION BY origin_device_id), over the selected rows. */
  function Hoisted(db: Db, rows: set<Slot>): set<Device> {
    set s | s in rows && s in db.packets && db.packets[s].snapshot :: s.stream.device
  }

  function InPullOrder(db: Db, rows: set<Slot>): seq<Slot>
    requires SameUser(rows)
  {
    Ordered(Hoisted(db, rows), rows)
  }

  /** Everything a pull would return if pages had no bounds. */
  ghost function FullPull(db: Db, user: User, have: Vector): (rows: seq<Slot>)
    ensures forall s :: s in rows <==> s in Eligible(db, user, have)
  {
    InPullOrder(db, Eligible(db, user, have))
  }

  /** d sorts before e: a proper prefix of it, or smaller at the first character
      where they differ. */
  ghost predicate SortsBefore(d: Device, e: Device) {
    exists k: nat :: k <= |d| && k < |e| && d[..k] == e[..k] && (k == |d| || d[k] < e[k])
  }

  lemma SamePrefixSameHead(d: Device, e: Device, k: nat)
    requires d != "" && e != ""
    ensures 0 < k <= |d| && k <= |e| && d[..k] == e[..k] ==> d[0] == e[0]
  {
    if 0 < k <= |d| && k <= |e| { assert d[..k][0] == d[0] && e[..k][0] == e[0]; }
  }

  lemma {:induction false} LessIsSortsBefore(d: Device, e: Device)
    ensures Less(d, e) <==> SortsBefore(d, e)
    decreases |d|
  {
    if d != "" && e != "" && d[0] == e[0] {
      LessIsSortsBefore(d[1..], e[1..]);
      if SortsBefore(d[1..], e[1..]) {
        var k: nat :| k <= |d[1..]| && k < |e[1..]| && d[1..][..k] == e[1..][..k]
                      && (k == |d[1..]| || d[1..][k] < e[1..][k]);
        assert d[..k + 1] == [d[0]] + d[1..][..k] && e[..k + 1] == [e[0]] + e[1..][..k];
      }
      if SortsBefore(d, e) {
        var k: nat :| k <= |d| && k < |e| && d[..k] == e[..k] && (k == |d| || d[k] < e[k]);
        assert k > 0 && d[1..][..k - 1] == d[..k][1..] && e[1..][..k - 1] == e[..k][1..];
      }
    } else if d != "" && e != "" {
      if SortsBefore(d, e) {
        var k: nat :| k <= |d| && k < |e| && d[..k] == e[..k] && (k == |d| || d[k] < e[k]);
        SamePrefixSameHead(d, e, k);
      }
      if d[0] < e[0] { assert d[..0] == e[..0]; }
    } else if d == "" && e != "" {
      assert d[..0] == e[..0];
    }
  }

  /** Some eligible packet of the device is flagged as a snapshot. */
  ghost predicate HasSnapshot(db: Db, user: User, have: Vector, d: Device) {
    exists s :: s in Eligible(db, user, have) && s.stream.device == d && db.packets[s].snapshot
  }

  /** The order of a pull, by what is stored alone: every row of a device with an
      eligible snapshot, wherever in its stream that lies, comes before every row
      of a device with none; otherwise devices ascend, and within a device
      counters do. */
  lemma PullOrder(db: Db, user: User, have: Vector, i: nat, j: nat)
    requires i < |FullPull(db, user, have)| && j < |FullPull(db, user, have)| && i != j
    ensures var x, y := FullPull(db, user, have)[i], FullPull(db, user, have)[j];
            var d, e := x.stream.device, y.stream.device;
            i < j <==>
              if d == e then x.counter < y.counter
              else if HasSnapshot(db, user, have, d) && !HasSnapshot(db, user, have, e) then true
              else if !HasSnapshot(db, user, have, d) && HasSnapshot(db, user, have, e) then false
              else SortsBefore(d, e)
  {
    var rows, hoisted := FullPull(db, user, have), Hoisted(db, Eligible(db, user, have));
    var x, y := rows[i], rows[j];
    assert x in rows && y in rows;
    BeforeIsOrder(hoisted, x, y, x);
    LessIsSortsBefore(x.stream.device, y.stream.device);
    HoistedHasSnapshot(db, user, have, x.stream.device);
    HoistedHasSnapshot(db, user, have, y.stream.device);
    hide Eligible, Hoisted, HasSnapshot, SortsBefore, Less;
  }

  lemma HoistedHasSnapshot(db: Db, user: User, have: Vector, d: Device)
    ensures d in Hoisted(db, Eligible(db, user, have)) <==> HasSnapshot(db, user, have, d)
  {
  }

  // ----------------------------------------------------------- the page's end

  /** Payload bytes of a run of rows. */
  function SeqBytes(db: Db, rows: seq<Slot>): nat
    requires forall s :: s in rows ==> s in db.packets
  {
    if rows == [] then 0
    else SeqBytes(db, rows[..|rows| - 1]) + |db.packets[rows[|rows| - 1]].payload|
  }

  /** The first n rows respect both bounds: at most limit rows, and no row
      after the budget was reached. */
  ghost predicate Fits(db: Db, rows: seq<Slot>, limit: nat, maxBytes: int, n: nat)
    requires forall s :: s in rows ==> s in db.packets
  {
    && n <= |rows| && n <= limit
    && forall k :: 0 < k < n ==> SeqBytes(db, rows[..k]) < maxBytes
  }

  /** n is the longest prefix that fits. */
  ghost predicate IsPageLength(db: Db, rows: seq<Slot>, limit: nat, maxBytes: int, n: nat)
    requires forall s :: s in rows ==> s in db.packets
  {
    && Fits(db, rows, limit, maxBytes, n)
    && forall m: nat :: Fits(db, rows, limit, maxBytes, m) ==> m <= n
  }

  /** The greatest n not above m that fits. */
  ghost function LongestFit(db: Db, rows: seq<Slot>, limit: nat, maxBytes: int, m: nat): (n: nat)
    requires forall s :: s in rows ==> s in db.packets
    requires m <= |rows| && forall k: nat :: Fits(db, rows, limit, maxBytes, k) ==> k <= m
    ensures IsPageLength(db, rows, limit, maxBytes, n)
  {
    if Fits(db, rows, limit, maxBytes, m) then m
    else LongestFit(db, rows, limit, maxBytes, m - 1)
  }

  /** How many rows the page takes. */
  ghost function PageLength(db: Db, rows: seq<Slot>, limit: nat, maxBytes: int): (n: nat)
    requires forall s :: s in rows ==> s in db.packets
    ensures IsPageLength(db, rows, limit, maxBytes, n)
  {
    LongestFit(db, rows, limit, maxBytes, |rows|)
  }

  /** A page is never empty while something is eligible, and a page that ends
      early is full in rows or in bytes. */
  lemma PageMakesProgress(db: Db, rows: seq<Slot>, limit: nat, maxBytes: int, n: nat)
    requires forall s :: s in rows ==> s in db.packets
    requires IsPageLength(db, rows, limit, maxBytes, n)
    ensures limit >= 1 && rows != [] ==> n >= 1
    ensures n < |rows| ==> n == limit || (n >= 1 && SeqBytes(db, rows[..n]) >= maxBytes)
  {
    if limit >= 1 && rows != [] {
      assert Fits(db, rows, limit, maxBytes, 1);
    }
    assert !Fits(db, rows, limit, maxBytes, n + 1);
  }

  // --------------------------------------------------------- client's vector

  /** The vector after a page: each device's entry rises to the greatest
      counter seen. */
  ghost predicate IsAdvanced(have: Vector, page: seq<Slot>, next: Vector) {
    && (forall d :: Held(have, d) <= Held(next, d))
    && (forall s :: s in page ==> s.counter <= Held(next, s.stream.device))
    && (forall d :: Held(next, d) == Held(have, d)
                    || exists s :: s in page && s.stream.device == d && s.counter == Held(next, d))
  }

  /** The client's loop over a page (go/internal/api/api_test.go:942-946). */
  function Advanced(have: Vector, page: seq<Slot>): Vector
    decreases |page|
  {
    if page == [] then have
    else
      var v := Advanced(have, page[..|page| - 1]);
      var s := page[|page| - 1];
      if s.counter > Held(v, s.stream.device) then v[s.stream.device := s.counter] else v
  }

  lemma AdvanceByOne(have: Vector, page: seq<Slot>, s: Slot, v: Vector)
    requires IsAdvanced(have, page, v)
    ensures var d := s.stream.device;
            IsAdvanced(have, page + [s], if s.counter > Held(v, d) then v[d := s.counter] else v)
  {
    var next := if s.counter > Held(v, s.stream.device) then v[s.stream.device := s.counter] else v;
    forall d
      ensures Held(next, d) == Held(have, d)
              || exists x :: x in page + [s] && x.stream.device == d && x.counter == Held(next, d)
    {
      assert s in page + [s];
      if Held(next, d) == Held(v, d) && Held(v, d) != Held(have, d) {
        var x :| x in page && x.stream.device == d && x.counter == Held(v, d);
        assert x in page + [s];
      }
    }
  }

  lemma {:induction false} AdvanceTakesMaximum(have: Vector, page: seq<Slot>)
    ensures IsAdvanced(have, page, Advanced(have, page))
    decreases |page|
  {
    if page != [] {
      var fewer := page[..|page| - 1];
      AdvanceTakesMaximum(have, fewer);
      AdvanceByOne(have, fewer, page[|page| - 1], Advanced(have, fewer));
      assert page == fewer + [page[|page| - 1]];
    }
  }

  /** In a sorted run of one account's rows, a prefix holds of each device
      exactly what is at or below the greatest counter it reaches. */
  lemma PrefixIsLow(hoisted: set<Device>, rows: seq<Slot>, n: nat, have: Vector, next: Vector, s: Slot)
    requires InOrder(hoisted, rows) && n <= |rows| && IsAdvanced(have, rows[..n], next)
    requires s in rows && s.counter > Held(have, s.stream.device)
    requires forall x :: x in rows ==> x.stream.user == s.stream.user
    ensures s in rows[..n] <==> s.counter <= Held(next, s.stream.device)
  {
    if s.counter <= Held(next, s.stream.device) {
      var top :| top in rows[..n] && top.stream.device == s.stream.device && top.counter == Held(next, s.stream.device);
      var i :| 0 <= i < n && rows[i] == top;
      var j :| 0 <= j < |rows| && rows[j] == s;
      assert j <= i;
      assert rows[..n][j] == s;
    }
  }

  /** After a page, what was selected is delivered exactly when the advanced
      vector says it is held, so nothing selected is ever stranded; and the
      page repeats nothing and ascends within each device. */
  lemma PageStrandsNothing(db: Db, all: set<Slot>, have: Vector, n: nat, next: Vector)
    requires SameUser(all) && forall s :: s in all ==> s.counter > Held(have, s.stream.device)
    requires n <= |InPullOrder(db, all)| && IsAdvanced(have, InPullOrder(db, all)[..n], next)
    ensures var page := InPullOrder(db, all)[..n];
            && (forall s :: s in all ==> (s in page <==> s.counter <= Held(next, s.stream.device)))
            && (forall s :: s in page ==> s in all)
            && Ascends(page)
  {
    var hoisted := Hoisted(db, all);
    var rows := Ordered(hoisted, all);
    InOrderHasNoDuplicates(hoisted, rows);
    forall s | s in all ensures s in rows[..n] <==> s.counter <= Held(next, s.stream.device) {
      PrefixIsLow(hoisted, rows, n, have, next, s);
    }
    assert forall s :: s in rows[..n] ==> s in rows;
  }

  /** No packet twice, and counters ascending within each device. */
  ghost predicate Ascends(rows: seq<Slot>) {
    && (forall i, j :: 0 <= i < j < |rows| ==> rows[i] != rows[j])
    && (forall i, j :: 0 <= i < j < |rows| && rows[i].stream.device == rows[j].stream.device ==>
        rows[i].counter < rows[j].counter)
  }
}
