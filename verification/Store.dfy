/**
 The store (go/internal/store/store.go, limits.go, admin.go): one object whose
 fields are the tables, and its methods statement by statement. Each method is
 proved against the functions of Tables, Pruning, Paging and Handlers; what
 those mean is proved there.
 */
module Stores {
  import opened Sums
  import opened Tables
  import opened Pruning
  import opened Paging
  import opened Handlers

  datatype Packet = Packet(origin: Device, counter: int, payload: Bytes)

  /** Every packet carries its payload's hash; rows that had one keep it. */
  function Hashed(db: Db, hashOf: Bytes -> Hash): Db {
    db.(packets := map s | s in db.packets ::
          if db.packets[s].hash == "" then db.packets[s].(hash := hashOf(db.packets[s].payload)) else db.packets[s])
  }

  function Unhashed(db: Db): set<Slot> {
    set s | s in db.packets && db.packets[s].hash == ""
  }

  function StoredStreams(db: Db): set<Stream> {
    set s | s in db.packets :: s.stream
  }

  /** Marks raised to at least the greatest stored counter. */
  ghost function Seeded(db: Db): Db {
    db.(marks := db.marks + map t | t in StoredStreams(db) ::
          Max(Get(db.marks, t, TopCounter(db.packets, t)), TopCounter(db.packets, t)))
  }

  ghost function Migrated(db: Db, hashOf: Bytes -> Hash): Db {
    Seeded(Hashed(db, hashOf))
  }

  class Store {
    const hashOf: Bytes -> Hash
    var users: set<User>
    var packets: map<Slot, Row>
    var marks: map<Stream, int>
    var blobs: map<BlobKey, Bytes>
    var refs: set<Ref>

    function Contents(): Db
      reads this
    {
      Db(users, packets, marks, blobs, refs)
    }

    constructor (hashOf: Bytes -> Hash)
      ensures this.hashOf == hashOf
      ensures Contents() == Db({}, map[], map[], map[], {})
    {
      this.hashOf := hashOf;
      users, packets, marks, blobs, refs := {}, map[], map[], map[], {};
    }

    // ------------------------------------------------- the engine's aggregates

    /** SUM(LENGTH(payload)) over some packet rows. */
    method SumLengths(which: set<Slot>) returns (n: int)
      requires which <= packets.Keys
      ensures n == BytesOf(packets, which)
    {
      n := 0;
      var todo := which;
      while todo != {}
        invariant todo <= which
        invariant n + BytesOf(packets, todo) == BytesOf(packets, which)
      {
        var s :| s in todo;
        SumRemove(Sizes(packets, todo), s);
        n := n + |packets[s].payload|;
        assert Sizes(packets, todo - {s}) == Sizes(packets, todo) - {s};
        todo := todo - {s};
      }
      assert Sizes(packets, {}) == map[];
    }

    /** SUM(LENGTH(payload)) over some blob rows. */
    method SumBlobLengths(which: set<BlobKey>) returns (n: int)
      requires which <= blobs.Keys
      ensures n == BlobBytesOf(blobs, which)
    {
      n := 0;
      var todo := which;
      while todo != {}
        invariant todo <= which
        invariant n + BlobBytesOf(blobs, todo) == BlobBytesOf(blobs, which)
      {
        var b :| b in todo;
        SumRemove(BlobSizes(blobs, todo), b);
        n := n + |blobs[b]|;
        assert BlobSizes(blobs, todo - {b}) == BlobSizes(blobs, todo) - {b};
        todo := todo - {b};
      }
      assert BlobSizes(blobs, {}) == map[];
    }

    /** COALESCE(MAX(counter), 0) over one stream's rows. */
    method MaxCounter(t: Stream) returns (top: int)
      ensures top == TopCounter(packets, t)
    {
      top := 0;
      var todo := set s | s in packets && s.stream == t;
      while todo != {}
        invariant forall s :: s in todo ==> s in packets && s.stream == t
        invariant top >= 0 && (top == 0 || Slot(t, top) in packets)
        invariant forall s :: s in packets && s.stream == t && s !in todo ==> s.counter <= top
      {
        var s :| s in todo;
        assert s == Slot(t, s.counter);
        if s.counter > top { top := s.counter; }
        todo := todo - {s};
      }
      assert IsTop(packets, t, top);
    }

    // ----------------------------------------------------------------- queries

    /** streamMarkSQL: the next-counter authority. */
    method StreamMark(user: User, origin: Device) returns (mark: int)
      ensures mark == Tables.StreamMark(Contents(), Stream(user, origin))
    {
      var t := Stream(user, origin);
      var top := MaxCounter(t);
      mark := Max(top, Get(marks, t, 0));
    }

    /** UserVector: every device with a stored packet or a mark, with the greater. */
    method UserVector(user: User) returns (vector: Vector)
      requires Contents().Valid()
      ensures IsUserVector(Contents(), user, vector)
    {
      vector := map[];
      var todo := Streams(Contents(), user);
      while todo != {}
        invariant vector.Keys !! todo && vector.Keys + todo == Streams(Contents(), user)
        invariant forall d :: d in vector ==> vector[d] == Tables.StreamMark(Contents(), Stream(user, d))
      {
        var d :| d in todo;
        var mark := StreamMark(user, d);
        vector := vector[d := mark];
        todo := todo - {d};
      }
      StreamsArePositive(Contents(), user);
    }

    /** The stream_counter column of ListUserDevices. */
    method StreamCounter(user: User, device: Device) returns (counter: int)
      requires Contents().Valid()
      ensures counter == Tables.StreamMark(Contents(), Stream(user, device))
    {
      var top := MaxCounter(Stream(user, device));
      counter := if Stream(user, device) in marks then Max(top, marks[Stream(user, device)]) else top;
    }

    /** COUNT(*) over the UNION of the devices in stream_marks and packets: as
        many as the version vector lists. */
    method StreamCount(user: User) returns (n: int)
      ensures n == |Streams(Contents(), user)|
      ensures Contents().Valid() ==> forall v :: IsUserVector(Contents(), user, v) ==> n == |v|
    {
      var devices := UnionDevices(user);
      n := |devices|;
      StreamsAre(Contents(), user);
      hide Streams, IsUserVector, StreamDevices, SlotDevices;
      if Contents().Valid() {
        forall v | IsUserVector(Contents(), user, v) ensures n == |v| { VectorCounts(Contents(), user, v); }
      }
    }

    /** The UNION of the two selects. */
    method UnionDevices(user: User) returns (devices: set<Device>)
      ensures devices == StreamDevices(marks.Keys, user) + SlotDevices(packets.Keys, user)
    {
      hide StreamDevices, SlotDevices;
      var marked := MarkedDevices(user);
      devices := {};
      var todo := packets.Keys;
      NoDevices(user);
      assert packets.Keys - todo == {};
      while todo != {}
        invariant todo <= packets.Keys && devices == SlotDevices(packets.Keys - todo, user)
      {
        var s :| s in todo;
        OneMoreSlot(packets.Keys, todo, s, user);
        todo := todo - {s};
        if s.stream.user == user { devices := devices + {s.stream.device}; }
      }
      assert packets.Keys - {} == packets.Keys;
      devices := marked + devices;
    }

    /** SELECT origin_device_id FROM stream_marks. */
    method MarkedDevices(user: User) returns (devices: set<Device>)
      ensures devices == StreamDevices(marks.Keys, user)
    {
      devices := {};
      var todo := marks.Keys;
      while todo != {}
        invariant todo <= marks.Keys
        invariant devices == StreamDevices(marks.Keys - todo, user)
      {
        var t :| t in todo;
        OneMoreStream(marks.Keys, todo, t, user);
        todo := todo - {t};
        if t.user == user { devices := devices + {t.device}; }
      }
    }

    method UserStorageBytes(user: User) returns (n: int)
      ensures n == StorageBytes(Contents(), user)
    {
      var p := SumLengths(UserSlots(Contents(), user));
      var b := SumBlobLengths(UserBlobs(Contents(), user));
      n := p + b;
    }

    /** The content hashes held for one device's counters from..to; a counter
        that is not stored, or not hashed yet, is absent. */
    method StreamHashes(user: User, origin: Device, from: int, to: int) returns (hashes: map<int, string>)
      ensures forall c :: c in hashes <==>
                && from <= c <= to && Slot(Stream(user, origin), c) in packets
                && packets[Slot(Stream(user, origin), c)].hash != ""
      ensures forall c :: c in hashes ==> hashes[c] == packets[Slot(Stream(user, origin), c)].hash
    {
      hashes := map[];
      var t := Stream(user, origin);
      var rows := set s | s in packets && s.stream == t && from <= s.counter <= to && packets[s].hash != "";
      var todo := rows;
      while todo != {}
        invariant todo <= rows
        invariant forall c :: c in hashes <==> Slot(t, c) in rows - todo
        invariant forall c :: c in hashes ==> hashes[c] == packets[Slot(t, c)].hash
      {
        var s :| s in todo;
        assert s == Slot(t, s.counter);
        hashes := hashes[s.counter := packets[s].hash];
        todo := todo - {s};
      }
    }

    method HasBlob(user: User, id: BlobId) returns (held: bool)
      ensures held == (BlobKey(user, id) in blobs)
    {
      held := BlobKey(user, id) in blobs;
    }

    /** Which of the declared blobs are not held, in the order declared. */
    method MissingBlobs(user: User, ids: seq<BlobId>) returns (missing: seq<BlobId>)
      ensures missing == Missing(Contents(), user, ids)
    {
      missing := [];
      for i := 0 to |ids|
        invariant missing == Missing(Contents(), user, ids[..i])
      {
        var held := HasBlob(user, ids[i]);
        assert ids[..i + 1][..i] == ids[..i];
        if !held { missing := missing + [ids[i]]; }
      }
      assert ids[..|ids|] == ids;
    }

    /** What PruneCovered would free in packets for the same declaration. */
    method CoveredBytes(c: Claim) returns (total: int)
      requires Contents().Valid()
      ensures total == BytesOf(packets, CoveredSlots(Contents(), c))
    {
      hide BytesOf, CoveredSlots, Among;
      total := 0;
      ghost var done: set<Device> := {};
      var todo := c.covers.Keys;
      CoveredEnds(Contents(), c);
      while todo != {}
        invariant todo !! done && todo + done == c.covers.Keys
        invariant total == BytesOf(packets, CoveredSlots(Contents(), Among(c, done)))
      {
        var device :| device in todo;
        CoveredStep(Contents(), c, done, device);
        todo, done := todo - {device}, done + {device};
        var upTo := c.covers[device];
        if device == c.keepOrigin && upTo >= c.keepCounter { upTo := c.keepCounter - 1; }
        if upTo < 1 { continue; }
        var bytes := SumLengths(UpTo(Contents(), Stream(c.user, device), upTo));
        total := total + bytes;
      }
      assert done == c.covers.Keys;
    }

    // ------------------------------------------------------------------ writes

    method RaiseMark(user: User, origin: Device, counter: int)
      modifies this`marks
      ensures Contents() == Raised(old(Contents()), Stream(user, origin), counter)
    {
      var t := Stream(user, origin);
      marks := marks[t := Max(Get(marks, t, counter), counter)];
    }

    method RecordPacketBlobs(user: User, origin: Device, counter: int, ids: seq<BlobId>)
      modifies this`refs
      ensures Contents() == ReferencedAll(old(Contents()), Slot(Stream(user, origin), counter), ids)
    {
      var s := Slot(Stream(user, origin), counter);
      for i := 0 to |ids|
        invariant Contents() == ReferencedAll(old(Contents()), s, ids[..i])
      {
        assert ids[..i + 1] == ids[..i] + [ids[i]];
        refs := refs + {Ref(s, ids[i])};
      }
      assert ids[..|ids|] == ids;
    }

    method FlagSnapshot(user: User, origin: Device, counter: int)
      modifies this`packets
      ensures Contents() == Flagged(old(Contents()), Slot(Stream(user, origin), counter))
    {
      var s := Slot(Stream(user, origin), counter);
      if s in packets && !packets[s].snapshot {
        packets := packets[s := packets[s].(snapshot := true)];
      }
    }

    method InsertPacket(user: User, origin: Device, counter: int, payload: Bytes, isSnapshot: bool, ids: seq<BlobId>)
      returns (inserted: bool, held: int)
      modifies this`packets, this`marks, this`refs
      ensures Insertion(Contents(), inserted, held)
              == Insert(old(Contents()), Slot(Stream(user, origin), counter),
                        Row(payload, hashOf(payload), isSnapshot), ids)
    {
      var s := Slot(Stream(user, origin), counter);
      var mark := StreamMark(user, origin);
      if mark == counter - 1 && s !in packets {
        packets := packets[s := Row(payload, hashOf(payload), isSnapshot)];
        RaiseMark(user, origin, counter);
        RecordPacketBlobs(user, origin, counter, ids);
        return true, counter;
      }
      inserted := false;
      held := StreamMark(user, origin);
      if counter <= held {
        RecordPacketBlobs(user, origin, counter, ids);
      }
      if isSnapshot && counter <= held {
        FlagSnapshot(user, origin, counter);
      }
    }

    method PutBlob(user: User, id: BlobId, payload: Bytes) returns (inserted: bool)
      modifies this`blobs
      ensures Contents() == BlobPut(old(Contents()), BlobKey(user, id), payload)
      ensures inserted == (BlobKey(user, id) !in old(blobs))
    {
      inserted := BlobKey(user, id) !in blobs;
      if inserted { blobs := blobs[BlobKey(user, id) := payload]; }
    }

    method CollectBlobs(user: User) returns (n: int, bytes: int)
      modifies this`blobs
      ensures Contents() == Collected(old(Contents()), user)
      ensures n == |Orphans(old(Contents()), user)|
      ensures bytes == BlobBytesOf(old(blobs), Orphans(old(Contents()), user))
    {
      var orphans := Orphans(Contents(), user);
      n := |orphans|;
      bytes := SumBlobLengths(orphans);
      if n == 0 {
        assert blobs - orphans == blobs;
        return;
      }
      blobs := blobs - orphans;
    }

    /** The loop over the declaration, in whatever order the map yields it, and
        the collection of the blobs it has orphaned. */
    method PruneCovered(c: Claim) returns (result: PruneResult)
      requires Contents().Valid()
      modifies this`packets, this`marks, this`refs, this`blobs
      ensures Contents() == Pruned(old(Contents()), c)
      ensures result == PruneTally(old(Contents()), c)
    {
      result := PruneLoop(c);
      AllWalked(old(Contents()), Contents(), c, result);
      if result.packets > 0 {
        var n, bytes := CollectBlobs(c.user);
        result := result.(blobs := n, blobBytes := bytes);
      }
    }

    method PruneLoop(c: Claim) returns (result: PruneResult)
      modifies this`packets, this`marks, this`refs
      ensures Walked(old(Contents()), Contents(), c, c.covers.Keys, result)
    {
      hide Walked;
      result := PruneResult(0, 0, 0, 0);
      ghost var db := Contents();
      ghost var done: set<Device> := {};
      var todo := c.covers.Keys;
      NoneWalked(db, c);
      while todo != {}
        invariant done <= c.covers.Keys && todo == c.covers.Keys - done
        invariant Walked(db, Contents(), c, done, result)
      {
        var device :| device in todo;
        PassOver(db, c, done, Contents(), result, device);
        result := PruneDevice(c, device, result);
        todo, done := todo - {device}, done + {device};
      }
      assert done == c.covers.Keys;
    }

    /** One pass of that loop. */
    method PruneDevice(c: Claim, device: Device, sofar: PruneResult) returns (result: PruneResult)
      requires device in c.covers
      modifies this`packets, this`marks, this`refs
      ensures Contents() == PrunedDevice(old(Contents()), c, device)
      ensures result == PassTally(old(Contents()), c, device, sofar)
    {
      result := sofar;
      var upTo := c.covers[device];
      if device == c.keepOrigin && upTo >= c.keepCounter { upTo := c.keepCounter - 1; }
      if upTo < 1 { return; }
      var mark := StreamMark(c.user, device);
      if mark == 0 { return; }
      if upTo > mark { upTo := mark; }
      var n, bytes := CutStream(Stream(c.user, device), mark, upTo);
      result := result.(packets := result.packets + n, bytes := result.bytes + bytes);
    }

    /** The statements of one pass, from the re-asserted mark on. */
    method CutStream(t: Stream, mark: int, upTo: int) returns (n: int, bytes: int)
      modifies this`packets, this`marks, this`refs
      ensures Contents() == PrunedStream(old(Contents()), t, mark, upTo)
      ensures n == |UpTo(old(Contents()), t, upTo)|
      ensures bytes == BytesOf(old(packets), UpTo(old(Contents()), t, upTo))
    {
      RaiseMark(t.user, t.device, mark);
      assert UpTo(Contents(), t, upTo) == UpTo(old(Contents()), t, upTo);
      var rows := UpTo(Contents(), t, upTo);
      n := |rows|;
      bytes := SumLengths(rows);
      if n == 0 { return; }
      packets := packets - rows;
      refs := set r | r in refs && !(r.slot.stream == t && r.slot.counter <= upTo);
    }

    /** Pull: one page above the caller's vector. */
    method Pull(user: User, have: Vector, limit: nat, maxBytes: int) returns (page: seq<Packet>, hasMore: bool)
      requires Contents().Valid()
      ensures var rows := FullPull(Contents(), user, have);
              && IsPageLength(Contents(), rows, limit, maxBytes, |page|)
              && hasMore == (|page| < |rows|)
              && forall i :: 0 <= i < |page| ==>
                   page[i] == Packet(rows[i].stream.device, rows[i].counter, packets[rows[i]].payload)
    {
      var vector := UserVector(user);
      var devices: set<Device> := {};
      var todo := vector.Keys;
      while todo != {}
        invariant todo <= vector.Keys
        invariant devices == set d | d in Ahead(vector, have) && d !in todo
      {
        var d :| d in todo;
        todo := todo - {d};
        if vector[d] > Held(have, d) { devices := devices + {d}; }
      }
      assert devices == Ahead(vector, have);
      SkippingLosesNothing(Contents(), user, vector, have);
      if devices == {} {
        assert Eligible(Contents(), user, have) == {};
        return [], false;
      }
      page, hasMore := TakePage(InPullOrder(Contents(), Selected(Contents(), user, devices, have)), limit, maxBytes);
    }

    /** The scan of the result rows, of which LIMIT lets limit + 1 through. */
    method TakePage(all: seq<Slot>, limit: nat, maxBytes: int) returns (page: seq<Packet>, hasMore: bool)
      requires forall s :: s in all ==> s in packets
      ensures IsPageLength(Contents(), all, limit, maxBytes, |page|)
      ensures hasMore == (|page| < |all|)
      ensures forall i :: 0 <= i < |page| ==>
                page[i] == Packet(all[i].stream.device, all[i].counter, packets[all[i]].payload)
    {
      var rows := if |all| > limit + 1 then all[..limit + 1] else all;
      page := [];
      var bytes := 0;
      var i := 0;
      while i < |rows|
        invariant 0 <= i <= |rows| && |page| == i
        invariant Fits(Contents(), all, limit, maxBytes, i)
        invariant bytes == SeqBytes(Contents(), all[..i])
        invariant forall j :: 0 <= j < i ==>
                    page[j] == Packet(all[j].stream.device, all[j].counter, packets[all[j]].payload)
      {
        if |page| == limit || (|page| > 0 && bytes >= maxBytes) {
          PageEnds(Contents(), all, limit, maxBytes, i);
          return page, true;
        }
        FitsOneMore(Contents(), all, limit, maxBytes, i);
        page := page + [Packet(rows[i].stream.device, rows[i].counter, packets[rows[i]].payload)];
        bytes := bytes + |packets[rows[i]].payload|;
        i := i + 1;
      }
      hasMore := false;
      PageEnds(Contents(), all, limit, maxBytes, i);
    }

    /** DeleteUser, with the cascade to blobs and packet_blobs. */
    method DeleteUser(user: User) returns (found: bool)
      requires Contents().Valid()
      modifies this
      ensures found == (user in old(users))
      ensures Contents() == UserDeleted(old(Contents()), user)
    {
      found := user in users;
      if !found {
        NothingOfStranger(Contents(), user);
        return;
      }
      packets := map s | s in packets && s.stream.user != user :: packets[s];
      marks := map t | t in marks && t.user != user :: marks[t];
      users := users - {user};
      blobs := map b | b in blobs && b.user != user :: blobs[b];
      refs := set r | r in refs && r.slot.stream.user != user;
    }

    // --------------------------------------------------------------- migration

    /** Batches of at most 100 rows until no row is unhashed. */
    method BackfillHashes()
      modifies this`packets
      ensures Contents() == Hashed(old(Contents()), hashOf)
    {
      while true
        invariant Contents() == old(Contents()).(packets := packets)
        invariant Hashed(Contents(), hashOf) == Hashed(old(Contents()), hashOf)
        decreases Unhashed(Contents())
      {
        var pending := NextBatch();
        if |pending| == 0 {
          AllHashed(Contents(), hashOf);
          return;
        }
        WriteHashes(pending);
      }
    }

    /** The SELECT ... LIMIT 100 and the hashes of what it found. */
    method NextBatch() returns (pending: seq<(Slot, Hash)>)
      ensures |pending| <= 100
      ensures pending == [] <==> Unhashed(Contents()) == {}
      ensures forall i :: 0 <= i < |pending| ==>
                pending[i].0 in Unhashed(Contents()) && pending[i].1 == hashOf(packets[pending[i].0].payload)
    {
      pending := [];
      var rows := Unhashed(Contents());
      while rows != {} && |pending| < 100
        invariant rows <= Unhashed(Contents()) && |pending| <= 100
        invariant forall i :: 0 <= i < |pending| ==>
                    pending[i].0 in Unhashed(Contents()) && pending[i].1 == hashOf(packets[pending[i].0].payload)
        invariant pending == [] ==> rows == Unhashed(Contents())
      {
        var s :| s in rows;
        rows := rows - {s};
        pending := pending + [(s, hashOf(packets[s].payload))];
      }
      assert pending != [] ==> pending[0].0 in Unhashed(Contents());
    }

    /** One UPDATE per row of the batch. */
    method WriteHashes(pending: seq<(Slot, Hash)>)
      requires pending != []
      requires forall i :: 0 <= i < |pending| ==>
                 pending[i].0 in Unhashed(Contents()) && pending[i].1 == hashOf(packets[pending[i].0].payload)
      modifies this`packets
      ensures Contents() == old(Contents()).(packets := packets)
      ensures Hashed(Contents(), hashOf) == Hashed(old(Contents()), hashOf)
      ensures Unhashed(Contents()) < Unhashed(old(Contents()))
    {
      for i := 0 to |pending|
        invariant Contents() == old(Contents()).(packets := packets)
        invariant packets.Keys == old(packets.Keys)
        invariant forall s :: s in packets ==>
                    packets[s] in {old(packets)[s], Hashed(old(Contents()), hashOf).packets[s]}
        invariant i > 0 ==> packets[pending[0].0].hash != ""
      {
        var (s, hash) := pending[i];
        packets := packets[s := packets[s].(hash := hash)];
      }
      assert Hashed(Contents(), hashOf).packets == Hashed(old(Contents()), hashOf).packets;
      assert pending[0].0 in Unhashed(old(Contents())) && pending[0].0 !in Unhashed(Contents());
    }

    /** migrate: backfill, then seed the marks from what is stored. */
    method Migrate()
      modifies this`packets, this`marks
      ensures Contents() == Migrated(old(Contents()), hashOf)
    {
      BackfillHashes();
      ghost var db := Contents();
      var seeds: map<Stream, int> := map[];
      var todo := StoredStreams(Contents());
      while todo != {}
        invariant Contents() == db && todo <= StoredStreams(db) && seeds.Keys == StoredStreams(db) - todo
        invariant forall t :: t in seeds ==>
                    seeds[t] == Max(Get(marks, t, TopCounter(packets, t)), TopCounter(packets, t))
      {
        var t :| t in todo;
        var top := MaxCounter(t);
        seeds := seeds[t := Max(Get(marks, t, top), top)];
        todo := todo - {t};
      }
      assert seeds == map t | t in StoredStreams(db) ::
               Max(Get(db.marks, t, TopCounter(db.packets, t)), TopCounter(db.packets, t));
      marks := marks + seeds;
    }
  }

  // ------------------------------------------------------------------ helpers

  /** The declaration restricted to some devices. */
  function Among(c: Claim, devices: set<Device>): Claim {
    c.(covers := map d | d in c.covers && d in devices :: c.covers[d])
  }

  lemma CoveredStep(db: Db, c: Claim, done: set<Device>, d: Device)
    requires db.Valid() && d in c.covers && d !in done
    ensures var before, after := CoveredSlots(db, Among(c, done)), CoveredSlots(db, Among(c, done + {d}));
            var rows := UpTo(db, Stream(c.user, d), Declared(c, d));
            BytesOf(db.packets, after)
            == BytesOf(db.packets, before) + if Declared(c, d) >= 1 then BytesOf(db.packets, rows) else 0
  {
    var before, after := CoveredSlots(db, Among(c, done)), CoveredSlots(db, Among(c, done + {d}));
    var rows := UpTo(db, Stream(c.user, d), Declared(c, d));
    if Declared(c, d) >= 1 {
      assert after == before + rows;
      BytesUnion(db.packets, before, rows);
    } else {
      assert after == before;
    }
  }

  lemma CoveredEnds(db: Db, c: Claim)
    ensures BytesOf(db.packets, CoveredSlots(db, Among(c, {}))) == 0
    ensures Among(c, c.covers.Keys) == c
  {
    assert Sizes(db.packets, CoveredSlots(db, Among(c, {}))) == map[];
  }

  /** One pass of the prune loop: nothing for a device it skips, one stream's
      statements for another. */
  ghost function PrunedDevice(now: Db, c: Claim, d: Device): Db
    requires d in c.covers
  {
    var t, n := Stream(c.user, d), Cut(now, c, d);
    if n == 0 then now else PrunedStream(now, t, StreamMark(now, t), n)
  }

  ghost function PassTally(now: Db, c: Claim, d: Device, sofar: PruneResult): PruneResult
    requires d in c.covers
  {
    var t, n := Stream(c.user, d), Cut(now, c, d);
    if n == 0 then sofar
    else sofar.(packets := sofar.packets + |UpTo(now, t, n)|,
                bytes := sofar.bytes + BytesOf(now.packets, UpTo(now, t, n)))
  }

  /** A pass takes the walk from the devices in `done` to one more. */
  lemma PassOver(db: Db, c: Claim, done: set<Device>, now: Db, sofar: PruneResult, d: Device)
    requires d in c.covers && d !in done && Walked(db, now, c, done, sofar)
    ensures Walked(db, PrunedDevice(now, c, d), c, done + {d}, PassTally(now, c, d, sofar))
  {
    hide Cleared, CutsOver, PrunedStream, UpTo, Raised, TallyOf, BytesOf, StreamMark;
    WalkKeepsMark(db, now, c, done, sofar, Stream(c.user, d));
    assert Cut(now, c, d) == Cut(db, c, d);
    hide Cut;
    if Cut(db, c, d) == 0 {
      WalkPast(db, now, c, done, d, sofar);
    } else {
      WalkOver(db, c, done, d, sofar);
    }
  }

  lemma AllHashed(db: Db, hashOf: Bytes -> Hash)
    requires Unhashed(db) == {}
    ensures Hashed(db, hashOf) == db
  {
    assert forall s :: s in db.packets && db.packets[s].hash == "" ==> s in Unhashed(db);
    assert Hashed(db, hashOf).packets == db.packets;
  }

  lemma FitsOneMore(db: Db, rows: seq<Slot>, limit: nat, maxBytes: int, i: nat)
    requires forall s :: s in rows ==> s in db.packets
    requires Fits(db, rows, limit, maxBytes, i) && i < |rows| && i != limit
    requires i > 0 ==> SeqBytes(db, rows[..i]) < maxBytes
    ensures Fits(db, rows, limit, maxBytes, i + 1)
    ensures SeqBytes(db, rows[..i + 1]) == SeqBytes(db, rows[..i]) + |db.packets[rows[i]].payload|
  {
    assert rows[..i + 1][..i] == rows[..i];
  }

  lemma PageEnds(db: Db, rows: seq<Slot>, limit: nat, maxBytes: int, i: nat)
    requires forall s :: s in rows ==> s in db.packets
    requires Fits(db, rows, limit, maxBytes, i)
    requires i == |rows| || i == limit || (i > 0 && SeqBytes(db, rows[..i]) >= maxBytes)
    ensures IsPageLength(db, rows, limit, maxBytes, i)
  {
  }

  lemma StreamsArePositive(db: Db, user: User)
    requires db.Valid()
    ensures forall d :: d in Streams(db, user) <==> StreamMark(db, Stream(user, d)) > 0
  {
    forall d ensures d in Streams(db, user) <==> StreamMark(db, Stream(user, d)) > 0 {
      var t := Stream(user, d);
      var m := StreamMark(db, t);
      if m > 0 {
        if Slot(t, m) in db.packets { assert Slot(t, m).stream.device in Streams(db, user); }
        if t in db.marks { assert t.device in Streams(db, user); }
      }
      if d in Streams(db, user) {
        if s :| s in db.packets && s.stream.user == user && s.stream.device == d {
          assert s == Slot(t, s.counter);
        } else {
          var u :| u in db.marks && u.user == user && u.device == d;
          assert u == t;
        }
      }
    }
  }

  function StreamDevices(streams: set<Stream>, user: User): set<Device> {
    set t | t in streams && t.user == user :: t.device
  }

  function SlotDevices(slots: set<Slot>, user: User): set<Device> {
    set s | s in slots && s.stream.user == user :: s.stream.device
  }

  lemma StreamsAre(db: Db, user: User)
    ensures Streams(db, user) == StreamDevices(db.marks.Keys, user) + SlotDevices(db.packets.Keys, user)
  {
  }

  lemma NoDevices(user: User)
    ensures SlotDevices({}, user) == {} && StreamDevices({}, user) == {}
  {
  }

  lemma OneMoreStream(all: set<Stream>, todo: set<Stream>, t: Stream, user: User)
    requires t in todo && todo <= all
    ensures StreamDevices(all - (todo - {t}), user)
            == StreamDevices(all - todo, user) + if t.user == user then {t.device} else {}
  {
    assert all - (todo - {t}) == all - todo + {t};
  }

  lemma OneMoreSlot(all: set<Slot>, todo: set<Slot>, s: Slot, user: User)
    requires s in todo && todo <= all
    ensures SlotDevices(all - (todo - {s}), user)
            == SlotDevices(all - todo, user) + if s.stream.user == user then {s.stream.device} else {}
  {
    assert all - (todo - {s}) == all - todo + {s};
  }

  lemma VectorCounts(db: Db, user: User, v: Vector)
    requires db.Valid() && IsUserVector(db, user, v)
    ensures v.Keys == Streams(db, user) && |v| == |Streams(db, user)|
  {
    StreamsArePositive(db, user);
    hide StreamMark, Streams;
    assert v.Keys == Streams(db, user);
    assert |v| == |v.Keys|;
  }

  lemma NothingOfStranger(db: Db, user: User)
    requires db.Valid() && user !in db.users
    ensures UserDeleted(db, user) == db
  {
    var after := UserDeleted(db, user);
    assert after.packets == db.packets && after.marks == db.marks && after.blobs == db.blobs;
    assert after.refs == db.refs && after.users == db.users;
  }
}
