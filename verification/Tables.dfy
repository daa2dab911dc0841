/**
 The relay's tables and the SQL statements that change them
 (go/internal/store/store.go). A database is a value; each statement is one
 atomic function on it. SQLite serialises writers, so a statement reads and
 writes one database.
 */
module Tables {
  import opened Sums

  type User = nat
  type Device = string
  type BlobId = string
  newtype byte = x: int | 0 <= x < 256
  type Bytes = seq<byte>
  /** SHA-256 in hex is never the empty string; nothing else about it is used. */
  type Hash = h: string | h != "" witness "0"

  datatype Option<+T> = None | Some(value: T)

  /** One origin device's stream within one account. */
  datatype Stream = Stream(user: User, device: Device)
  /** A packet's identity: the UNIQUE key of the packets table. */
  datatype Slot = Slot(stream: Stream, counter: int)
  datatype Row = Row(payload: Bytes, hash: string, snapshot: bool)
  datatype BlobKey = BlobKey(user: User, id: BlobId)
  /** A row of packet_blobs. */
  datatype Ref = Ref(slot: Slot, blob: BlobId)

  datatype Db = Db(
    users: set<User>,
    packets: map<Slot, Row>,
    marks: map<Stream, int>,
    blobs: map<BlobKey, Bytes>,
    refs: set<Ref>)
  {
    /** What the schema and the insertion rule keep: positive counters and
        marks, and the user_id foreign keys. */
    ghost predicate Valid() {
      && (forall s :: s in packets ==> s.counter >= 1 && s.stream.user in users)
      && (forall t :: t in marks ==> marks[t] >= 1 && t.user in users)
      && (forall b :: b in blobs ==> b.user in users)
      && (forall r :: r in refs ==> r.slot.stream.user in users)
    }
  }

  function Max(a: int, b: int): int { if a < b then b else a }

  function Min(a: int, b: int): int { if a < b then a else b }

  function Get<K, V>(m: map<K, V>, k: K, otherwise: V): V {
    if k in m then m[k] else otherwise
  }

  // ------------------------------------------------------------ stream marks

  /** m is the greatest of 0, the stored counters and the remembered mark. */
  ghost predicate IsMark(db: Db, t: Stream, m: int) {
    && (m == 0 || Slot(t, m) in db.packets || (t in db.marks && db.marks[t] == m))
    && m >= 0
    && (forall c :: Slot(t, c) in db.packets ==> c <= m)
    && (t in db.marks ==> db.marks[t] <= m)
  }

  /** m is 0 or a stored counter, and no stored counter is above it. */
  ghost predicate IsTop(packets: map<Slot, Row>, t: Stream, m: int) {
    && (m == 0 || Slot(t, m) in packets)
    && m >= 0
    && (forall c :: Slot(t, c) in packets ==> c <= m)
  }

  lemma {:induction false} TopExists(packets: map<Slot, Row>, t: Stream)
    ensures exists m :: IsTop(packets, t, m)
    decreases |packets|
  {
    if exists c :: c > 0 && Slot(t, c) in packets {
      var c :| c > 0 && Slot(t, c) in packets;
      var rest := packets - {Slot(t, c)};
      TopExists(rest, t);
      var m :| IsTop(rest, t, m);
      assert IsTop(packets, t, Max(m, c));
    } else {
      assert IsTop(packets, t, 0);
    }
  }

  /** COALESCE(MAX(counter), 0) over one stream's rows. */
  ghost function TopCounter(packets: map<Slot, Row>, t: Stream): (m: nat)
    ensures IsTop(packets, t, m)
  {
    TopExists(packets, t);
    var m :| IsTop(packets, t, m);
    m
  }

  /** The stream's mark: the greater of what is stored and what is remembered. */
  ghost function StreamMark(db: Db, t: Stream): (m: nat)
    ensures IsMark(db, t, m)
  {
    Max(TopCounter(db.packets, t), Get(db.marks, t, 0))
  }

  // -------------------------------------------------------------- statements

  /** INSERT INTO packets, once its WHERE guard has passed. */
  function Inserted(db: Db, s: Slot, row: Row): Db {
    db.(packets := db.packets[s := row])
  }

  /** The guard of that INSERT: the counter is exactly one past the mark. */
  ghost predicate IsNext(db: Db, s: Slot) {
    StreamMark(db, s.stream) == s.counter - 1
  }

  /** The stream_marks upsert: high_water := MAX(high_water, counter). */
  function Raised(db: Db, t: Stream, counter: int): Db {
    db.(marks := db.marks[t := Max(Get(db.marks, t, counter), counter)])
  }

  /** INSERT OR IGNORE INTO packet_blobs. */
  function Referenced(db: Db, s: Slot, blob: BlobId): Db {
    db.(refs := db.refs + {Ref(s, blob)})
  }

  /** The same for a list of declared blobs. */
  function ReferencedAll(db: Db, s: Slot, blobs: seq<BlobId>): Db {
    db.(refs := db.refs + set b | b in blobs :: Ref(s, b))
  }

  /** UPDATE packets SET is_snapshot = 1. */
  function Flagged(db: Db, s: Slot): Db {
    if s in db.packets then db.(packets := db.packets[s := db.packets[s].(snapshot := true)]) else db
  }

  /** One stream's stored slots at or below a counter. */
  function UpTo(db: Db, t: Stream, n: int): set<Slot> {
    set s | s in db.packets && s.stream == t && s.counter <= n
  }

  /** DELETE FROM packets WHERE counter <= n, for one stream. */
  function Deleted(db: Db, t: Stream, n: int): Db {
    db.(packets := db.packets - UpTo(db, t, n))
  }

  /** DELETE FROM packet_blobs WHERE counter <= n, for one stream. */
  function Released(db: Db, t: Stream, n: int): Db {
    db.(refs := set r | r in db.refs && !(r.slot.stream == t && r.slot.counter <= n))
  }

  /** The user's blobs that no packet_blobs row names. */
  function Orphans(db: Db, user: User): set<BlobKey> {
    set b | b in db.blobs && b.user == user
            && !exists r :: r in db.refs && r.slot.stream.user == user && r.blob == b.id
  }

  /** The DELETE of collectBlobs. */
  function Collected(db: Db, user: User): Db {
    db.(blobs := db.blobs - Orphans(db, user))
  }

  /** INSERT OR IGNORE INTO blobs. */
  function BlobPut(db: Db, b: BlobKey, payload: Bytes): Db {
    if b in db.blobs then db else db.(blobs := db.blobs[b := payload])
  }

  /** DeleteUser's transaction, with the foreign-key cascade for blobs and
      packet_blobs. */
  function UserDeleted(db: Db, user: User): Db {
    Db(db.users - {user},
       map s | s in db.packets && s.stream.user != user :: db.packets[s],
       map t | t in db.marks && t.user != user :: db.marks[t],
       map b | b in db.blobs && b.user != user :: db.blobs[b],
       set r | r in db.refs && r.slot.stream.user != user)
  }

  // -------------------------------------------------------------- aggregates

  /** Payload sizes of a set of stored packets. */
  function Sizes(packets: map<Slot, Row>, which: set<Slot>): map<Slot, nat> {
    map s | s in packets && s in which :: |packets[s].payload|
  }

  ghost function BytesOf(packets: map<Slot, Row>, which: set<Slot>): nat {
    Sum(Sizes(packets, which))
  }

  function UserSlots(db: Db, user: User): set<Slot> {
    set s | s in db.packets && s.stream.user == user
  }

  function BlobSizes(blobs: map<BlobKey, Bytes>, which: set<BlobKey>): map<BlobKey, nat> {
    map b | b in blobs && b in which :: |blobs[b]|
  }

  ghost function BlobBytesOf(blobs: map<BlobKey, Bytes>, which: set<BlobKey>): nat {
    Sum(BlobSizes(blobs, which))
  }

  function UserBlobs(db: Db, user: User): set<BlobKey> {
    set b | b in db.blobs && b.user == user
  }

  /** Bytes of the rows removed plus bytes of the rows left. */
  lemma BytesSplit(packets: map<Slot, Row>, which: set<Slot>, gone: set<Slot>)
    requires gone <= which
    ensures BytesOf(packets, which) == BytesOf(packets - gone, which - gone) + BytesOf(packets, gone)
  {
    var all := Sizes(packets, which);
    SumSplit(all, gone);
    assert all - gone == Sizes(packets - gone, which - gone);
    assert all - (all.Keys - gone) == Sizes(packets, gone);
  }

  lemma BytesUnmoved(before: map<Slot, Row>, after: map<Slot, Row>, which: set<Slot>)
    requires forall s :: s in which ==> s in before && s in after && before[s] == after[s]
    ensures BytesOf(before, which) == BytesOf(after, which)
  {
    assert Sizes(before, which) == Sizes(after, which);
  }

  lemma BytesUnion(packets: map<Slot, Row>, some: set<Slot>, more: set<Slot>)
    requires some !! more && some <= packets.Keys
    ensures BytesOf(packets, some + more) == BytesOf(packets, some) + BytesOf(packets, more)
  {
    BytesSplit(packets, some + more, more);
    assert some + more - more == some;
    BytesUnmoved(packets, packets - more, some);
  }

  lemma BlobBytesSplit(blobs: map<BlobKey, Bytes>, which: set<BlobKey>, gone: set<BlobKey>)
    requires gone <= which
    ensures BlobBytesOf(blobs, which) == BlobBytesOf(blobs - gone, which - gone) + BlobBytesOf(blobs, gone)
  {
    var all := BlobSizes(blobs, which);
    SumSplit(all, gone);
    assert all - gone == BlobSizes(blobs - gone, which - gone);
    assert all - (all.Keys - gone) == BlobSizes(blobs, gone);
  }

  /** UserStorageBytes: packet payloads plus blobs. */
  ghost function StorageBytes(db: Db, user: User): nat {
    BytesOf(db.packets, UserSlots(db, user)) + BlobBytesOf(db.blobs, UserBlobs(db, user))
  }
}
