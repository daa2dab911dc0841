/**
 What opening a store leaves in it: the hash backfill and the seeding of stream
 marks (migrate and backfillHashes, go/internal/store/store.go:154-289).
 Stores.Store.Migrate is proved to compute Stores.Migrated; this is what that
 function means.
 */
module Migration {
  import opened Tables
  import opened Stores

  lemma SeedingKeepsMark(db: Db, t: Stream)
    ensures StreamMark(Seeded(db), t) == StreamMark(db, t)
  {
    var m := StreamMark(db, t);
    var top := TopCounter(db.packets, t);
    assert top > 0 ==> Slot(t, top).stream in StoredStreams(db);
    assert IsMark(Seeded(db), t, m);
  }

  lemma HashingKeepsMark(db: Db, hashOf: Bytes -> Hash, t: Stream)
    ensures StreamMark(Hashed(db, hashOf), t) == StreamMark(db, t)
  {
    assert IsMark(Hashed(db, hashOf), t, StreamMark(db, t));
  }

  /** The next counter of every stream is what it was. */
  lemma MigrationKeepsMarks(db: Db, hashOf: Bytes -> Hash, t: Stream)
    ensures StreamMark(Migrated(db, hashOf), t) == StreamMark(db, t)
  {
    HashingKeepsMark(db, hashOf, t);
    SeedingKeepsMark(Hashed(db, hashOf), t);
  }

  /** Every packet keeps its payload and flag and ends with a hash: its own if
      it had one, its payload's otherwise. Nothing else moves but the marks. */
  lemma MigrationKeepsPackets(db: Db, hashOf: Bytes -> Hash)
    ensures var after := Migrated(db, hashOf);
            && after.packets.Keys == db.packets.Keys
            && (forall s :: s in db.packets ==>
                  && after.packets[s].payload == db.packets[s].payload
                  && after.packets[s].snapshot == db.packets[s].snapshot
                  && after.packets[s].hash == (if db.packets[s].hash != "" then db.packets[s].hash
                                               else hashOf(db.packets[s].payload)))
            && Unhashed(after) == {}
            && after.users == db.users && after.blobs == db.blobs && after.refs == db.refs
  {
  }

  /** Every stream with a stored packet has a mark that remembers it, so a later
      prune cannot bring its counter back; remembered marks never fall. */
  lemma MigrationSeedsMarks(db: Db, hashOf: Bytes -> Hash)
    ensures var after := Migrated(db, hashOf);
            && (forall s :: s in db.packets ==> s.stream in after.marks && s.counter <= after.marks[s.stream])
            && (forall t :: t in db.marks ==> t in after.marks && db.marks[t] <= after.marks[t])
            && (forall t :: t in after.marks && t !in db.marks ==> exists s :: s in db.packets && s.stream == t)
  {
    var hashed := Hashed(db, hashOf);
    forall s | s in db.packets
      ensures s.stream in StoredStreams(hashed) && s.counter <= TopCounter(hashed.packets, s.stream)
    {
      assert s == Slot(s.stream, s.counter);
      assert s in hashed.packets;
    }
  }

  /** Streams that are stored are remembered at their mark. */
  ghost predicate Settled(db: Db) {
    && Unhashed(db) == {}
    && forall t :: t in StoredStreams(db) ==> t in db.marks && db.marks[t] >= TopCounter(db.packets, t)
  }

  lemma SettledStays(db: Db, hashOf: Bytes -> Hash)
    requires Settled(db)
    ensures Migrated(db, hashOf) == db
  {
    assert forall s :: s in db.packets && db.packets[s].hash == "" ==> s in Unhashed(db);
    assert Hashed(db, hashOf) == db;
    assert forall t :: t in StoredStreams(db) ==>
             Max(Get(db.marks, t, TopCounter(db.packets, t)), TopCounter(db.packets, t)) == db.marks[t];
    assert Seeded(db).marks == db.marks;
  }

  lemma MigrationSettles(db: Db, hashOf: Bytes -> Hash)
    ensures Settled(Migrated(db, hashOf))
  {
    MigrationKeepsPackets(db, hashOf);
    assert StoredStreams(Migrated(db, hashOf)) == StoredStreams(Hashed(db, hashOf));
  }

  /** Opening a store again changes nothing. */
  lemma MigrationIsIdempotent(db: Db, hashOf: Bytes -> Hash)
    ensures Migrated(Migrated(db, hashOf), hashOf) == Migrated(db, hashOf)
  {
    MigrationSettles(db, hashOf);
    SettledStays(Migrated(db, hashOf), hashOf);
  }

  /** Some of the missing hashes have been written. */
  function HashedSome(db: Db, hashOf: Bytes -> Hash, which: set<Slot>): Db {
    db.(packets := map s | s in db.packets ::
          if s in which && db.packets[s].hash == "" then db.packets[s].(hash := hashOf(db.packets[s].payload))
              else db.packets[s])
  }

  /** A backfill that died part-way is finished by the next one. */
  lemma BackfillResumes(db: Db, hashOf: Bytes -> Hash, which: set<Slot>)
    ensures Migrated(HashedSome(db, hashOf, which), hashOf) == Migrated(db, hashOf)
  {
    assert Hashed(HashedSome(db, hashOf, which), hashOf) == Hashed(db, hashOf);
  }
}
