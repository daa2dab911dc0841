/**
 The handlers that change the store: uploadPacket with its storage checks, and
 putBlob (go/internal/api/changes_handlers.go, limits.go, blobs_handlers.go).
 The free-disk reading is an input.
 */
module Servers {
  import opened Tables
  import opened Handlers
  import opened Stores
  import opened Paging

  /** The payload bytes of one page of a pull. */
  const PULL_PAGE_BYTES: int := 16 * 1024 * 1024

  datatype PullOutcome = BadLimit | Page(packets: seq<Packet>, hasMore: bool)

  class Server {
    const store: Store
    const cfg: Config

    constructor (store: Store, cfg: Config)
      ensures this.store == store && this.cfg == cfg
    {
      this.store, this.cfg := store, cfg;
    }

    method CheckQuota(user: User, delta: int) returns (ok: bool)
      ensures ok == QuotaAdmits(store.Contents(), cfg, user, delta)
    {
      if cfg.quota == 0 || delta <= 0 { return true; }
      var used := store.UserStorageBytes(user);
      ok := used + delta <= cfg.quota;
    }

    method CheckPacketStorage(req: Request, diskOk: bool) returns (ok: bool)
      requires store.Contents().Valid()
      ensures ok == StorageAdmits(store.Contents(), cfg, req, diskOk)
    {
      var mark := store.StreamMark(req.user, req.origin);
      if req.counter != mark + 1 { return true; }
      if !diskOk { return false; }
      if mark == 0 && cfg.maxStreams > 0 {
        var streams := store.StreamCount(req.user);
        if streams >= cfg.maxStreams { return false; }
      }
      var freed := 0;
      if req.covers.Some? && cfg.quota > 0 {
        freed := store.CoveredBytes(req.Claim());
      }
      ok := CheckQuota(req.user, |req.payload| - freed);
    }

    method CheckBlobStorage(b: BlobKey, size: nat, diskOk: bool) returns (ok: bool)
      ensures ok == BlobAdmits(store.Contents(), cfg, b, size, diskOk)
    {
      var held := store.HasBlob(b.user, b.id);
      assert b == BlobKey(b.user, b.id);
      if held { return true; }
      ok := CheckQuota(b.user, size);
      ok := diskOk && ok;
    }

    method UploadPacket(req: Request, diskOk: bool) returns (outcome: Outcome)
      requires store.Contents().Valid() && req.user in store.users
      modifies store
      ensures (store.Contents(), outcome) == Upload(old(store.Contents()), cfg, store.hashOf(req.payload), req, diskOk)
    {
      if |req.payload| > cfg.maxPayload { return TooLarge; }
      if |req.payload| == 0 { return Invalid; }
      if req.counter < 1 { return Invalid; }
      if |req.blobs| > 0 {
        var missing := store.MissingBlobs(req.user, req.blobs);
        if |missing| > 0 { return BlobsMissing(missing); }
      }
      var admitted := CheckPacketStorage(req, diskOk);
      if !admitted { return NoStorage; }
      outcome := StoreAndPrune(req);
    }

    /** uploadPacket once the checks have passed. */
    method StoreAndPrune(req: Request) returns (outcome: Outcome)
      requires store.Contents().Valid() && req.user in store.users && req.counter >= 1
      modifies store
      ensures (store.Contents(), outcome) == Stored(old(store.Contents()), store.hashOf(req.payload), req)
    {
      InsertKeepsValid(store.Contents(), req.Slot(), req.Row(store.hashOf(req.payload)), req.blobs);
      var inserted, held := store.InsertPacket(req.user, req.origin, req.counter, req.payload, req.covers.Some?,
                                               req.blobs);
      if !inserted && req.counter > held { return Gap(held + 1); }
      var pruned := None;
      if req.covers.Some? {
        var result := store.PruneCovered(req.Claim());
        pruned := Some(result);
      }
      outcome := if inserted then Created(pruned) else AlreadyHeld(pruned);
    }

    method PutBlob(b: BlobKey, payload: Bytes, diskOk: bool) returns (outcome: BlobOutcome)
      modifies store
      ensures (store.Contents(), outcome) == Handlers.PutBlob(old(store.Contents()), cfg, b, payload, diskOk)
    {
      if |payload| > cfg.maxBlob { return BlobTooLarge; }
      if |payload| == 0 { return BlobInvalid; }
      var admitted := CheckBlobStorage(b, |payload|, diskOk);
      if !admitted { return BlobRefused; }
      var inserted := store.PutBlob(b.user, b.id, payload);
      assert b == BlobKey(b.user, b.id);
      outcome := if inserted then BlobCreated else BlobHeld;
    }

    /** The limit is given by the caller, 100 when it gives none. A page holds a
        packet whenever there is one above the caller's vector. */
    method PullPackets(user: User, have: Vector, given: Option<int>) returns (outcome: PullOutcome)
      requires store.Contents().Valid()
      ensures outcome.BadLimit? <==> given.Some? && !(1 <= given.value <= 1000)
      ensures outcome.Page? ==>
                var rows := FullPull(store.Contents(), user, have);
                var limit := if given.Some? then given.value else 100;
                && IsPageLength(store.Contents(), rows, limit, PULL_PAGE_BYTES, |outcome.packets|)
                && outcome.hasMore == (|outcome.packets| < |rows|)
                && (forall i :: 0 <= i < |outcome.packets| ==>
                      outcome.packets[i] == Packet(rows[i].stream.device, rows[i].counter,
                                                   store.packets[rows[i]].payload))
                && (outcome.packets == [] <==> Eligible(store.Contents(), user, have) == {})
    {
      var limit := 100;
      if given.Some? {
        if given.value < 1 || given.value > 1000 { return BadLimit; }
        limit := given.value;
      }
      var page, hasMore := store.Pull(user, have, limit, PULL_PAGE_BYTES);
      ghost var rows := FullPull(store.Contents(), user, have);
      assert forall s :: s in rows <==> s in Eligible(store.Contents(), user, have);
      PageMakesProgress(store.Contents(), rows, limit, PULL_PAGE_BYTES, |page|);
      outcome := Page(page, hasMore);
    }
  }
}
