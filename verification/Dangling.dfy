/**
 Attachment references when statements interleave. The check that a declared
 blob is held and the statement that records the reference are apart
 (go/internal/api/changes_handlers.go:141-157), and another upload's collection
 may fall between them (go/internal/store/store.go:641-662, 758-764). That is the
 only way a reference comes to name a blob that is not held.
 */
module Dangling {
  import opened Tables
  import opened Statements
  import opened Interleaving

  function BlobOf(r: Ref): BlobKey { BlobKey(r.slot.stream.user, r.blob) }

  /** Upload p is about to look for the blob of r, and will find it. */
  ghost predicate Finds(s: Sys, e: Event, p: Pid, r: Ref) {
    && e.Advance? && e.pid == p && p in s.tasks
    && var t := s.tasks[p];
       && t.phase.CheckBlobs? && t.phase.next < |t.req.blobs| && t.req.blobs[t.phase.next] == r.blob
       && t.req.Slot() == r.slot && BlobOf(r) in s.db.blobs
  }

  /** Upload p is about to record r. */
  ghost predicate Records(s: Sys, e: Event, p: Pid, r: Ref) {
    && e.Advance? && e.pid == p && p in s.tasks
    && var t := s.tasks[p];
       && t.phase.RecordBlob? && t.phase.next < |t.req.blobs| && t.req.blobs[t.phase.next] == r.blob
       && t.req.Slot() == r.slot && t.req.user in s.db.users
  }

  /** A prune of upload q is about to collect blob b. */
  ghost predicate Collects(s: Sys, e: Event, q: Pid, b: BlobKey) {
    && e.Advance? && e.pid == q && q in s.tasks
    && var t := s.tasks[q];
       && t.phase.Prune? && t.phase.at.DeleteOrphans? && t.req.user == b.user
       && b in s.db.blobs && b in Orphans(s.db, b.user)
  }

  predicate Puts(e: Event, b: BlobKey) { e.StoreBlob? && e.blob == b }

  /** In this run upload p looked for the blob of r and found it, then upload q
      collected it, then p recorded r, and nobody has put the blob again since it
      was collected. */
  ghost predicate Window(s: Sys, es: seq<Event>, r: Ref, p: Pid, i: nat, q: Pid, k: nat, j: nat) {
    && i < k < j < |es|
    && Finds(Exec(s, es[..i]), es[i], p, r)
    && Collects(Exec(s, es[..k]), es[k], q, BlobOf(r))
    && Records(Exec(s, es[..j]), es[j], p, r)
    && forall x :: k < x < |es| ==> !Puts(es[x], BlobOf(r))
  }

  // ---------------------------------------------------------------- single events

  /** Only a collection, or the end of the account, loses a blob. */
  lemma HowBlobsGo(s: Sys, e: Event, b: BlobKey)
    requires b in s.db.blobs && b !in Apply(s, e).db.blobs
    ensures (e.Advance? && Collects(s, e, e.pid, b)) || e == RemoveUser(b.user)
  {
  }

  lemma CollectedIsGone(s: Sys, e: Event, q: Pid, b: BlobKey)
    requires Collects(s, e, q, b)
    ensures b !in Apply(s, e).db.blobs
  {
  }

  lemma LookingKeepsBlobs(s: Sys, e: Event, p: Pid, r: Ref)
    requires Finds(s, e, p, r)
    ensures BlobOf(r) in Apply(s, e).db.blobs
  {
  }

  lemma HowBlobsCome(s: Sys, e: Event, b: BlobKey)
    requires b !in s.db.blobs
    ensures b in Apply(s, e).db.blobs ==> Puts(e, b)
    ensures Puts(e, b) && b.user in s.db.users ==> b in Apply(s, e).db.blobs
  {
  }

  lemma HowRefsCome(s: Sys, e: Event, r: Ref)
    requires r !in s.db.refs && r in Apply(s, e).db.refs
    ensures e.Advance? && Records(s, e, e.pid, r) && Apply(s, e).db.blobs == s.db.blobs
  {
  }

  /** A blob that a reference names is kept for as long as the reference is. */
  lemma NamedStays(s: Sys, e: Event, r: Ref)
    requires r in s.db.refs && r in Apply(s, e).db.refs && BlobOf(r) in s.db.blobs
    ensures BlobOf(r) in Apply(s, e).db.blobs
  {
    if BlobOf(r) !in Apply(s, e).db.blobs { HowBlobsGo(s, e, BlobOf(r)); }
  }

  // ------------------------------------------------------------------------ runs

  /** A blob that was held and is not, of an account that lives on, was collected
      since, and not put again after that. */
  lemma {:induction false} LostSince(s: Sys, es: seq<Event>, m: nat, b: BlobKey) returns (k: nat, q: Pid)
    requires Initial(s) && m <= |es| && b in Exec(s, es[..m]).db.blobs
    requires b !in Exec(s, es).db.blobs && b.user in Exec(s, es).db.users
    ensures m <= k < |es| && Collects(Exec(s, es[..k]), es[k], q, b)
    ensures forall x :: k < x < |es| ==> !Puts(es[x], b)
    decreases |es|
  {
    hide Exec, Apply, Collects, Puts;
    assert es[..|es|] == es;
    var fewer, e := es[..|es| - 1], es[|es| - 1];
    assert fewer[..m] == es[..m];
    ExecLast(s, es);
    StillThere(s, fewer, m, b, e);
    LossStep(Exec(s, fewer), e, b);
    if b in Exec(s, fewer).db.blobs {
      k, q := |es| - 1, e.pid;
    } else {
      k, q := LostSince(s, fewer, m, b);
      assert fewer[..k] == es[..k];
    }
  }

  lemma ExecLast(s: Sys, es: seq<Event>)
    requires es != []
    ensures Exec(s, es) == Apply(Exec(s, es[..|es| - 1]), es[|es| - 1])
  {
  }

  lemma LossStep(s: Sys, e: Event, b: BlobKey)
    requires b !in Apply(s, e).db.blobs && b.user in Apply(s, e).db.users
    ensures b in s.db.blobs ==> e.Advance? && Collects(s, e, e.pid, b)
    ensures b !in s.db.blobs && b.user in s.db.users ==> !Puts(e, b)
  {
    if b in s.db.blobs {
      HowBlobsGo(s, e, b);
      assert e != RemoveUser(b.user);
    } else {
      HowBlobsCome(s, e, b);
    }
  }

  /** An account that held a blob and lives after the next event lives now. */
  lemma StillThere(s: Sys, es: seq<Event>, m: nat, b: BlobKey, e: Event)
    requires Initial(s) && m <= |es| && b in Exec(s, es[..m]).db.blobs
    requires b.user in Apply(Exec(s, es), e).db.users
    ensures b.user in Exec(s, es).db.users
  {
    ReachableInv(s, es[..m]);
    ReachableInv(s, es);
    ExecSplit(s, es[..m], es[m..]);
    assert es[..m] + es[m..] == es;
    hide Exec, Apply;
    HistoryGrows(Exec(s, es[..m]), es[m..]);
    EverySteps(Exec(s, es), e);
  }

  /** The upload is past its check of the n-th blob it declares. */
  predicate PastCheck(t: Task, n: nat) {
    if t.phase.CheckBlobs? then n < t.phase.next
    else !t.phase.Dead? && !(t.phase.Answered? && t.phase.outcome.BlobsMissing?)
  }

  /** It found that blob when it looked. */
  lemma {:induction false} FoundBefore(s: Sys, es: seq<Event>, p: Pid, n: nat, r: Ref) returns (i: nat)
    requires Initial(s) && p in Exec(s, es).tasks
    requires var t := Exec(s, es).tasks[p];
             PastCheck(t, n) && n < |t.req.blobs| && t.req.blobs[n] == r.blob && t.req.Slot() == r.slot
    ensures i < |es| && Finds(Exec(s, es[..i]), es[i], p, r)
    decreases |es|
  {
    var fewer, e := es[..|es| - 1], es[|es| - 1];
    var before := Exec(s, fewer);
    CheckStep(before, e, p, n, r);
    if Finds(before, e, p, r) {
      i := |es| - 1;
    } else {
      i := FoundBefore(s, fewer, p, n, r);
      assert fewer[..i] == es[..i];
    }
  }

  lemma CheckStep(s: Sys, e: Event, p: Pid, n: nat, r: Ref)
    requires p in Apply(s, e).tasks
    requires var t := Apply(s, e).tasks[p];
             PastCheck(t, n) && n < |t.req.blobs| && t.req.blobs[n] == r.blob && t.req.Slot() == r.slot
    ensures p in s.tasks && s.tasks[p].req == Apply(s, e).tasks[p].req
    ensures PastCheck(s.tasks[p], n) || Finds(s, e, p, r)
  {
  }

  /** A reference to a blob that is not held was recorded when it was not, and
      the blob has not been put since. */
  lemma {:induction false} RecordedUnheld(s: Sys, es: seq<Event>, r: Ref) returns (j: nat, p: Pid)
    requires Initial(s) && r in Exec(s, es).db.refs && BlobOf(r) !in Exec(s, es).db.blobs
    ensures j < |es| && Records(Exec(s, es[..j]), es[j], p, r) && BlobOf(r) !in Exec(s, es[..j]).db.blobs
    ensures forall x :: j <= x < |es| ==> !Puts(es[x], BlobOf(r))
    decreases |es|
  {
    hide Exec, Apply, Records, Puts;
    assert es != [] by { NothingRecorded(s, es, r); }
    var fewer, e := es[..|es| - 1], es[|es| - 1];
    ExecLast(s, es);
    ReachableInv(s, fewer);
    RefStep(Exec(s, fewer), e, r);
    if r in Exec(s, fewer).db.refs {
      j, p := RecordedUnheld(s, fewer, r);
      assert fewer[..j] == es[..j];
    } else {
      j, p := |es| - 1, e.pid;
    }
  }

  lemma NothingRecorded(s: Sys, es: seq<Event>, r: Ref)
    requires Initial(s)
    ensures es == [] ==> r !in Exec(s, es).db.refs
  {
  }

  /** A reference to a blob that is not held was already one, and the blob was not
      put now, or is recorded now. */
  lemma RefStep(s: Sys, e: Event, r: Ref)
    requires Inv(s) && r in Apply(s, e).db.refs && BlobOf(r) !in Apply(s, e).db.blobs
    ensures BlobOf(r) !in s.db.blobs && !Puts(e, BlobOf(r))
    ensures r !in s.db.refs ==> e.Advance? && Records(s, e, e.pid, r)
  {
    if r in s.db.refs {
      if BlobOf(r) in s.db.blobs { NamedStays(s, e, r); }
      HowBlobsCome(s, e, BlobOf(r));
    } else {
      HowRefsCome(s, e, r);
    }
  }

  lemma {:induction false} StaysAbsent(s: Sys, es: seq<Event>, m: nat, b: BlobKey)
    requires m <= |es| && b !in Exec(s, es[..m]).db.blobs && forall x :: m <= x < |es| ==> !Puts(es[x], b)
    ensures b !in Exec(s, es).db.blobs
    decreases |es|
  {
    if m == |es| {
      assert es[..m] == es;
    } else {
      var fewer := es[..|es| - 1];
      assert fewer[..m] == es[..m];
      StaysAbsent(s, fewer, m, b);
      HowBlobsCome(Exec(s, fewer), es[|es| - 1], b);
    }
  }

  /** The window that left a dangling reference. */
  lemma FindWindow(s: Sys, es: seq<Event>, r: Ref) returns (p: Pid, i: nat, q: Pid, k: nat, j: nat)
    requires Initial(s) && r in Exec(s, es).db.refs && BlobOf(r) !in Exec(s, es).db.blobs
    ensures Window(s, es, r, p, i, q, k, j)
  {
    hide Exec, Apply, Collects, Finds, Puts;
    j, p := RecordedUnheld(s, es, r);
    var pre := es[..j];
    i := FoundBefore(s, pre, p, Exec(s, pre).tasks[p].phase.next, r);
    ExecOneMore(s, pre, i);
    LookingKeepsBlobs(Exec(s, pre[..i]), pre[i], p, r);
    k, q := LostSince(s, pre, i + 1, BlobOf(r));
    assert pre[..i] == es[..i] && pre[..k] == es[..k];
    assert forall x :: k < x < j ==> es[x] == pre[x];
  }

  lemma WindowDangles(s: Sys, es: seq<Event>, r: Ref, p: Pid, i: nat, q: Pid, k: nat, j: nat)
    requires Window(s, es, r, p, i, q, k, j)
    ensures BlobOf(r) !in Exec(s, es).db.blobs
  {
    hide Finds, Records, Apply, Exec, Collects;
    ExecOneMore(s, es, k);
    CollectedIsGone(Exec(s, es[..k]), es[k], q, BlobOf(r));
    StaysAbsent(s, es, k + 1, BlobOf(r));
  }

  /** A recorded reference names a blob that is not held exactly when some upload
      found the blob, then a prune of the account collected it, then the upload
      recorded the reference, and nobody has put the blob again. */
  lemma DanglesIff(s: Sys, es: seq<Event>, r: Ref)
    requires Initial(s) && r in Exec(s, es).db.refs
    ensures BlobOf(r) !in Exec(s, es).db.blobs <==> exists p, i, q, k, j :: Window(s, es, r, p, i, q, k, j)
  {
    hide Window;
    if BlobOf(r) !in Exec(s, es).db.blobs {
      var p, i, q, k, j := FindWindow(s, es, r);
    } else {
      forall p, i, q, k, j | Window(s, es, r, p, i, q, k, j) ensures false { WindowDangles(s, es, r, p, i, q, k, j); }
    }
  }
}
