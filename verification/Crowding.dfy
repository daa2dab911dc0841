/**
 What a full map costs the failure backoff (go/internal/limit/limit.go:127-151):
 when a failure goes unrecorded, and for which sets of keys the bounded backoff is
 the ideal one.
 */
module Crowding {
  import opened Backoffs

  /** Some call of the run is a failure of this key, at this time. */
  ghost predicate Failed(calls: seq<Call>, key: Key, at: Time) {
    exists i :: 0 <= i < |calls| && calls[i] == Fail(key, at)
  }

  lemma FailedSoFar(calls: seq<Call>, key: Key, at: Time)
    requires calls != [] && Failed(calls[..|calls| - 1], key, at)
    ensures Failed(calls, key, at)
  {
    var i :| 0 <= i < |calls| - 1 && calls[..|calls| - 1][i] == Fail(key, at);
    assert calls[i] == Fail(key, at);
  }

  /** An entry is as recent as a failure of its key. */
  lemma {:induction false} EntriesFailed(p: Policy, calls: seq<Call>, key: Key)
    requires key in After(p, calls)
    ensures Failed(calls, key, After(p, calls)[key].last)
  {
    var most, last := calls[..|calls| - 1], calls[|calls| - 1];
    if last.Fail? && last.key == key {
      assert calls[|calls| - 1] == Fail(key, After(p, calls)[key].last) by { FailureIsLast(p, After(p, most), last); }
    } else {
      OthersKeepEntry(p, After(p, most), last, key);
      hide Step, Failed;
      EntriesFailed(p, most, key);
      FailedSoFar(calls, key, After(p, calls)[key].last);
    }
  }

  lemma FailureIsLast(p: Policy, entries: Entries, call: Call)
    requires call.Fail? && call.key in Step(p, entries, call)
    ensures Step(p, entries, call)[call.key].last == call.now
  {
    hide Delay;
  }

  lemma OthersKeepEntry(p: Policy, entries: Entries, call: Call, key: Key)
    requires !(call.Fail? && call.key == key) && key in Step(p, entries, call)
    ensures key in entries && Step(p, entries, call)[key] == entries[key]
  {
    hide Delay;
  }

  /** A failure goes unrecorded only if as many other keys as the map has room for
      have each failed within the time after which they would be forgotten. */
  lemma UnrecordedOnlyWhenFull(p: Policy, calls: seq<Call>, key: Key, now: Time) returns (others: set<Key>)
    requires key !in AfterFail(p, After(p, calls), key, now)
    ensures |others| >= MAX_KEYS && key !in others
    ensures forall k :: k in others ==> exists at :: Failed(calls, k, at) && now - at <= p.forget
  {
    var entries := After(p, calls);
    var recent := Swept(p, entries, now);
    others := recent.Keys;
    assert |recent| == |others|;
    hide After, Failed;
    forall k | k in others ensures exists at :: Failed(calls, k, at) && now - at <= p.forget {
      EntriesFailed(p, calls, k);
    }
  }

  ghost predicate Over(calls: seq<Call>, keys: set<Key>) { forall i :: 0 <= i < |calls| ==> calls[i].key in keys }

  /** Over these keys, no run shows a wait other than the ideal one's. */
  ghost predicate AlwaysSame(p: Policy, keys: set<Key>) {
    forall calls: seq<Call>, key: Key, now: Time ::
      InTime(calls) && Over(calls, keys) && key in keys && (forall i :: 0 <= i < |calls| ==> calls[i].now <= now) ==>
        WaitOf(p, After(p, calls), key, now) == IdealWait(IdealAfter(p, calls), key, now)
  }

  lemma {:induction false} OnlyFailingKeys(p: Policy, calls: seq<Call>, keys: set<Key>)
    requires Over(calls, keys)
    ensures After(p, calls).Keys <= keys
  {
    if calls != [] {
      OnlyFailingKeys(p, calls[..|calls| - 1], keys);
      StepAddsItsKey(p, After(p, calls[..|calls| - 1]), calls[|calls| - 1]);
      hide Step;
    }
  }

  lemma StepAddsItsKey(p: Policy, entries: Entries, call: Call)
    ensures Step(p, entries, call).Keys <= entries.Keys + {call.key}
  {
    hide Delay;
  }

  lemma FewerThan(part: set<Key>, keys: set<Key>, key: Key)
    requires part <= keys && key in keys
    ensures key !in part ==> |part| < |keys|
  {
    if key !in part { assert keys == part + (keys - part) && key in keys - part; }
  }

  lemma RoomForAll(p: Policy, calls: seq<Call>, keys: set<Key>, key: Key)
    requires Over(calls, keys) && key in keys && |keys| <= MAX_KEYS
    ensures NothingDropped(p, calls, key)
  {
    forall i | 0 <= i < |calls| && calls[i].Fail? && calls[i].key == key
      ensures !Drops(p, After(p, calls[..i]), key, calls[i].now)
    {
      OnlyFailingKeys(p, calls[..i], keys);
      FewerThan(After(p, calls[..i]).Keys, keys, key);
      hide After;
    }
  }

  /** Where max is at most forget plus one, the bounded backoff and the ideal one
      ask for the same waits on every run over these keys exactly when there are
      no more of them than it has room for, or it never asks for any. */
  lemma AlwaysSameIff(p: Policy, keys: set<Key>)
    requires ShiftIsSafe(p) && p.max <= p.forget + 1
    ensures AlwaysSame(p, keys) <==> p.max == 0 || |keys| <= MAX_KEYS
  {
    if p.max > 0 && |keys| > MAX_KEYS {
      var calls, key := FloodIsObservable(p, keys);
      assert !AlwaysSame(p, keys);
    } else {
      hide After, IdealAfter, WaitOf, IdealWait, ShiftIsSafe;
      forall calls: seq<Call>, key: Key, now: Time | InTime(calls) && Over(calls, keys) && key in keys
                                     && (forall i :: 0 <= i < |calls| ==> calls[i].now <= now)
        ensures WaitOf(p, After(p, calls), key, now) == IdealWait(IdealAfter(p, calls), key, now)
      {
        if p.max == 0 {
          NeverWaits(p, calls, key, now);
        } else {
          RoomForAll(p, calls, keys, key);
          SameWait(p, calls, key, now);
        }
      }
    }
  }

  /** With max 0 nobody waits. */
  lemma NeverWaits(p: Policy, calls: seq<Call>, key: Key, now: Time)
    requires ShiftIsSafe(p) && p.max == 0 && forall i :: 0 <= i < |calls| ==> calls[i].now <= now
    ensures WaitOf(p, After(p, calls), key, now) == 0 == IdealWait(IdealAfter(p, calls), key, now)
  {
    NeverLonger(p, calls, key, now);
    RunFollows(p, calls, key);
    LastIsPast(p, calls, key, now);
    hide After, IdealAfter, Doubling, ShiftIsSafe;
    var ideal := IdealAfter(p, calls);
    if key in ideal && ideal[key].count > p.free {
      DoublingGrows(p, ideal[key].count - p.free, ideal[key].count - p.free);
    }
  }

  lemma {:induction false} LastIsPast(p: Policy, calls: seq<Call>, key: Key, now: Time)
    requires forall i :: 0 <= i < |calls| ==> calls[i].now <= now
    ensures key in IdealAfter(p, calls) ==> IdealAfter(p, calls)[key].last <= now
  {
    if calls != [] {
      LastIsPast(p, calls[..|calls| - 1], key, now);
      hide Doubling;
    }
  }

  // The other direction: a burst of failures of other keys fills the map, and a
  // key that has no entry yet then fails without ever being recorded.

  function Once(keys: seq<Key>): seq<Call> { seq(|keys|, i requires 0 <= i < |keys| => Fail(keys[i], 0)) }

  function Elements(keys: seq<Key>): set<Key> { set k | k in keys }

  ghost predicate Distinct(keys: seq<Key>) { forall i, j :: 0 <= i < j < |keys| ==> keys[i] != keys[j] }

  /** Every entry is from time 0. */
  ghost predicate AtZero(entries: Entries) { forall k :: k in entries ==> entries[k].last == 0 }

  lemma {:induction false} FirstKeys(keys: set<Key>, n: nat) returns (first: seq<Key>)
    requires n <= |keys|
    ensures |first| == n && Distinct(first) && forall i :: 0 <= i < n ==> first[i] in keys
    decreases n
  {
    first := [];
    if n > 0 {
      var key :| key in keys;
      first := FirstKeys(keys - {key}, n - 1);
      first := [key] + first;
    }
  }

  lemma RunOneMore(p: Policy, calls: seq<Call>, call: Call)
    ensures After(p, calls + [call]) == Step(p, After(p, calls), call)
    ensures IdealAfter(p, calls + [call]) == IdealStep(p, IdealAfter(p, calls), call)
  {
    hide Step, IdealStep;
    assert (calls + [call])[..|calls|] == calls;
  }

  lemma LastKey(keys: seq<Key>)
    requires Distinct(keys) && keys != []
    ensures var n := |keys| - 1;
            && Once(keys) == Once(keys[..n]) + [Fail(keys[n], 0)]
            && keys[n] !in Elements(keys[..n]) && Elements(keys) == Elements(keys[..n]) + {keys[n]}
            && Distinct(keys[..n])
  {
  }

  lemma NewKeyFails(p: Policy, entries: Entries, key: Key)
    requires key !in entries && |entries| < MAX_KEYS && AtZero(entries)
    ensures var after := AfterFail(p, entries, key, 0);
            after.Keys == entries.Keys + {key} && |after| == |entries| + 1 && AtZero(after)
  {
    hide Delay;
    var after := AfterFail(p, entries, key, 0);
    assert after.Keys == entries.Keys + {key};
    OneMoreKey(entries, key, after);
  }

  lemma {:induction false} FillsUp(p: Policy, keys: seq<Key>)
    requires Distinct(keys) && |keys| <= MAX_KEYS
    ensures var full := After(p, Once(keys)); |full| == |keys| && full.Keys == Elements(keys) && AtZero(full)
    ensures IdealAfter(p, Once(keys)).Keys == Elements(keys)
    decreases |keys|
  {
    if keys == [] {
      assert Once(keys) == [] && Elements(keys) == {};
    } else {
      var n := |keys| - 1;
      LastKey(keys);
      FillsUp(p, keys[..n]);
      RunOneMore(p, Once(keys[..n]), Fail(keys[n], 0));
      hide After, IdealAfter, AfterFail, Once, Elements, Distinct, AtZero, Doubling;
      NewKeyFails(p, After(p, Once(keys[..n])), keys[n]);
    }
  }

  /** A key with no entry, in a full map of entries from time 0. */
  ghost predicate Crowded(entries: Entries, key: Key) {
    key !in entries && |entries| >= MAX_KEYS && AtZero(entries)
  }

  lemma NoRoom(p: Policy, entries: Entries, key: Key)
    requires Crowded(entries, key)
    ensures Step(p, entries, Fail(key, 0)) == entries
  {
    assert Swept(p, entries, 0) == entries;
    hide Delay;
  }

  lemma OneMoreFailing(calls: seq<Call>, key: Key, n: nat)
    requires n > 0
    ensures calls + Failing(key, n) == calls + Failing(key, n - 1) + [Fail(key, 0)]
  {
  }

  /** It finds no room. */
  lemma {:induction false} StaysFull(p: Policy, calls: seq<Call>, key: Key, n: nat)
    requires Crowded(After(p, calls), key)
    ensures After(p, calls + Failing(key, n)) == After(p, calls)
  {
    if n == 0 {
      assert calls + Failing(key, 0) == calls;
    } else {
      hide *;
      StaysFull(p, calls, key, n - 1);
      OneMoreFailing(calls, key, n);
      RunOneMore(p, calls + Failing(key, n - 1), Fail(key, 0));
      NoRoom(p, After(p, calls), key);
    }
  }

  /** The ideal backoff has counted n failures of the key at time 0. */
  ghost predicate Counted(p: Policy, entries: Entries, key: Key, n: nat) {
    if n == 0 then key !in entries
    else
      && key in entries && entries[key].count == n && entries[key].last == 0
      && (n > p.free ==> entries[key].until == Doubling(p, n - p.free))
  }

  lemma CountsOneMore(p: Policy, entries: Entries, key: Key, n: nat)
    requires Counted(p, entries, key, n)
    ensures Counted(p, IdealStep(p, entries, Fail(key, 0)), key, n + 1)
  {
    hide Doubling;
  }

  lemma {:induction false} IdealCounts(p: Policy, calls: seq<Call>, key: Key, n: nat)
    requires Counted(p, IdealAfter(p, calls), key, 0)
    ensures Counted(p, IdealAfter(p, calls + Failing(key, n)), key, n)
  {
    if n == 0 {
      assert calls + Failing(key, 0) == calls;
    } else {
      hide *;
      IdealCounts(p, calls, key, n - 1);
      OneMoreFailing(calls, key, n);
      RunOneMore(p, calls + Failing(key, n - 1), Fail(key, 0));
      CountsOneMore(p, IdealAfter(p, calls + Failing(key, n - 1)), key, n - 1);
    }
  }

  lemma FloodInTime(others: seq<Key>, key: Key, n: nat, keys: set<Key>)
    requires (forall i :: 0 <= i < |others| ==> others[i] in keys) && key in keys
    ensures var calls := Once(others) + Failing(key, n);
            InTime(calls) && Over(calls, keys) && forall i :: 0 <= i < |calls| ==> calls[i].now <= 0
  {
  }

  /** One key more than there is room for, and a run that shows it. */
  lemma FloodIsObservable(p: Policy, keys: set<Key>) returns (calls: seq<Call>, key: Key)
    requires ShiftIsSafe(p) && p.max > 0 && |keys| > MAX_KEYS
    ensures InTime(calls) && Over(calls, keys) && key in keys && forall i :: 0 <= i < |calls| ==> calls[i].now <= 0
    ensures WaitOf(p, After(p, calls), key, 0) == 0 < IdealWait(IdealAfter(p, calls), key, 0)
  {
    var first := FirstKeys(keys, MAX_KEYS + 1);
    var others := first[..MAX_KEYS];
    key := first[MAX_KEYS];
    calls := Once(others) + Failing(key, p.free + 1);
    assert key !in Elements(others);
    FloodInTime(others, key, p.free + 1, keys);
    FirstWait(p);
    assert Distinct(others);
    hide Once, Failing, Elements, Distinct, After, IdealAfter, ShiftIsSafe, Doubling, InTime, Over;
    FillsUp(p, others);
    StaysFull(p, Once(others), key, p.free + 1);
    IdealCounts(p, Once(others), key, p.free + 1);
  }

  lemma FirstWait(p: Policy)
    requires ShiftIsSafe(p) && p.max > 0
    ensures Doubling(p, 1) > 0
  {
    assert Pow2(0) == 1;
    assert p.base > 0;
  }
}
