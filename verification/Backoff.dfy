/**
 The failure backoff (go/internal/limit/limit.go:83-166): per key, a count of
 failures and the time before which no attempt may be made, in a map of bounded
 size. Times are nanoseconds since Go's zero time.
 */
module Backoffs {

  const MAX_KEYS: nat := 100_000
  const TWO_63: nat := 0x8000_0000_0000_0000
  const TWO_64: nat := 0x1_0000_0000_0000_0000

  type Key = string
  type Time = nat

  /** A time.Duration that is not negative. */
  type Duration = x: int | 0 <= x < TWO_63

  datatype Policy = Policy(free: nat, base: Duration, max: Duration, forget: Duration)

  /** What newLimits asks for (go/internal/api/limits.go:28-33). */
  const LOGIN: Policy := Policy(5, 1_000_000_000, 300_000_000_000, 3600_000_000_000)

  /** until is 0, the zero time, before the free failures are spent. */
  datatype Failures = Failures(count: nat, last: Time, until: int)
  type Entries = map<Key, Failures>

  function Pow2(n: nat): nat { if n == 0 then 1 else 2 * Pow2(n - 1) }

  function Min(a: int, b: int): int { if a < b then a else b }

  /** x << n on int64: the top bits are lost and bit 63 is the sign. */
  function Shl64(x: Duration, n: nat): int {
    var low := x * Pow2(n) % TWO_64;
    if low >= TWO_63 then low - TWO_64 else low
  }

  /** The wait after the over-th failure beyond the free ones. */
  function Delay(p: Policy, over: nat): int
    requires over > 0
  {
    if over < 32 then Min(p.max, Shl64(p.base, over - 1)) else p.max
  }

  /** The wait that is meant: base, doubling, up to max. */
  function Doubling(p: Policy, over: nat): int
    requires over > 0
  {
    Min(p.max, p.base * Pow2(over - 1))
  }

  predicate Stale(p: Policy, f: Failures, now: Time) { now - f.last > p.forget }

  function Swept(p: Policy, entries: Entries, now: Time): Entries {
    map k | k in entries && !Stale(p, entries[k], now) :: entries[k]
  }

  function WaitOf(p: Policy, entries: Entries, key: Key, now: Time): int {
    if key !in entries || Stale(p, entries[key], now) then 0
    else if now < entries[key].until then entries[key].until - now
    else 0
  }

  function AfterWait(p: Policy, entries: Entries, key: Key, now: Time): Entries {
    if key in entries && Stale(p, entries[key], now) then entries - {key} else entries
  }

  /** One more failure. */
  function Worse(p: Policy, f: Failures, now: Time): Failures {
    Failures(f.count + 1, now, if f.count + 1 > p.free then now + Delay(p, f.count + 1 - p.free) else f.until)
  }

  const NONE: Failures := Failures(0, 0, 0)

  /** Whether a new key is left out because the map is full of fresh ones. */
  predicate Drops(p: Policy, entries: Entries, key: Key, now: Time) {
    key !in entries && |entries| >= MAX_KEYS && |Swept(p, entries, now)| >= MAX_KEYS
  }

  function AfterFail(p: Policy, entries: Entries, key: Key, now: Time): Entries {
    var room := if key !in entries && |entries| >= MAX_KEYS then Swept(p, entries, now) else entries;
    if Drops(p, entries, key, now) then room
    else
      var f := if key in entries && !Stale(p, entries[key], now) then entries[key] else NONE;
      room[key := Worse(p, f, now)]
  }

  class Backoff {
    const policy: Policy
    var entries: Entries

    constructor (free: nat, base: Duration, max: Duration, forget: Duration)
      ensures policy == Policy(free, base, max, forget) && entries == map[]
    {
      policy := Policy(free, base, max, forget);
      entries := map[];
    }

    method Wait(key: Key, now: Time) returns (wait: int)
      modifies this
      ensures wait == WaitOf(policy, old(entries), key, now)
      ensures entries == AfterWait(policy, old(entries), key, now)
    {
      if key !in entries { return 0; }
      var f := entries[key];
      if now - f.last > policy.forget {
        entries := entries - {key};
        return 0;
      }
      if now < f.until { return f.until - now; }
      return 0;
    }

    method Fail(key: Key, now: Time)
      modifies this
      ensures entries == AfterFail(policy, old(entries), key, now)
    {
      if key !in entries || now - entries[key].last > policy.forget {
        if key !in entries && |entries| >= MAX_KEYS {
          Sweep(now);
          if |entries| >= MAX_KEYS { return; }
        }
        entries := entries[key := NONE];
      }
      ghost var before := entries;
      var f := entries[key];
      f := f.(count := f.count + 1);
      f := f.(last := now);
      var over := f.count - policy.free;
      if over > 0 {
        var delay: int := policy.max;
        if over < 32 {
          delay := Min(policy.max, Shl64(policy.base, over - 1));
        }
        f := f.(until := now + delay);
      }
      entries := entries[key := f];
      assert f == Worse(policy, before[key], now);
    }

    method Succeed(key: Key)
      modifies this
      ensures entries == old(entries) - {key}
    {
      entries := entries - {key};
    }

    method Sweep(now: Time)
      modifies this
      ensures entries == Swept(policy, old(entries), now)
    {
      var todo := entries.Keys;
      ghost var all := entries;
      while todo != {}
        invariant todo <= all.Keys
        invariant entries == map k | k in all && (k in todo || !Stale(policy, all[k], now)) :: all[k]
      {
        var key :| key in todo;
        todo := todo - {key};
        if now - entries[key].last > policy.forget {
          entries := entries - {key};
        }
      }
    }
  }

  // ----------------------------------------------------------- the guarded shift

  lemma {:induction false} Pow2Grows(m: nat, n: nat)
    requires m <= n
    ensures 1 <= Pow2(m) <= Pow2(n)
    decreases n
  {
    if n > m { Pow2Grows(m, n - 1); } else if n > 0 { Pow2Grows(m - 1, n - 1); }
  }

  lemma Scaled(x: nat, y: nat, z: nat)
    requires y <= z
    ensures x * y <= x * z
  {
  }

  lemma DoublingGrows(p: Policy, a: nat, b: nat)
    requires 0 < a <= b
    ensures 0 <= Doubling(p, a) <= Doubling(p, b) <= p.max
  {
    Pow2Grows(a - 1, b - 1);
    Scaled(p.base, Pow2(a - 1), Pow2(b - 1));
  }

  /** What makes the guard of the shift right: no bit is lost below it, and the
      cap has been reached above it. */
  ghost predicate ShiftIsSafe(p: Policy) {
    p.base * Pow2(30) < TWO_63 && p.base * Pow2(31) >= p.max
  }

  lemma ShiftKeepsBits(x: Duration, n: nat)
    requires x * Pow2(n) < TWO_63
    ensures Shl64(x, n) == x * Pow2(n)
  {
  }

  lemma SafeShiftDoubles(p: Policy, over: nat)
    requires ShiftIsSafe(p) && over > 0
    ensures Delay(p, over) == Doubling(p, over)
  {
    hide Pow2, Shl64;
    if over < 32 {
      Pow2Grows(over - 1, 30);
      Scaled(p.base, Pow2(over - 1), Pow2(30));
      ShiftKeepsBits(p.base, over - 1);
    } else {
      Pow2Grows(31, over - 1);
      Scaled(p.base, Pow2(31), Pow2(over - 1));
    }
  }

  /** The least shift at which a bit reaches the sign. */
  lemma {:induction false} SignReached(base: Duration, n: nat) returns (m: nat)
    requires base * Pow2(n) >= TWO_63
    ensures 0 < m <= n && TWO_63 <= base * Pow2(m) < TWO_64
    decreases n
  {
    if n > 0 && base * Pow2(n - 1) >= TWO_63 {
      m := SignReached(base, n - 1);
    } else {
      m := n;
    }
  }

  /** The guarded shift is doubling up to max, for every number of failures,
      exactly when the policy satisfies ShiftIsSafe. */
  lemma ShiftExactIff(p: Policy)
    ensures (forall over: nat :: over > 0 ==> Delay(p, over) == Doubling(p, over)) <==> ShiftIsSafe(p)
  {
    hide Pow2;
    if ShiftIsSafe(p) {
      forall over: nat | over > 0 ensures Delay(p, over) == Doubling(p, over) { SafeShiftDoubles(p, over); }
    } else if p.base * Pow2(30) >= TWO_63 {
      var m := SignReached(p.base, 30);
      assert Delay(p, m + 1) != Doubling(p, m + 1);
    } else {
      assert Delay(p, 32) != Doubling(p, 32);
    }
  }

  /** The login policy does. */
  lemma LoginShiftIsSafe()
    ensures ShiftIsSafe(LOGIN) && LOGIN.max <= LOGIN.forget
  {
    assert Pow2(10) == 1024;
    assert Pow2(20) == 1024 * Pow2(10) by { assert Pow2(15) == 32 * Pow2(10); }
    assert Pow2(30) == 1024 * Pow2(20) by { assert Pow2(25) == 32 * Pow2(20); }
  }

  lemma DelayAtMostMax(p: Policy, over: nat)
    requires over > 0
    ensures Delay(p, over) <= p.max
  {
  }

  // ------------------------------------------------------------- the ideal limiter

  function IdealWorse(p: Policy, f: Failures, now: Time): Failures {
    Failures(f.count + 1, now, if f.count + 1 > p.free then now + Doubling(p, f.count + 1 - p.free) else f.until)
  }

  /** An entry for every key that failed, dropped by a success only. */
  function IdealAfterFail(p: Policy, entries: Entries, key: Key, now: Time): Entries {
    var f := if key in entries && !Stale(p, entries[key], now) then entries[key] else NONE;
    entries[key := IdealWorse(p, f, now)]
  }

  function IdealWait(entries: Entries, key: Key, now: Time): int {
    if key in entries && now < entries[key].until then entries[key].until - now else 0
  }

  // ---------------------------------------------------------------------- runs

  datatype Call = Wait(key: Key, now: Time) | Fail(key: Key, now: Time) | Succeed(key: Key, now: Time)

  ghost predicate InTime(calls: seq<Call>) {
    forall i, j :: 0 <= i <= j < |calls| ==> calls[i].now <= calls[j].now
  }

  function Step(p: Policy, entries: Entries, call: Call): Entries {
    match call
    case Wait(key, now) => AfterWait(p, entries, key, now)
    case Fail(key, now) => AfterFail(p, entries, key, now)
    case Succeed(key, _) => entries - {key}
  }

  function IdealStep(p: Policy, entries: Entries, call: Call): Entries {
    match call
    case Wait(_, _) => entries
    case Fail(key, now) => IdealAfterFail(p, entries, key, now)
    case Succeed(key, _) => entries - {key}
  }

  function After(p: Policy, calls: seq<Call>): Entries {
    if calls == [] then map[] else Step(p, After(p, calls[..|calls| - 1]), calls[|calls| - 1])
  }

  function IdealAfter(p: Policy, calls: seq<Call>): Entries {
    if calls == [] then map[] else IdealStep(p, IdealAfter(p, calls[..|calls| - 1]), calls[|calls| - 1])
  }

  lemma {:induction false} MemoryIsBounded(p: Policy, calls: seq<Call>)
    ensures |After(p, calls)| <= MAX_KEYS
  {
    if calls != [] {
      var before := After(p, calls[..|calls| - 1]);
      MemoryIsBounded(p, calls[..|calls| - 1]);
      StepKeepsRoom(p, before, calls[|calls| - 1]);
    }
  }

  lemma StepKeepsRoom(p: Policy, entries: Entries, call: Call)
    requires |entries| <= MAX_KEYS
    ensures |Step(p, entries, call)| <= MAX_KEYS
  {
    var key := call.key;
    FewerKeys(entries - {key}, entries);
    FewerKeys(Swept(p, entries, call.now), entries);
    if call.Fail? {
      var room := Swept(p, entries, call.now);
      OneMoreKey(entries, key, AfterFail(p, entries, key, call.now));
      OneMoreKey(room, key, AfterFail(p, entries, key, call.now));
    }
  }

  lemma FewerKeys(part: Entries, whole: Entries)
    requires part.Keys <= whole.Keys
    ensures |part| <= |whole|
  {
    assert whole.Keys == part.Keys + (whole.Keys - part.Keys);
    assert |whole.Keys| == |part.Keys| + |whole.Keys - part.Keys|;
  }

  lemma OneMoreKey(before: Entries, key: Key, after: Entries)
    ensures after.Keys == before.Keys + {key} ==> |after| == |before| + if key in before then 0 else 1
  {
    if after.Keys == before.Keys + {key} {
      assert key in before ==> after.Keys == before.Keys;
      assert |after.Keys| == |after| && |before.Keys| == |before|;
    }
  }

  /** No failure of this key was left out for want of room. */
  ghost predicate NothingDropped(p: Policy, calls: seq<Call>, key: Key) {
    forall i :: 0 <= i < |calls| && calls[i].Fail? && calls[i].key == key ==>
      !Drops(p, After(p, calls[..i]), key, calls[i].now)
  }

  /** An entry as its failures left it. */
  ghost predicate Proper(p: Policy, f: Failures) {
    f.count > 0 && f.until == if f.count > p.free then f.last + Doubling(p, f.count - p.free) else 0
  }

  /** How the two entries of a key are related: the bounded one counts no more,
      and is as recent. */
  ghost predicate Follows(p: Policy, bounded: Entries, ideal: Entries, key: Key) {
    && (key in ideal ==> Proper(p, ideal[key]))
    && (key in bounded ==>
          && Proper(p, bounded[key]) && key in ideal
          && bounded[key].last == ideal[key].last && bounded[key].count <= ideal[key].count)
  }

  /** The same entry, unless the ideal one is due to be forgotten. */
  ghost predicate Agree(p: Policy, bounded: Entries, ideal: Entries, key: Key, now: Time) {
    && (key in bounded ==> key in ideal && bounded[key] == ideal[key])
    && (key in ideal && key !in bounded ==> Stale(p, ideal[key], now))
  }

  lemma StepFollows(p: Policy, bounded: Entries, ideal: Entries, call: Call, key: Key)
    requires ShiftIsSafe(p) && Follows(p, bounded, ideal, key)
    ensures Follows(p, Step(p, bounded, call), IdealStep(p, ideal, call), key)
  {
    hide Doubling, Delay, Pow2, ShiftIsSafe;
    if call.Fail? && call.key == key {
      var b := if key in bounded && !Stale(p, bounded[key], call.now) then bounded[key] else NONE;
      var i := if key in ideal && !Stale(p, ideal[key], call.now) then ideal[key] else NONE;
      if b.count + 1 > p.free { SafeShiftDoubles(p, b.count + 1 - p.free); }
      assert Proper(p, Worse(p, b, call.now));
      assert Proper(p, IdealWorse(p, i, call.now));
    }
  }

  lemma StepAgrees(p: Policy, bounded: Entries, ideal: Entries, call: Call, key: Key)
    requires ShiftIsSafe(p) && Agree(p, bounded, ideal, key, call.now)
    requires call.Fail? && call.key == key ==> !Drops(p, bounded, key, call.now)
    ensures Agree(p, Step(p, bounded, call), IdealStep(p, ideal, call), key, call.now)
  {
    hide Doubling, Delay, Pow2, ShiftIsSafe;
    if call.Fail? && call.key == key {
      var f := if key in bounded && !Stale(p, bounded[key], call.now) then bounded[key] else NONE;
      if f.count + 1 > p.free { SafeShiftDoubles(p, f.count + 1 - p.free); }
    }
  }

  lemma {:induction false} RunFollows(p: Policy, calls: seq<Call>, key: Key)
    requires ShiftIsSafe(p)
    ensures Follows(p, After(p, calls), IdealAfter(p, calls), key)
  {
    if calls != [] {
      var most := calls[..|calls| - 1];
      RunFollows(p, most, key);
      StepFollows(p, After(p, most), IdealAfter(p, most), calls[|calls| - 1], key);
    }
  }

  lemma {:induction false} RunAgrees(p: Policy, calls: seq<Call>, key: Key, now: Time)
    requires ShiftIsSafe(p) && InTime(calls) && NothingDropped(p, calls, key)
    requires forall i :: 0 <= i < |calls| ==> calls[i].now <= now
    ensures Agree(p, After(p, calls), IdealAfter(p, calls), key, now)
  {
    if calls != [] {
      var most, last := calls[..|calls| - 1], calls[|calls| - 1];
      assert forall i :: 0 <= i < |most| ==> most[..i] == calls[..i];
      RunAgrees(p, most, key, last.now);
      hide Step, IdealStep, ShiftIsSafe;
      StepAgrees(p, After(p, most), IdealAfter(p, most), last, key);
    }
  }

  /** On no run does the bounded backoff ask for a longer wait than the ideal
      one, whatever was forgotten or never recorded. */
  lemma NeverLonger(p: Policy, calls: seq<Call>, key: Key, now: Time)
    requires ShiftIsSafe(p)
    ensures WaitOf(p, After(p, calls), key, now) <= IdealWait(IdealAfter(p, calls), key, now)
  {
    hide Doubling, ShiftIsSafe;
    RunFollows(p, calls, key);
    var bounded, ideal := After(p, calls), IdealAfter(p, calls);
    if key in bounded && bounded[key].count > p.free {
      DoublingGrows(p, bounded[key].count - p.free, ideal[key].count - p.free);
    }
  }

  /** Where max is at most forget (or one nanosecond more) and no failure of the
      key was dropped, both ask for the same wait: forgetting goes unseen. */
  lemma SameWait(p: Policy, calls: seq<Call>, key: Key, now: Time)
    requires ShiftIsSafe(p) && p.max <= p.forget + 1 && InTime(calls) && NothingDropped(p, calls, key)
    requires forall i :: 0 <= i < |calls| ==> calls[i].now <= now
    ensures WaitOf(p, After(p, calls), key, now) == IdealWait(IdealAfter(p, calls), key, now)
  {
    RunFollows(p, calls, key);
    RunAgrees(p, calls, key, now);
    hide After, IdealAfter, ShiftIsSafe;
    AgreeingWait(p, After(p, calls), IdealAfter(p, calls), key, now);
  }

  lemma AgreeingWait(p: Policy, bounded: Entries, ideal: Entries, key: Key, now: Time)
    requires p.max <= p.forget + 1 && Follows(p, bounded, ideal, key) && Agree(p, bounded, ideal, key, now)
    ensures WaitOf(p, bounded, key, now) == IdealWait(ideal, key, now)
  {
    hide Doubling;
    if key in ideal && ideal[key].count > p.free {
      DoublingGrows(p, ideal[key].count - p.free, ideal[key].count - p.free);
    }
  }

  // ---------------------------------------------------- forgetting a pending wait

  /** After this run, a call at this time forgets a wait that has not passed. */
  ghost predicate CutsShort(p: Policy, calls: seq<Call>, key: Key, now: Time) {
    && InTime(calls) && (forall i :: 0 <= i < |calls| ==> calls[i].now <= now)
    && key in After(p, calls) && Stale(p, After(p, calls)[key], now) && now < After(p, calls)[key].until
  }

  ghost predicate WaitsAtMostMax(p: Policy, entries: Entries, key: Key) {
    key in entries ==>
      var f := entries[key];
      f.until <= f.last + p.max && (f.count <= p.free ==> f.until == 0)
  }

  lemma StepWaitsAtMostMax(p: Policy, entries: Entries, call: Call, key: Key)
    requires WaitsAtMostMax(p, entries, key)
    ensures WaitsAtMostMax(p, Step(p, entries, call), key)
  {
    hide Delay;
    if call.Fail? && call.key == key {
      var f := if key in entries && !Stale(p, entries[key], call.now) then entries[key] else NONE;
      if f.count + 1 > p.free { DelayAtMostMax(p, f.count + 1 - p.free); }
    }
  }

  lemma {:induction false} RunWaitsAtMostMax(p: Policy, calls: seq<Call>, key: Key)
    ensures WaitsAtMostMax(p, After(p, calls), key)
  {
    hide WaitsAtMostMax, Step;
    if calls != [] {
      RunWaitsAtMostMax(p, calls[..|calls| - 1], key);
      StepWaitsAtMostMax(p, After(p, calls[..|calls| - 1]), calls[|calls| - 1], key);
    } else {
      assert WaitsAtMostMax(p, map[], key) by { NoWaits(p, key); }
    }
  }

  lemma NoWaits(p: Policy, key: Key)
    ensures WaitsAtMostMax(p, map[], key)
  {
  }

  function Failing(key: Key, n: nat): seq<Call> { seq(n, _ => Fail(key, 0)) }

  lemma {:induction false} FailingCounts(p: Policy, key: Key, n: nat)
    requires n > 0
    ensures After(p, Failing(key, n)).Keys == {key}
    ensures var f := After(p, Failing(key, n))[key];
            f.count == n && f.last == 0 && (n > p.free ==> f.until == Delay(p, n - p.free))
  {
    hide Delay;
    assert Failing(key, n)[..n - 1] == Failing(key, n - 1);
    if n > 1 {
      FailingCounts(p, key, n - 1);
    } else {
      assert After(p, Failing(key, 0)) == map[];
    }
  }

  /** Forgetting never cuts a pending wait short, exactly when the longest wait
      is over by the first moment at which an entry may be forgotten. */
  lemma ForgettingHarmlessIff(p: Policy)
    ensures (forall calls, key, now :: !CutsShort(p, calls, key, now)) <==> p.max <= p.forget + 1
  {
    if p.max <= p.forget + 1 {
      forall calls, key, now ensures !CutsShort(p, calls, key, now) {
        RunWaitsAtMostMax(p, calls, key);
      }
    } else {
      var n := p.free + 32;
      FailingCounts(p, "x", n);
      assert CutsShort(p, Failing("x", n), "x", p.forget + 1);
    }
  }

  /** Asking about a key that has been quiet for longer than forget forgets it, and
      asking touches no other key. */
  lemma AskingForgetsQuiet(p: Policy, entries: Entries, key: Key, now: Time)
    ensures var after := AfterWait(p, entries, key, now);
            && (key in after <==> key in entries && now - entries[key].last <= p.forget)
            && (forall k :: k in entries && (k != key || k in after) ==> k in after && after[k] == entries[k])
            && after.Keys <= entries.Keys
  {
  }

  /** A success ends the key's wait at once and touches no other key. */
  lemma SuccessClears(p: Policy, calls: seq<Call>, key: Key, at: Time, other: Key, now: Time)
    ensures var after := After(p, calls + [Succeed(key, at)]);
            && WaitOf(p, after, key, now) == 0
            && (other != key ==> WaitOf(p, after, other, now) == WaitOf(p, After(p, calls), other, now))
  {
    assert (calls + [Succeed(key, at)])[..|calls|] == calls;
  }

  // ------------------------------------------------------------- slowing guesses

  /** How many failures of a key a run has. */
  function Fails(calls: seq<Call>, key: Key): nat {
    if calls == [] then 0
    else
      var last := calls[|calls| - 1];
      Fails(calls[..|calls| - 1], key) + if last.Fail? && last.key == key then 1 else 0
  }

  /** When the key last failed, if it did. */
  function LastFail(calls: seq<Call>, key: Key): Time {
    if calls == [] then 0
    else
      var last := calls[|calls| - 1];
      if last.Fail? && last.key == key then last.now else LastFail(calls[..|calls| - 1], key)
  }

  function FirstFail(calls: seq<Call>, key: Key): Time {
    if calls == [] then 0
    else
      var most, last := calls[..|calls| - 1], calls[|calls| - 1];
      if Fails(most, key) == 0 && last.Fail? && last.key == key then last.now else FirstFail(most, key)
  }

  /** Since its last failure, the key was told that it need not wait. */
  ghost predicate Cleared(p: Policy, calls: seq<Call>, key: Key) {
    calls != [] &&
    var most, last := calls[..|calls| - 1], calls[|calls| - 1];
    match last
    case Wait(k, now) => (k == key && WaitOf(p, After(p, most), key, now) == 0) || Cleared(p, most, key)
    case Fail(k, _) => k != key && Cleared(p, most, key)
    case Succeed(_, _) => Cleared(p, most, key)
  }

  /** A key fails without a break: no attempt succeeded, and every failure came
      within forget of the one before and was recorded. */
  ghost predicate Persisting(p: Policy, calls: seq<Call>, key: Key) {
    forall i :: 0 <= i < |calls| && calls[i].key == key ==>
      && !calls[i].Succeed?
      && (calls[i].Fail? ==>
            && !Drops(p, After(p, calls[..i]), key, calls[i].now)
            && (Fails(calls[..i], key) > 0 ==> calls[i].now - LastFail(calls[..i], key) <= p.forget))
  }

  /** And it is guessed at as the limiter allows: every failure was preceded by a
      zero wait. */
  ghost predicate Guessing(p: Policy, calls: seq<Call>, key: Key) {
    && Persisting(p, calls, key)
    && forall i :: 0 <= i < |calls| && calls[i].key == key && calls[i].Fail? ==> Cleared(p, calls[..i], key)
  }

  /** The waits for the first n failures beyond the free ones, together. */
  function TotalWait(p: Policy, n: int): int {
    if n <= 0 then 0 else TotalWait(p, n - 1) + Doubling(p, n)
  }

  /** After such a run the key's entry counts its failures, unless it has been
      quiet too long for another failure to belong to the run. */
  ghost predicate Tracked(p: Policy, calls: seq<Call>, key: Key, now: Time) {
    var entries := After(p, calls);
    && (key in entries ==>
          && Proper(p, entries[key])
          && entries[key].count == Fails(calls, key) && entries[key].last == LastFail(calls, key))
    && (key !in entries ==> Fails(calls, key) == 0 || now - LastFail(calls, key) > p.forget)
    && (Fails(calls, key) == 0 ==> key !in entries)
    && (Cleared(p, calls, key) && key in entries ==> entries[key].until <= now)
  }

  /** What one call does to the entry of a key: kept, dropped when stale, or
      replaced by a failure of that key. */
  lemma CallOnKey(p: Policy, entries: Entries, call: Call, key: Key)
    requires ShiftIsSafe(p)
    requires call.key == key ==> !call.Succeed? && (call.Fail? ==> !Drops(p, entries, key, call.now))
    ensures var after, mine := Step(p, entries, call), call.Fail? && call.key == key;
            && (!mine && key in after ==> key in entries && after[key] == entries[key])
            && (!mine && key in entries && key !in after ==> Stale(p, entries[key], call.now))
            && (mine ==>
                  var f := if key in entries && !Stale(p, entries[key], call.now) then entries[key] else NONE;
                  key in after && after[key] == IdealWorse(p, f, call.now))
  {
    hide Doubling, Delay, ShiftIsSafe;
    if call.Fail? && call.key == key {
      var f := if key in entries && !Stale(p, entries[key], call.now) then entries[key] else NONE;
      if f.count + 1 > p.free { SafeShiftDoubles(p, f.count + 1 - p.free); }
    }
  }

  lemma {:induction false} RunIsTracked(p: Policy, calls: seq<Call>, key: Key, now: Time)
    requires ShiftIsSafe(p) && InTime(calls) && Persisting(p, calls, key)
    requires forall i :: 0 <= i < |calls| ==> calls[i].now <= now
    ensures Tracked(p, calls, key, now)
  {
    if calls != [] {
      var most, last := calls[..|calls| - 1], calls[|calls| - 1];
      PersistingSoFar(p, calls, key);
      assert most + [last] == calls;
      hide *;
      RunIsTracked(p, most, key, last.now);
      CallTracks(p, most, last, key);
      TrackedLater(p, calls, key, last.now, now);
    } else {
      assert Fails([], key) == 0 && After(p, []) == map[];
    }
  }

  lemma TrackedLater(p: Policy, calls: seq<Call>, key: Key, now: Time, later: Time)
    requires Tracked(p, calls, key, now) && now <= later
    ensures Tracked(p, calls, key, later)
  {
  }

  lemma PersistingSoFar(p: Policy, calls: seq<Call>, key: Key)
    requires InTime(calls) && Persisting(p, calls, key) && calls != []
    ensures var most := calls[..|calls| - 1]; InTime(most) && Persisting(p, most, key)
  {
    var most := calls[..|calls| - 1];
    assert forall i :: 0 <= i <= |most| ==> most[..i] == calls[..i];
  }

  lemma GuessingSoFar(p: Policy, calls: seq<Call>, key: Key)
    requires InTime(calls) && Guessing(p, calls, key) && calls != []
    ensures var most := calls[..|calls| - 1]; InTime(most) && Guessing(p, most, key)
  {
    PersistingSoFar(p, calls, key);
    hide Persisting, Cleared;
    var most := calls[..|calls| - 1];
    assert forall i :: 0 <= i <= |most| ==> most[..i] == calls[..i];
  }

  lemma CallTracks(p: Policy, most: seq<Call>, last: Call, key: Key)
    requires ShiftIsSafe(p) && Tracked(p, most, key, last.now) && Persisting(p, most + [last], key)
    ensures Tracked(p, most + [last], key, last.now)
  {
    assert (most + [last])[..|most|] == most && (most + [last])[|most|] == last;
    if last.Fail? && last.key == key {
      FailureTracks(p, most, last, key);
    } else {
      OtherTracks(p, most, last, key);
    }
  }

  /** One more failure is counted in the entry that is there, or begins one. */
  lemma FailureTracks(p: Policy, most: seq<Call>, last: Call, key: Key)
    requires ShiftIsSafe(p) && Tracked(p, most, key, last.now) && last.Fail? && last.key == key
    requires !Drops(p, After(p, most), key, last.now)
    requires Fails(most, key) > 0 ==> last.now - LastFail(most, key) <= p.forget
    ensures Tracked(p, most + [last], key, last.now)
  {
    var calls, entries := most + [last], After(p, most);
    assert calls[..|most|] == most;
    CallOnKey(p, entries, last, key);
    var f := if key in entries && !Stale(p, entries[key], last.now) then entries[key] else NONE;
    assert f.count == Fails(most, key);
    assert !Cleared(p, calls, key) && After(p, calls) == Step(p, entries, last);
    assert Fails(calls, key) == f.count + 1 && LastFail(calls, key) == last.now;
    hide Step, Drops, After, Fails, LastFail, Cleared, ShiftIsSafe, Proper;
    WorseIsProper(p, f, last.now);
  }

  lemma WorseIsProper(p: Policy, f: Failures, now: Time)
    requires f == NONE || Proper(p, f)
    ensures Proper(p, IdealWorse(p, f, now))
    ensures IdealWorse(p, f, now).count == f.count + 1 && IdealWorse(p, f, now).last == now
  {
    hide Doubling;
  }

  /** Any other call leaves the entry, or drops it when it has been quiet. */
  lemma OtherTracks(p: Policy, most: seq<Call>, last: Call, key: Key)
    requires ShiftIsSafe(p) && Tracked(p, most, key, last.now) && !(last.Fail? && last.key == key)
    requires last.key == key ==> !last.Succeed?
    ensures Tracked(p, most + [last], key, last.now)
  {
    var calls := most + [last];
    assert calls[..|most|] == most;
    CallOnKey(p, After(p, most), last, key);
    hide Step, Drops, Pow2, Doubling, ShiftIsSafe, Delay, Proper;
    assert Fails(calls, key) == Fails(most, key) && LastFail(calls, key) == LastFail(most, key);
  }

  lemma {:induction false} LastFailIsPast(calls: seq<Call>, key: Key, now: Time)
    requires forall i :: 0 <= i < |calls| ==> calls[i].now <= now
    ensures LastFail(calls, key) <= now
  {
    if calls != [] { LastFailIsPast(calls[..|calls| - 1], key, now); }
  }

  /** How long a key that persists must wait: nothing while it has failures free,
      then base for the first failure beyond them, doubling with each further one
      up to max, counted from its last failure. */
  lemma WaitDoubles(p: Policy, calls: seq<Call>, key: Key, now: Time)
    requires ShiftIsSafe(p) && InTime(calls) && Persisting(p, calls, key)
    requires forall i :: 0 <= i < |calls| ==> calls[i].now <= now
    requires Fails(calls, key) > 0 && now - LastFail(calls, key) <= p.forget
    ensures var n, since := Fails(calls, key), now - LastFail(calls, key);
            var wait := if n > p.free then Min(p.max, p.base * Pow2(n - p.free - 1)) else 0;
            WaitOf(p, After(p, calls), key, now) == if since < wait then wait - since else 0
  {
    hide *;
    RunIsTracked(p, calls, key, now);
    LastFailIsPast(calls, key, now);
    TrackedEntry(p, calls, key, now);
    ProperWait(p, After(p, calls), key, now);
  }

  lemma TrackedEntry(p: Policy, calls: seq<Call>, key: Key, now: Time)
    requires Tracked(p, calls, key, now) && Fails(calls, key) > 0 && now - LastFail(calls, key) <= p.forget
    ensures var entries := After(p, calls);
            && key in entries && Proper(p, entries[key])
            && entries[key].count == Fails(calls, key) && entries[key].last == LastFail(calls, key)
  {
    hide After, Fails, LastFail, Cleared, Proper;
  }

  lemma ProperWait(p: Policy, entries: Entries, key: Key, now: Time)
    requires key in entries && Proper(p, entries[key]) && 0 <= now - entries[key].last <= p.forget
    ensures var n, since := entries[key].count, now - entries[key].last;
            var wait := if n > p.free then Min(p.max, p.base * Pow2(n - p.free - 1)) else 0;
            WaitOf(p, entries, key, now) == if since < wait then wait - since else 0
  {
    hide Pow2;
  }

  /** Backoff slows guessing: n failures of a key guessed at without a break take
      at least the sum of the doubling waits for all but the free ones and the
      last. */
  lemma {:induction false} SlowsGuessing(p: Policy, calls: seq<Call>, key: Key)
    requires ShiftIsSafe(p) && InTime(calls) && Guessing(p, calls, key) && Fails(calls, key) > 0
    ensures LastFail(calls, key) - FirstFail(calls, key) >= TotalWait(p, Fails(calls, key) - 1 - p.free)
  {
    hide Doubling, ShiftIsSafe, Step;
    var most, last := calls[..|calls| - 1], calls[|calls| - 1];
    var n := Fails(most, key);
    GuessingSoFar(p, calls, key);
    if n > 0 {
      SlowsGuessing(p, most, key);
      if last.Fail? && last.key == key {
        RunIsTracked(p, most, key, last.now);
        LastFailIsPast(most, key, last.now);
      }
    }
  }

  lemma {:induction false} LoginDoubling(over: nat)
    requires over > 0
    ensures Doubling(LOGIN, over) == if over >= 10 then LOGIN.max else LOGIN.base * Pow2(over - 1)
  {
    assert Pow2(8) == 256 && Pow2(9) == 512;
    if over >= 10 { Pow2Grows(9, over - 1); } else { Pow2Grows(over - 1, 8); }
  }

  lemma {:induction false} LoginTotal(n: nat)
    ensures TotalWait(LOGIN, 9 + n) == 511_000_000_000 + n * LOGIN.max
  {
    LoginDoubling(9 + n);
    if n > 0 {
      LoginTotal(n - 1);
    } else {
      forall over | 1 <= over <= 8 ensures Doubling(LOGIN, over) == LOGIN.base * Pow2(over - 1) { LoginDoubling(over); }
      assert Pow2(8) == 256;
    }
  }

  /** With the login policy, fifteen guesses take at least 511 seconds, and each
      guess after that five minutes more. */
  lemma LoginGuessesAreSlow(calls: seq<Call>, key: Key)
    requires InTime(calls) && Guessing(LOGIN, calls, key) && Fails(calls, key) >= 15
    ensures LastFail(calls, key) - FirstFail(calls, key) >= 511_000_000_000 + (Fails(calls, key) - 15) * 300_000_000_000
  {
    hide InTime, Guessing, Fails, LastFail, FirstFail, TotalWait, ShiftIsSafe;
    LoginShiftIsSafe();
    SlowsGuessing(LOGIN, calls, key);
    LoginTotal(Fails(calls, key) - 15);
  }
}
