/**
 The request-rate limiter (go/internal/limit/limit.go:20-81): a token bucket per
 key in a map of bounded size. Times are nanoseconds; tokens are reals.
 */
module RateLimit {

  const MAX_KEYS: nat := 100_000

  type Key = string
  type Time = int

  datatype Bucket = Bucket(tokens: real, last: Time)
  type Buckets = map<Key, Bucket>

  function PerSecond(perMinute: nat): real { perMinute as real / 60.0 }

  function Burst(perMinute: nat): real { perMinute as real }

  /** Tokens regained over a span of time. */
  function Refill(perMinute: nat, span: int): real { span as real / 1_000_000_000.0 * PerSecond(perMinute) }

  function MinReal(a: real, b: real): real { if a < b then a else b }

  /** What a bucket holds at a later time. */
  function Level(perMinute: nat, b: Bucket, now: Time): real {
    MinReal(Burst(perMinute), b.tokens + Refill(perMinute, now - b.last))
  }

  /** What a key may spend; a key without a bucket starts full. */
  function LevelOf(perMinute: nat, buckets: Buckets, key: Key, now: Time): real {
    if key in buckets then Level(perMinute, buckets[key], now) else Burst(perMinute)
  }

  /** The map without the buckets that have refilled completely. */
  function Swept(perMinute: nat, buckets: Buckets, now: Time): Buckets {
    map k | k in buckets && buckets[k].tokens + Refill(perMinute, now - buckets[k].last) < Burst(perMinute) ::
        buckets[k]
  }

  /** time.Duration((1 - tokens) / perSecond * second): truncated. */
  function WaitFor(perMinute: nat, tokens: real): int
    requires perMinute > 0
  {
    ((1.0 - tokens) / PerSecond(perMinute) * 1_000_000_000.0).Floor
  }

  /** One request's answer and the map it leaves. failedOpen: the map was full
      of buckets in use, and the request was let through unrecorded. */
  datatype Answer = Answer(buckets: Buckets, ok: bool, wait: int, failedOpen: bool)

  /** The ideal limiter: a bucket for every key, never swept. */
  function Ideal(perMinute: nat, buckets: Buckets, key: Key, now: Time): Answer {
    if perMinute == 0 then Answer(buckets, true, 0, false)
    else
      var tokens := LevelOf(perMinute, buckets, key, now);
      if tokens >= 1.0 then Answer(buckets[key := Bucket(tokens - 1.0, now)], true, 0, false)
      else Answer(buckets[key := Bucket(tokens, now)], false, WaitFor(perMinute, tokens), false)
  }

  /** The program's limiter: it first makes room, or fails open. */
  function Bounded(perMinute: nat, buckets: Buckets, key: Key, now: Time): Answer {
    if perMinute == 0 then Answer(buckets, true, 0, false)
    else
      var room := if key in buckets || |buckets| < MAX_KEYS then buckets else Swept(perMinute, buckets, now);
      if key !in room && |room| >= MAX_KEYS then Answer(room, true, 0, true)
      else Ideal(perMinute, room, key, now)
  }

  class Rate {
    const perMinute: nat
    const perSecond: real
    const burst: real
    var buckets: Buckets

    ghost predicate Valid()
      reads this
    {
      perSecond == PerSecond(perMinute) && burst == Burst(perMinute)
    }

    constructor (perMinute: nat)
      ensures Valid() && this.perMinute == perMinute && buckets == map[]
    {
      this.perMinute := perMinute;
      perSecond, burst := perMinute as real / 60.0, perMinute as real;
      buckets := map[];
    }

    method Allow(key: Key, now: Time) returns (ok: bool, wait: int)
      requires Valid()
      modifies this
      ensures Valid()
      ensures var answer := Bounded(perMinute, old(buckets), key, now);
              buckets == answer.buckets && ok == answer.ok && wait == answer.wait
    {
      if perSecond == 0.0 { return true, 0; }
      if key !in buckets {
        if |buckets| >= MAX_KEYS {
          Sweep(now);
          if |buckets| >= MAX_KEYS { return true, 0; }
        }
        NewBucketIsFull(perMinute, buckets, key, now);
        buckets := buckets[key := Bucket(burst, now)];
      }
      ok, wait := Spend(key, now);
    }

    /** The part of Allow after the bucket has been found or made. */
    method Spend(key: Key, now: Time) returns (ok: bool, wait: int)
      requires Valid() && key in buckets && perMinute > 0
      modifies this
      ensures Valid()
      ensures var answer := Ideal(perMinute, old(buckets), key, now);
              buckets == answer.buckets && ok == answer.ok && wait == answer.wait
    {
      var b := buckets[key];
      var tokens := MinReal(burst, b.tokens + (now - b.last) as real / 1_000_000_000.0 * perSecond);
      assert tokens == LevelOf(perMinute, buckets, key, now);
      buckets := buckets[key := Bucket(tokens, now)];
      if tokens >= 1.0 {
        Overwrite(old(buckets), key, Bucket(tokens, now), Bucket(tokens - 1.0, now));
        buckets := buckets[key := Bucket(tokens - 1.0, now)];
        assert buckets == old(buckets)[key := Bucket(tokens - 1.0, now)];
        ok, wait := true, 0;
        return;
      }
      wait := ((1.0 - tokens) / perSecond * 1_000_000_000.0).Floor;
      ok := false;
    }

    method Sweep(now: Time)
      requires Valid()
      modifies this
      ensures Valid() && buckets == Swept(perMinute, old(buckets), now)
    {
      var todo := buckets.Keys;
      ghost var all := buckets;
      while todo != {}
        invariant todo <= all.Keys && Valid()
        invariant buckets == map k | k in all && (k in todo || k in Swept(perMinute, all, now)) :: all[k]
      {
        var key :| key in todo;
        todo := todo - {key};
        var b := buckets[key];
        if b.tokens + (now - b.last) as real / 1_000_000_000.0 * perSecond >= burst {
          buckets := buckets - {key};
        }
      }
    }
  }

  lemma NewBucketIsFull(perMinute: nat, buckets: Buckets, key: Key, now: Time)
    requires key !in buckets && perMinute > 0
    ensures Ideal(perMinute, buckets[key := Bucket(Burst(perMinute), now)], key, now)
              == Ideal(perMinute, buckets, key, now)
  {
    var made := buckets[key := Bucket(Burst(perMinute), now)];
    assert Refill(perMinute, 0) == 0.0;
    assert LevelOf(perMinute, made, key, now) == LevelOf(perMinute, buckets, key, now);
    var level := Burst(perMinute);
    Overwrite(buckets, key, Bucket(level, now), Bucket(level - 1.0, now));
    Overwrite(buckets, key, Bucket(level, now), Bucket(level, now));
  }

  lemma Overwrite(buckets: Buckets, key: Key, first: Bucket, second: Bucket)
    ensures buckets[key := first][key := second] == buckets[key := second]
  {
  }

  // ---------------------------------------------------------- token arithmetic

  lemma RefillAdds(perMinute: nat, a: int, b: int)
    ensures Refill(perMinute, a + b) == Refill(perMinute, a) + Refill(perMinute, b)
  {
    var x, y, k := a as real / 1_000_000_000.0, b as real / 1_000_000_000.0, PerSecond(perMinute);
    assert (a + b) as real / 1_000_000_000.0 == x + y;
    assert (x + y) * k == x * k + y * k;
  }

  lemma RefillPositive(perMinute: nat, span: int)
    requires span >= 0
    ensures Refill(perMinute, span) >= 0.0
  {
    var x, k := span as real / 1_000_000_000.0, PerSecond(perMinute);
    assert x >= 0.0 && k >= 0.0;
    assert x * k >= 0.0;
  }

  /** Waiting in two spans is waiting once. */
  lemma LevelLater(perMinute: nat, b: Bucket, now: Time, later: Time)
    requires now <= later
    ensures Level(perMinute, b, later)
              == MinReal(Burst(perMinute), Level(perMinute, b, now) + Refill(perMinute, later - now))
  {
    RefillAdds(perMinute, now - b.last, later - now);
    RefillPositive(perMinute, later - now);
    assert now - b.last + (later - now) == later - b.last;
  }

  lemma LevelOfLater(perMinute: nat, buckets: Buckets, key: Key, now: Time, later: Time)
    requires now <= later
    ensures LevelOf(perMinute, buckets, key, later)
            == MinReal(Burst(perMinute), LevelOf(perMinute, buckets, key, now) + Refill(perMinute, later - now))
  {
    RefillPositive(perMinute, later - now);
    if key in buckets { LevelLater(perMinute, buckets[key], now, later); }
  }

  /** Sweeping is unobservable: every key can spend what it could before. */
  lemma SweepIsUnobservable(perMinute: nat, buckets: Buckets, now: Time, key: Key, later: Time)
    requires now <= later
    ensures LevelOf(perMinute, Swept(perMinute, buckets, now), key, later) == LevelOf(perMinute, buckets, key, later)
  {
    if key in buckets && key !in Swept(perMinute, buckets, now) {
      LevelOfLater(perMinute, buckets, key, now, later);
      RefillPositive(perMinute, later - now);
    }
  }

  // ------------------------------------------------------------------ requests

  /** Tokens stay between 0 and the burst, and no bucket is from the future. */
  ghost predicate Sound(perMinute: nat, buckets: Buckets, now: Time) {
    forall k :: k in buckets ==> 0.0 <= buckets[k].tokens <= Burst(perMinute) && buckets[k].last <= now
  }

  lemma LevelInRange(perMinute: nat, buckets: Buckets, key: Key, now: Time)
    requires Sound(perMinute, buckets, now)
    ensures 0.0 <= LevelOf(perMinute, buckets, key, now) <= Burst(perMinute)
  {
    if key in buckets { RefillPositive(perMinute, now - buckets[key].last); }
  }

  lemma BoundedKeepsSound(perMinute: nat, buckets: Buckets, key: Key, now: Time)
    requires Sound(perMinute, buckets, now)
    ensures Sound(perMinute, Bounded(perMinute, buckets, key, now).buckets, now)
  {
    LevelInRange(perMinute, buckets, key, now);
    LevelInRange(perMinute, Swept(perMinute, buckets, now), key, now);
  }

  lemma IdealKeepsSound(perMinute: nat, buckets: Buckets, key: Key, now: Time)
    requires Sound(perMinute, buckets, now)
    ensures Sound(perMinute, Ideal(perMinute, buckets, key, now).buckets, now)
  {
    LevelInRange(perMinute, buckets, key, now);
  }

  /** What a request leaves each key: the key asked for pays a token if it was
      granted and recorded, and nothing else changes. */
  lemma RequestLeaves(perMinute: nat, buckets: Buckets, key: Key, now: Time, other: Key)
    requires Sound(perMinute, buckets, now)
    ensures var a := Bounded(perMinute, buckets, key, now);
            LevelOf(perMinute, a.buckets, other, now)
            == LevelOf(perMinute, buckets, other, now)
               - if perMinute > 0 && other == key && a.ok && !a.failedOpen then 1.0 else 0.0
  {
    SweepIsUnobservable(perMinute, buckets, now, other, now);
    SweepIsUnobservable(perMinute, buckets, now, key, now);
    LevelInRange(perMinute, buckets, key, now);
    assert Refill(perMinute, 0) == 0.0;
  }

  lemma IdealLeaves(perMinute: nat, buckets: Buckets, key: Key, now: Time, other: Key)
    requires Sound(perMinute, buckets, now)
    ensures var a := Ideal(perMinute, buckets, key, now);
            LevelOf(perMinute, a.buckets, other, now)
            == LevelOf(perMinute, buckets, other, now) - if perMinute > 0 && other == key && a.ok then 1.0 else 0.0
  {
    LevelInRange(perMinute, buckets, key, now);
    assert Refill(perMinute, 0) == 0.0;
  }

  // ---------------------------------------------------------------------- runs

  datatype Ask = Ask(key: Key, now: Time)

  ghost predicate InTime(asks: seq<Ask>) {
    forall i, j :: 0 <= i <= j < |asks| ==> asks[i].now <= asks[j].now
  }

  /** The map after a run of requests, from an empty one. */
  function After(perMinute: nat, asks: seq<Ask>): Buckets
    decreases |asks|
  {
    if asks == [] then map[]
    else
      var last := asks[|asks| - 1];
      Bounded(perMinute, After(perMinute, asks[..|asks| - 1]), last.key, last.now).buckets
  }

  function IdealAfter(perMinute: nat, asks: seq<Ask>): Buckets
    decreases |asks|
  {
    if asks == [] then map[]
    else
      var last := asks[|asks| - 1];
      Ideal(perMinute, IdealAfter(perMinute, asks[..|asks| - 1]), last.key, last.now).buckets
  }

  /** The answer to the i-th request of a run. */
  function AnswerAt(perMinute: nat, asks: seq<Ask>, i: nat): Answer
    requires i < |asks|
  {
    Bounded(perMinute, After(perMinute, asks[..i]), asks[i].key, asks[i].now)
  }

  function IdealAnswerAt(perMinute: nat, asks: seq<Ask>, i: nat): Answer
    requires i < |asks|
  {
    Ideal(perMinute, IdealAfter(perMinute, asks[..i]), asks[i].key, asks[i].now)
  }

  lemma AfterOneMore(perMinute: nat, asks: seq<Ask>, i: nat)
    requires i < |asks|
    ensures After(perMinute, asks[..i + 1]) == AnswerAt(perMinute, asks, i).buckets
    ensures IdealAfter(perMinute, asks[..i + 1]) == IdealAnswerAt(perMinute, asks, i).buckets
  {
    assert asks[..i + 1][..i] == asks[..i];
  }

  lemma {:induction false} RunIsSound(perMinute: nat, asks: seq<Ask>, i: nat, now: Time)
    requires InTime(asks) && i <= |asks| && (forall j :: 0 <= j < i ==> asks[j].now <= now)
    ensures Sound(perMinute, After(perMinute, asks[..i]), now)
    ensures Sound(perMinute, IdealAfter(perMinute, asks[..i]), now)
    decreases i
  {
    if i > 0 {
      RunIsSound(perMinute, asks, i - 1, asks[i - 1].now);
      AfterOneMore(perMinute, asks, i - 1);
      BoundedKeepsSound(perMinute, After(perMinute, asks[..i - 1]), asks[i - 1].key, asks[i - 1].now);
      IdealKeepsSound(perMinute, IdealAfter(perMinute, asks[..i - 1]), asks[i - 1].key, asks[i - 1].now);
    }
  }

  /** The map never outgrows its bound. */
  lemma {:induction false} MemoryIsBounded(perMinute: nat, asks: seq<Ask>)
    ensures |After(perMinute, asks)| <= MAX_KEYS
    decreases |asks|
  {
    if asks != [] {
      var last, before := asks[|asks| - 1], After(perMinute, asks[..|asks| - 1]);
      MemoryIsBounded(perMinute, asks[..|asks| - 1]);
      var room := Swept(perMinute, before, last.now);
      SmallerMap(room, before);
      if perMinute > 0 && last.key in before {
        assert After(perMinute, asks).Keys == before.Keys;
        assert |After(perMinute, asks)| == |before|;
      }
    }
  }

  lemma SmallerMap(part: Buckets, whole: Buckets)
    requires part.Keys <= whole.Keys
    ensures |part| <= |whole|
  {
    assert whole.Keys == part.Keys + (whole.Keys - part.Keys);
    assert |whole.Keys| == |part.Keys| + |whole.Keys - part.Keys|;
  }

  /** Some request of the run, before its i-th, was this key's, at this time. */
  ghost predicate Asked(asks: seq<Ask>, i: nat, key: Key, at: Time)
    requires i <= |asks|
  {
    exists k :: 0 <= k < i && asks[k] == Ask(key, at)
  }

  /** A bucket is as recent as a request of its key. */
  lemma {:induction false} BucketsWereAsked(perMinute: nat, asks: seq<Ask>, i: nat, key: Key)
    requires i <= |asks| && key in After(perMinute, asks[..i])
    ensures Asked(asks, i, key, After(perMinute, asks[..i])[key].last)
    decreases i
  {
    assert asks[..0] == [];
    AfterOneMore(perMinute, asks, i - 1);
    BucketStep(perMinute, After(perMinute, asks[..i - 1]), asks[i - 1].key, asks[i - 1].now, key);
    hide Bounded, After, AnswerAt;
    if key != asks[i - 1].key || After(perMinute, asks[..i])[key].last != asks[i - 1].now {
      BucketsWereAsked(perMinute, asks, i - 1, key);
    } else {
      assert asks[i - 1] == Ask(key, asks[i - 1].now);
    }
  }

  lemma BucketStep(perMinute: nat, buckets: Buckets, key: Key, now: Time, other: Key)
    requires other in Bounded(perMinute, buckets, key, now).buckets
    ensures var after := Bounded(perMinute, buckets, key, now).buckets;
            (other == key && after[key].last == now) || (other in buckets && after[other] == buckets[other])
  {
  }

  /** A request fails open only if as many other keys as there is room for have
      each made one within the last minute. */
  lemma FailsOpenOnlyWhenFull(perMinute: nat, asks: seq<Ask>, j: nat) returns (others: set<Key>)
    requires InTime(asks) && j < |asks| && AnswerAt(perMinute, asks, j).failedOpen
    ensures |others| >= MAX_KEYS && asks[j].key !in others
    ensures forall k :: k in others ==> exists at :: Asked(asks, j, k, at) && asks[j].now - at < 60_000_000_000
  {
    var buckets, now := After(perMinute, asks[..j]), asks[j].now;
    RunIsSound(perMinute, asks, j, now);
    var inUse := Swept(perMinute, buckets, now);
    others := inUse.Keys;
    assert |inUse| == |others|;
    forall k | k in others ensures exists at :: Asked(asks, j, k, at) && now - at < 60_000_000_000 {
      BucketsWereAsked(perMinute, asks, j, k);
      RefillIs(perMinute, now - buckets[k].last);
      MinuteRefills(perMinute, now - buckets[k].last);
      hide After, Refill, Asked;
      assert Refill(perMinute, now - buckets[k].last) < Burst(perMinute);
    }
  }

  lemma MinuteRefills(perMinute: nat, span: int)
    ensures span >= 60_000_000_000 ==> Refill(perMinute, span) >= Burst(perMinute)
  {
    RefillIs(perMinute, span);
    if span >= 60_000_000_000 { assert span * perMinute >= 60_000_000_000 * perMinute; }
  }

  /** No request for this key, before the i-th of the run, failed open. */
  ghost predicate NeverFailedOpen(perMinute: nat, asks: seq<Ask>, key: Key, i: nat)
    requires i <= |asks|
  {
    forall j :: 0 <= j < i && asks[j].key == key ==> !AnswerAt(perMinute, asks, j).failedOpen
  }

  /** A key that never failed open can always spend exactly what the ideal
      limiter would let it, whatever was swept and whatever other keys did. */
  lemma {:induction false} LevelsAgree(perMinute: nat, asks: seq<Ask>, i: nat, key: Key, now: Time)
    requires InTime(asks) && i <= |asks| && (forall j :: 0 <= j < i ==> asks[j].now <= now)
    requires NeverFailedOpen(perMinute, asks, key, i)
    ensures LevelOf(perMinute, After(perMinute, asks[..i]), key, now)
              == LevelOf(perMinute, IdealAfter(perMinute, asks[..i]), key, now)
    decreases i
  {
    if i > 0 {
      var ask := asks[i - 1];
      LevelsAgree(perMinute, asks, i - 1, key, ask.now);
      RequestInRun(perMinute, asks, i - 1, key);
      hide Bounded, Ideal, LevelOf;
      BoundedDecides(perMinute, After(perMinute, asks[..i - 1]), ask.key, ask.now);
      IdealDecides(perMinute, IdealAfter(perMinute, asks[..i - 1]), ask.key, ask.now);
      LevelOfLater(perMinute, After(perMinute, asks[..i]), key, ask.now, now);
      LevelOfLater(perMinute, IdealAfter(perMinute, asks[..i]), key, ask.now, now);
    }
  }

  /** What the i-th request leaves a key, with either limiter. */
  lemma RequestInRun(perMinute: nat, asks: seq<Ask>, i: nat, key: Key)
    requires InTime(asks) && i < |asks|
    ensures var ask := asks[i];
            var a, b := AnswerAt(perMinute, asks, i), IdealAnswerAt(perMinute, asks, i);
            var mine := perMinute > 0 && ask.key == key;
            && LevelOf(perMinute, After(perMinute, asks[..i + 1]), key, ask.now)
               == LevelOf(perMinute, After(perMinute, asks[..i]), key, ask.now)
                   - (if mine && a.ok && !a.failedOpen then 1.0 else 0.0)
            && LevelOf(perMinute, IdealAfter(perMinute, asks[..i + 1]), key, ask.now)
               == LevelOf(perMinute, IdealAfter(perMinute, asks[..i]), key, ask.now)
                   - (if mine && b.ok then 1.0 else 0.0)
  {
    RunIsSound(perMinute, asks, i, asks[i].now);
    AfterOneMore(perMinute, asks, i);
    RequestLeaves(perMinute, After(perMinute, asks[..i]), asks[i].key, asks[i].now, key);
    IdealLeaves(perMinute, IdealAfter(perMinute, asks[..i]), asks[i].key, asks[i].now, key);
  }

  lemma IdealDecides(perMinute: nat, buckets: Buckets, key: Key, now: Time)
    ensures var b := Ideal(perMinute, buckets, key, now);
            var level := LevelOf(perMinute, buckets, key, now);
            && (perMinute == 0 ==> b.ok && b.wait == 0)
            && (perMinute > 0 ==> b.ok == (level >= 1.0) && b.wait == if b.ok then 0 else WaitFor(perMinute, level))
  {
  }

  /** The decision depends on the key's level alone, unless it fails open. */
  lemma BoundedDecides(perMinute: nat, buckets: Buckets, key: Key, now: Time)
    ensures var a := Bounded(perMinute, buckets, key, now);
            var level := LevelOf(perMinute, buckets, key, now);
            && (perMinute == 0 || a.failedOpen ==> a.ok)
            && (a.failedOpen ==> level == Burst(perMinute))
            && (perMinute > 0 && !a.failedOpen ==>
                a.ok == (level >= 1.0) && a.wait == if a.ok then 0 else WaitFor(perMinute, level))
  {
    SweepIsUnobservable(perMinute, buckets, now, key, now);
  }

  /** A key that has not failed open gets the ideal limiter's answers. */
  lemma BoundedIsIdeal(perMinute: nat, asks: seq<Ask>, i: nat)
    requires InTime(asks) && i < |asks| && NeverFailedOpen(perMinute, asks, asks[i].key, i + 1)
    ensures AnswerAt(perMinute, asks, i).ok == IdealAnswerAt(perMinute, asks, i).ok
    ensures AnswerAt(perMinute, asks, i).wait == IdealAnswerAt(perMinute, asks, i).wait
  {
    var ask := asks[i];
    LevelsAgree(perMinute, asks, i, ask.key, ask.now);
    BoundedDecides(perMinute, After(perMinute, asks[..i]), ask.key, ask.now);
    IdealDecides(perMinute, IdealAfter(perMinute, asks[..i]), ask.key, ask.now);
  }

  // ------------------------------------------------------------- what it limits

  /** How many of the requests i..j-1 for one key were granted. */
  function Granted(perMinute: nat, asks: seq<Ask>, key: Key, i: nat, j: nat): nat
    requires i <= j <= |asks|
    decreases j - i
  {
    if i == j then 0
    else Granted(perMinute, asks, key, i, j - 1)
         + if asks[j - 1].key == key && AnswerAt(perMinute, asks, j - 1).ok then 1 else 0
  }

  /** The same, by the ideal limiter. */
  function IdealGranted(perMinute: nat, asks: seq<Ask>, key: Key, i: nat, j: nat): nat
    requires i <= j <= |asks|
    decreases j - i
  {
    if i == j then 0
    else IdealGranted(perMinute, asks, key, i, j - 1)
         + if asks[j - 1].key == key && IdealAnswerAt(perMinute, asks, j - 1).ok then 1 else 0
  }

  /** Failing open is never a net loss: at every point of every run the bounded
      limiter has granted each key at least as many requests as the ideal one,
      and what it has granted and still holds is at least as much. */
  lemma {:induction false} GrantsAtLeastIdeal(perMinute: nat, asks: seq<Ask>, key: Key, i: nat, now: Time)
    requires perMinute > 0 && InTime(asks) && i <= |asks| && (forall j :: 0 <= j < i ==> asks[j].now <= now)
    ensures Granted(perMinute, asks, key, 0, i) >= IdealGranted(perMinute, asks, key, 0, i)
    ensures Granted(perMinute, asks, key, 0, i) as real + LevelOf(perMinute, After(perMinute, asks[..i]), key, now)
            >= IdealGranted(perMinute, asks, key, 0, i) as real
                + LevelOf(perMinute, IdealAfter(perMinute, asks[..i]), key, now)
    decreases i
  {
    if i > 0 {
      var ask := asks[i - 1];
      GrantsAtLeastIdeal(perMinute, asks, key, i - 1, ask.now);
      RequestInRun(perMinute, asks, i - 1, key);
      RunIsSound(perMinute, asks, i, ask.now);
      LevelInRange(perMinute, IdealAfter(perMinute, asks[..i]), key, ask.now);
      BoundedDecides(perMinute, After(perMinute, asks[..i - 1]), ask.key, ask.now);
      IdealDecides(perMinute, IdealAfter(perMinute, asks[..i - 1]), ask.key, ask.now);
      LevelOfLater(perMinute, After(perMinute, asks[..i]), key, ask.now, now);
      LevelOfLater(perMinute, IdealAfter(perMinute, asks[..i]), key, ask.now, now);
      hide LevelOf, Bounded, Ideal;
    }
  }

  /** On every run, failing open included, the bounded limiter is less than one
      token behind the ideal one: it refuses nothing the ideal limiter would
      allow with two tokens in hand. */
  lemma {:induction false} LessThanOneTokenBehind(perMinute: nat, asks: seq<Ask>, key: Key, i: nat, now: Time)
    requires perMinute > 0 && InTime(asks) && i <= |asks| && (forall j :: 0 <= j < i ==> asks[j].now <= now)
    ensures LevelOf(perMinute, After(perMinute, asks[..i]), key, now)
              > LevelOf(perMinute, IdealAfter(perMinute, asks[..i]), key, now) - 1.0
    decreases i
  {
    if i > 0 {
      var ask := asks[i - 1];
      LessThanOneTokenBehind(perMinute, asks, key, i - 1, ask.now);
      RequestInRun(perMinute, asks, i - 1, key);
      RunIsSound(perMinute, asks, i - 1, ask.now);
      LevelInRange(perMinute, IdealAfter(perMinute, asks[..i - 1]), key, ask.now);
      LevelInRange(perMinute, After(perMinute, asks[..i - 1]), key, ask.now);
      BoundedDecides(perMinute, After(perMinute, asks[..i - 1]), ask.key, ask.now);
      IdealDecides(perMinute, IdealAfter(perMinute, asks[..i - 1]), ask.key, ask.now);
      LevelOfLater(perMinute, After(perMinute, asks[..i]), key, ask.now, now);
      LevelOfLater(perMinute, IdealAfter(perMinute, asks[..i]), key, ask.now, now);
      hide LevelOf, Bounded, Ideal;
    }
  }

  /** What was granted was held at the start of the window or regained in it. */
  lemma {:induction false} TokensAreConserved(perMinute: nat, asks: seq<Ask>, key: Key, i: nat, j: nat, now: Time)
    requires perMinute > 0 && InTime(asks) && i < j <= |asks|
    requires forall k :: i <= k < j && asks[k].key == key ==> !AnswerAt(perMinute, asks, k).failedOpen
    requires asks[j - 1].now <= now
    ensures Granted(perMinute, asks, key, i, j) as real + LevelOf(perMinute, After(perMinute, asks[..j]), key, now)
            <= LevelOf(perMinute, After(perMinute, asks[..i]), key, asks[i].now) + Refill(perMinute, now - asks[i].now)
    decreases j - i
  {
    hide Bounded, Ideal, LevelOf, Refill, AnswerAt, IdealAnswerAt, After, IdealAfter;
    var ask := asks[j - 1];
    RequestInRun(perMinute, asks, j - 1, key);
    LevelOfLater(perMinute, After(perMinute, asks[..j]), key, ask.now, now);
    RefillAdds(perMinute, ask.now - asks[i].now, now - ask.now);
    assert ask.now - asks[i].now + (now - ask.now) == now - asks[i].now;
    if i < j - 1 {
      TokensAreConserved(perMinute, asks, key, i, j - 1, ask.now);
    } else {
      assert Granted(perMinute, asks, key, i, i) == 0;
      NoRefill(perMinute);
    }
  }

  lemma NoRefill(perMinute: nat)
    ensures Refill(perMinute, 0) == 0.0
  {
  }

  /** In any window in which a key does not fail open, whatever befalls the
      others, it is granted at most the burst plus what refills meanwhile. */
  lemma WindowBound(perMinute: nat, asks: seq<Ask>, key: Key, i: nat, j: nat)
    requires perMinute > 0 && InTime(asks) && i < j <= |asks|
    requires forall k :: i <= k < j && asks[k].key == key ==> !AnswerAt(perMinute, asks, k).failedOpen
    ensures Granted(perMinute, asks, key, i, j) as real <= Allowance(perMinute, asks[j - 1].now - asks[i].now)
  {
    hide Bounded, Ideal, LevelOf, Refill;
    TokensAreConserved(perMinute, asks, key, i, j, asks[j - 1].now);
    RunIsSound(perMinute, asks, i, asks[i].now);
    RunIsSound(perMinute, asks, j, asks[j - 1].now);
    LevelInRange(perMinute, After(perMinute, asks[..i]), key, asks[i].now);
    LevelInRange(perMinute, After(perMinute, asks[..j]), key, asks[j - 1].now);
    RefillIs(perMinute, asks[j - 1].now - asks[i].now);
  }

  /** perMinute requests at once and perMinute more for every minute. */
  function Allowance(perMinute: nat, span: int): real {
    perMinute as real + (span * perMinute) as real / 60_000_000_000.0
  }

  /** A key's level is the burst, or what is left of the allowance since one of
      its own requests. */
  lemma {:induction false} FullSince(perMinute: nat, asks: seq<Ask>, key: Key, j: nat, now: Time)
    requires perMinute > 0 && InTime(asks) && j <= |asks| && (forall k :: 0 <= k < j ==> asks[k].now <= now)
    requires NeverFailedOpen(perMinute, asks, key, j)
    ensures var level := LevelOf(perMinute, After(perMinute, asks[..j]), key, now);
            || level == Burst(perMinute)
            || exists i :: 0 <= i < j && asks[i].key == key && level == LeftSince(perMinute, asks, key, i, j, now)
    decreases j
  {
    if j > 0 {
      var ask := asks[j - 1];
      FullSince(perMinute, asks, key, j - 1, ask.now);
      LevelNow(perMinute, asks, key, j, now);
      hide LevelOf, AnswerAt, After, InTime, NeverFailedOpen, LeftSince, Refill;
      var before := LevelOf(perMinute, After(perMinute, asks[..j - 1]), key, ask.now);
      if before == Burst(perMinute) {
        if ask.key == key { LeftNow(perMinute, asks, key, j, now); }
      } else {
        var i :| 0 <= i < j - 1 && asks[i].key == key && before == LeftSince(perMinute, asks, key, i, j - 1, ask.now);
        LeftLater(perMinute, asks, key, i, j, now);
      }
    }
  }

  /** A request that does not fail open takes a token if it is granted one, and
      time gives back up to the burst. */
  lemma LevelNow(perMinute: nat, asks: seq<Ask>, key: Key, j: nat, now: Time)
    requires perMinute > 0 && InTime(asks) && 0 < j <= |asks| && asks[j - 1].now <= now
    requires asks[j - 1].key == key ==> !AnswerAt(perMinute, asks, j - 1).failedOpen
    ensures var ask := asks[j - 1];
            var spent := if ask.key == key && AnswerAt(perMinute, asks, j - 1).ok then 1.0 else 0.0;
            LevelOf(perMinute, After(perMinute, asks[..j]), key, now)
            == MinReal(Burst(perMinute), LevelOf(perMinute, After(perMinute, asks[..j - 1]), key, ask.now) - spent
                                         + Refill(perMinute, now - ask.now))
    ensures Refill(perMinute, now - asks[j - 1].now) >= 0.0
  {
    hide Bounded, Ideal, LevelOf, Refill, AnswerAt, IdealAnswerAt, After, IdealAfter;
    RequestInRun(perMinute, asks, j - 1, key);
    LevelOfLater(perMinute, After(perMinute, asks[..j]), key, asks[j - 1].now, now);
    RefillPositive(perMinute, now - asks[j - 1].now);
  }

  function LeftSince(perMinute: nat, asks: seq<Ask>, key: Key, i: nat, j: nat, now: Time): real
    requires i <= j <= |asks| && i < |asks|
  {
    Burst(perMinute) - Granted(perMinute, asks, key, i, j) as real + Refill(perMinute, now - asks[i].now)
  }

  lemma LeftNow(perMinute: nat, asks: seq<Ask>, key: Key, j: nat, now: Time)
    requires 0 < j <= |asks|
    ensures LeftSince(perMinute, asks, key, j - 1, j, now)
            == Burst(perMinute) - (if asks[j - 1].key == key && AnswerAt(perMinute, asks, j - 1).ok then 1.0 else 0.0)
               + Refill(perMinute, now - asks[j - 1].now)
  {
    hide AnswerAt, Refill;
    assert Granted(perMinute, asks, key, j - 1, j - 1) == 0;
  }

  lemma LeftLater(perMinute: nat, asks: seq<Ask>, key: Key, i: nat, j: nat, now: Time)
    requires i < j <= |asks|
    ensures LeftSince(perMinute, asks, key, i, j, now)
            == LeftSince(perMinute, asks, key, i, j - 1, asks[j - 1].now)
               - (if asks[j - 1].key == key && AnswerAt(perMinute, asks, j - 1).ok then 1.0 else 0.0)
               + Refill(perMinute, now - asks[j - 1].now)
  {
    RefillAdds(perMinute, asks[j - 1].now - asks[i].now, now - asks[j - 1].now);
    assert asks[j - 1].now - asks[i].now + (now - asks[j - 1].now) == now - asks[i].now;
    hide AnswerAt, Refill;
  }

  /** The limiter, without its buckets: a request of a key that never failed open
      is granted exactly when no window that begins with one of the key's requests
      and ends with this one would hold more than its allowance. */
  lemma BucketIsWindow(perMinute: nat, asks: seq<Ask>, j: nat)
    requires perMinute > 0 && InTime(asks) && j < |asks| && NeverFailedOpen(perMinute, asks, asks[j].key, j + 1)
    ensures var ask := asks[j];
            AnswerAt(perMinute, asks, j).ok <==>
              forall i :: 0 <= i <= j && asks[i].key == ask.key ==>
                Granted(perMinute, asks, ask.key, i, j) as real + 1.0 <= Allowance(perMinute, ask.now - asks[i].now)
  {
    hide AnswerAt, Allowance, Granted, InTime, NeverFailedOpen;
    if AnswerAt(perMinute, asks, j).ok {
      forall i | 0 <= i <= j && asks[i].key == asks[j].key
        ensures Granted(perMinute, asks, asks[j].key, i, j) as real + 1.0
                <= Allowance(perMinute, asks[j].now - asks[i].now)
      {
        GrantedWithin(perMinute, asks, i, j);
      }
    } else {
      var i := RefusedBeyond(perMinute, asks, j);
    }
  }

  lemma GrantedWithin(perMinute: nat, asks: seq<Ask>, i: nat, j: nat)
    requires perMinute > 0 && InTime(asks) && i <= j < |asks| && asks[i].key == asks[j].key
    requires NeverFailedOpen(perMinute, asks, asks[j].key, j + 1) && AnswerAt(perMinute, asks, j).ok
    ensures Granted(perMinute, asks, asks[j].key, i, j) as real + 1.0 <= Allowance(perMinute, asks[j].now - asks[i].now)
  {
    hide AnswerAt, Allowance;
    WindowBound(perMinute, asks, asks[j].key, i, j + 1);
  }

  lemma RefusedIsEmpty(perMinute: nat, asks: seq<Ask>, j: nat)
    requires perMinute > 0 && j < |asks| && !AnswerAt(perMinute, asks, j).ok
    ensures LevelOf(perMinute, After(perMinute, asks[..j]), asks[j].key, asks[j].now) < 1.0
  {
    hide LevelOf, After;
    BoundedDecides(perMinute, After(perMinute, asks[..j]), asks[j].key, asks[j].now);
    hide Bounded;
  }

  lemma FailedOpenSooner(perMinute: nat, asks: seq<Ask>, key: Key, j: nat)
    requires j < |asks| && NeverFailedOpen(perMinute, asks, key, j + 1)
    ensures NeverFailedOpen(perMinute, asks, key, j)
  {
    hide AnswerAt;
  }

  lemma RefusedBeyond(perMinute: nat, asks: seq<Ask>, j: nat) returns (i: nat)
    requires perMinute > 0 && InTime(asks) && j < |asks| && NeverFailedOpen(perMinute, asks, asks[j].key, j + 1)
    requires !AnswerAt(perMinute, asks, j).ok
    ensures i <= j && asks[i].key == asks[j].key
    ensures Granted(perMinute, asks, asks[j].key, i, j) as real + 1.0 > Allowance(perMinute, asks[j].now - asks[i].now)
  {
    hide AnswerAt, Granted, Allowance;
    RefusedIsEmpty(perMinute, asks, j);
    FailedOpenSooner(perMinute, asks, asks[j].key, j);
    i := LowSince(perMinute, asks, asks[j].key, j, asks[j].now);
    AllowanceLeft(perMinute, asks, asks[j].key, i, j, asks[j].now);
  }

  /** A level below the burst is what is left of the allowance since a request. */
  lemma LowSince(perMinute: nat, asks: seq<Ask>, key: Key, j: nat, now: Time) returns (i: nat)
    requires perMinute > 0 && InTime(asks) && j <= |asks| && (forall k :: 0 <= k < j ==> asks[k].now <= now)
    requires NeverFailedOpen(perMinute, asks, key, j) && LevelOf(perMinute, After(perMinute, asks[..j]), key, now) < 1.0
    ensures i < j && asks[i].key == key
    ensures LeftSince(perMinute, asks, key, i, j, now) < 1.0
  {
    hide LevelOf, After, LeftSince, AnswerAt;
    FullSince(perMinute, asks, key, j, now);
    var level := LevelOf(perMinute, After(perMinute, asks[..j]), key, now);
    i :| 0 <= i < j && asks[i].key == key && level == LeftSince(perMinute, asks, key, i, j, now);
  }

  lemma AllowanceLeft(perMinute: nat, asks: seq<Ask>, key: Key, i: nat, j: nat, now: Time)
    requires i <= j <= |asks| && i < |asks|
    ensures LeftSince(perMinute, asks, key, i, j, now)
            == Allowance(perMinute, now - asks[i].now) - Granted(perMinute, asks, key, i, j) as real
  {
    hide Granted, Refill;
    RefillIs(perMinute, now - asks[i].now);
  }

  /** Until the key is granted a request again, its level only refills. */
  lemma {:induction false} NothingSpent(perMinute: nat, asks: seq<Ask>, key: Key, i: nat, j: nat, now: Time)
    requires perMinute > 0 && InTime(asks) && i < j <= |asks| && asks[j - 1].now <= now
    requires forall k :: i <= k < j && asks[k].key == key ==> !AnswerAt(perMinute, asks, k).ok
    ensures LevelOf(perMinute, After(perMinute, asks[..j]), key, now)
            == MinReal(Burst(perMinute), LevelOf(perMinute, After(perMinute, asks[..i]), key, asks[i].now)
                       + Refill(perMinute, now - asks[i].now))
    decreases j
  {
    hide Bounded, Ideal, LevelOf, Refill;
    var ask := asks[j - 1];
    RequestInRun(perMinute, asks, j - 1, key);
    LevelOfLater(perMinute, After(perMinute, asks[..j]), key, ask.now, now);
    RefillAdds(perMinute, ask.now - asks[i].now, now - ask.now);
    RefillPositive(perMinute, now - ask.now);
    assert ask.now - asks[i].now + (now - ask.now) == now - asks[i].now;
    if i < j - 1 {
      NothingSpent(perMinute, asks, key, i, j - 1, ask.now);
    } else {
      NoRefill(perMinute);
      RunIsSound(perMinute, asks, i, asks[i].now);
      LevelInRange(perMinute, After(perMinute, asks[..i]), key, asks[i].now);
    }
  }

  /** After a refusal the key stays refused before `wait` has passed, and is
      allowed once one nanosecond more has, if nothing was granted to it
      meanwhile. */
  lemma RefusalTellsWhen(perMinute: nat, asks: seq<Ask>, i: nat, j: nat)
    requires perMinute > 0 && InTime(asks) && i < j < |asks| && asks[j].key == asks[i].key
    requires !AnswerAt(perMinute, asks, i).ok && !AnswerAt(perMinute, asks, j).failedOpen
    requires forall k :: i <= k < j && asks[k].key == asks[i].key ==> !AnswerAt(perMinute, asks, k).ok
    ensures var wait := AnswerAt(perMinute, asks, i).wait;
            && (asks[j].now - asks[i].now < wait ==> !AnswerAt(perMinute, asks, j).ok)
            && (asks[j].now - asks[i].now >= wait + 1 ==> AnswerAt(perMinute, asks, j).ok)
  {
    var key, now := asks[i].key, asks[j].now;
    var level := LevelOf(perMinute, After(perMinute, asks[..i]), key, asks[i].now);
    NothingSpent(perMinute, asks, key, i, j, now);
    BoundedDecides(perMinute, After(perMinute, asks[..i]), key, asks[i].now);
    BoundedDecides(perMinute, After(perMinute, asks[..j]), key, now);
    WaitIsExact(perMinute, level, now - asks[i].now);
  }

  lemma WaitIsExact(perMinute: nat, level: real, span: int)
    requires perMinute > 0 && level < 1.0
    ensures span < WaitFor(perMinute, level) ==> level + Refill(perMinute, span) < 1.0
    ensures span >= WaitFor(perMinute, level) + 1 ==> level + Refill(perMinute, span) >= 1.0
  {
    var k, exact := PerSecond(perMinute), (1.0 - level) / PerSecond(perMinute) * 1_000_000_000.0;
    assert k > 0.0;
    var x := span as real / 1_000_000_000.0;
    var y := exact / 1_000_000_000.0;
    assert y * k == 1.0 - level;
    if span < WaitFor(perMinute, level) {
      assert span as real < exact;
      assert x < y;
      Scale(x, y, k);
    }
    if span >= WaitFor(perMinute, level) + 1 {
      assert span as real >= exact;
      if x > y { Scale(y, x, k); }
    }
  }

  lemma Scale(x: real, y: real, k: real)
    requires x < y && k > 0.0
    ensures x * k < y * k
  {
  }

  // ------------------------------------------------ where the program differs

  ghost predicate Among(asks: seq<Ask>, keys: set<Key>) {
    forall i :: 0 <= i < |asks| ==> asks[i].key in keys
  }

  /** Runs over these keys never see a refusal the ideal limiter would not give. */
  ghost predicate NeverStricter(perMinute: nat, keys: set<Key>) {
    forall asks, i: nat :: InTime(asks) && Among(asks, keys) && i < |asks| && IdealAnswerAt(perMinute, asks, i).ok
                           ==> AnswerAt(perMinute, asks, i).ok
  }

  /** The bounded limiter is never stricter than the ideal one exactly when there
      are no more keys than it has room for (or it is disabled). */
  lemma NeverStricterIff(perMinute: nat, keys: set<Key>)
    requires perMinute < 60_000_000_000
    ensures NeverStricter(perMinute, keys) <==> perMinute == 0 || |keys| <= MAX_KEYS
  {
    hide AnswerAt, IdealAnswerAt, InTime;
    if perMinute > 0 && |keys| > MAX_KEYS {
      var asks, i := FailingOpenIsObservable(perMinute, keys);
    } else {
      forall asks, i: nat | InTime(asks) && Among(asks, keys) && i < |asks| && IdealAnswerAt(perMinute, asks, i).ok
        ensures AnswerAt(perMinute, asks, i).ok
      {
        if perMinute == 0 { DisabledAllows(asks, i); } else { RoomForAll(perMinute, asks, keys, i); }
      }
    }
  }

  lemma DisabledAllows(asks: seq<Ask>, i: nat)
    requires i < |asks|
    ensures AnswerAt(0, asks, i).ok
  {
  }

  lemma RoomForAll(perMinute: nat, asks: seq<Ask>, keys: set<Key>, i: nat)
    requires InTime(asks) && Among(asks, keys) && i < |asks| && |keys| <= MAX_KEYS && perMinute > 0
    ensures AnswerAt(perMinute, asks, i).ok == IdealAnswerAt(perMinute, asks, i).ok
  {
    forall j | 0 <= j <= i ensures !AnswerAt(perMinute, asks, j).failedOpen {
      OnlyAskedKeys(perMinute, asks, keys, j);
      RoomForOne(perMinute, After(perMinute, asks[..j]), asks[j].key, asks[j].now, keys);
    }
    BoundedIsIdeal(perMinute, asks, i);
  }

  lemma {:induction false} OnlyAskedKeys(perMinute: nat, asks: seq<Ask>, keys: set<Key>, i: nat)
    requires Among(asks, keys) && i <= |asks|
    ensures After(perMinute, asks[..i]).Keys <= keys
  {
    if i > 0 {
      OnlyAskedKeys(perMinute, asks, keys, i - 1);
      AfterOneMore(perMinute, asks, i - 1);
    }
  }

  lemma RoomForOne(perMinute: nat, buckets: Buckets, key: Key, now: Time, keys: set<Key>)
    requires buckets.Keys <= keys && key in keys && |keys| <= MAX_KEYS
    ensures !Bounded(perMinute, buckets, key, now).failedOpen
  {
    var room := Swept(perMinute, buckets, now);
    FewerThan(buckets.Keys, keys, key);
    FewerThan(room.Keys, keys, key);
  }

  lemma FewerThan(part: set<Key>, keys: set<Key>, key: Key)
    requires part <= keys && key in keys
    ensures key !in part ==> |part| < |keys|
  {
    if key !in part {
      assert keys == part + (keys - part);
      assert key in keys - part;
    }
  }

  // The other direction: a burst of distinct keys fills the map; one more key
  // then fails open until the ideal limiter has nothing left for it, is
  // recorded and emptied when the map makes room, and finds itself behind.

  function Once(keys: seq<Key>): seq<Ask> { seq(|keys|, i requires 0 <= i < |keys| => Ask(keys[i], 0)) }

  function Again(key: Key, now: Time, n: nat): seq<Ask> { seq(n, _ => Ask(key, now)) }

  ghost predicate Distinct(keys: seq<Key>) { forall i, j :: 0 <= i < j < |keys| ==> keys[i] != keys[j] }

  /** Every bucket of the map has just spent its first token, at time 0. */
  ghost predicate Busy(perMinute: nat, buckets: Buckets) {
    forall k :: k in buckets ==> buckets[k] == Bucket(Burst(perMinute) - 1.0, 0)
  }

  /** One more request at the end of a run. */
  lemma RunOneMore(perMinute: nat, asks: seq<Ask>, ask: Ask)
    ensures After(perMinute, asks + [ask]) == Bounded(perMinute, After(perMinute, asks), ask.key, ask.now).buckets
    ensures IdealAfter(perMinute, asks + [ask])
              == Ideal(perMinute, IdealAfter(perMinute, asks), ask.key, ask.now).buckets
  {
    hide Bounded, Ideal;
    var more := asks + [ask];
    assert more[..|more| - 1] == asks;
  }

  function Elements(keys: seq<Key>): set<Key> { set k | k in keys }

  lemma {:induction false} FillsUp(perMinute: nat, keys: seq<Key>)
    requires perMinute > 0 && Distinct(keys) && |keys| <= MAX_KEYS
    ensures var full := After(perMinute, Once(keys));
            |full| == |keys| && full.Keys == Elements(keys) && Busy(perMinute, full)
    ensures IdealAfter(perMinute, Once(keys)).Keys == Elements(keys)
    decreases |keys|
  {
    if keys != [] {
      var n := |keys| - 1;
      var key, most := keys[n], Once(keys[..n]);
      LastKey(keys);
      FillsUp(perMinute, keys[..n]);
      hide *;
      RunOneMore(perMinute, most, Ask(key, 0));
      NewKeyRecorded(perMinute, After(perMinute, most), key);
      IdealRecords(perMinute, IdealAfter(perMinute, most), key, 0);
      StillBusy(perMinute, After(perMinute, most), key);
    } else {
      assert Once(keys) == [] && Elements(keys) == {};
    }
  }

  lemma LastKey(keys: seq<Key>)
    requires Distinct(keys) && keys != []
    ensures var n := |keys| - 1;
            && Once(keys) == Once(keys[..n]) + [Ask(keys[n], 0)]
            && keys[n] !in Elements(keys[..n]) && Elements(keys) == Elements(keys[..n]) + {keys[n]}
            && Distinct(keys[..n])
  {
  }

  lemma StillBusy(perMinute: nat, buckets: Buckets, key: Key)
    requires Busy(perMinute, buckets) && key !in buckets
    ensures var more := buckets[key := Bucket(Burst(perMinute) - 1.0, 0)];
            Busy(perMinute, more) && |more| == |buckets| + 1 && more.Keys == buckets.Keys + {key}
  {
    var more := buckets[key := Bucket(Burst(perMinute) - 1.0, 0)];
    assert more.Keys == buckets.Keys + {key};
    assert |more.Keys| == |buckets.Keys| + 1;
  }

  lemma NewKeyRecorded(perMinute: nat, buckets: Buckets, key: Key)
    requires perMinute > 0 && key !in buckets && |buckets| < MAX_KEYS
    ensures Bounded(perMinute, buckets, key, 0).buckets == buckets[key := Bucket(Burst(perMinute) - 1.0, 0)]
  {
  }

  lemma IdealRecords(perMinute: nat, buckets: Buckets, key: Key, now: Time)
    requires perMinute > 0
    ensures Ideal(perMinute, buckets, key, now).buckets.Keys == buckets.Keys + {key}
  {
  }

  lemma AgainOneMore(perMinute: nat, asks: seq<Ask>, key: Key, now: Time, n: nat)
    ensures var sofar := asks + Again(key, now, n);
            && After(perMinute, asks + Again(key, now, n + 1))
                 == Bounded(perMinute, After(perMinute, sofar), key, now).buckets
            && IdealAfter(perMinute, asks + Again(key, now, n + 1))
                 == Ideal(perMinute, IdealAfter(perMinute, sofar), key, now).buckets
  {
    RunOneMore(perMinute, asks + Again(key, now, n), Ask(key, now));
    assert asks + Again(key, now, n + 1) == asks + Again(key, now, n) + [Ask(key, now)];
  }

  /** A full map of buckets in use stays as it is. */
  lemma {:induction false} StaysFull(perMinute: nat, asks: seq<Ask>, key: Key, now: Time, n: nat)
    requires var full := After(perMinute, asks);
             perMinute > 0 && key !in full && |full| >= MAX_KEYS && Swept(perMinute, full, now) == full
    ensures After(perMinute, asks + Again(key, now, n)) == After(perMinute, asks)
  {
    if n == 0 {
      assert asks + Again(key, now, 0) == asks;
    } else {
      StaysFull(perMinute, asks, key, now, n - 1);
      AgainOneMore(perMinute, asks, key, now, n - 1);
    }
  }

  lemma IdealSpends(perMinute: nat, buckets: Buckets, key: Key, now: Time)
    requires perMinute > 0
    ensures LevelOf(perMinute, Ideal(perMinute, buckets, key, now).buckets, key, now)
            == LevelOf(perMinute, buckets, key, now) - if LevelOf(perMinute, buckets, key, now) >= 1.0 then 1.0 else 0.0
  {
    NoRefill(perMinute);
  }

  lemma {:induction false} IdealSpendsAll(perMinute: nat, asks: seq<Ask>, key: Key, now: Time, n: nat)
    requires perMinute > 0
    ensures var level := LevelOf(perMinute, IdealAfter(perMinute, asks), key, now);
            var spent := LevelOf(perMinute, IdealAfter(perMinute, asks + Again(key, now, n)), key, now);
            (n as real <= level ==> spent == level - n as real) && (level < 1.0 ==> spent == level)
  {
    hide LevelOf, Ideal, Bounded;
    if n == 0 {
      assert asks + Again(key, now, 0) == asks;
    } else {
      IdealSpendsAll(perMinute, asks, key, now, n - 1);
      AgainOneMore(perMinute, asks, key, now, n - 1);
      IdealSpends(perMinute, IdealAfter(perMinute, asks + Again(key, now, n - 1)), key, now);
    }
  }

  lemma {:induction false} BoundedSpendsAll(perMinute: nat, asks: seq<Ask>, key: Key, now: Time, n: nat)
    requires perMinute > 0 && 0 < n <= perMinute
    requires key !in After(perMinute, asks) && |Swept(perMinute, After(perMinute, asks), now)| == 0
    ensures var after := After(perMinute, asks + Again(key, now, n));
            key in after && LevelOf(perMinute, after, key, now) == Burst(perMinute) - n as real
  {
    var sofar := asks + Again(key, now, n - 1);
    AgainOneMore(perMinute, asks, key, now, n - 1);
    if n == 1 {
      assert sofar == asks;
      RoomMade(perMinute, After(perMinute, asks), key, now);
    } else {
      BoundedSpendsAll(perMinute, asks, key, now, n - 1);
    }
    hide LevelOf;
    IdealSpends(perMinute, After(perMinute, sofar), key, now);
    IdealRecords(perMinute, After(perMinute, sofar), key, now);
  }

  lemma RoomMade(perMinute: nat, buckets: Buckets, key: Key, now: Time)
    requires perMinute > 0 && key !in buckets && |Swept(perMinute, buckets, now)| == 0
    ensures var after := Bounded(perMinute, buckets, key, now).buckets;
            key in after && LevelOf(perMinute, after, key, now) == Burst(perMinute) - 1.0
  {
    NoRefill(perMinute);
  }

  lemma RefillIs(perMinute: nat, span: int)
    ensures Refill(perMinute, span) == (span * perMinute) as real / 60_000_000_000.0
  {
    var x, k := span as real, perMinute as real;
    assert (span * perMinute) as real == x * k;
    assert x / 1_000_000_000.0 * (k / 60.0) == x * k / 60_000_000_000.0;
  }

  /** The first time by which one token has been regained. */
  function FullTime(perMinute: nat): Time
    requires perMinute > 0
  {
    (60_000_000_000 + perMinute - 1) / perMinute
  }

  lemma FullTimeIs(perMinute: nat)
    requires 0 < perMinute < 60_000_000_000
    ensures var t := FullTime(perMinute);
            t > 1 && Refill(perMinute, t) >= 1.0 && Refill(perMinute, t - 1) < 1.0 && Refill(perMinute, 1) < 1.0
  {
    var t := FullTime(perMinute);
    RefillIs(perMinute, t);
    RefillIs(perMinute, t - 1);
    RefillIs(perMinute, 1);
    var x := 60_000_000_000 + perMinute - 1;
    assert t * perMinute + x % perMinute == x;
    assert (t - 1) * perMinute == t * perMinute - perMinute;
    assert t <= 1 ==> t * perMinute <= perMinute;
  }

  lemma BusySwept(perMinute: nat, buckets: Buckets)
    requires 0 < perMinute < 60_000_000_000 && Busy(perMinute, buckets)
    ensures Swept(perMinute, buckets, 1) == buckets && |Swept(perMinute, buckets, FullTime(perMinute))| == 0
  {
    FullTimeIs(perMinute);
    hide Refill;
    assert Swept(perMinute, buckets, FullTime(perMinute)) == map[];
  }

  lemma InTimeAppend(asks: seq<Ask>, key: Key, now: Time, n: nat, before: Time)
    requires InTime(asks) && (forall i :: 0 <= i < |asks| ==> asks[i].now <= before) && before <= now
    ensures var all := asks + Again(key, now, n);
            InTime(all) && forall i :: 0 <= i < |all| ==> all[i].now <= now
  {
  }

  lemma {:induction false} FirstKeys(keys: set<Key>, n: nat) returns (first: seq<Key>)
    requires n <= |keys|
    ensures |first| == n && Distinct(first) && forall i :: 0 <= i < n ==> first[i] in keys
    decreases n
  {
    first := [];
    if n > 0 {
      var key :| key in keys;
      first := FirstKeys(keys - {key}, n - 1);
      first := [key] + first;
    }
  }

  lemma LeftBehind(perMinute: nat, busy: seq<Ask>, key: Key, t: Time)
    requires 0 < perMinute < 60_000_000_000 && t == FullTime(perMinute)
    requires |After(perMinute, busy)| == MAX_KEYS && Busy(perMinute, After(perMinute, busy))
    requires key !in After(perMinute, busy) && key !in IdealAfter(perMinute, busy)
    ensures var before := busy + Again(key, 1, perMinute) + Again(key, t, perMinute);
            && key in After(perMinute, before)
            && LevelOf(perMinute, After(perMinute, before), key, t + 1) < 1.0
            && LevelOf(perMinute, IdealAfter(perMinute, before), key, t + 1) >= 1.0
  {
    hide Refill, Swept, Bounded, Ideal, Again, After, IdealAfter, FullTime, Level;
    var drained := busy + Again(key, 1, perMinute);
    var before := drained + Again(key, t, perMinute);
    FullTimeIs(perMinute);
    BusySwept(perMinute, After(perMinute, busy));
    StaysFull(perMinute, busy, key, 1, perMinute);
    IdealSpendsAll(perMinute, busy, key, 1, perMinute);
    assert LevelOf(perMinute, IdealAfter(perMinute, drained), key, 1) == 0.0;
    hide LevelOf;
    LevelOfLater(perMinute, IdealAfter(perMinute, drained), key, 1, t);
    IdealSpendsAll(perMinute, drained, key, t, perMinute);
    BoundedSpendsAll(perMinute, drained, key, t, perMinute);
    LevelOfLater(perMinute, IdealAfter(perMinute, before), key, t, t + 1);
    LevelOfLater(perMinute, After(perMinute, before), key, t, t + 1);
    RefillAdds(perMinute, t - 1, 1);
  }

  lemma DecidesByLevel(perMinute: nat, buckets: Buckets, key: Key, now: Time)
    requires perMinute > 0 && key in buckets
    ensures Bounded(perMinute, buckets, key, now).ok == (LevelOf(perMinute, buckets, key, now) >= 1.0)
  {
  }

  lemma AmongAll(others: seq<Key>, key: Key, t: Time, n: nat, keys: set<Key>)
    requires (forall i :: 0 <= i < |others| ==> others[i] in keys) && key in keys
    ensures Among(Once(others) + Again(key, 1, n) + Again(key, t, n) + Again(key, t + 1, 1), keys)
  {
  }

  /** Failing open is not free for the key it happens to. It is let through
      without paying, then granted where the ideal limiter would refuse, and
      at last refused where the ideal limiter would allow. */
  lemma FailingOpenIsObservable(perMinute: nat, keys: set<Key>) returns (asks: seq<Ask>, i: nat)
    requires 0 < perMinute < 60_000_000_000 && |keys| > MAX_KEYS
    ensures InTime(asks) && Among(asks, keys) && i < |asks|
    ensures IdealAnswerAt(perMinute, asks, i).ok && !AnswerAt(perMinute, asks, i).ok
  {
    var first := FirstKeys(keys, MAX_KEYS + 1);
    var key, others, t := first[MAX_KEYS], first[..MAX_KEYS], FullTime(perMinute);
    var busy := Once(others);
    FillsUp(perMinute, others);
    FullTimeIs(perMinute);
    var before := busy + Again(key, 1, perMinute) + Again(key, t, perMinute);
    i := |before|;
    asks := before + Again(key, t + 1, 1);
    AmongAll(others, key, t, perMinute, keys);
    InTimeAppend(busy, key, 1, perMinute, 0);
    InTimeAppend(busy + Again(key, 1, perMinute), key, t, perMinute, 1);
    InTimeAppend(before, key, t + 1, 1, t);
    LeftBehind(perMinute, busy, key, t);
    assert asks[..i] == before && asks[i] == Ask(key, t + 1);
    hide *;
    IdealDecides(perMinute, IdealAfter(perMinute, before), key, t + 1);
    DecidesByLevel(perMinute, After(perMinute, before), key, t + 1);
  }
}
