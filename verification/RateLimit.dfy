/** Token buckets: the in-memory limiter, which forgets idle buckets once it holds many, and
    the Redis script, whose keys expire. Both are compared with a limiter that forgets nothing.
    Times and tokens are reals. */
module RateLimit {
  import opened AttemptResults

  /** `capacity` is the limit itself, `rate` the limit divided by the window. */
  datatype Limit = Limit(capacity: real, rate: real)

  predicate ValidLimit(l: Limit) {
    l.capacity >= 1.0 && l.rate > 0.0
  }

  datatype Bucket = Bucket(tokens: real, updated: real)

  datatype Call = Call(bucket: string, at: real)

  type Buckets = map<string, Bucket>

  /** When the memory limiter starts to forget. */
  const MAX_BUCKETS: nat := 10_000

  function Least(a: real, b: real): (m: real)
    ensures m <= a && m <= b && (m == a || m == b)
  {
    if a <= b then a else b
  }

  function Lookup(buckets: Buckets, key: string): Option<Bucket> {
    if key in buckets then Some(buckets[key]) else None
  }

  function Refill(rate: real, since: real, now: real): real {
    (now - since) * rate
  }

  lemma RefillAdds(rate: real, a: real, b: real, c: real)
    requires rate > 0.0
    ensures Refill(rate, a, b) + Refill(rate, b, c) == Refill(rate, a, c)
    ensures a <= b ==> Refill(rate, a, b) >= 0.0
    ensures a < b ==> Refill(rate, a, b) > 0.0
    ensures b <= c ==> Refill(rate, b, c) >= 0.0
    ensures b < c ==> Refill(rate, b, c) > 0.0
    ensures Refill(rate, a, a) == 0.0
  {
    Distributes(rate, b - a, c - b);
    RefillSign(rate, a, b);
    RefillSign(rate, b, c);
    RefillSign(rate, a, a);
  }

  lemma Distributes(rate: real, x: real, y: real)
    ensures x * rate + y * rate == (x + y) * rate
  {
  }

  lemma RefillSign(rate: real, a: real, b: real)
    requires rate > 0.0
    ensures a == b ==> Refill(rate, a, b) == 0.0
    ensures a < b ==> Refill(rate, a, b) > 0.0
  {
    var elapsed := b - a;
    assert Refill(rate, a, b) == elapsed * rate;
    if elapsed > 0.0 {
      Positive(elapsed, rate);
    }
  }

  lemma Positive(x: real, y: real)
    requires x > 0.0 && y > 0.0
    ensures x * y > 0.0
  {
    var p := x * y;
    Quotient(x, y, p);
  }

  lemma Quotient(x: real, y: real, p: real)
    requires y > 0.0 && p == x * y
    ensures p / y == x
  {
  }

  /** After `amount / rate` seconds, `amount` has refilled, and not before. */
  lemma RefillTakes(rate: real, amount: real, since: real, now: real)
    requires rate > 0.0
    ensures Refill(rate, since, now) >= amount <==> now - since >= amount / rate
  {
    var needed := amount / rate;
    RefillAdds(rate, since, since + needed, now);
    assert Refill(rate, since, since + needed) == amount;
    RefillAdds(rate, since, now, since + needed);
  }

  /** The tokens a bucket offers at a time: refilled since its last use, up to the capacity. */
  function Level(l: Limit, bucket: Option<Bucket>, now: real): (tokens: real)
    ensures tokens <= l.capacity
  {
    if bucket.None? then l.capacity
    else Least(l.capacity, bucket.value.tokens + Refill(l.rate, bucket.value.updated, now))
  }

  function Taken(level: real): real {
    if level < 1.0 then level else level - 1.0
  }

  function Wait(l: Limit, level: real): Option<real>
    requires ValidLimit(l)
  {
    if level < 1.0 then Some((1.0 - level) / l.rate) else None
  }

  /** One call to a limiter that never forgets. */
  function Take(l: Limit, buckets: Buckets, call: Call): Buckets {
    buckets[call.bucket := Bucket(Taken(Level(l, Lookup(buckets, call.bucket), call.at)), call.at)]
  }

  function Answer(l: Limit, buckets: Buckets, call: Call): Option<real>
    requires ValidLimit(l)
  {
    Wait(l, Level(l, Lookup(buckets, call.bucket), call.at))
  }

  function Answers(l: Limit, buckets: Buckets, calls: seq<Call>): (answers: seq<Option<real>>)
    requires ValidLimit(l)
    ensures |answers| == |calls|
    decreases |calls|
  {
    if calls == [] then []
    else [Answer(l, buckets, calls[0])] + Answers(l, Take(l, buckets, calls[0]), calls[1..])
  }

  function After(l: Limit, buckets: Buckets, calls: seq<Call>): Buckets
    decreases |calls|
  {
    if calls == [] then buckets else After(l, Take(l, buckets, calls[0]), calls[1..])
  }

  /** No call is earlier than `start`, or than the call before it. */
  predicate Monotone(calls: seq<Call>, start: real) {
    calls == [] || (start <= calls[0].at && Monotone(calls[1..], calls[0].at))
  }

  ghost predicate Sane(l: Limit, buckets: Buckets, now: real) {
    forall key :: key in buckets ==> 0.0 <= buckets[key].tokens <= l.capacity && buckets[key].updated <= now
  }

  function Granted(key: string, calls: seq<Call>, answers: seq<Option<real>>): nat
    requires |calls| == |answers|
  {
    if calls == [] then 0
    else (if calls[0].bucket == key && answers[0].None? then 1 else 0) + Granted(key, calls[1..], answers[1..])
  }

  // --- refilling ------------------------------------------------------------------------

  lemma Refills(l: Limit, bucket: Option<Bucket>, now: real, later: real)
    requires ValidLimit(l) && now <= later
    ensures Level(l, bucket, now) <= Level(l, bucket, later) <= Level(l, bucket, now) + Refill(l.rate, now, later)
  {
    RefillAdds(l.rate, if bucket.Some? then bucket.value.updated else now, now, later);
  }

  /** Reading the level and storing it again changes no later level. */
  lemma Restored(l: Limit, bucket: Option<Bucket>, now: real, later: real)
    requires ValidLimit(l) && now <= later
    ensures Level(l, Some(Bucket(Level(l, bucket, now), now)), later) == Level(l, bucket, later)
  {
    RefillAdds(l.rate, if bucket.Some? then bucket.value.updated else now, now, later);
  }

  lemma NotNegative(l: Limit, buckets: Buckets, key: string, now: real)
    requires ValidLimit(l) && Sane(l, buckets, now)
    ensures Level(l, Lookup(buckets, key), now) >= 0.0
  {
    if key in buckets {
      RefillAdds(l.rate, buckets[key].updated, now, now);
    }
  }

  lemma TakeIsSane(l: Limit, buckets: Buckets, call: Call, start: real)
    requires ValidLimit(l) && Sane(l, buckets, start) && start <= call.at
    ensures Sane(l, Take(l, buckets, call), call.at)
  {
    NotNegative(l, buckets, call.bucket, call.at);
  }

  // --- the bound ------------------------------------------------------------------------

  /** What is in the bucket now and what refills until `end` is all that can be granted. */
  lemma {:induction false} GrantsAreCovered(l: Limit, buckets: Buckets, key: string, calls: seq<Call>, start: real,
                                            end: real)
    requires ValidLimit(l) && Sane(l, buckets, start) && Monotone(calls, start) && start <= end
    requires forall i :: 0 <= i < |calls| ==> calls[i].at <= end
    ensures Granted(key, calls, Answers(l, buckets, calls)) as real
         <= Level(l, Lookup(buckets, key), start) + Refill(l.rate, start, end)
    decreases |calls|
  {
    if calls == [] {
      RefillAdds(l.rate, start, end, end);
      NotNegative(l, buckets, key, start);
    } else {
      var call := calls[0];
      var next := Take(l, buckets, call);
      TakeIsSane(l, buckets, call, start);
      GrantsAreCovered(l, next, key, calls[1..], call.at, end);
      Refills(l, Lookup(buckets, key), start, call.at);
      RefillAdds(l.rate, start, call.at, end);
      assert Answers(l, buckets, calls)[1..] == Answers(l, next, calls[1..]);
      if call.bucket == key {
        StoredLevel(l, Level(l, Lookup(buckets, key), call.at), call.at);
      } else {
        assert Lookup(next, key) == Lookup(buckets, key);
      }
    }
  }

  lemma StoredLevel(l: Limit, level: real, now: real)
    requires ValidLimit(l) && level <= l.capacity
    ensures Level(l, Some(Bucket(Taken(level), now)), now) == Taken(level)
  {
    RefillAdds(l.rate, now, now, now);
  }

  /** In any stretch of any history, one bucket is granted at most its capacity plus what
      refills during the stretch. */
  lemma GrantsAreBounded(l: Limit, before: seq<Call>, during: seq<Call>, key: string, start: real, a: real, d: real)
    requires ValidLimit(l) && Monotone(before + during, start)
    requires forall i :: 0 <= i < |during| ==> a <= during[i].at <= a + d
    requires d >= 0.0
    ensures Granted(key, during, Answers(l, After(l, map[], before), during)) as real <= l.capacity + d * l.rate
  {
    assert Refill(l.rate, a, a + d) == d * l.rate;
    RefillAdds(l.rate, a, a + d, a + d);
    if during != [] {
      HistoryIsSane(l, map[], before, during, start);
      StretchIsBounded(l, After(l, map[], before), during, key, a, a + d);
    }
  }

  lemma StretchIsBounded(l: Limit, buckets: Buckets, during: seq<Call>, key: string, a: real, end: real)
    requires ValidLimit(l) && during != [] && Sane(l, buckets, during[0].at) && Monotone(during, during[0].at)
    requires forall i :: 0 <= i < |during| ==> a <= during[i].at <= end
    ensures Granted(key, during, Answers(l, buckets, during)) as real <= l.capacity + Refill(l.rate, a, end)
  {
    var first := during[0].at;
    RefillAdds(l.rate, a, first, end);
    GrantsAreCovered(l, buckets, key, during, first, end);
  }

  lemma {:induction false} HistoryIsSane(l: Limit, buckets: Buckets, before: seq<Call>, during: seq<Call>, start: real)
    requires ValidLimit(l) && Sane(l, buckets, start) && Monotone(before + during, start) && during != []
    ensures Sane(l, After(l, buckets, before), during[0].at) && Monotone(during, during[0].at)
    decreases |before|
  {
    if before == [] {
      assert before + during == during;
    } else {
      assert (before + during)[1..] == before[1..] + during;
      TakeIsSane(l, buckets, before[0], start);
      HistoryIsSane(l, Take(l, buckets, before[0]), before[1..], during, before[0].at);
    }
  }

  // --- indistinguishable states ---------------------------------------------------------

  /** No bucket can be told apart, now or later. */
  ghost predicate Equivalent(l: Limit, a: Buckets, b: Buckets, now: real) {
    forall key, t :: t >= now ==> Level(l, Lookup(a, key), t) == Level(l, Lookup(b, key), t)
  }

  lemma TakeKeepsEquivalent(l: Limit, a: Buckets, b: Buckets, call: Call, now: real)
    requires ValidLimit(l) && Equivalent(l, a, b, now) && now <= call.at
    ensures Answer(l, a, call) == Answer(l, b, call)
    ensures Equivalent(l, Take(l, a, call), Take(l, b, call), call.at)
  {
    assert Level(l, Lookup(a, call.bucket), call.at) == Level(l, Lookup(b, call.bucket), call.at);
    var x, y := Take(l, a, call), Take(l, b, call);
    forall key, t | t >= call.at
      ensures Level(l, Lookup(x, key), t) == Level(l, Lookup(y, key), t)
    {
      if key != call.bucket {
        assert Lookup(x, key) == Lookup(a, key) && Lookup(y, key) == Lookup(b, key);
      }
    }
  }

  lemma {:induction false} EquivalentAnswerAlike(l: Limit, a: Buckets, b: Buckets, calls: seq<Call>, now: real)
    requires ValidLimit(l) && Equivalent(l, a, b, now) && Monotone(calls, now)
    ensures Answers(l, a, calls) == Answers(l, b, calls)
    decreases |calls|
  {
    if calls != [] {
      TakeKeepsEquivalent(l, a, b, calls[0], now);
      EquivalentAnswerAlike(l, Take(l, a, calls[0]), Take(l, b, calls[0]), calls[1..], calls[0].at);
    }
  }

  /** A refused call costs nothing: leave it out, and no other answer changes. */
  lemma RefusalIsFree(l: Limit, buckets: Buckets, call: Call, calls: seq<Call>)
    requires ValidLimit(l) && Answer(l, buckets, call).Some? && Monotone(calls, call.at)
    ensures Answers(l, Take(l, buckets, call), calls) == Answers(l, buckets, calls)
  {
    var after := Take(l, buckets, call);
    forall key, t | t >= call.at
      ensures Level(l, Lookup(after, key), t) == Level(l, Lookup(buckets, key), t)
    {
      if key == call.bucket {
        Restored(l, Lookup(buckets, key), call.at, t);
      } else {
        assert Lookup(after, key) == Lookup(buckets, key);
      }
    }
    EquivalentAnswerAlike(l, after, buckets, calls, call.at);
  }

  // --- the wait -------------------------------------------------------------------------

  lemma {:induction false} OthersDoNotMatter(l: Limit, buckets: Buckets, key: string, others: seq<Call>)
    requires forall i :: 0 <= i < |others| ==> others[i].bucket != key
    ensures Lookup(After(l, buckets, others), key) == Lookup(buckets, key)
    decreases |others|
  {
    if others != [] {
      OthersDoNotMatter(l, Take(l, buckets, others[0]), key, others[1..]);
    }
  }

  lemma RefillsToOne(l: Limit, buckets: Buckets, level: real, at: real, wait: real, again: Call)
    requires ValidLimit(l) && level < 1.0 && Wait(l, level) == Some(wait)
    requires Lookup(buckets, again.bucket) == Some(Bucket(level, at))
    ensures Answer(l, buckets, again).None? <==> again.at >= at + wait
  {
    RefillTakes(l.rate, 1.0 - level, at, again.at);
  }

  /** The wait a refused caller is told is the least that works, whatever others do meanwhile:
      its next call is granted if and only if it comes no sooner. */
  lemma WaitIsLeast(l: Limit, buckets: Buckets, refused: Call, others: seq<Call>, again: Call)
    requires ValidLimit(l) && Answer(l, buckets, refused).Some?
    requires again.bucket == refused.bucket
    requires forall i :: 0 <= i < |others| ==> others[i].bucket != refused.bucket
    ensures Answer(l, After(l, Take(l, buckets, refused), others), again).None?
       <==> again.at >= refused.at + Answer(l, buckets, refused).value
  {
    var after := Take(l, buckets, refused);
    OthersDoNotMatter(l, after, refused.bucket, others);
    var level := Level(l, Lookup(buckets, refused.bucket), refused.at);
    RefillsToOne(l, After(l, after, others), level, refused.at, Answer(l, buckets, refused).value, again);
  }

  function Ceil(x: real): (n: int)
    ensures n as real - 1.0 < x <= n as real
  {
    -((-x).Floor)
  }

  /** `retry_after_header`, as a number. */
  function RetryAfter(seconds: real): (header: int)
    ensures header >= 1 && header as real >= seconds
  {
    if Ceil(seconds) > 1 then Ceil(seconds) else 1
  }

  /** The header is the least positive whole number of seconds after which the caller is let
      in (Retry-After, section 10.2.3 of RFC 9110). */
  lemma HeaderIsLeast(l: Limit, buckets: Buckets, refused: Call, others: seq<Call>, whole: int)
    requires ValidLimit(l) && Answer(l, buckets, refused).Some? && whole >= 1
    requires forall i :: 0 <= i < |others| ==> others[i].bucket != refused.bucket
    ensures var again := Call(refused.bucket, refused.at + whole as real);
            Answer(l, After(l, Take(l, buckets, refused), others), again).None?
            <==> whole >= RetryAfter(Answer(l, buckets, refused).value)
  {
    WaitIsLeast(l, buckets, refused, others, Call(refused.bucket, refused.at + whole as real));
  }

  // --- the memory limiter ---------------------------------------------------------------

  function Pruned(l: Limit, buckets: Buckets, now: real): Buckets
    requires ValidLimit(l)
  {
    map key | key in buckets && now - buckets[key].updated < l.capacity / l.rate :: buckets[key]
  }

  function MemoryTake(l: Limit, buckets: Buckets, call: Call): Buckets
    requires ValidLimit(l)
  {
    var taken := Take(l, buckets, call);
    if Answer(l, buckets, call).None? && |taken| > MAX_BUCKETS then Pruned(l, taken, call.at) else taken
  }

  function MemoryAnswers(l: Limit, buckets: Buckets, calls: seq<Call>): (answers: seq<Option<real>>)
    requires ValidLimit(l)
    ensures |answers| == |calls|
    decreases |calls|
  {
    if calls == [] then []
    else [Answer(l, buckets, calls[0])] + MemoryAnswers(l, MemoryTake(l, buckets, calls[0]), calls[1..])
  }

  class MemoryTokenBucket {
    const limit: Limit
    var buckets: Buckets

    constructor (requests: nat, window: real)
      requires requests >= 1 && window > 0.0
      ensures ValidLimit(limit) && limit.capacity == requests as real && limit.rate * window == requests as real
      ensures buckets == map[]
    {
      limit := Limit(requests as real, requests as real / window);
      buckets := map[];
      new;
      assert limit.rate * window == requests as real;
      assert limit.rate > 0.0;
    }

    method Acquire(bucket: string, now: real) returns (wait: Option<real>)
      requires ValidLimit(limit)
      modifies this`buckets
      ensures wait == Answer(limit, old(buckets), Call(bucket, now))
      ensures buckets == MemoryTake(limit, old(buckets), Call(bucket, now))
    {
      var state := if bucket in buckets then buckets[bucket] else Bucket(limit.capacity, now);
      var tokens := Least(limit.capacity, state.tokens + Refill(limit.rate, state.updated, now));
      RefillAdds(limit.rate, now, now, now);
      if tokens < 1.0 {
        buckets := buckets[bucket := Bucket(tokens, now)];
        return Some((1.0 - tokens) / limit.rate);
      }
      buckets := buckets[bucket := Bucket(tokens - 1.0, now)];
      if |buckets| > MAX_BUCKETS {
        Prune(now);
      }
      return None;
    }

    method Prune(now: real)
      requires ValidLimit(limit)
      modifies this`buckets
      ensures buckets == Pruned(limit, old(buckets), now)
    {
      var fullAfter := limit.capacity / limit.rate;
      buckets := map key | key in buckets && now - buckets[key].updated < fullAfter :: buckets[key];
    }
  }

  lemma IdleIsFull(l: Limit, bucket: Bucket, now: real)
    requires ValidLimit(l) && bucket.tokens >= 0.0 && now - bucket.updated >= l.capacity / l.rate
    ensures Level(l, Some(bucket), now) == l.capacity
  {
    RefillTakes(l.rate, l.capacity, bucket.updated, now);
  }

  lemma PruneIsEquivalent(l: Limit, buckets: Buckets, now: real)
    requires ValidLimit(l) && Sane(l, buckets, now)
    ensures Equivalent(l, Pruned(l, buckets, now), buckets, now)
  {
    var pruned := Pruned(l, buckets, now);
    forall key, t | t >= now
      ensures Level(l, Lookup(pruned, key), t) == Level(l, Lookup(buckets, key), t)
    {
      if key in buckets && key !in pruned {
        IdleIsFull(l, buckets[key], t);
      }
    }
  }

  /** Forgetting is unobservable: on every history the memory limiter answers as the limiter
      that never forgets. */
  lemma PruningIsUnobservable(l: Limit, calls: seq<Call>, start: real)
    requires ValidLimit(l) && Monotone(calls, start)
    ensures MemoryAnswers(l, map[], calls) == Answers(l, map[], calls)
  {
    MemoryAgrees(l, map[], map[], calls, start);
  }

  lemma {:induction false} MemoryAgrees(l: Limit, memory: Buckets, whole: Buckets, calls: seq<Call>, now: real)
    requires ValidLimit(l) && Monotone(calls, now)
    requires Sane(l, memory, now) && Equivalent(l, memory, whole, now)
    ensures MemoryAnswers(l, memory, calls) == Answers(l, whole, calls)
    decreases |calls|
  {
    if calls != [] {
      var call := calls[0];
      TakeKeepsEquivalent(l, memory, whole, call, now);
      TakeIsSane(l, memory, call, now);
      var taken, next := Take(l, memory, call), MemoryTake(l, memory, call);
      PruneIsEquivalent(l, taken, call.at);
      assert Sane(l, next, call.at);
      EquivalentIsTransitive(l, next, taken, Take(l, whole, call), call.at);
      MemoryAgrees(l, next, Take(l, whole, call), calls[1..], call.at);
    }
  }

  lemma EquivalentIsTransitive(l: Limit, a: Buckets, b: Buckets, c: Buckets, now: real)
    requires (a == b || Equivalent(l, a, b, now)) && Equivalent(l, b, c, now)
    ensures Equivalent(l, a, c, now)
  {
  }

  // --- the Redis script -----------------------------------------------------------------

  /** A hash and the time its key expires. */
  datatype Entry = Entry(bucket: Bucket, expires: real)

  type Hashes = map<string, Entry>

  function Stored(store: Hashes, key: string, now: real): Option<Bucket> {
    if key in store && now < store[key].expires then Some(store[key].bucket) else None
  }

  function Script(l: Limit, store: Hashes, call: Call): (result: (Hashes, int))
    requires ValidLimit(l)
  {
    var level := Level(l, Stored(store, call.bucket, call.at), call.at);
    var wait := if level < 1.0 then Ceil((1.0 - level) / l.rate * 1000.0) else 0;
    var expires := call.at + (Ceil(l.capacity / l.rate) + 1) as real;
    (store[call.bucket := Entry(Bucket(Taken(level), call.at), expires)], wait)
  }

  function ScriptAnswers(l: Limit, store: Hashes, calls: seq<Call>): (answers: seq<int>)
    requires ValidLimit(l)
    ensures |answers| == |calls|
    decreases |calls|
  {
    if calls == [] then []
    else var (next, wait) := Script(l, store, calls[0]); [wait] + ScriptAnswers(l, next, calls[1..])
  }

  /** `RedisTokenBucket.acquire` turns the script's milliseconds into its answer. */
  function FromMilliseconds(wait: int): Option<real> {
    if wait != 0 then Some(wait as real / 1000.0) else None
  }

  ghost predicate Backed(l: Limit, store: Hashes, whole: Buckets, now: real)
    requires ValidLimit(l)
  {
    && Sane(l, whole, now)
    && (forall key :: key in whole <==> key in store)
    && (forall key :: key in store ==>
          store[key].bucket == whole[key] && store[key].expires >= whole[key].updated + l.capacity / l.rate)
  }

  lemma ScriptStep(l: Limit, store: Hashes, whole: Buckets, call: Call, now: real)
    requires ValidLimit(l) && Backed(l, store, whole, now) && now <= call.at
    ensures Backed(l, Script(l, store, call).0, Take(l, whole, call), call.at)
    ensures ScriptWait(Answer(l, whole, call), Script(l, store, call).1)
  {
    var key := call.bucket;
    if key in store && call.at >= store[key].expires {
      IdleIsFull(l, whole[key], call.at);
    }
    var level := Level(l, Lookup(whole, key), call.at);
    assert Level(l, Stored(store, key, call.at), call.at) == level;
    if level < 1.0 {
      var wait := (1.0 - level) / l.rate;
      assert wait * l.rate == 1.0 - level;
      assert wait > 0.0;
    }
    TakeIsSane(l, whole, call, now);
  }

  /** The script's number for an answer: 0 for a grant, else the wait in milliseconds,
      rounded up. */
  predicate ScriptWait(answer: Option<real>, wait: int) {
    && (wait == 0 <==> answer.None?)
    && (answer.Some? ==> wait == Ceil(answer.value * 1000.0))
  }

  /** Expiry is unobservable, and the script returns 0 exactly when it grants: on every
      history it agrees with the limiter that never forgets. */
  lemma ExpiryIsUnobservable(l: Limit, calls: seq<Call>, start: real, i: nat)
    requires ValidLimit(l) && Monotone(calls, start) && i < |calls|
    ensures ScriptWait(Answers(l, map[], calls)[i], ScriptAnswers(l, map[], calls)[i])
  {
    ScriptAgrees(l, map[], map[], calls, start, i);
  }

  lemma {:induction false} ScriptAgrees(l: Limit, store: Hashes, whole: Buckets, calls: seq<Call>, now: real, i: nat)
    requires ValidLimit(l) && Monotone(calls, now) && Backed(l, store, whole, now) && i < |calls|
    ensures ScriptWait(Answers(l, whole, calls)[i], ScriptAnswers(l, store, calls)[i])
    decreases i
  {
    ScriptStep(l, store, whole, calls[0], now);
    if i > 0 {
      ScriptAgrees(l, Script(l, store, calls[0]).0, Take(l, whole, calls[0]), calls[1..], calls[0].at, i - 1);
    }
  }

  /** So both limiters grant the same calls, and the Redis one asks for at most a millisecond
      more: never less, so the wait it gives suffices too. */
  lemma BackendsAgree(l: Limit, calls: seq<Call>, start: real, i: nat)
    requires ValidLimit(l) && Monotone(calls, start) && i < |calls|
    ensures var memory, redis := MemoryAnswers(l, map[], calls)[i], FromMilliseconds(ScriptAnswers(l, map[], calls)[i]);
            && (memory.None? <==> redis.None?)
            && (memory.Some? ==> memory.value <= redis.value < memory.value + 0.001)
  {
    PruningIsUnobservable(l, calls, start);
    ExpiryIsUnobservable(l, calls, start, i);
  }
}
