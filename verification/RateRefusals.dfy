/** When a limiter refuses, exactly: only a caller that has already been granted too much. */
module RateRefusals {
  import opened AttemptResults
  import opened RateLimit

  /** The grants to `key` during `calls`, from `buckets` on. */
  function Grants(l: Limit, buckets: Buckets, calls: seq<Call>, key: string): nat
    requires ValidLimit(l)
  {
    Granted(key, calls, Answers(l, buckets, calls))
  }

  /** The same, from the `j`-th call on. */
  function GrantsSince(l: Limit, buckets: Buckets, calls: seq<Call>, key: string, j: int): nat
    requires ValidLimit(l) && 0 <= j <= |calls|
  {
    Grants(l, After(l, buckets, calls[..j]), calls[j..], key)
  }

  lemma GrantsCons(l: Limit, buckets: Buckets, calls: seq<Call>, key: string)
    requires ValidLimit(l) && calls != []
    ensures Grants(l, buckets, calls, key)
         == Grants(l, Take(l, buckets, calls[0]), calls[1..], key)
            + if calls[0].bucket == key && Answer(l, buckets, calls[0]).None? then 1 else 0
  {
    assert Answers(l, buckets, calls)[1..] == Answers(l, Take(l, buckets, calls[0]), calls[1..]);
  }

  lemma GrantsSinceCons(l: Limit, buckets: Buckets, calls: seq<Call>, key: string, j: int)
    requires ValidLimit(l) && calls != [] && 0 <= j <= |calls| - 1
    ensures GrantsSince(l, Take(l, buckets, calls[0]), calls[1..], key, j) == GrantsSince(l, buckets, calls, key, j + 1)
  {
    assert calls[..j + 1][1..] == calls[1..][..j] && calls[1..][j..] == calls[j + 1..];
  }

  // --- what is left ---------------------------------------------------------------------------

  /** What calls have been granted is gone from the bucket, whatever has refilled. */
  lemma {:induction false} GrantsAreSpent(l: Limit, buckets: Buckets, calls: seq<Call>, key: string, start: real,
                                          end: real)
    requires ValidLimit(l) && Sane(l, buckets, start) && Monotone(calls, start) && start <= end
    requires forall i :: 0 <= i < |calls| ==> calls[i].at <= end
    ensures Level(l, Lookup(After(l, buckets, calls), key), end) + Grants(l, buckets, calls, key) as real
         <= Level(l, Lookup(buckets, key), start) + Refill(l.rate, start, end)
    decreases |calls|
  {
    if calls == [] {
      Refills(l, Lookup(buckets, key), start, end);
    } else {
      var call := calls[0];
      var next := Take(l, buckets, call);
      TakeIsSane(l, buckets, call, start);
      GrantsAreSpent(l, next, calls[1..], key, call.at, end);
      Refills(l, Lookup(buckets, key), start, call.at);
      RefillAdds(l.rate, start, call.at, end);
      GrantsCons(l, buckets, calls, key);
      if call.bucket == key {
        StoredLevel(l, Level(l, Lookup(buckets, key), call.at), call.at);
      } else {
        assert Lookup(next, key) == Lookup(buckets, key);
      }
    }
  }

  /** From the `j`-th call on, which finds the bucket full, everything that refills is kept
      but for the grants. */
  ghost predicate FullAt(l: Limit, buckets: Buckets, calls: seq<Call>, key: string, t: real, j: int)
    requires ValidLimit(l)
  {
    && 0 <= j < |calls| && calls[j].bucket == key
    && Level(l, Lookup(After(l, buckets, calls), key), t)
       == l.capacity + Refill(l.rate, calls[j].at, t) - GrantsSince(l, buckets, calls, key, j) as real
  }

  /** Nothing has overflowed since the start. */
  ghost predicate NeverFull(l: Limit, buckets: Buckets, calls: seq<Call>, key: string, t: real)
    requires ValidLimit(l)
  {
    && key in buckets
    && Level(l, Lookup(After(l, buckets, calls), key), t)
       == buckets[key].tokens + Refill(l.rate, buckets[key].updated, t) - Grants(l, buckets, calls, key) as real
  }

  /** A bucket is full, or it was when some call came, or it never has been. */
  lemma {:induction false} LevelIs(l: Limit, buckets: Buckets, calls: seq<Call>, key: string, t: real)
    requires ValidLimit(l)
    ensures || Level(l, Lookup(After(l, buckets, calls), key), t) == l.capacity
            || NeverFull(l, buckets, calls, key, t)
            || exists j :: FullAt(l, buckets, calls, key, t, j)
    decreases |calls|
  {
    if calls != [] && Level(l, Lookup(After(l, buckets, calls), key), t) != l.capacity {
      var call := calls[0];
      var next := Take(l, buckets, call);
      LevelIs(l, next, calls[1..], key, t);
      GrantsCons(l, buckets, calls, key);
      if j :| FullAt(l, next, calls[1..], key, t, j) {
        GrantsSinceCons(l, buckets, calls, key, j);
        assert FullAt(l, buckets, calls, key, t, j + 1);
      } else if call.bucket == key {
        FirstCallIs(l, buckets, calls, t);
      } else {
        assert Lookup(next, key) == Lookup(buckets, key);
      }
    }
  }

  lemma FirstCallIs(l: Limit, buckets: Buckets, calls: seq<Call>, t: real)
    requires ValidLimit(l) && calls != []
    requires NeverFull(l, Take(l, buckets, calls[0]), calls[1..], calls[0].bucket, t)
    ensures FullAt(l, buckets, calls, calls[0].bucket, t, 0) || NeverFull(l, buckets, calls, calls[0].bucket, t)
  {
    var call, key := calls[0], calls[0].bucket;
    GrantsCons(l, buckets, calls, key);
    assert calls[..0] == [] && calls[0..] == calls;
    var level := Level(l, Lookup(buckets, key), call.at);
    if level != l.capacity {
      RefillAdds(l.rate, buckets[key].updated, call.at, t);
    }
  }

  // --- refusals -------------------------------------------------------------------------------

  /** Since the `j`-th call, a call to the same bucket, there were more grants than one less than
      the capacity and what has refilled since then allow. */
  ghost predicate TooMany(l: Limit, before: seq<Call>, call: Call, j: int)
    requires ValidLimit(l)
  {
    && 0 <= j < |before| && before[j].bucket == call.bucket
    && GrantsSince(l, map[], before, call.bucket, j) as real
       > l.capacity - 1.0 + Refill(l.rate, before[j].at, call.at)
  }

  lemma {:induction false} MonotoneSplits(a: seq<Call>, b: seq<Call>, start: real)
    requires Monotone(a + b, start)
    ensures Monotone(a, start)
    ensures b != [] ==> start <= b[0].at && forall i :: 0 <= i < |a| ==> start <= a[i].at <= b[0].at
    ensures b != [] ==> Monotone(b, b[0].at)
    decreases |a|
  {
    if a == [] {
      assert a + b == b;
    } else {
      assert (a + b)[1..] == a[1..] + b;
      MonotoneSplits(a[1..], b, a[0].at);
    }
  }

  lemma StretchSpends(l: Limit, before: seq<Call>, call: Call, start: real, j: int)
    requires ValidLimit(l) && Monotone(before + [call], start) && 0 <= j < |before| && before[j].bucket == call.bucket
    ensures Level(l, Lookup(After(l, map[], before), call.bucket), call.at)
         <= l.capacity + Refill(l.rate, before[j].at, call.at) - GrantsSince(l, map[], before, call.bucket, j) as real
  {
    var early, late := before[..j], before[j..];
    assert early + (late + [call]) == before + [call] && early + late == before;
    HistoryIsSane(l, map[], early, late + [call], start);
    MonotoneSplits(before, [call], start);
    MonotoneSplits(late, [call], late[0].at);
    assert (late + [call])[0] == late[0];
    GrantsAreSpent(l, After(l, map[], early), late, call.bucket, late[0].at, call.at);
    AfterAfter(l, map[], early, late);
  }

  lemma {:induction false} AfterAfter(l: Limit, buckets: Buckets, a: seq<Call>, b: seq<Call>)
    ensures After(l, After(l, buckets, a), b) == After(l, buckets, a + b)
    decreases |a|
  {
    if a == [] {
      assert a + b == b;
    } else {
      assert (a + b)[1..] == a[1..] + b;
      AfterAfter(l, Take(l, buckets, a[0]), a[1..], b);
    }
  }

  /** A call is refused if and only if some earlier stretch that ends with it, from a call to the
      same bucket on, already has more grants than its capacity less one and what refills in
      that time. */
  lemma RefusedExactly(l: Limit, before: seq<Call>, call: Call, start: real)
    requires ValidLimit(l) && Monotone(before + [call], start)
    ensures Answer(l, After(l, map[], before), call).Some? <==> exists j :: TooMany(l, before, call, j)
  {
    LevelIs(l, map[], before, call.bucket, call.at);
    if j :| TooMany(l, before, call, j) {
      StretchSpends(l, before, call, start, j);
    } else if j :| FullAt(l, map[], before, call.bucket, call.at, j) {
      assert !TooMany(l, before, call, j);
    }
  }

  lemma {:induction false} GrantsAtMost(l: Limit, buckets: Buckets, calls: seq<Call>, key: string)
    requires ValidLimit(l)
    ensures Grants(l, buckets, calls, key) <= |calls|
    decreases |calls|
  {
    if calls != [] {
      GrantsCons(l, buckets, calls, key);
      GrantsAtMost(l, Take(l, buckets, calls[0]), calls[1..], key);
    }
  }

  /** As many calls as the limit says are all let in, however fast they come. */
  lemma BurstIsGranted(l: Limit, before: seq<Call>, call: Call, start: real)
    requires ValidLimit(l) && Monotone(before + [call], start) && (|before| + 1) as real <= l.capacity
    ensures Answer(l, After(l, map[], before), call).None?
  {
    RefusedExactly(l, before, call, start);
    MonotoneSplits(before, [call], start);
    forall j | 0 <= j < |before|
      ensures !TooMany(l, before, call, j)
    {
      GrantsAtMost(l, After(l, map[], before[..j]), before[j..], call.bucket);
      RefillAdds(l.rate, before[j].at, call.at, call.at);
    }
  }

  /** The answers of a history are the answers to its calls, each after those before it. */
  lemma {:induction false} AnswersAt(l: Limit, buckets: Buckets, calls: seq<Call>, i: nat)
    requires ValidLimit(l) && i < |calls|
    ensures Answers(l, buckets, calls)[i] == Answer(l, After(l, buckets, calls[..i]), calls[i])
    decreases i
  {
    if i > 0 {
      AnswersAt(l, Take(l, buckets, calls[0]), calls[1..], i - 1);
      assert calls[..i][1..] == calls[1..][..i - 1];
    }
  }

  /** So for both backends: the i-th call of a history is refused exactly if one bucket had too
      many grants before it. */
  lemma BackendsRefuseExactly(l: Limit, calls: seq<Call>, start: real, i: nat)
    requires ValidLimit(l) && Monotone(calls, start) && i < |calls|
    ensures MemoryAnswers(l, map[], calls)[i].Some? <==> exists j :: TooMany(l, calls[..i], calls[i], j)
    ensures ScriptAnswers(l, map[], calls)[i] != 0 <==> exists j :: TooMany(l, calls[..i], calls[i], j)
  {
    assert calls == (calls[..i] + [calls[i]]) + calls[i + 1..];
    MonotoneSplits(calls[..i] + [calls[i]], calls[i + 1..], start);
    RefusedExactly(l, calls[..i], calls[i], start);
    AnswersAt(l, map[], calls, i);
    PruningIsUnobservable(l, calls, start);
    ExpiryIsUnobservable(l, calls, start, i);
  }
}
