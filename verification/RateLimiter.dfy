/** The gateway's sliding-window limiter against the full history of what it let through. */
module RateLimiter {
  import opened Sums

  const WINDOW := 60.0

  ghost predicate Ordered(times: seq<real>)
  {
    forall j, k :: 0 <= j < k < |times| ==> times[j] <= times[k]
  }

  ghost function InWindow(from: real, to: real): real -> int
  {
    (t: real) => if from <= t <= to then 1 else 0
  }

  /** How many of the accepted requests fall into the closed interval. */
  ghost function CountIn(times: seq<real>, from: real, to: real): int
  {
    Sum(times, InWindow(from, to))
  }

  /** Accepted requests in the closed minute that starts at `from`. */
  ghost function MinuteCount(times: seq<real>, from: real): int
  {
    CountIn(times, from, from + WINDOW)
  }

  /** No closed window of one minute, wherever it starts, holds more than `limit`. */
  ghost predicate WithinLimit(times: seq<real>, limit: int)
  {
    forall from: real :: MinuteCount(times, from) <= limit
  }

  lemma {:induction false} CountOld(times: seq<real>, from: real, to: real)
    requires forall k :: 0 <= k < |times| ==> times[k] < from
    ensures CountIn(times, from, to) == 0
  {
    SumZero(times, InWindow(from, to));
  }

  lemma {:induction false} CountRecent(times: seq<real>, from: real, to: real)
    requires forall k :: 0 <= k < |times| ==> from <= times[k] <= to
    ensures CountIn(times, from, to) == |times|
  {
    if times != [] {
      CountRecent(times[..|times| - 1], from, to);
    }
  }

  lemma CountBigger(times: seq<real>, from: real, to: real, from': real, to': real)
    requires forall k :: 0 <= k < |times| ==> from <= times[k] <= to ==> from' <= times[k] <= to'
    ensures CountIn(times, from, to) <= CountIn(times, from', to')
  {
    SumMono(times, InWindow(from, to), times, InWindow(from', to'));
  }

  /** Letting one more request through at `now` is safe if the minute up to `now` has room. */
  lemma AcceptKeepsLimit(times: seq<real>, limit: int, now: real)
    requires Ordered(times) && (times != [] ==> times[|times| - 1] <= now)
    requires WithinLimit(times, limit) && CountIn(times, now - WINDOW, now) < limit
    ensures WithinLimit(times + [now], limit)
  {
    forall from: real ensures MinuteCount(times + [now], from) <= limit {
      SumSnoc(times, now, InWindow(from, from + WINDOW));
      if from <= now <= from + WINDOW {
        CountBigger(times, from, from + WINDOW, now - WINDOW, now);
      } else {
        assert MinuteCount(times, from) <= limit;
      }
    }
  }

  /** The bucket is the recent end of the history; what it lost is older than a minute. */
  ghost predicate Refines(history: seq<real>, bucket: seq<real>, lastSeen: real)
  {
    && Ordered(history) && (history != [] ==> history[|history| - 1] <= lastSeen)
    && Tail(history, bucket, lastSeen - WINDOW)
  }

  /** `bucket` is what is left of `history` when only entries older than `bound` were popped. */
  ghost predicate Tail(history: seq<real>, bucket: seq<real>, bound: real)
  {
    && |bucket| <= |history|
    && (forall k :: 0 <= k < |bucket| ==> bucket[k] == history[|history| - |bucket| + k])
    && forall k :: 0 <= k < |history| - |bucket| ==> history[k] < bound
  }

  ghost predicate Good(history: seq<real>, bucket: seq<real>, lastSeen: real, limit: int)
  {
    Refines(history, bucket, lastSeen) && (limit >= 0 ==> WithinLimit(history, limit))
  }

  /** One call for one consumer: pop what is stale, compare, append. */
  method Decide(bucket: seq<real>, limit: int, now: real, ghost history: seq<real>, ghost lastSeen: real)
    returns (limited: bool, bucket': seq<real>)
    requires Good(history, bucket, lastSeen, limit) && lastSeen <= now
    ensures limited <==> CountIn(history, now - WINDOW, now) >= limit
    ensures Good(history + if limited then [] else [now], bucket', now, limit)
  {
    bucket' := PopStale(bucket, now - WINDOW, history, lastSeen - WINDOW);
    BucketCounts(history, bucket', now);
    limited := |bucket'| >= limit;
    if limited {
      assert history + [] == history;
    } else {
      AcceptRefines(history, bucket', now);
      if limit >= 0 {
        AcceptKeepsLimit(history, limit, now);
      }
      bucket' := bucket' + [now];
    }
  }

  class Limiter {
    /** `_rate_limit_buckets`; a missing key reads as an empty deque. */
    var buckets: map<string, seq<real>>

    /** Every request let through so far, per consumer, and the last time the clock was read. */
    ghost var accepted: map<string, seq<real>>
    ghost var lastSeen: real
    const limit: int

    ghost function History(consumer: string): seq<real>
      reads this
    {
      if consumer in accepted then accepted[consumer] else []
    }

    function Bucket(consumer: string): seq<real>
      reads this
    {
      if consumer in buckets then buckets[consumer] else []
    }

    ghost predicate ConsumerOk(consumer: string)
      reads this
    {
      Good(History(consumer), Bucket(consumer), lastSeen, limit)
    }

    ghost predicate Valid()
      reads this
    {
      forall consumer: string :: ConsumerOk(consumer)
    }

    constructor (limit: int, now: real)
      ensures Valid() && this.limit == limit && accepted == map[] && lastSeen == now
    {
      this.limit := limit;
      this.buckets, this.accepted, this.lastSeen := map[], map[], now;
      if limit >= 0 {
        NothingYet(limit);
      }
    }

    /** In every reachable state: no closed minute holds more than `limit` accepted requests of a consumer. */
    lemma NeverAboveLimit(consumer: string, from: real)
      requires Valid() && limit >= 0
      ensures CountIn(History(consumer), from, from + 60.0) <= limit
    {
      assert ConsumerOk(consumer);
      assert MinuteCount(History(consumer), from) <= limit;
    }

    /** Rejected exactly when the last minute, both ends included, already holds `limit` accepted requests. */
    method IsRateLimited(consumer: string, now: real) returns (limited: bool)
      requires Valid() && lastSeen <= now
      modifies this
      ensures Valid() && lastSeen == now
      ensures limited <==> CountIn(old(History(consumer)), now - 60.0, now) >= limit
      ensures History(consumer) == old(History(consumer)) + if limited then [] else [now]
      ensures forall other :: other != consumer ==> History(other) == old(History(other))
    {
      assert ConsumerOk(consumer);
      ghost var history := History(consumer);
      var bucket;
      limited, bucket := Decide(Bucket(consumer), limit, now, history, lastSeen);
      ghost var history' := history + if limited then [] else [now];
      buckets := buckets[consumer := bucket];
      accepted := accepted[consumer := history'];
      lastSeen := now;
      assert History(consumer) == history' && Bucket(consumer) == bucket;
      forall other: string | other != consumer ensures ConsumerOk(other) && History(other) == old(History(other)) {
        assert old(ConsumerOk(other));
        GoodLater(old(History(other)), old(Bucket(other)), old(lastSeen), now, limit);
      }
    }
  }

  /** After the stale end is popped the bucket is exactly what the last minute holds. */
  lemma BucketCounts(history: seq<real>, bucket: seq<real>, now: real)
    requires Ordered(history) && Tail(history, bucket, now - WINDOW)
    requires history != [] ==> history[|history| - 1] <= now
    requires bucket != [] ==> bucket[0] >= now - WINDOW
    ensures CountIn(history, now - WINDOW, now) == |bucket|
  {
    var cut := |history| - |bucket|;
    TailSplits(history, bucket, now - WINDOW);
    SumAppend(history[..cut], bucket, InWindow(now - WINDOW, now));
    CountOld(history[..cut], now - WINDOW, now);
    TailIsRecent(history, bucket, now);
    CountRecent(bucket, now - WINDOW, now);
  }

  lemma TailSplits(history: seq<real>, bucket: seq<real>, bound: real)
    requires Tail(history, bucket, bound)
    ensures history == history[..|history| - |bucket|] + bucket
  {
  }

  lemma TailIsRecent(history: seq<real>, bucket: seq<real>, now: real)
    requires Ordered(history) && Tail(history, bucket, now - WINDOW)
    requires history != [] ==> history[|history| - 1] <= now
    requires bucket != [] ==> bucket[0] >= now - WINDOW
    ensures forall k :: 0 <= k < |bucket| ==> now - WINDOW <= bucket[k] <= now
  {
    var cut := |history| - |bucket|;
    forall k | 0 <= k < |bucket| ensures now - WINDOW <= bucket[k] <= now {
      assert bucket[0] == history[cut] && bucket[k] == history[cut + k];
      assert k > 0 ==> history[cut] <= history[cut + k];
      assert cut + k < |history| - 1 ==> history[cut + k] <= history[|history| - 1];
    }
  }

  /** Popping entries older than the new bound keeps the bucket the recent end of the history. */
  method PopStale(bucket: seq<real>, bound: real, ghost history: seq<real>, ghost before: real) returns (rest: seq<real>)
    requires Tail(history, bucket, before) && before <= bound
    ensures Tail(history, rest, bound) && (rest != [] ==> rest[0] >= bound)
  {
    rest := bucket;
    while rest != [] && rest[0] < bound
      invariant Tail(history, rest, bound)
      decreases |rest|
    {
      rest := rest[1..];
    }
  }

  lemma RefinesLater(history: seq<real>, bucket: seq<real>, lastSeen: real, now: real)
    requires Refines(history, bucket, lastSeen) && lastSeen <= now
    ensures Refines(history, bucket, now)
  {
  }

  lemma GoodLater(history: seq<real>, bucket: seq<real>, lastSeen: real, now: real, limit: int)
    requires Good(history, bucket, lastSeen, limit) && lastSeen <= now
    ensures Good(history, bucket, now, limit)
  {
    RefinesLater(history, bucket, lastSeen, now);
  }

  lemma AcceptRefines(history: seq<real>, bucket: seq<real>, now: real)
    requires Ordered(history) && (history != [] ==> history[|history| - 1] <= now) && Tail(history, bucket, now - WINDOW)
    ensures Refines(history + [now], bucket + [now], now)
  {
    forall j, k | 0 <= j < k < |history| + 1 ensures (history + [now])[j] <= (history + [now])[k] {
      assert j < |history| - 1 ==> history[j] <= history[|history| - 1];
    }
  }

  lemma NothingYet(limit: int)
    requires limit >= 0
    ensures WithinLimit([], limit)
  {
    forall from: real ensures MinuteCount([], from) <= limit {
      CountOld([], from, from + WINDOW);
    }
  }
}
