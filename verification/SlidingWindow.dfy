/**
 The rate limiter: a sorted set per key, pruned on every hit and left to expire, against the full
 history of hits. One clock, in milliseconds, stands for both the caller's and the store's.
 */
module SlidingWindow {
  import opened Options

  datatype Bucket = Bucket(name: string, limit: nat, windowSeconds: nat)

  /** Bucket names are unique, so a key fixes its window. */
  datatype Key = Key(bucket: Bucket, identifier: string)

  /** Members are unique per hit, so only their scores matter. */
  datatype SortedSet = SortedSet(scores: seq<int>, expiresAt: int)

  /** A hit the store has recorded; the count may have been lost on the way back. */
  datatype Arrival = Arrival(at: int, answered: bool)

  function Window(bucket: Bucket): nat {
    bucket.windowSeconds * 1000
  }

  // ---------- The full history ----------

  /** Times are not negative and never go back. */
  predicate Ordered(hits: seq<Arrival>) {
    hits == [] || (Ordered(hits[..|hits| - 1]) && LastOf(hits[..|hits| - 1]) <= hits[|hits| - 1].at)
  }

  function LastOf(hits: seq<Arrival>): int {
    if hits == [] then 0 else hits[|hits| - 1].at
  }

  lemma {:induction false} OrderedIsBounded(hits: seq<Arrival>)
    requires Ordered(hits)
    ensures forall i :: 0 <= i < |hits| ==> 0 <= hits[i].at <= LastOf(hits)
  {
    if hits != [] {
      OrderedIsBounded(hits[..|hits| - 1]);
    }
  }

  function CountAfter(hits: seq<Arrival>, start: int): nat {
    if hits == [] then 0
    else CountAfter(hits[..|hits| - 1], start) + if hits[|hits| - 1].at > start then 1 else 0
  }

  /** The hit was let through on its count. */
  predicate Granted(hits: seq<Arrival>, i: nat, bucket: Bucket)
    requires i < |hits|
  {
    hits[i].answered && CountAfter(hits[..i], hits[i].at - Window(bucket)) + 1 <= bucket.limit
  }

  /** How many granted hits fall in (start, end]. */
  function GrantedWithin(hits: seq<Arrival>, bucket: Bucket, start: int, end: int): nat {
    if hits == [] then 0
    else
      var last := |hits| - 1;
      GrantedWithin(hits[..last], bucket, start, end)
      + if start < hits[last].at <= end && Granted(hits, last, bucket) then 1 else 0
  }

  lemma {:induction false} GrantedAreHits(hits: seq<Arrival>, bucket: Bucket, start: int, end: int, from: int)
    requires from <= start
    ensures GrantedWithin(hits, bucket, start, end) <= CountAfter(hits, from)
  {
    if hits != [] {
      GrantedAreHits(hits[..|hits| - 1], bucket, start, end, from);
    }
  }

  /** No window of the bucket's length, wherever it lies, holds more than `limit` granted hits. */
  lemma {:induction false} NoWindowHoldsMoreThanTheLimit(hits: seq<Arrival>, bucket: Bucket, end: int)
    requires Ordered(hits)
    ensures GrantedWithin(hits, bucket, end - Window(bucket), end) <= bucket.limit
  {
    if hits != [] {
      var last := |hits| - 1;
      NoWindowHoldsMoreThanTheLimit(hits[..last], bucket, end);
      if hits[last].at <= end {
        GrantedAreHits(hits[..last], bucket, end - Window(bucket), end, hits[last].at - Window(bucket));
      }
    }
  }

  /**
   The count without counting: fewer than `limit` hits lie after `start` exactly when there is no
   limit-th most recent hit or it is no later than `start`. Refused hits count too, so a caller who never
   pauses stays refused.
   */
  lemma {:induction false} RoomMeansTheOldHitLeft(hits: seq<Arrival>, start: int, limit: nat)
    requires Ordered(hits) && limit >= 1
    ensures CountAfter(hits, start) < limit <==> |hits| < limit || hits[|hits| - limit].at <= start
    decreases |hits|
  {
    if hits != [] {
      var last := |hits| - 1;
      if hits[last].at <= start {
        OrderedIsBounded(hits);
        NoneAfter(hits, start);
      } else if limit > 1 {
        RoomMeansTheOldHitLeft(hits[..last], start, limit - 1);
      }
      if hits[last].at > start {
        assert CountAfter(hits, start) == CountAfter(hits[..last], start) + 1;
      }
    }
  }

  lemma {:induction false} NoneAfter(hits: seq<Arrival>, start: int)
    requires forall i :: 0 <= i < |hits| ==> hits[i].at <= start
    ensures CountAfter(hits, start) == 0
  {
    if hits != [] {
      NoneAfter(hits[..|hits| - 1], start);
    }
  }

  // ---------- The sorted set ----------

  /** ZREMRANGEBYSCORE key 0 start. */
  function Pruned(scores: seq<int>, start: int): seq<int> {
    if scores == [] then []
    else
      var last := |scores| - 1;
      Pruned(scores[..last], start) + if 0 <= scores[last] <= start then [] else [scores[last]]
  }

  /** What the store still shows of a key: nothing once it has expired. */
  function Visible(sets: map<Key, SortedSet>, key: Key, now: int): seq<int> {
    if key in sets then Shown(sets[key], now) else []
  }

  function Shown(s: SortedSet, now: int): seq<int> {
    if now < s.expiresAt then s.scores else []
  }

  function HitsOf(history: map<Key, seq<Arrival>>, key: Key): seq<Arrival> {
    if key in history then history[key] else []
  }

  function Times(hits: seq<Arrival>): (times: seq<int>)
    ensures |times| == |hits|
    ensures forall i :: 0 <= i < |hits| ==> times[i] == hits[i].at
  {
    seq(|hits|, i requires 0 <= i < |hits| => hits[i].at)
  }

  /** From now on, what pruning leaves of the stored set is what it would leave of the whole history. */
  ghost predicate Tracks(s: SortedSet, hits: seq<Arrival>, window: nat) {
    && hits != []
    && (Ordered(hits) ==> forall now :: LastOf(hits) <= now ==> Sees(s, hits, window, now))
  }

  predicate Sees(s: SortedSet, hits: seq<Arrival>, window: nat, now: int) {
    Pruned(Shown(s, now), now - window) == Pruned(Times(hits), now - window)
  }

  lemma {:induction false} PruneAgain(scores: seq<int>, earlier: int, later: int)
    requires earlier <= later
    ensures Pruned(Pruned(scores, earlier), later) == Pruned(scores, later)
  {
    if scores != [] {
      var last := |scores| - 1;
      PruneAgain(scores[..last], earlier, later);
      var kept := Pruned(scores[..last], earlier);
      if !(0 <= scores[last] <= earlier) {
        assert (kept + [scores[last]])[..|kept|] == kept;
      } else {
        assert Pruned(scores, earlier) == kept;
      }
    }
  }

  lemma {:induction false} PrunedLength(hits: seq<Arrival>, start: int)
    requires Ordered(hits)
    ensures |Pruned(Times(hits), start)| == CountAfter(hits, start)
  {
    if hits != [] {
      var last := |hits| - 1;
      assert Times(hits)[..last] == Times(hits[..last]);
      PrunedLength(hits[..last], start);
      OrderedIsBounded(hits);
    }
  }

  lemma {:induction false} PrunedAway(scores: seq<int>, start: int)
    requires forall i :: 0 <= i < |scores| ==> 0 <= scores[i] <= start
    ensures Pruned(scores, start) == []
  {
    if scores != [] {
      PrunedAway(scores[..|scores| - 1], start);
    }
  }

  /** Pruning at one hit and again at the next is pruning once, at the later. */
  lemma PrunedTwice(hits: seq<Arrival>, earlier: int, later: int)
    requires hits != [] && earlier <= later
    ensures Pruned(Pruned(Times(hits[..|hits| - 1]), earlier) + [hits[|hits| - 1].at], later)
            == Pruned(Times(hits), later)
  {
    var scores, score := Times(hits[..|hits| - 1]), hits[|hits| - 1].at;
    assert Times(hits) == scores + [score];
    PruneAgain(scores, earlier, later);
    PrunedAtTheEnd(scores, score, later);
    PrunedAtTheEnd(Pruned(scores, earlier), score, later);
  }

  lemma PrunedAtTheEnd(scores: seq<int>, score: int, start: int)
    ensures Pruned(scores + [score], start) == Pruned(scores, start) + if 0 <= score <= start then [] else [score]
  {
    assert (scores + [score])[..|scores|] == scores;
  }

  /** Every stored set tracks the history of its key. */
  ghost predicate Faithful(sets: map<Key, SortedSet>, history: map<Key, seq<Arrival>>) {
    && sets.Keys == history.Keys
    && (forall key {:trigger Tracks(sets[key], history[key], Window(key.bucket))} ::
          key in sets ==> Tracks(sets[key], history[key], Window(key.bucket)))
  }

  /** Pruning and expiry are invisible: a set pruned at its last hit goes on showing the history's window. */
  lemma TrackedAfterHit(s: SortedSet, before: seq<Arrival>, hit: Arrival, window: nat)
    requires Ordered(before + [hit]) ==>
               s.scores == Pruned(Times(before), hit.at - window) + [hit.at] && hit.at + window <= s.expiresAt
    ensures Tracks(s, before + [hit], window)
  {
    var hits := before + [hit];
    assert hits[..|before|] == before;
    if Ordered(hits) {
      forall now | LastOf(hits) <= now
        ensures Sees(s, hits, window, now)
      {
        if now < s.expiresAt {
          PrunedTwice(hits, hit.at - window, now - window);
        } else {
          OrderedIsBounded(hits);
          PrunedAway(Times(hits), now - window);
        }
      }
    }
  }

  /** What a key shows after pruning is the history cut to the window, whether or not the key has expired. */
  lemma KeySeesTheHistory(sets: map<Key, SortedSet>, before: seq<Arrival>, key: Key, now: int)
    requires if key in sets then Tracks(sets[key], before, Window(key.bucket)) else before == []
    requires Ordered(before) && LastOf(before) <= now
    ensures Pruned(Visible(sets, key, now), now - Window(key.bucket)) == Pruned(Times(before), now - Window(key.bucket))
  {
    if key in sets {
      assert Sees(sets[key], before, Window(key.bucket), now);
    } else {
      assert Visible(sets, key, now) == Times(before);
    }
  }

  lemma OrderedAppend(before: seq<Arrival>, hit: Arrival)
    ensures Ordered(before + [hit]) <==> Ordered(before) && LastOf(before) <= hit.at
  {
    assert (before + [hit])[..|before|] == before;
  }

  /** Pruning, adding and expiring keep a stored set true to its history. */
  lemma OneHitTracked(sets: map<Key, SortedSet>, before: seq<Arrival>, key: Key, hit: Arrival, s: SortedSet)
    requires if key in sets then Tracks(sets[key], before, Window(key.bucket)) else before == []
    requires s.scores == Pruned(Visible(sets, key, hit.at), hit.at - Window(key.bucket)) + [hit.at]
    requires hit.at + Window(key.bucket) <= s.expiresAt
    ensures Tracks(s, before + [hit], Window(key.bucket))
  {
    OrderedAppend(before, hit);
    if Ordered(before + [hit]) {
      KeySeesTheHistory(sets, before, key, hit.at);
    }
    TrackedAfterHit(s, before, hit, Window(key.bucket));
  }

  datatype Fault = NoFault | NotApplied | ReplyLost

  /** The history after a hit: one more arrival, unless the store never saw it. */
  function Recorded(history: map<Key, seq<Arrival>>, key: Key, now: int, configured: bool,
                    fault: Fault): map<Key, seq<Arrival>> {
    if !configured || fault == NotApplied then history
    else history[key := HitsOf(history, key) + [Arrival(now, fault == NoFault)]]
  }

  /** The pipeline's effect on the stored sets. */
  function Stored(sets: map<Key, SortedSet>, key: Key, now: int): map<Key, SortedSet> {
    var scores := Pruned(Visible(sets, key, now), now - Window(key.bucket)) + [now];
    sets[key := SortedSet(scores, now + (key.bucket.windowSeconds + 1) * 1000)]
  }

  lemma StillFaithful(sets: map<Key, SortedSet>, history: map<Key, seq<Arrival>>, key: Key, now: int, fault: Fault)
    requires Faithful(sets, history) && fault != NotApplied
    ensures Faithful(Stored(sets, key, now), Recorded(history, key, now, true, fault))
  {
    var before, hit := HitsOf(history, key), Arrival(now, fault == NoFault);
    var s := Stored(sets, key, now)[key];
    OneHitTracked(sets, before, key, hit, s);
    OtherKeysStay(sets, history, key, s, before + [hit]);
  }

  lemma OtherKeysStay(sets: map<Key, SortedSet>, history: map<Key, seq<Arrival>>, key: Key, s: SortedSet,
                      hits: seq<Arrival>)
    requires Faithful(sets, history) && Tracks(s, hits, Window(key.bucket))
    ensures Faithful(sets[key := s], history[key := hits])
  {
  }

  lemma CountIsOfTheWindow(sets: map<Key, SortedSet>, history: map<Key, seq<Arrival>>, key: Key, now: int)
    requires Faithful(sets, history) && Ordered(HitsOf(history, key) + [Arrival(now, true)])
    ensures |Stored(sets, key, now)[key].scores| == CountAfter(HitsOf(history, key), now - Window(key.bucket)) + 1
  {
    var before := HitsOf(history, key);
    OrderedAppend(before, Arrival(now, true));
    KeySeesTheHistory(sets, before, key, now);
    PrunedLength(before, now - Window(key.bucket));
  }

  class RedisGateway {
    const configured: bool
    var sets: map<Key, SortedSet>
    ghost var history: map<Key, seq<Arrival>>

    ghost predicate Valid() reads this {
      Faithful(sets, history)
    }

    constructor (configured: bool)
      ensures Valid() && this.configured == configured && history == map[]
    {
      this.configured := configured;
      sets := map[];
      history := map[];
    }

    /** Prune, add, count, expire, in one transaction; no answer when the store is unreachable. */
    method SlidingWindowCount(key: Key, now: int, fault: Fault) returns (count: Option<nat>)
      requires Valid()
      modifies this
      ensures Valid()
      ensures count.Some? <==> configured && fault == NoFault
      ensures history == Recorded(old(history), key, now, configured, fault)
      ensures !configured || fault == NotApplied ==> sets == old(sets)
      ensures count.Some? && Ordered(HitsOf(old(history), key) + [Arrival(now, true)]) ==>
                count.value == CountAfter(HitsOf(old(history), key), now - Window(key.bucket)) + 1
    {
      if !configured || fault == NotApplied {
        return None;
      }
      var scores := Pruned(Visible(sets, key, now), now - Window(key.bucket));
      scores := scores + [now];
      sets := sets[key := SortedSet(scores, now + (key.bucket.windowSeconds + 1) * 1000)];
      history := Recorded(history, key, now, configured, fault);
      StillFaithful(old(sets), old(history), key, now, fault);
      assert sets == Stored(old(sets), key, now);
      if Ordered(HitsOf(old(history), key) + [Arrival(now, true)]) {
        CountIsOfTheWindow(old(sets), old(history), key, now);
      }
      count := if fault == NoFault then Some(|scores|) else None;
    }
  }

  // ---------- The limiter ----------

  datatype Decision =
    | Decision(allowed: bool, limit: nat, remaining: nat, resetSeconds: nat, degraded: bool)
    | RateLimitExceeded(retryAfterSeconds: nat)

  function DecisionOn(count: nat, bucket: Bucket): (decision: Decision)
    ensures decision.Decision?
  {
    var remaining := if bucket.limit > count then bucket.limit - count else 0;
    Decision(count <= bucket.limit, bucket.limit, remaining, bucket.windowSeconds, false)
  }

  class RateLimiter {
    const gateway: RedisGateway
    const enabled: bool
    const failOpen: bool

    constructor (gateway: RedisGateway, enabled: bool, failOpen: bool)
      ensures this.gateway == gateway && this.enabled == enabled && this.failOpen == failOpen
    {
      this.gateway := gateway;
      this.enabled := enabled;
      this.failOpen := failOpen;
    }

    /** Without a count the setting decides: let everything through, or nothing. */
    function Degraded(bucket: Bucket): (decision: Decision)
      ensures decision.RateLimitExceeded? <==> !failOpen
      ensures decision.Decision? ==> decision.allowed && decision.degraded
    {
      if failOpen then Decision(true, bucket.limit, bucket.limit, 0, true)
      else RateLimitExceeded(bucket.windowSeconds)
    }

    /** Record one request and decide on it: granted exactly when the history leaves room in the window. */
    method Hit(bucket: Bucket, identifier: string, now: int, fault: Fault) returns (decision: Decision)
      requires gateway.Valid()
      modifies gateway
      ensures gateway.Valid()
      ensures gateway.history == if enabled
              then Recorded(old(gateway.history), Key(bucket, identifier), now, gateway.configured, fault)
              else old(gateway.history)
      ensures !enabled ==> decision == Decision(true, bucket.limit, bucket.limit, 0, false)
      ensures enabled && (!gateway.configured || fault != NoFault) ==> decision == Degraded(bucket)
      ensures enabled && gateway.configured && fault == NoFault ==>
                && decision.Decision?
                && Judged(decision, bucket, HitsOf(old(gateway.history), Key(bucket, identifier)), now)
    {
      if !enabled {
        return Decision(true, bucket.limit, bucket.limit, 0, false);
      }
      if !gateway.configured {
        return Degraded(bucket);
      }
      var count := gateway.SlidingWindowCount(Key(bucket, identifier), now, fault);
      if count.None? {
        return Degraded(bucket);
      }
      decision := DecisionOn(count.value, bucket);
      CountIsJudged(bucket, HitsOf(old(gateway.history), Key(bucket, identifier)), now, count.value);
    }

    /** `Hit`, but a refusal is raised. */
    method Enforce(bucket: Bucket, identifier: string, now: int, fault: Fault) returns (decision: Decision)
      requires gateway.Valid()
      modifies gateway
      ensures gateway.Valid()
      ensures gateway.history == if enabled
              then Recorded(old(gateway.history), Key(bucket, identifier), now, gateway.configured, fault)
              else old(gateway.history)
      ensures decision.Decision? ==> decision.allowed
      ensures !enabled ==> decision.Decision?
      ensures enabled && (!gateway.configured || fault != NoFault) ==> decision == Degraded(bucket)
      ensures
        var hits := HitsOf(old(gateway.history), Key(bucket, identifier)) + [Arrival(now, true)];
        enabled && gateway.configured && fault == NoFault && Ordered(hits) ==>
          (decision.Decision? <==> Granted(hits, |hits| - 1, bucket))
          && (decision.RateLimitExceeded? ==> decision.retryAfterSeconds == bucket.windowSeconds)
    {
      decision := Hit(bucket, identifier, now, fault);
      if decision.Decision? && !decision.allowed {
        decision := RateLimitExceeded(decision.resetSeconds);
      }
    }
  }

  /** A decision made on a count: what it says of the hits before it. */
  ghost predicate Judged(decision: Decision, bucket: Bucket, was: seq<Arrival>, now: int)
    requires decision.Decision?
  {
    var hits := was + [Arrival(now, true)];
    var others := CountAfter(was, now - Window(bucket));
    && !decision.degraded && decision.limit == bucket.limit && decision.resetSeconds == bucket.windowSeconds
    && (Ordered(hits) ==>
          && (decision.allowed <==> Granted(hits, |was|, bucket))
          && (decision.allowed <==> others < bucket.limit)
          && decision.remaining == if decision.allowed then bucket.limit - others - 1 else 0)
  }

  lemma CountIsJudged(bucket: Bucket, was: seq<Arrival>, now: int, count: nat)
    requires Ordered(was + [Arrival(now, true)]) ==> count == CountAfter(was, now - Window(bucket)) + 1
    ensures Judged(DecisionOn(count, bucket), bucket, was, now)
  {
    var hits := was + [Arrival(now, true)];
    assert hits[..|was|] == was;
  }
}
