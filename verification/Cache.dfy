/**
 The cached queue.  With Redis it is a sorted set of ad IDs by score
 (internal/storage/cache/redis.go); with the memory cache it is the ad store itself.
 */
module Cache {
  import opened Models
  import opened Store

  type Scores = map<string, int>

  predicate IsLeastScore(scores: Scores, id: string) {
    id in scores && forall other | other in scores :: scores[id] <= scores[other]
  }

  /** The IDs came off the sorted set one after another, each with the least score left. */
  predicate PopOrder(scores: Scores, popped: seq<string>)
    decreases |popped|
  {
    popped == [] || (IsLeastScore(scores, popped[0]) && PopOrder(scores - {popped[0]}, popped[1..]))
  }

  ghost function IdSet(ids: seq<string>): set<string> {
    set id | id in ids
  }

  /** Popping removes each ID once, and never overtakes a better score. */
  lemma {:induction false} PopOrderMeaning(scores: Scores, popped: seq<string>)
    requires PopOrder(scores, popped)
    ensures forall i, j | 0 <= i < j < |popped| :: popped[i] != popped[j]
    ensures forall i | 0 <= i < |popped| :: popped[i] in scores
    ensures forall i, j | 0 <= i < j < |popped| :: scores[popped[i]] <= scores[popped[j]]
    ensures forall i, id | 0 <= i < |popped| && id in scores && id !in popped :: scores[popped[i]] <= scores[id]
    decreases |popped|
  {
    if popped != [] {
      var rest := popped[1..];
      var left := scores - {popped[0]};
      PopOrderMeaning(left, rest);
      assert forall i | 0 < i < |popped| :: popped[i] == rest[i - 1] && popped[i] in left;
      forall i, j | 0 <= i < j < |popped| ensures scores[popped[i]] <= scores[popped[j]] {
        if i > 0 {
          assert left[rest[i - 1]] <= left[rest[j - 1]];
        }
      }
      forall i, id | 0 <= i < |popped| && id in scores && id !in popped ensures scores[popped[i]] <= scores[id] {
        if i > 0 {
          assert id in left && id !in rest;
          assert left[rest[i - 1]] <= left[id];
        }
      }
    }
  }

  class RedisQueue {
    var scores: Scores

    constructor ()
      ensures scores == map[]
    {
      scores := map[];
    }

    /** ZADD: insert the ID, or replace its score. */
    method PushToQueue(adId: string, priority: int)
      modifies this
      ensures scores == old(scores)[adId := priority]
    {
      scores := scores[adId := priority];
    }

    /** ZPOPMIN: remove an ID of least score. */
    method PopFromQueue() returns (r: Result<string>)
      modifies this
      ensures r.Err? ==> old(scores) == map[] && scores == map[]
      ensures r.Ok? ==> IsLeastScore(old(scores), r.value) && scores == old(scores) - {r.value}
    {
      if scores == map[] {
        return Err(AdNotFound);
      }
      var best :| best in scores;
      var rest := scores.Keys - {best};
      while rest != {}
        invariant best in scores && rest <= scores.Keys
        invariant forall id | id in scores && id !in rest :: scores[best] <= scores[id]
        decreases rest
      {
        var id :| id in rest;
        rest := rest - {id};
        if scores[id] < scores[best] {
          best := id;
        }
      }
      r := Ok(best);
      scores := scores - {best};
    }
  }
}
