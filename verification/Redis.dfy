/** The sorted set that counts messages per partition (db/redis.py). */
module Redis {
  import opened Options
  import opened Sums

  /** `p` is a member of minimum score. Redis decides between ties. */
  predicate IsLowest(scores: map<int, int>, p: int)
  {
    p in scores && forall q <- scores :: scores[p] <= scores[q]
  }

  /** The score of a partition; an absent member counts as 0. */
  function Score(scores: map<int, int>, p: int): int
  {
    if p in scores then scores[p] else 0
  }

  /** ZINCRBY: creates an absent member. */
  function Credit(scores: map<int, int>, p: int, amount: int): map<int, int>
  {
    scores[p := Score(scores, p) + amount]
  }

  class RedisManager {
    var scores: map<int, int>

    constructor ()
      ensures scores == map[]
    {
      scores := map[];
    }

    /** The total over all partitions, 0 for an empty set. */
    method GetNTransactions() returns (total: int)
      ensures total == SumValues(scores)
    {
      total := 0;
      var left := scores;
      while left != map[]
        invariant total + SumValues(left) == SumValues(scores)
        decreases |left|
      {
        ghost var witnessed := SomeKey(left);
        var p :| p in left;
        SumValuesRemove(left, p);
        total := total + left[p];
        left := left - {p};
      }
    }

    method GetLowestScorePartition() returns (r: Option<int>)
      ensures r.None? <==> scores == map[]
      ensures r.Some? ==> IsLowest(scores, r.value)
    {
      if scores == map[] {
        return None;
      }
      ghost var lowest := MinimumExists(scores);
      var p :| p in scores && forall q <- scores :: scores[p] <= scores[q];
      r := Some(p);
    }

    method IncrByNTransactions(partition: int, incrBy: int)
      modifies this
      ensures scores == Credit(old(scores), partition, incrBy)
      ensures SumValues(scores) == SumValues(old(scores)) + incrBy
    {
      SumValuesUpdate(scores, partition, Score(scores, partition) + incrBy);
      scores := scores[partition := (if partition in scores then scores[partition] else 0) + incrBy];
    }

    method DecrTransactions(partition: int)
      modifies this
      ensures scores == Credit(old(scores), partition, -1)
      ensures SumValues(scores) == SumValues(old(scores)) - 1
    {
      IncrByNTransactions(partition, -1);
    }
  }
}
