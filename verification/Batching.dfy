/** What any run of a producer does to the partitions and to their counters. */
module Batching {
  import opened Sequences
  import opened Redis
  import opened KafkaProducer

  // ---- the batches of one call ----

  function Contents(cs: seq<Chunk>): seq<string>
  {
    if cs == [] then [] else cs[0].content + Contents(cs[1..])
  }

  lemma {:induction false} KeptAll(msgs: seq<string>, lo: nat, hi: nat, accepts: nat -> bool)
    requires lo <= hi <= |msgs| && forall i :: accepts(i)
    ensures Kept(msgs, lo, hi, accepts) == msgs[lo..hi]
  {
    if lo < hi {
      KeptAll(msgs, lo, hi - 1, accepts);
      assert msgs[lo..hi] == msgs[lo..hi - 1] + [msgs[hi - 1]];
    }
  }

  lemma {:induction false} BatchesFrom(msgs: seq<string>, lo: nat, env: SendEnv)
    requires lo <= |msgs| && Faultless(env)
    ensures Contents(Attempts(msgs, lo, env)) == msgs[lo..]
    ensures |Attempts(msgs, lo, env)| == (|msgs| - lo + MESSAGES_PER_BATCH - 1) / MESSAGES_PER_BATCH
    ensures forall c <- Attempts(msgs, lo, env) :: c.fate.Acked? && 0 < |c.content| <= MESSAGES_PER_BATCH
    decreases |msgs| - lo
  {
    if lo < |msgs| {
      var hi := ChunkEnd(msgs, lo);
      KeptAll(msgs, lo, hi, env.accepts);
      BatchesFrom(msgs, hi, env);
      var c := Chunk(msgs[lo..hi], Acked);
      assert Attempts(msgs, lo, env) == [c] + Attempts(msgs, hi, env);
      assert ([c] + Attempts(msgs, hi, env))[1..] == Attempts(msgs, hi, env);
      assert msgs[lo..] == msgs[lo..hi] + msgs[hi..];
    }
  }

  /** Without failures a list is cut into ceil(len/1024) non-empty batches of at most 1024 that join to the list. */
  lemma BatchesCoverTheList(msgs: seq<string>, env: SendEnv)
    requires Faultless(env)
    ensures var cs := Attempts(msgs, 0, env);
            && Contents(cs) == msgs
            && |cs| == (|msgs| + 1023) / 1024
            && forall c <- cs :: c.fate.Acked? && 0 < |c.content| <= 1024
  {
    BatchesFrom(msgs, 0, env);
    assert msgs[0..] == msgs;
  }

  // ---- the batches of one call, failures included ----

  /** The call goes over the whole list. */
  ghost predicate NoTimeout(env: SendEnv)
  {
    forall i :: !env.fate(i).TimedOut?
  }

  lemma {:induction false} KeptJoin(msgs: seq<string>, lo: nat, middle: nat, hi: nat, accepts: nat -> bool)
    requires lo <= middle <= hi <= |msgs|
    ensures Kept(msgs, lo, middle, accepts) + Kept(msgs, middle, hi, accepts) == Kept(msgs, lo, hi, accepts)
  {
    if middle < hi {
      KeptJoin(msgs, lo, middle, hi - 1, accepts);
      Associative(Kept(msgs, lo, middle, accepts), Kept(msgs, middle, hi - 1, accepts),
                  if accepts(hi - 1) then [msgs[hi - 1]] else []);
    } else {
      AppendNothing(Kept(msgs, lo, middle, accepts));
    }
  }

  lemma {:induction false} ContentsAreKept(msgs: seq<string>, lo: nat, env: SendEnv)
    requires lo <= |msgs| && NoTimeout(env)
    ensures Contents(Attempts(msgs, lo, env)) == Kept(msgs, lo, |msgs|, env.accepts)
    decreases |msgs| - lo
  {
    if lo < |msgs| {
      var hi := ChunkEnd(msgs, lo);
      var c := Chunk(Kept(msgs, lo, hi, env.accepts), env.fate(lo));
      ContentsAreKept(msgs, hi, env);
      KeptJoin(msgs, lo, hi, |msgs|, env.accepts);
      assert ([c] + Attempts(msgs, hi, env))[1..] == Attempts(msgs, hi, env);
    }
  }

  /** Without a timeout, the batches of a call together hold its messages in order, save exactly those refused. */
  lemma OnlyRefusedAreMissing(msgs: seq<string>, env: SendEnv)
    requires NoTimeout(env)
    ensures HoldsAccepted(Contents(Attempts(msgs, 0, env)), msgs, 0, |msgs|, env.accepts)
  {
    ContentsAreKept(msgs, 0, env);
    KeptHoldsAccepted(msgs, 0, |msgs|, env.accepts);
  }

  /** Where batch `j` of a call ends that starts at `lo`. */
  function BatchEnd(msgs: seq<string>, lo: nat, j: nat): nat
  {
    if lo + 1024 * (j + 1) <= |msgs| then lo + 1024 * (j + 1) else |msgs|
  }

  /** The batch holds the accepted messages among 1024 positions, or up to the end of the list. */
  ghost predicate IsBatch(c: Chunk, msgs: seq<string>, lo: nat, j: nat, env: SendEnv)
  {
    && lo + 1024 * j < |msgs| && c.fate == env.fate(lo + 1024 * j)
    && HoldsAccepted(c.content, msgs, lo + 1024 * j, BatchEnd(msgs, lo, j), env.accepts)
  }

  /** Batches are counted from where the call starts. */
  lemma BatchShift(c: Chunk, msgs: seq<string>, lo: nat, j: nat, env: SendEnv)
    requires IsBatch(c, msgs, lo + 1024, j, env)
    ensures IsBatch(c, msgs, lo, j + 1, env)
  {
    assert lo + 1024 + 1024 * j == lo + 1024 * (j + 1);
    assert BatchEnd(msgs, lo + 1024, j) == BatchEnd(msgs, lo, j + 1);
  }

  lemma KeptIsBatch(c: Chunk, msgs: seq<string>, lo: nat, env: SendEnv)
    requires lo < |msgs| && c == Chunk(Kept(msgs, lo, ChunkEnd(msgs, lo), env.accepts), env.fate(lo))
    ensures IsBatch(c, msgs, lo, 0, env)
  {
    KeptHoldsAccepted(msgs, lo, ChunkEnd(msgs, lo), env.accepts);
    assert BatchEnd(msgs, lo, 0) == ChunkEnd(msgs, lo);
  }

  lemma FirstBatch(msgs: seq<string>, lo: nat, env: SendEnv) returns (c: Chunk, rest: seq<Chunk>)
    requires lo < |msgs|
    ensures Attempts(msgs, lo, env) == [c] + rest && IsBatch(c, msgs, lo, 0, env)
    ensures rest == if c.fate.TimedOut? then [] else Attempts(msgs, ChunkEnd(msgs, lo), env)
  {
    c := Chunk(Kept(msgs, lo, ChunkEnd(msgs, lo), env.accepts), env.fate(lo));
    rest := if c.fate.TimedOut? then [] else Attempts(msgs, ChunkEnd(msgs, lo), env);
    AttemptsFrom(msgs, lo, env, c);
    KeptIsBatch(c, msgs, lo, env);
  }

  /** One batch for each 1024 positions, none skipped; a timeout ends the call, and nothing else does. */
  lemma {:induction false} AttemptsAre(msgs: seq<string>, lo: nat, env: SendEnv)
    requires lo <= |msgs|
    ensures var cs := Attempts(msgs, lo, env);
            && (forall j :: 0 <= j < |cs| ==> IsBatch(cs[j], msgs, lo, j, env))
            && (forall j :: 0 <= j < |cs| - 1 ==> !cs[j].fate.TimedOut?)
            && (lo + 1024 * |cs| >= |msgs| || (cs != [] && cs[|cs| - 1].fate.TimedOut?))
    decreases |msgs| - lo
  {
    if lo < |msgs| {
      var c, rest := FirstBatch(msgs, lo, env);
      if !c.fate.TimedOut? {
        AttemptsAre(msgs, ChunkEnd(msgs, lo), env);
        LaterBatches(c, rest, msgs, lo, env);
      }
    }
  }

  lemma LaterBatches(c: Chunk, rest: seq<Chunk>, msgs: seq<string>, lo: nat, env: SendEnv)
    requires lo < |msgs| && IsBatch(c, msgs, lo, 0, env) && !c.fate.TimedOut?
    requires forall j :: 0 <= j < |rest| ==> IsBatch(rest[j], msgs, ChunkEnd(msgs, lo), j, env)
    requires forall j :: 0 <= j < |rest| - 1 ==> !rest[j].fate.TimedOut?
    ensures forall j :: 0 <= j < |[c] + rest| ==> IsBatch(([c] + rest)[j], msgs, lo, j, env)
    ensures forall j :: 0 <= j < |[c] + rest| - 1 ==> !([c] + rest)[j].fate.TimedOut?
  {
    var cs := [c] + rest;
    forall j | 0 <= j < |cs|
      ensures IsBatch(cs[j], msgs, lo, j, env) && (j < |cs| - 1 ==> !cs[j].fate.TimedOut?)
    {
      if j > 0 {
        assert cs[j] == rest[j - 1];
        LaterBatch(rest[j - 1], msgs, lo, j, env);
      }
    }
  }

  lemma LaterBatch(c: Chunk, msgs: seq<string>, lo: nat, j: nat, env: SendEnv)
    requires lo < |msgs| && j > 0 && IsBatch(c, msgs, ChunkEnd(msgs, lo), j - 1, env)
    ensures IsBatch(c, msgs, lo, j, env)
  {
    assert ChunkEnd(msgs, lo) == lo + 1024;
    BatchShift(c, msgs, lo, j - 1, env);
  }

  /** How many of the first `j` batches are acknowledged. */
  function AckedCount(cs: seq<Chunk>, j: nat): (n: nat)
    requires j <= |cs|
    ensures n <= j
  {
    if j == 0 then 0 else AckedCount(cs, j - 1) + if cs[j - 1].fate.Acked? then 1 else 0
  }

  /** The result of a call names the partition of each acknowledged batch, in order, and no others. */
  lemma {:induction false} AckedPartitionsAre(cs: seq<Chunk>, ps: seq<int>)
    requires |cs| == |ps|
    ensures |AckedPartitions(cs, ps)| == AckedCount(cs, |cs|)
    ensures forall j :: 0 <= j < |cs| && cs[j].fate.Acked? ==>
              && AckedCount(cs, j) < |AckedPartitions(cs, ps)|
              && AckedPartitions(cs, ps)[AckedCount(cs, j)] == ps[j]
  {
    if cs != [] {
      var m := |cs| - 1;
      AckedPartitionsAre(cs[..m], ps[..m]);
      forall j | 0 <= j <= m
        ensures AckedCount(cs, j) == AckedCount(cs[..m], j)
      {
        AckedCountPrefix(cs, m, j);
      }
    }
  }

  lemma {:induction false} AckedCountPrefix(cs: seq<Chunk>, m: nat, j: nat)
    requires j <= m <= |cs|
    ensures AckedCount(cs, j) == AckedCount(cs[..m], j)
  {
    if j > 0 {
      AckedCountPrefix(cs, m, j - 1);
    }
  }

  // ---- whole runs ----

  lemma TraceCompose(ks: seq<View>, cs: seq<Chunk>, ps: seq<int>, ls: seq<View>, ds: seq<Chunk>, qs: seq<int>)
    requires Trace(ks, cs, ps) && Trace(ls, ds, qs) && ks[|cs|] == ls[0]
    ensures Trace(ks + ls[1..], cs + ds, ps + qs)
  {
    var all := ks + ls[1..];
    forall j | 0 <= j < |cs + ds|
      ensures Step(all[j], (cs + ds)[j], (ps + qs)[j], all[j + 1])
    {
      if j < |cs| {
        assert Step(ks[j], cs[j], ps[j], ks[j + 1]);
      } else {
        var i := j - |cs|;
        assert Step(ls[i], ds[i], qs[i], ls[i + 1]);
        assert all[j] == ls[i];
      }
    }
  }

  lemma TracePrefix(ks: seq<View>, cs: seq<Chunk>, ps: seq<int>, m: nat)
    requires Trace(ks, cs, ps) && m <= |cs|
    ensures Trace(ks[..m + 1], cs[..m], ps[..m])
  {
    forall j | 0 <= j < m
      ensures Step(ks[..m + 1][j], cs[..m][j], ps[..m][j], ks[..m + 1][j + 1])
    {
      assert Step(ks[j], cs[j], ps[j], ks[j + 1]);
    }
  }

  /** Every run keeps the shape of the state: counter in -1..n-1, counted partitions in 0..n-1. */
  lemma {:induction false} RunStaysGood(ks: seq<View>, cs: seq<Chunk>, ps: seq<int>, j: nat)
    requires Trace(ks, cs, ps) && Good(ks[0]) && j <= |cs|
    ensures Good(ks[j]) && |ks[j].partitions| == |ks[0].partitions|
  {
    if j > 0 {
      RunStaysGood(ks, cs, ps, j - 1);
      assert Step(ks[j - 1], cs[j - 1], ps[j - 1], ks[j]);
    }
  }

  lemma {:induction false} CounterPosition(ks: seq<View>, cs: seq<Chunk>, ps: seq<int>, j: nat)
    requires Trace(ks, cs, ps) && Good(ks[0]) && ks[0].next == 0 && j <= |cs|
    ensures ks[j].next == if j < |ks[0].partitions| then j else -1
  {
    if j > 0 {
      CounterPosition(ks, cs, ps, j - 1);
      RunStaysGood(ks, cs, ps, j - 1);
      assert Step(ks[j - 1], cs[j - 1], ps[j - 1], ks[j]);
    }
  }

  /**
   * The first n choices of a fresh producer are 0, 1, .., n-1; each later one has minimum score at that moment
   * (0 when no partition has been counted yet); all are partitions of the topic.
   */
  lemma ChoicesOverARun(ks: seq<View>, cs: seq<Chunk>, ps: seq<int>, j: nat)
    requires Trace(ks, cs, ps) && Good(ks[0]) && ks[0].next == 0 && j < |cs|
    ensures 0 <= ps[j] < |ks[0].partitions|
    ensures j < |ks[0].partitions| ==> ps[j] == j
    ensures j >= |ks[0].partitions| ==> if ks[j].scores == map[] then ps[j] == 0 else IsLowest(ks[j].scores, ps[j])
  {
    CounterPosition(ks, cs, ps, j);
    RunStaysGood(ks, cs, ps, j);
    assert Step(ks[j], cs[j], ps[j], ks[j + 1]);
  }

  // ---- what each partition received ----

  /** The stored batches that went to partition `p`, joined in the order they were produced. */
  function RoutedTo(cs: seq<Chunk>, ps: seq<int>, p: int): seq<string>
    requires |cs| == |ps|
  {
    if cs == [] then []
    else
      var m := |cs| - 1;
      RoutedTo(cs[..m], ps[..m], p) +
      if ps[m] == p && (cs[m].fate.Acked? || cs[m].fate.stored) then cs[m].content else []
  }

  /** Messages stored in partition `p` whose batch was never counted in Redis. */
  function Uncounted(cs: seq<Chunk>, ps: seq<int>, p: int): nat
    requires |cs| == |ps|
  {
    if cs == [] then 0
    else
      var m := |cs| - 1;
      Uncounted(cs[..m], ps[..m], p) +
      if ps[m] == p && !cs[m].fate.Acked? && cs[m].fate.stored then |cs[m].content| else 0
  }

  /**
   * Each partition grows by exactly its batches, in production order, and its Redis counter by as much,
   * short of the batches stored without an acknowledgement.
   */
  lemma {:induction false} PartitionsAndCounters(ks: seq<View>, cs: seq<Chunk>, ps: seq<int>, p: int)
    requires Trace(ks, cs, ps) && Good(ks[0]) && 0 <= p < |ks[0].partitions|
    ensures |ks[|cs|].partitions| == |ks[0].partitions|
    ensures ks[|cs|].partitions[p] == ks[0].partitions[p] + RoutedTo(cs, ps, p)
    ensures Score(ks[|cs|].scores, p) == Score(ks[0].scores, p) + |RoutedTo(cs, ps, p)| - Uncounted(cs, ps, p)
    decreases |cs|
  {
    if cs != [] {
      var m := |cs| - 1;
      TracePrefix(ks, cs, ps, m);
      PartitionsAndCounters(ks[..m + 1], cs[..m], ps[..m], p);
      GrowthOfOneBatch(ks[m], cs[m], ps[m], ks[m + 1], p);
      Associative(ks[0].partitions[p], RoutedTo(cs[..m], ps[..m], p),
                  if ps[m] == p && Stored(cs[m].fate) then cs[m].content else []);
    }
  }

  lemma GrowthOfOneBatch(k: View, c: Chunk, q: int, k': View, p: int)
    requires Step(k, c, q, k') && 0 <= p < |k.partitions|
    ensures |k'.partitions| == |k.partitions|
    ensures k'.partitions[p] == k.partitions[p] + if q == p && Stored(c.fate) then c.content else []
    ensures Score(k'.scores, p) == Score(k.scores, p) + if q == p && c.fate.Acked? then |c.content| else 0
  {
  }

  // ---- nothing is lost, nothing is doubled, order is kept ----

  function Flatten(partitions: seq<seq<string>>): seq<string>
  {
    if partitions == [] then [] else partitions[0] + Flatten(partitions[1..])
  }

  lemma {:induction false} FlattenUpdate(partitions: seq<seq<string>>, p: nat, more: seq<string>)
    requires p < |partitions|
    ensures multiset(Flatten(partitions[p := partitions[p] + more])) == multiset(Flatten(partitions)) + multiset(more)
  {
    var updated := partitions[p := partitions[p] + more];
    if p == 0 {
      assert updated[1..] == partitions[1..];
      assert Flatten(updated) == partitions[0] + more + Flatten(partitions[1..]);
    } else {
      assert updated[1..] == partitions[1..][p - 1 := partitions[1..][p - 1] + more];
      FlattenUpdate(partitions[1..], p - 1, more);
    }
  }

  lemma {:induction false} ContentsAppend(cs: seq<Chunk>, ds: seq<Chunk>)
    ensures Contents(cs + ds) == Contents(cs) + Contents(ds)
  {
    if cs == [] {
      assert cs + ds == ds;
    } else {
      assert (cs + ds)[1..] == cs[1..] + ds;
      ContentsAppend(cs[1..], ds);
    }
  }

  lemma ContentsLast(cs: seq<Chunk>)
    requires cs != []
    ensures Contents(cs) == Contents(cs[..|cs| - 1]) + cs[|cs| - 1].content
  {
    var m := |cs| - 1;
    ContentsAppend(cs[..m], [cs[m]]);
    assert cs[..m] + [cs[m]] == cs;
    assert [cs[m]][1..] == [];
    assert Contents([cs[m]]) == cs[m].content + Contents([]);
  }

  /** `a` can be obtained from `b` by leaving elements out. */
  predicate Subsequence(a: seq<string>, b: seq<string>)
  {
    if a == [] then true
    else if b == [] then false
    else
      var i, j := |a| - 1, |b| - 1;
      (a[i] == b[j] && Subsequence(a[..i], b[..j])) || Subsequence(a, b[..j])
  }

  lemma {:induction false} SubsequenceSkip(a: seq<string>, b: seq<string>, c: seq<string>)
    requires Subsequence(a, b)
    ensures Subsequence(a, b + c)
  {
    if c == [] {
      assert b + c == b;
    } else {
      var m := |c| - 1;
      SubsequenceSkip(a, b, c[..m]);
      assert (b + c)[..|b + c| - 1] == b + c[..m];
    }
  }

  lemma {:induction false} SubsequenceKeep(a: seq<string>, b: seq<string>, c: seq<string>)
    requires Subsequence(a, b)
    ensures Subsequence(a + c, b + c)
  {
    if c == [] {
      assert a + c == a && b + c == b;
    } else {
      var m := |c| - 1;
      SubsequenceKeep(a, b, c[..m]);
      assert (a + c)[..|a + c| - 1] == a + c[..m];
      assert (b + c)[..|b + c| - 1] == b + c[..m];
    }
  }

  lemma {:induction false} RoutedInOrder(cs: seq<Chunk>, ps: seq<int>, p: int)
    requires |cs| == |ps|
    ensures Subsequence(RoutedTo(cs, ps, p), Contents(cs))
  {
    if cs != [] {
      var m := |cs| - 1;
      RoutedInOrder(cs[..m], ps[..m], p);
      ContentsLast(cs);
      if ps[m] == p && Stored(cs[m].fate) {
        SubsequenceKeep(RoutedTo(cs[..m], ps[..m], p), Contents(cs[..m]), cs[m].content);
      } else {
        SubsequenceSkip(RoutedTo(cs[..m], ps[..m], p), Contents(cs[..m]), cs[m].content);
        assert RoutedTo(cs, ps, p) == RoutedTo(cs[..m], ps[..m], p);
      }
    }
  }

  lemma {:induction false} EverythingStored(ks: seq<View>, cs: seq<Chunk>, ps: seq<int>)
    requires Trace(ks, cs, ps) && forall c <- cs :: c.fate.Acked?
    ensures multiset(Flatten(ks[|cs|].partitions)) == multiset(Flatten(ks[0].partitions)) + multiset(Contents(cs))
    decreases |cs|
  {
    if cs != [] {
      var m := |cs| - 1;
      TracePrefix(ks, cs, ps, m);
      EverythingStored(ks[..m + 1], cs[..m], ps[..m]);
      ContentsLast(cs);
      assert Step(ks[m], cs[m], ps[m], ks[m + 1]) && cs[m].fate.Acked?;
      FlattenUpdate(ks[m].partitions, ps[m], cs[m].content);
    }
  }

  /**
   * With no failures, a run over any number of calls splits the produced stream among the partitions: together
   * they gain exactly its messages, each partition gains a subsequence of it, and each counter the same amount.
   */
  lemma StreamIsPartitioned(ks: seq<View>, cs: seq<Chunk>, ps: seq<int>)
    requires Trace(ks, cs, ps) && Good(ks[0]) && forall c <- cs :: c.fate.Acked?
    ensures multiset(Flatten(ks[|cs|].partitions)) == multiset(Flatten(ks[0].partitions)) + multiset(Contents(cs))
    ensures forall p :: 0 <= p < |ks[0].partitions| ==>
              && |ks[|cs|].partitions| == |ks[0].partitions|
              && ks[|cs|].partitions[p] == ks[0].partitions[p] + RoutedTo(cs, ps, p)
              && Subsequence(RoutedTo(cs, ps, p), Contents(cs))
              && Score(ks[|cs|].scores, p) == Score(ks[0].scores, p) + |RoutedTo(cs, ps, p)|
  {
    EverythingStored(ks, cs, ps);
    forall p | 0 <= p < |ks[0].partitions|
      ensures && |ks[|cs|].partitions| == |ks[0].partitions|
              && ks[|cs|].partitions[p] == ks[0].partitions[p] + RoutedTo(cs, ps, p)
              && Subsequence(RoutedTo(cs, ps, p), Contents(cs))
              && Score(ks[|cs|].scores, p) == Score(ks[0].scores, p) + |RoutedTo(cs, ps, p)|
    {
      PartitionsAndCounters(ks, cs, ps, p);
      RoutedInOrder(cs, ps, p);
      AllCounted(cs, ps, p);
    }
  }

  lemma {:induction false} AllCounted(cs: seq<Chunk>, ps: seq<int>, p: int)
    requires |cs| == |ps| && forall c <- cs :: c.fate.Acked?
    ensures Uncounted(cs, ps, p) == 0
  {
    if cs != [] {
      var m := |cs| - 1;
      assert cs[m].fate.Acked?;
      AllCounted(cs[..m], ps[..m], p);
    }
  }
}
