/** Flow control and batching on the producing side (kafka/manager.py, KafkaProducerManager). */
module KafkaProducer {
  import opened Options
  import opened Sequences
  import opened Redis

  const MAX_MESSAGES_PER_PARTITION: nat := 1000
  const MESSAGES_PER_BATCH: nat := 1024

  // ---- the capacity limiter ----

  /** One poll: the total in Redis, and the number of partitions at that moment. */
  datatype Reading = Reading(messages: int, partitions: nat)

  datatype Verdict = Admit | Sleep | Spin

  function Capacity(partitions: nat): nat
  {
    MAX_MESSAGES_PER_PARTITION * partitions
  }

  /** What one turn of the polling loop decides. A total of exactly 0 after a stall releases nothing. */
  function Decide(messages: int, capacity: nat, stalls: nat): Verdict
  {
    if messages != 0 then
      if messages > capacity then Sleep else Admit
    else if stalls == 0 then Admit
    else Spin
  }

  predicate OverCapacity(r: Reading)
  {
    r.messages > Capacity(r.partitions)
  }

  /** Reading `i` lets the call through: within capacity, and not 0 unless nothing stalled before. */
  ghost predicate Releases(readings: seq<Reading>, i: nat)
    requires i < |readings|
  {
    && !OverCapacity(readings[i])
    && (readings[i].messages != 0 || forall j :: 0 <= j < i ==> !OverCapacity(readings[j]))
  }

  function OverCapacityCount(readings: seq<Reading>): nat
  {
    if readings == [] then 0
    else OverCapacityCount(readings[..|readings| - 1]) + if OverCapacity(readings[|readings| - 1]) then 1 else 0
  }

  lemma {:induction false} CountIsZero(readings: seq<Reading>)
    ensures OverCapacityCount(readings) == 0 <==> forall r <- readings :: !OverCapacity(r)
  {
    if readings != [] {
      var m := |readings| - 1;
      CountIsZero(readings[..m]);
      assert readings == readings[..m] + [readings[m]];
    }
  }

  /** The positions of the readings over capacity. */
  function OverCapacityAt(readings: seq<Reading>): set<nat>
  {
    set i: nat | i < |readings| && readings[i].messages > 1000 * readings[i].partitions
  }

  lemma {:induction false} CountIsNumber(readings: seq<Reading>)
    ensures OverCapacityCount(readings) == |OverCapacityAt(readings)|
  {
    if readings != [] {
      var m := |readings| - 1;
      CountIsNumber(readings[..m]);
      assert OverCapacityAt(readings)
             == OverCapacityAt(readings[..m]) + if OverCapacity(readings[m]) then {m} else {};
    }
  }

  /**
   * The decorator's loop over the readings it will see. `None` means it is still waiting when they run out.
   * A call is admitted at the first releasing reading, having slept once for each reading over capacity.
   */
  method LimitTopicCapacity(readings: seq<Reading>) returns (admitted: Option<nat>, stallCounter: nat)
    ensures admitted.Some? ==>
              && admitted.value < |readings| && Releases(readings, admitted.value)
              && (forall j :: 0 <= j < admitted.value ==> !Releases(readings, j))
              && stallCounter == |OverCapacityAt(readings[..admitted.value])|
    ensures admitted.None? ==>
              && (forall j :: 0 <= j < |readings| ==> !Releases(readings, j))
              && stallCounter == |OverCapacityAt(readings)|
  {
    stallCounter := 0;
    var i := 0;
    while i < |readings|
      invariant i <= |readings|
      invariant stallCounter == OverCapacityCount(readings[..i])
      invariant forall j :: 0 <= j < i ==> !Releases(readings, j)
    {
      CountIsZero(readings[..i]);
      CountIsNumber(readings[..i]);
      assert forall j :: 0 <= j < i ==> readings[..i][j] == readings[j];
      assert readings[..i + 1][..i] == readings[..i];
      var r := readings[i];
      match Decide(r.messages, Capacity(r.partitions), stallCounter) {
        case Admit => return Some(i), stallCounter;
        case Sleep => stallCounter := stallCounter + 1;
        case Spin =>
      }
      i := i + 1;
    }
    assert readings[..i] == readings;
    CountIsNumber(readings);
    admitted := None;
  }

  // ---- choosing a partition ----

  /** The round-robin counter walks 0..n-1 once and then stays at -1. */
  function NextIndex(i: int, n: nat): int
  {
    if i == -1 || i + 1 == n then -1 else i + 1
  }

  /** `p` is what `_choose_partition` may return: the counter, or a least loaded partition (0 if none is known). */
  ghost predicate Picks(i: int, scores: map<int, int>, p: int)
  {
    if i != -1 then p == i
    else if scores == map[] then p == 0
    else IsLowest(scores, p)
  }

  // ---- batches ----

  /** What happens to a batch: acknowledged with metadata; no metadata; or a Kafka timeout, which ends the call. */
  datatype Fate = Acked | NoRecord(stored: bool) | TimedOut(stored: bool)

  datatype Chunk = Chunk(content: seq<string>, fate: Fate)

  /**
   * The environment of one call: the limiter's readings, which messages fit into their batch (by position),
   * and the fate of each batch (by the position of its first message).
   */
  datatype SendEnv = SendEnv(readings: seq<Reading>, accepts: nat -> bool, fate: nat -> Fate)

  ghost predicate Faultless(env: SendEnv)
  {
    (forall i :: env.accepts(i)) && (forall i :: env.fate(i).Acked?)
  }

  predicate Stored(fate: Fate)
  {
    fate.Acked? || fate.stored
  }

  function ChunkEnd(msgs: seq<string>, lo: nat): nat
  {
    if lo + MESSAGES_PER_BATCH <= |msgs| then lo + MESSAGES_PER_BATCH else |msgs|
  }

  /** The messages of positions lo..hi that were appended to their batch. */
  function Kept(msgs: seq<string>, lo: nat, hi: nat, accepts: nat -> bool): (kept: seq<string>)
    requires lo <= hi <= |msgs|
    ensures |kept| <= hi - lo
  {
    if lo == hi then []
    else Kept(msgs, lo, hi - 1, accepts) + if accepts(hi - 1) then [msgs[hi - 1]] else []
  }

  /** How many of the positions lo..hi-1 are accepted. */
  function AcceptedCount(accepts: nat -> bool, lo: nat, hi: nat): (n: nat)
    requires lo <= hi
    ensures n <= hi - lo
  {
    if lo == hi then 0 else AcceptedCount(accepts, lo, hi - 1) + if accepts(hi - 1) then 1 else 0
  }

  /** The list holds the accepted messages of the positions lo..hi-1, each after those accepted before it. */
  ghost predicate HoldsAccepted(batch: seq<string>, msgs: seq<string>, lo: nat, hi: nat, accepts: nat -> bool)
    requires lo <= hi <= |msgs|
  {
    && |batch| == AcceptedCount(accepts, lo, hi)
    && forall k :: lo <= k < hi && accepts(k) ==>
         AcceptedCount(accepts, lo, k) < |batch| && batch[AcceptedCount(accepts, lo, k)] == msgs[k]
  }

  lemma {:induction false} KeptHoldsAccepted(msgs: seq<string>, lo: nat, hi: nat, accepts: nat -> bool)
    requires lo <= hi <= |msgs|
    ensures HoldsAccepted(Kept(msgs, lo, hi, accepts), msgs, lo, hi, accepts)
  {
    if lo < hi {
      KeptHoldsAccepted(msgs, lo, hi - 1, accepts);
    }
  }

  /** The batches one call attempts, from position `lo` on: a timeout is the last. */
  function Attempts(msgs: seq<string>, lo: nat, env: SendEnv): (cs: seq<Chunk>)
    requires lo <= |msgs|
    decreases |msgs| - lo
  {
    if lo == |msgs| then []
    else
      var hi := ChunkEnd(msgs, lo);
      var c := Chunk(Kept(msgs, lo, hi, env.accepts), env.fate(lo));
      if c.fate.TimedOut? then [c] else [c] + Attempts(msgs, hi, env)
  }

  /** Counter, Redis scores and the messages each partition has received. */
  datatype View = View(next: int, scores: map<int, int>, partitions: seq<seq<string>>)

  function After(k: View, c: Chunk, p: int): View
    requires 0 <= p < |k.partitions|
  {
    View(NextIndex(k.next, |k.partitions|),
         if c.fate.Acked? then Credit(k.scores, p, |c.content|) else k.scores,
         if Stored(c.fate) then k.partitions[p := k.partitions[p] + c.content] else k.partitions)
  }

  ghost predicate Good(k: View)
  {
    && -1 <= k.next < |k.partitions|
    && |k.partitions| >= 1
    && forall p <- k.scores :: 0 <= p < |k.partitions|
  }

  ghost predicate Step(k: View, c: Chunk, p: int, k': View)
  {
    0 <= p < |k.partitions| && Picks(k.next, k.scores, p) && k' == After(k, c, p)
  }

  /** `ks` are the states a producer goes through when it sends the batches `cs` to the partitions `ps`. */
  ghost predicate Trace(ks: seq<View>, cs: seq<Chunk>, ps: seq<int>)
  {
    && |ks| == |cs| + 1 == |ps| + 1
    && forall j {:trigger cs[j]} {:trigger ps[j]} :: 0 <= j < |cs| ==> Step(ks[j], cs[j], ps[j], ks[j + 1])
  }

  /** The partitions named by the metadata a call returns. */
  function AckedPartitions(cs: seq<Chunk>, ps: seq<int>): seq<int>
    requires |cs| == |ps|
  {
    if cs == [] then []
    else
      var m := |cs| - 1;
      AckedPartitions(cs[..m], ps[..m]) + if cs[m].fate.Acked? then [ps[m]] else []
  }

  datatype Outcome = Waiting | GaveUp | Records(partitions: seq<int>)

  /** A trace from `k0` to `k`. */
  ghost predicate Leads(k0: View, ks: seq<View>, cs: seq<Chunk>, ps: seq<int>, k: View)
  {
    Trace(ks, cs, ps) && ks[0] == k0 && ks[|cs|] == k
  }

  lemma LeadsOn(k0: View, ks: seq<View>, cs: seq<Chunk>, ps: seq<int>, k: View, c: Chunk, p: int, k': View)
    requires Leads(k0, ks, cs, ps, k) && Step(k, c, p, k')
    ensures Leads(k0, ks + [k'], cs + [c], ps + [p], k')
  {
  }

  /** Where the batching loop stands when it is about to take the messages from position `i` on. */
  ghost predicate Sending(msgs: seq<string>, i: nat, env: SendEnv, cs: seq<Chunk>, ps: seq<int>, records: seq<int>)
  {
    && i <= |msgs| && |cs| == |ps|
    && cs + Attempts(msgs, i, env) == Attempts(msgs, 0, env)
    && (cs != [] ==> !cs[|cs| - 1].fate.TimedOut?)
    && records == AckedPartitions(cs, ps)
  }

  lemma AttemptsFrom(msgs: seq<string>, i: nat, env: SendEnv, c: Chunk)
    requires i < |msgs| && c == Chunk(Kept(msgs, i, ChunkEnd(msgs, i), env.accepts), env.fate(i))
    ensures Attempts(msgs, i, env) == [c] + if c.fate.TimedOut? then [] else Attempts(msgs, ChunkEnd(msgs, i), env)
  {
    AppendNothing([c]);
  }

  lemma AckedOneMore(cs: seq<Chunk>, ps: seq<int>, c: Chunk, p: int)
    requires |cs| == |ps|
    ensures AckedPartitions(cs + [c], ps + [p]) == AckedPartitions(cs, ps) + if c.fate.Acked? then [p] else []
  {
    assert (cs + [c])[..|cs|] == cs && (ps + [p])[..|cs|] == ps;
  }

  lemma SendingStep(msgs: seq<string>, i: nat, env: SendEnv, cs: seq<Chunk>, ps: seq<int>, records: seq<int>,
                    c: Chunk, p: int)
    requires i < |msgs| && Sending(msgs, i, env, cs, ps, records)
    requires c == Chunk(Kept(msgs, i, ChunkEnd(msgs, i), env.accepts), env.fate(i))
    ensures c.fate.TimedOut? ==> cs + [c] == Attempts(msgs, 0, env)
    ensures !c.fate.TimedOut? ==>
              Sending(msgs, ChunkEnd(msgs, i), env, cs + [c], ps + [p], records + if c.fate.Acked? then [p] else [])
  {
    AttemptsFrom(msgs, i, env, c);
    if !c.fate.TimedOut? {
      Associative(cs, [c], Attempts(msgs, ChunkEnd(msgs, i), env));
      AckedOneMore(cs, ps, c, p);
    }
  }

  /** The append loop: `kafka_batch.append` may refuse a message, which is then lost. */
  method FillBatch(msgs: seq<string>, lo: nat, hi: nat, accepts: nat -> bool) returns (batch: seq<string>)
    requires lo <= hi <= |msgs|
    ensures batch == Kept(msgs, lo, hi, accepts)
    ensures HoldsAccepted(batch, msgs, lo, hi, accepts)
  {
    KeptHoldsAccepted(msgs, lo, hi, accepts);
    batch := [];
    for k := lo to hi
      invariant batch == Kept(msgs, lo, k, accepts)
    {
      if accepts(k) {
        batch := batch + [msgs[k]];
      }
    }
  }

  class KafkaProducerManager {
    const redisManager: RedisManager
    const nPartitions: nat
    var iPartition: int
    var partitions: seq<seq<string>>

    ghost predicate Valid()
      reads this, redisManager
    {
      |partitions| == nPartitions && Good(Contents())
    }

    ghost function Contents(): View
      reads this, redisManager
    {
      View(iPartition, redisManager.scores, partitions)
    }

    constructor (redisManager: RedisManager, nPartitions: nat)
      requires nPartitions >= 1 && redisManager.scores == map[]
      ensures Valid() && this.redisManager == redisManager && this.nPartitions == nPartitions
      ensures Contents() == View(0, map[], seq(nPartitions, _ => []))
    {
      this.redisManager := redisManager;
      this.nPartitions := nPartitions;
      iPartition := 0;
      partitions := seq(nPartitions, _ => []);
    }

    method ChoosePartition() returns (partition: int)
      requires Valid()
      modifies this`iPartition
      ensures Valid()
      ensures 0 <= partition < nPartitions
      ensures Picks(old(iPartition), redisManager.scores, partition)
      ensures iPartition == NextIndex(old(iPartition), nPartitions)
    {
      partition := iPartition;
      if iPartition != -1 {
        iPartition := iPartition + 1;
        if iPartition == nPartitions {
          iPartition := -1;
        }
      } else {
        var lowest := redisManager.GetLowestScorePartition();
        partition := if lowest.Some? then lowest.value else 0;
      }
    }

    /** One batch: choose a partition, hand the batch to the broker, and count it if metadata comes back. */
    method Submit(c: Chunk) returns (partition: int)
      requires Valid()
      modifies this, redisManager
      ensures Valid()
      ensures Step(old(Contents()), c, partition, Contents())
    {
      partition := ChoosePartition();
      if c.fate.Acked? || c.fate.stored {
        partitions := partitions[partition := partitions[partition] + c.content];
      }
      if c.fate.Acked? {
        redisManager.IncrByNTransactions(partition, |c.content|);
      }
    }

    /** The batching loop, without the limiter. */
    method SendChunks(msgs: seq<string>, env: SendEnv)
      returns (outcome: Outcome, ghost cs: seq<Chunk>, ghost ps: seq<int>, ghost ks: seq<View>)
      requires Valid()
      modifies this, redisManager
      ensures Valid()
      ensures Leads(old(Contents()), ks, cs, ps, Contents())
      ensures cs == Attempts(msgs, 0, env)
      ensures outcome == if cs != [] && cs[|cs| - 1].fate.TimedOut? then GaveUp else Records(AckedPartitions(cs, ps))
    {
      cs, ps, ks := [], [], [Contents()];
      if msgs == [] {
        return Records([]), cs, ps, ks;
      }
      var records := [];
      var i := 0;
      while i < |msgs|
        invariant Valid() && Leads(old(Contents()), ks, cs, ps, Contents())
        invariant Sending(msgs, i, env, cs, ps, records)
        decreases |msgs| - i
      {
        var end := if i + MESSAGES_PER_BATCH <= |msgs| then i + MESSAGES_PER_BATCH else |msgs|;
        var batch := FillBatch(msgs, i, end, env.accepts);
        var c := Chunk(batch, env.fate(i));
        ghost var before := Contents();
        var partition := Submit(c);
        LeadsOn(old(Contents()), ks, cs, ps, before, c, partition, Contents());
        SendingStep(msgs, i, env, cs, ps, records, c, partition);
        cs, ps, ks := cs + [c], ps + [partition], ks + [Contents()];
        if c.fate.TimedOut? {
          return GaveUp, cs, ps, ks;
        }
        if c.fate.Acked? {
          records := records + [partition];
        }
        i := end;
      }
      AppendNothing(cs);
      outcome := Records(records);
    }

    /** `send_batch` as decorated: nothing happens before the limiter lets the call through. */
    method SendBatch(msgs: seq<string>, env: SendEnv)
      returns (outcome: Outcome, ghost cs: seq<Chunk>, ghost ps: seq<int>, ghost ks: seq<View>)
      requires Valid()
      modifies this, redisManager
      ensures Valid()
      ensures Leads(old(Contents()), ks, cs, ps, Contents())
      ensures outcome.Waiting? <==> forall j :: 0 <= j < |env.readings| ==> !Releases(env.readings, j)
      ensures outcome.Waiting? ==> cs == []
      ensures !outcome.Waiting? ==>
                && cs == Attempts(msgs, 0, env)
                && outcome == if cs != [] && cs[|cs| - 1].fate.TimedOut? then GaveUp
                              else Records(AckedPartitions(cs, ps))
    {
      var admitted, stalls := LimitTopicCapacity(env.readings);
      if admitted.None? {
        return Waiting, [], [], [Contents()];
      }
      outcome, cs, ps, ks := SendChunks(msgs, env);
    }
  }
}
