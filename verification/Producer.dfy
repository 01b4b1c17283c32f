/** The block loop of a producer task (producer.py). */
module Producer {
  import opened Options
  import opened EventCodec
  import opened Database
  import opened KafkaProducer
  import opened Batching

  /** The node's blocks by number; None is BlockNotFound. */
  type Chain = int -> Option<BlockData>

  /** Everything a scan depends on: node, configuration, and the surroundings of the send for each block. */
  datatype Scan = Scan(chain: Chain, rewards: int -> int, mode: Mode, getBlockReward: bool, env: int -> SendEnv)

  function Reward(rewards: int -> int, getBlockReward: bool, number: int): int
  {
    if getBlockReward then rewards(number) else 0
  }

  function Messages(mode: Mode, hashes: seq<Hash>): (msgs: seq<string>)
    ensures |msgs| == |hashes| && forall i :: 0 <= i < |hashes| ==> msgs[i] == Encode(hashes[i], mode)
  {
    seq(|hashes|, i requires 0 <= i < |hashes| => Encode(hashes[i], mode))
  }

  ghost predicate Exists(chain: Chain, first: int, end: int)
  {
    forall n :: first <= n < end ==> chain(n).Some?
  }

  /** The block rows of first..end-1, in order. */
  function BlockWrites(sc: Scan, first: int, end: int): seq<Write>
    requires Exists(sc.chain, first, end)
    decreases end - first
  {
    if end <= first then []
    else
      BlockWrites(sc, first, end - 1)
      + [BlockWrite(sc.chain(end - 1).value, Reward(sc.rewards, sc.getBlockReward, end - 1))]
  }

  /** All messages of the blocks first..end-1, in order: the produced stream. */
  function Stream(sc: Scan, first: int, end: int): seq<string>
    requires Exists(sc.chain, first, end)
    decreases end - first
  {
    if end <= first then []
    else Stream(sc, first, end - 1) + Messages(sc.mode, sc.chain(end - 1).value.transactions)
  }

  /** The batches attempted for the blocks first..end-1: blocks without transactions are skipped. */
  function StreamAttempts(sc: Scan, first: int, end: int): seq<Chunk>
    requires Exists(sc.chain, first, end)
    decreases end - first
  {
    if end <= first then []
    else
      StreamAttempts(sc, first, end - 1)
      + Attempts(Messages(sc.mode, sc.chain(end - 1).value.transactions), 0, sc.env(end - 1))
  }

  ghost predicate FaultlessScan(sc: Scan, first: int, end: int)
  {
    forall n :: first <= n < end ==> Faultless(sc.env(n))
  }

  /** The node gives the block asked for. */
  ghost predicate Numbered(sc: Scan)
  {
    forall n {:trigger sc.chain(n)} :: sc.chain(n).Some? ==> sc.chain(n).value.number == n
  }

  /**
   * The rows of the blocks first..end-1 have been added: each new one holds hash, header, and the reward if it is asked
   * for, else 0; nothing else has changed.
   */
  ghost predicate BlocksRecorded(sc: Scan, first: int, end: int, before: Store, now: Store)
    requires Exists(sc.chain, first, end)
  {
    && now.internals == before.internals
    && (forall key :: key in before.rows ==> key in now.rows && now.rows[key] == before.rows[key])
    && (forall key :: key in now.rows && key !in before.rows ==> key.BlockKey? && first <= key.number < end)
    && (forall n :: first <= n < end && BlockKey(n) !in before.rows ==>
          && BlockKey(n) in now.rows
          && now.rows[BlockKey(n)] == BlockRow(sc.chain(n).value.hash, sc.chain(n).value.header,
                                               if sc.getBlockReward then sc.rewards(n) else 0))
  }

  lemma OneMoreRecorded(sc: Scan, first: int, end: int, before: Store, now: Store)
    requires first < end && Exists(sc.chain, first, end) && BlocksRecorded(sc, first, end - 1, before, now)
    ensures var block := sc.chain(end - 1).value;
            var row := BlockRow(block.hash, block.header, if sc.getBlockReward then sc.rewards(end - 1) else 0);
            BlocksRecorded(sc, first, end, before, Insert(now, Put(BlockKey(end - 1), row)))
  {
  }

  lemma {:induction false} BlockWritesRecord(sc: Scan, first: int, end: int, before: Store)
    requires Exists(sc.chain, first, end) && Numbered(sc)
    ensures BlocksRecorded(sc, first, end, before, InsertAll(before, BlockWrites(sc, first, end)))
    decreases end - first
  {
    if first < end {
      BlockWritesRecord(sc, first, end - 1, before);
      OneMoreRecorded(sc, first, end, before, InsertAll(before, BlockWrites(sc, first, end - 1)));
      InsertOneMore(before, BlockWrites(sc, first, end - 1),
                    BlockWrite(sc.chain(end - 1).value, Reward(sc.rewards, sc.getBlockReward, end - 1)));
    }
  }

  /** Where the messages of block `n` begin in the stream, each transaction's event is found in order. */
  lemma {:induction false} StreamAt(sc: Scan, first: int, end: int, n: int, i: nat)
    requires Exists(sc.chain, first, end) && first <= n < end && i < |sc.chain(n).value.transactions|
    ensures |Stream(sc, first, n)| + i < |Stream(sc, first, end)|
    ensures Stream(sc, first, end)[|Stream(sc, first, n)| + i] == Encode(sc.chain(n).value.transactions[i], sc.mode)
    decreases end - first
  {
    if n < end - 1 {
      StreamAt(sc, first, end - 1, n, i);
    }
  }

  /** The transactions of the blocks first..end-1. */
  function TransactionCount(sc: Scan, first: int, end: int): nat
    requires Exists(sc.chain, first, end)
    decreases end - first
  {
    if end <= first then 0
    else |sc.chain(end - 1).value.transactions| + TransactionCount(sc, first, end - 1)
  }

  /** One event for each transaction. */
  lemma {:induction false} StreamLength(sc: Scan, first: int, end: int)
    requires Exists(sc.chain, first, end)
    ensures |Stream(sc, first, end)| == TransactionCount(sc, first, end)
    decreases end - first
  {
    if first < end {
      StreamLength(sc, first, end - 1);
    }
  }

  /** Without failures the batches of a scan carry exactly its stream, in order, each acknowledged. */
  lemma {:induction false} BatchesCarryTheStream(sc: Scan, first: int, end: int)
    requires Exists(sc.chain, first, end) && FaultlessScan(sc, first, end)
    ensures Contents(StreamAttempts(sc, first, end)) == Stream(sc, first, end)
    ensures forall c <- StreamAttempts(sc, first, end) :: (c.fate.Acked? && 0 < |c.content| <= MESSAGES_PER_BATCH)
    decreases end - first
  {
    if first < end {
      BatchesCarryTheStream(sc, first, end - 1);
      var msgs := Messages(sc.mode, sc.chain(end - 1).value.transactions);
      BatchesCoverTheList(msgs, sc.env(end - 1));
      ContentsAppend(StreamAttempts(sc, first, end - 1), Attempts(msgs, 0, sc.env(end - 1)));
    }
  }

  /** The tables, the number of messages produced, the last block finished, and the batches attempted. */
  datatype Status = Status(store: Store, total: int, processed: Option<int>, batches: seq<Chunk>)

  /** What a scan has done after the blocks start..next-1. */
  function StatusAfter(sc: Scan, start: int, next: int, before: Store): Status
    requires Exists(sc.chain, start, next)
  {
    Status(InsertAll(before, BlockWrites(sc, start, next)), |Stream(sc, start, next)|,
           if next == start then None else Some(next - 1), StreamAttempts(sc, start, next))
  }

  ghost predicate Progress(sc: Scan, start: int, next: int, before: Store, now: Store, total: int,
                           processed: Option<int>, cs: seq<Chunk>)
  {
    start <= next && Exists(sc.chain, start, next)
    && Status(now, total, processed, cs) == StatusAfter(sc, start, next, before)
  }

  lemma ProgressStep(sc: Scan, start: int, next: int, before: Store, now: Store, total: int, processed: Option<int>,
                     cs: seq<Chunk>)
    requires Progress(sc, start, next, before, now, total, processed, cs) && sc.chain(next).Some?
    ensures var block := sc.chain(next).value;
            var inserted := Insert(now, BlockWrite(block, Reward(sc.rewards, sc.getBlockReward, next)));
            && Exists(sc.chain, start, next + 1)
            && inserted == InsertAll(before, BlockWrites(sc, start, next + 1))
            && Progress(sc, start, next + 1, before, inserted, total + |block.transactions|, Some(next),
                        cs + Attempts(Messages(sc.mode, block.transactions), 0, sc.env(next)))
  {
    assert Exists(sc.chain, start, next + 1);
    InsertOneMore(before, BlockWrites(sc, start, next),
                  BlockWrite(sc.chain(next).value, Reward(sc.rewards, sc.getBlockReward, next)));
  }

  /** A scan held by the limiter: block `next` is inserted, its messages are not sent. */
  ghost predicate Held(sc: Scan, start: int, next: int, before: Store, now: Store, cs: seq<Chunk>)
  {
    && start <= next && Exists(sc.chain, start, next + 1)
    && now == InsertAll(before, BlockWrites(sc, start, next + 1))
    && cs == StreamAttempts(sc, start, next)
  }

  lemma NowRecorded(sc: Scan, first: int, end: int, before: Store)
    requires Exists(sc.chain, first, end)
    ensures Numbered(sc) ==> BlocksRecorded(sc, first, end, before, InsertAll(before, BlockWrites(sc, first, end)))
  {
    if Numbered(sc) {
      BlockWritesRecord(sc, first, end, before);
    }
  }

  datatype Outcome = Finished | LatestReached | StillWaiting

  class DataProducer {
    const db: DatabaseManager
    const kafkaManager: KafkaProducerManager

    constructor (db: DatabaseManager, kafkaManager: KafkaProducerManager)
      ensures this.db == db && this.kafkaManager == kafkaManager
    {
      this.db := db;
      this.kafkaManager := kafkaManager;
    }

    /** `send_batch` for one block: extends the producer's trace by the block's batches. */
    method SendBlock(sc: Scan, number: int, ghost k0: View, ghost ks: seq<View>, ghost cs: seq<Chunk>,
                     ghost ps: seq<int>)
      returns (waiting: bool, ghost ks': seq<View>, ghost cs': seq<Chunk>, ghost ps': seq<int>)
      requires sc.chain(number).Some? && kafkaManager.Valid()
      requires Leads(k0, ks, cs, ps, kafkaManager.Contents())
      modifies kafkaManager, kafkaManager.redisManager
      ensures kafkaManager.Valid()
      ensures Leads(k0, ks', cs', ps', kafkaManager.Contents())
      ensures !waiting ==>
                cs' == cs + Attempts(Messages(sc.mode, sc.chain(number).value.transactions), 0, sc.env(number))
      ensures waiting ==> cs' == cs
    {
      ks', cs', ps' := ks, cs, ps;
      waiting := false;
      var transactions := sc.chain(number).value.transactions;
      if transactions != [] {
        var messages := Messages(sc.mode, transactions);
        var outcome;
        ghost var ls, ds, qs;
        outcome, ds, qs, ls := kafkaManager.SendBatch(messages, sc.env(number));
        TraceCompose(ks, cs, ps, ls, ds, qs);
        ks', cs', ps' := ks + ls[1..], cs + ds, ps + qs;
        waiting := outcome.Waiting?;
      } else {
        assert Messages(sc.mode, transactions) == [] && cs + [] == cs;
      }
    }

    /** One turn of the loop: the block's row goes in before its messages go out. */
    method ProduceBlock(sc: Scan, start: int, next: int, total: nat, ghost processed: Option<int>, ghost before: Store,
                        ghost k0: View, ghost ks: seq<View>, ghost cs: seq<Chunk>, ghost ps: seq<int>)
      returns (waiting: bool, total': nat, ghost ks': seq<View>, ghost cs': seq<Chunk>, ghost ps': seq<int>)
      requires kafkaManager.Valid() && sc.chain(next).Some?
      requires Leads(k0, ks, cs, ps, kafkaManager.Contents())
      requires Progress(sc, start, next, before, db.Contents(), total, processed, cs)
      modifies db, kafkaManager, kafkaManager.redisManager
      ensures kafkaManager.Valid()
      ensures Leads(k0, ks', cs', ps', kafkaManager.Contents())
      ensures !waiting ==> Progress(sc, start, next + 1, before, db.Contents(), total', Some(next), cs')
      ensures waiting ==> Held(sc, start, next, before, db.Contents(), cs')
      ensures Exists(sc.chain, start, next + 1) && total' == |Stream(sc, start, next + 1)|
    {
      ProgressStep(sc, start, next, before, db.Contents(), total, processed, cs);
      var block := sc.chain(next).value;
      var reward := if sc.getBlockReward then sc.rewards(next) else 0;
      db.InsertBlock(block, reward);
      total' := total + |block.transactions|;
      waiting, ks', cs', ps' := SendBlock(sc, next, k0, ks, cs, ps);
    }

    /**
     * The loop: insert each block's row, then send its messages. A limiter that never opens leaves the last block
     * inserted and its messages unsent; a timeout or a refused message does not stop the loop.
     */
    method StartProducer(sc: Scan, startBlock: int, endBlock: int)
      returns (outcome: Outcome, next: int, processed: Option<int>, total: nat,
               ghost ks: seq<View>, ghost cs: seq<Chunk>, ghost ps: seq<int>)
      requires kafkaManager.Valid()
      modifies db, kafkaManager, kafkaManager.redisManager
      ensures kafkaManager.Valid()
      ensures Leads(old(kafkaManager.Contents()), ks, cs, ps, kafkaManager.Contents())
      ensures match outcome
              case Finished =>
                && next == (if startBlock <= endBlock then endBlock + 1 else startBlock)
                && Progress(sc, startBlock, next, old(db.Contents()), db.Contents(), total, processed, cs)
              case LatestReached =>
                && next <= endBlock && sc.chain(next).None?
                && Progress(sc, startBlock, next, old(db.Contents()), db.Contents(), total, processed, cs)
              case StillWaiting =>
                && next <= endBlock && Held(sc, startBlock, next, old(db.Contents()), db.Contents(), cs)
      ensures var end := if outcome.StillWaiting? then next + 1 else next;
              && Exists(sc.chain, startBlock, end) && Exists(sc.chain, startBlock, next)
              && total == TransactionCount(sc, startBlock, end)
              && processed == (if next == startBlock then None else Some(next - 1))
              && cs == StreamAttempts(sc, startBlock, next)
              && (Numbered(sc) ==> BlocksRecorded(sc, startBlock, end, old(db.Contents()), db.Contents()))
    {
      ghost var before := db.Contents();
      ghost var k0 := kafkaManager.Contents();
      ks, cs, ps := [k0], [], [];
      next, processed, total := startBlock, None, 0;
      while next <= endBlock
        invariant kafkaManager.Valid() && Leads(k0, ks, cs, ps, kafkaManager.Contents())
        invariant Progress(sc, startBlock, next, before, db.Contents(), total, processed, cs)
        invariant next <= if startBlock <= endBlock then endBlock + 1 else startBlock
      {
        if sc.chain(next).None? {
          NowRecorded(sc, startBlock, next, before);
          StreamLength(sc, startBlock, next);
          return LatestReached, next, processed, total, ks, cs, ps;
        }
        var waiting;
        waiting, total, ks, cs, ps := ProduceBlock(sc, startBlock, next, total, processed, before, k0, ks, cs, ps);
        if waiting {
          NowRecorded(sc, startBlock, next + 1, before);
          StreamLength(sc, startBlock, next + 1);
          return StillWaiting, next, processed, total, ks, cs, ps;
        }
        processed := Some(next);
        next := next + 1;
      }
      NowRecorded(sc, startBlock, next, before);
      StreamLength(sc, startBlock, next);
      outcome := Finished;
    }
  }
}
