/** Blocks come before their transactions, and the blocks read so far have no gaps. */
module PipelineOrder {
  import opened Sequences
  import opened EventCodec
  import opened TransactionEvents
  import opened Database
  import opened TxProcessor
  import opened Selection
  import opened Pipeline

  /** A transaction listed in a block says it is in that block. */
  ghost predicate ListsItsOwn(w: World)
  {
    forall n, h :: w.chain(n).Some? && h in w.chain(n).value.transactions ==> w.node(h).data.blockNumber == n
  }

  /** The row of the block that holds the transaction. */
  function HomeBlock(w: World, m: Message): Key
  {
    BlockKey(w.node(m.hash).data.blockNumber)
  }

  /** Messages of block scans have their block's row; get_logs messages come without one. */
  ghost predicate Housed(w: World, rows: map<Key, Row>, m: Message)
  {
    m.mode.GetLogs? || HomeBlock(w, m) in rows
  }

  /** Handling the message inserts transaction rows for its own hash only, and no block row. */
  ghost predicate LedToBy(m: Message, wr: Write)
  {
    wr.Put? ==> !wr.key.BlockKey? && (wr.key.TransactionKey? ==> wr.key.hash == m.hash)
  }

  ghost predicate TaskHoused(w: World, rows: map<Key, Row>, t: Task)
  {
    && (forall m <- t.batch :: Housed(w, rows, m))
    && (t.mode.GetLogs? ==> t.next > t.last && forall m <- t.batch :: m.mode.GetLogs?)
    && (!t.mode.GetLogs? ==> forall m <- t.batch :: m.mode == t.mode)
  }

  /** The rows of the blocks this task has read so far, without gaps. */
  ghost predicate ReadSoFar(rows: map<Key, Row>, start: Task, t: Task)
  {
    && start.next <= t.next && t.last == start.last && t.mode == start.mode
    && forall n :: start.next <= n < t.next ==> BlockKey(n) in rows
  }

  /** Blocks are stored by the tasks that read them, and by nobody else. */
  ghost predicate InIntervals(base: Store, tasks: seq<Task>, s: State)
  {
    && |s.tasks| == |tasks| && base.rows.Keys <= s.store.rows.Keys
    && (forall i :: 0 <= i < |tasks| ==> ReadSoFar(s.store.rows, tasks[i], s.tasks[i]))
    && (forall n :: BlockKey(n) in s.store.rows && BlockKey(n) !in base.rows ==> IsRead(tasks, s, n))
    && (forall c :: 0 <= c < |s.workers| && s.workers[c].Busy? ==>
          forall wr :: wr in s.workers[c].todo ==> LedToBy(s.workers[c].message, wr))
  }

  ghost predicate IsRead(tasks: seq<Task>, s: State, n: int)
    requires |s.tasks| == |tasks|
  {
    exists i :: 0 <= i < |tasks| && tasks[i].next <= n < s.tasks[i].next
  }

  ghost predicate Ordered(w: World, base: Store, s: State)
  {
    && (forall i :: 0 <= i < |s.tasks| ==> TaskHoused(w, s.store.rows, s.tasks[i]))
    && (forall m :: m in s.sent ==> Housed(w, s.store.rows, m))
    && (forall p, m :: 0 <= p < |s.topic| && m in s.topic[p] ==> m in s.sent)
    && (forall c :: 0 <= c < |s.workers| && s.workers[c].Busy? ==>
          && s.workers[c].message in s.sent
          && forall wr :: wr in s.workers[c].todo ==> LedToBy(s.workers[c].message, wr))
    && TransactionsExplained(base, s)
  }

  /** New transaction rows belong to sent messages. */
  ghost predicate TransactionsExplained(base: Store, s: State)
  {
    forall h :: TransactionKey(h) in s.store.rows && TransactionKey(h) !in base.rows ==>
      exists m :: m in s.sent && m.hash == h
  }

  lemma TransactionWritesLedToBy(hash: Hash, info: TxInfo, indices: set<int>, wr: Write)
    requires wr in TransactionWrites(hash, info, indices)
    ensures LedToBy(Message(Full, hash), wr)
  {
    if wr.Put? {
      TransactionWritesAre(hash, info, indices, wr);
    }
  }

  lemma SelectionWritesLedToBy(w: World, m: Message, order: seq<Address>, wr: Write)
    requires Walks(order, w.node(m.hash).receipt.logs)
    requires wr in SelectPartial(w.config, m.hash, w.node(m.hash), order).writes
    ensures LedToBy(m, wr)
  {
    var info := w.node(m.hash);
    SelectionWritesAre(w.config, m.hash, info, order, wr);
    var a :| a in w.config && wr in EventWrites(a, w.config[a], m.hash, info.receipt.logs);
    EventWritesLedToBy(a, w.config[a], m, info.receipt.logs, wr);
  }

  lemma EventWritesLedToBy(a: Address, cc: ContractConfig, m: Message, logs: seq<Log>, wr: Write)
    requires wr in EventWrites(a, cc, m.hash, logs)
    ensures LedToBy(m, wr)
  {
    NftWritesAre(a, cc.events, m.hash, GetTransactionEvents(cc.category, logs), wr);
  }

  lemma HandlerWritesLedToBy(w: World, m: Message, order: seq<Address>, wr: Write)
    requires Walks(order, w.node(m.hash).receipt.logs) && wr in HandlerWrites(w, m, order)
    ensures LedToBy(m, wr)
  {
    var info := w.node(m.hash);
    if m.mode.Partial? {
      var sel := SelectPartial(w.config, m.hash, info, order);
      InAppend(sel.writes, if sel.save then TransactionWrites(m.hash, info, sel.indices) else [], wr);
      if wr in sel.writes {
        SelectionWritesLedToBy(w, m, order, wr);
      } else {
        TransactionWritesLedToBy(m.hash, info, sel.indices, wr);
      }
    } else if !m.mode.LogFilter? {
      TransactionWritesLedToBy(m.hash, info, AllIndices(info.receipt.logs), wr);
    }
  }

  lemma InsertGrows(s: Store, wr: Write)
    ensures s.rows.Keys <= Insert(s, wr).rows.Keys
    ensures forall key :: key in Insert(s, wr).rows && key !in s.rows ==> wr.Put? && key == wr.key
    ensures wr.Put? ==> wr.key in Insert(s, wr).rows
  {
  }

  // ---- intervals ----

  lemma IntervalsProduce(w: World, base: Store, tasks: seq<Task>, s: State, i: nat)
    requires Sound(w) && InIntervals(base, tasks, s) && Enabled(w, s, Produce(i))
    ensures InIntervals(base, tasks, Next(w, s, Produce(i)))
  {
    var s' := Next(w, s, Produce(i));
    var t := s.tasks[i];
    InsertGrows(s.store, BlockRowWrite(w, t.mode, t.next));
    assert ReadSoFar(s.store.rows, tasks[i], t);
    forall n | BlockKey(n) in s'.store.rows && BlockKey(n) !in base.rows
      ensures IsRead(tasks, s', n)
    {
      if BlockKey(n) in s.store.rows {
        var j :| 0 <= j < |tasks| && tasks[j].next <= n < s.tasks[j].next;
        assert n < s'.tasks[j].next;
      } else {
        assert tasks[i].next <= n < s'.tasks[i].next;
      }
    }
  }

  /** Steps that read no block and leave the handlers' rows as they are, or fewer. */
  lemma IntervalsOther(base: Store, tasks: seq<Task>, s: State, s': State)
    requires InIntervals(base, tasks, s)
    requires |s'.tasks| == |s.tasks|
    requires forall i :: 0 <= i < |s.tasks| ==>
               && s'.tasks[i].next == s.tasks[i].next && s'.tasks[i].last == s.tasks[i].last
               && s'.tasks[i].mode == s.tasks[i].mode
    requires s.store.rows.Keys <= s'.store.rows.Keys
    requires forall n :: BlockKey(n) in s'.store.rows ==> BlockKey(n) in s.store.rows
    requires forall c :: 0 <= c < |s'.workers| && s'.workers[c].Busy? ==>
               forall wr :: wr in s'.workers[c].todo ==> LedToBy(s'.workers[c].message, wr)
    ensures InIntervals(base, tasks, s')
  {
    forall i | 0 <= i < |tasks|
      ensures ReadSoFar(s'.store.rows, tasks[i], s'.tasks[i])
    {
      assert ReadSoFar(s.store.rows, tasks[i], s.tasks[i]);
    }
    forall n | BlockKey(n) in s'.store.rows && BlockKey(n) !in base.rows
      ensures IsRead(tasks, s', n)
    {
      var i :| 0 <= i < |tasks| && tasks[i].next <= n < s.tasks[i].next;
      assert n < s'.tasks[i].next;
    }
  }

  lemma FetchedIsLedTo(w: World, m: Message, order: seq<Address>)
    requires Walks(order, w.node(m.hash).receipt.logs)
    ensures forall wr :: wr in HandlerWrites(w, m, order) ==> LedToBy(m, wr)
  {
    forall wr | wr in HandlerWrites(w, m, order)
      ensures LedToBy(m, wr)
    {
      HandlerWritesLedToBy(w, m, order, wr);
    }
  }

  lemma IntervalsStep(w: World, base: Store, tasks: seq<Task>, s: State, a: Action)
    requires Sound(w) && InIntervals(base, tasks, s) && Enabled(w, s, a)
    ensures InIntervals(base, tasks, Next(w, s, a))
  {
    var s' := Next(w, s, a);
    match a {
      case Produce(i) => IntervalsProduce(w, base, tasks, s, i);
      case Fetch(c, p, order) =>
        FetchedIsLedTo(w, s.topic[p][0], order);
        IntervalsOther(base, tasks, s, s');
      case InsertRow(c) =>
        assert LedToBy(s.workers[c].message, s.workers[c].todo[0]);
        InsertGrows(s.store, s.workers[c].todo[0]);
        forall wr | wr in s.workers[c].todo[1..]
          ensures wr in s.workers[c].todo
        {
        }
        IntervalsOther(base, tasks, s, s');
      case _ => IntervalsOther(base, tasks, s, s');
    }
  }

  lemma {:induction false} IntervalsRun(w: World, base: Store, tasks: seq<Task>, s: State, run: seq<Action>)
    requires Sound(w) && InIntervals(base, tasks, s) && Allowed(w, s, run)
    ensures InIntervals(base, tasks, Exec(w, s, run))
    decreases |run|
  {
    if run != [] {
      IntervalsStep(w, base, tasks, s, run[0]);
      IntervalsRun(w, base, tasks, Next(w, s, run[0]), run[1..]);
    }
  }

  /**
   * In every reachable state the stored blocks are those of the starting tables and, for each task, those from its
   * first block up to the block it reads next.
   */
  lemma BlocksFormIntervals(w: World, base: Store, tasks: seq<Task>, s: State, run: seq<Action>, n: int)
    requires Sound(w) && Initial(w, tasks, base, s) && Allowed(w, s, run)
    ensures var e := Exec(w, s, run);
            && |e.tasks| == |tasks|
            && (BlockKey(n) in e.store.rows <==>
                BlockKey(n) in base.rows || exists i :: 0 <= i < |tasks| && tasks[i].next <= n < e.tasks[i].next)
  {
    IntervalsRun(w, base, tasks, s, run);
    var e := Exec(w, s, run);
    if i :| 0 <= i < |tasks| && tasks[i].next <= n < e.tasks[i].next {
      assert ReadSoFar(e.store.rows, tasks[i], e.tasks[i]);
    }
  }

  // ---- blocks first ----

  lemma OrderedProduce(w: World, base: Store, s: State, i: nat)
    requires Sound(w) && ListsItsOwn(w) && Ordered(w, base, s) && Enabled(w, s, Produce(i))
    ensures Ordered(w, base, Next(w, s, Produce(i)))
  {
    var s' := Next(w, s, Produce(i));
    var t := s.tasks[i];
    InsertGrows(s.store, BlockRowWrite(w, t.mode, t.next));
    forall j | 0 <= j < |s.tasks|
      ensures TaskHoused(w, s'.store.rows, s'.tasks[j])
    {
      assert TaskHoused(w, s.store.rows, s.tasks[j]);
    }
  }

  lemma OrderedSend(w: World, base: Store, s: State, i: nat, p: nat, k: nat)
    requires Ordered(w, base, s) && Enabled(w, s, Send(i, p, k))
    ensures Ordered(w, base, Next(w, s, Send(i, p, k)))
  {
    var s' := Next(w, s, Send(i, p, k));
    var t := s.tasks[i];
    forall m | m in t.batch[..k] || m in t.batch[k..]
      ensures m in t.batch
    {
    }
    assert TaskHoused(w, s.store.rows, t);
    forall j | 0 <= j < |s.tasks|
      ensures TaskHoused(w, s'.store.rows, s'.tasks[j])
    {
      assert TaskHoused(w, s.store.rows, s.tasks[j]);
    }
    forall q, m | 0 <= q < |s'.topic| && m in s'.topic[q]
      ensures m in s'.sent
    {
      InAppend(s.topic[p], t.batch[..k], m);
    }
  }

  lemma OrderedLose(w: World, base: Store, s: State, i: nat, j: nat)
    requires Ordered(w, base, s) && Enabled(w, s, Lose(i, j))
    ensures Ordered(w, base, Next(w, s, Lose(i, j)))
  {
    var s' := Next(w, s, Lose(i, j));
    var t := s.tasks[i];
    assert TaskHoused(w, s.store.rows, t);
    forall m | m in s'.tasks[i].batch
      ensures m in t.batch
    {
      InAppend(t.batch[..j], t.batch[j + 1..], m);
    }
    forall k | 0 <= k < |s.tasks|
      ensures TaskHoused(w, s'.store.rows, s'.tasks[k])
    {
      assert TaskHoused(w, s.store.rows, s.tasks[k]);
    }
  }

  /** Steps that only change one worker and move messages that were sent. */
  lemma OrderedWorker(w: World, base: Store, s: State, c: nat, b: Worker, s': State)
    requires Ordered(w, base, s) && c < |s.workers|
    requires b.Busy? ==> b.message in s.sent && forall wr :: wr in b.todo ==> LedToBy(b.message, wr)
    requires s' == s.(workers := s.workers[c := b], topic := s'.topic)
    requires forall p, m :: 0 <= p < |s'.topic| && m in s'.topic[p] ==> m in s.sent
    ensures Ordered(w, base, s')
  {
  }

  lemma OrderedInsertRow(w: World, base: Store, s: State, c: nat)
    requires Ordered(w, base, s) && Enabled(w, s, InsertRow(c))
    ensures Ordered(w, base, Next(w, s, InsertRow(c)))
  {
    var s' := Next(w, s, InsertRow(c));
    var b := s.workers[c];
    assert LedToBy(b.message, b.todo[0]);
    InsertGrows(s.store, b.todo[0]);
    forall j | 0 <= j < |s.tasks|
      ensures TaskHoused(w, s'.store.rows, s'.tasks[j])
    {
      assert TaskHoused(w, s.store.rows, s.tasks[j]);
    }
    forall wr | wr in b.todo[1..]
      ensures wr in b.todo
    {
    }
  }

  lemma PutBackIsSent(s: State, p: nat, m: Message, s': State)
    requires p < |s.topic| && m in s.sent && s'.topic == s.topic[p := [m] + s.topic[p]]
    requires forall q, k :: 0 <= q < |s.topic| && k in s.topic[q] ==> k in s.sent
    ensures forall q, k :: 0 <= q < |s'.topic| && k in s'.topic[q] ==> k in s.sent
  {
    forall q, k | 0 <= q < |s'.topic| && k in s'.topic[q]
      ensures k in s.sent
    {
      InAppend([m], s.topic[p], k);
    }
  }

  lemma OrderedStep(w: World, base: Store, s: State, a: Action)
    requires Sound(w) && ListsItsOwn(w) && Ordered(w, base, s) && Enabled(w, s, a)
    ensures Ordered(w, base, Next(w, s, a))
  {
    var s' := Next(w, s, a);
    match a {
      case Produce(i) => OrderedProduce(w, base, s, i);
      case Send(i, p, k) => OrderedSend(w, base, s, i, p, k);
      case Lose(i, j) => OrderedLose(w, base, s, i, j);
      case Fetch(c, p, order) =>
        assert s.topic[p][0] in s.topic[p];
        FetchedIsLedTo(w, s.topic[p][0], order);
        OrderedWorker(w, base, s, c, s'.workers[c], s');
      case InsertRow(c) => OrderedInsertRow(w, base, s, c);
      case Return(c) => OrderedWorker(w, base, s, c, Idle, s');
      case Redeliver(p, m) =>
        PutBackIsSent(s, p, m, s');
      case Crash(c, p) =>
        PutBackIsSent(s, p, s.workers[c].message, s');
        OrderedWorker(w, base, s, c, Idle, s');
    }
  }

  lemma {:induction false} OrderedRun(w: World, base: Store, s: State, run: seq<Action>)
    requires Sound(w) && ListsItsOwn(w) && Ordered(w, base, s) && Allowed(w, s, run)
    ensures Ordered(w, base, Exec(w, s, run))
    decreases |run|
  {
    if run != [] {
      OrderedStep(w, base, s, run[0]);
      OrderedRun(w, base, Next(w, s, run[0]), run[1..]);
    }
  }

  /**
   * In every reachable state: each FULL or PARTIAL message ever sent has its block's row; only sent messages are in
   * the topic and in handlers; and each new transaction row belongs to a message that was sent.
   */
  lemma BlockBeforeTransaction(w: World, base: Store, tasks: seq<Task>, s: State, run: seq<Action>)
    requires Sound(w) && ListsItsOwn(w) && Initial(w, tasks, base, s) && Allowed(w, s, run)
    ensures var e := Exec(w, s, run);
            && (forall m :: m in e.sent && !m.mode.GetLogs? ==> HomeBlock(w, m) in e.store.rows)
            && (forall p, m :: 0 <= p < |e.topic| && m in e.topic[p] ==> m in e.sent)
            && (forall c :: 0 <= c < |e.workers| && e.workers[c].Busy? ==> e.workers[c].message in e.sent)
            && (forall h :: TransactionKey(h) in e.store.rows && TransactionKey(h) !in base.rows ==>
                  exists m :: m in e.sent && m.hash == h)
  {
    OrderedRun(w, base, s, run);
    SentAreHoused(w, base, Exec(w, s, run));
  }

  lemma SentAreHoused(w: World, base: Store, e: State)
    requires Ordered(w, base, e)
    ensures forall m :: m in e.sent && !m.mode.GetLogs? ==> HomeBlock(w, m) in e.store.rows
  {
    forall m | m in e.sent && !m.mode.GetLogs?
      ensures HomeBlock(w, m) in e.store.rows
    {
      assert Housed(w, e.store.rows, m);
    }
  }
}
