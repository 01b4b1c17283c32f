/** What the tables hold once everything is drained, in terms of the chain and the receipts, field by field. */
module PipelineTables {
  import opened EventCodec
  import opened TransactionEvents
  import opened Database
  import opened Selection
  import opened Confluence
  import opened TableRows
  import opened Pipeline
  import opened PipelineRefinement
  import opened PipelineTargets
  import opened PipelineTheorems

  /** A complete run that lost no message. */
  ghost predicate Complete(w: World, base: Store, tasks: seq<Task>, s: State, run: seq<Action>)
  {
    && Sound(w) && Initial(w, tasks, base, s) && Allowed(w, s, run)
    && Drained(w, Exec(w, s, run)) && Exec(w, s, run).lost == {}
  }

  /** A new row of a certain key is there exactly if the tasks' blocks and messages call for it. */
  lemma StoredIsTargeted(w: World, base: Store, tasks: seq<Task>, s: State, run: seq<Action>, key: Key)
    requires Complete(w, base, tasks, s, run) && key !in base.rows && Agrees(w, tasks, key)
    ensures var rows := Exec(w, s, run).store.rows;
            && (key in rows <==> exists row :: Target(w, tasks, Put(key, row)))
            && (key in rows ==> Target(w, tasks, Put(key, rows[key])))
  {
    EveryDrainedRunEqualsTheSequentialLoop(w, base, tasks, s, run, key);
    SequentialRows(w, base, tasks, key);
  }

  /** Some message of the tasks leads to the row. */
  ghost predicate ListedRow(w: World, tasks: seq<Task>, key: Key, row: Row)
  {
    exists m :: Listed(w, tasks, m) && LeadsTo(w.config, w.node, m.mode, m.hash, key, row)
  }

  lemma MessageLeadsTo(w: World, m: Message, key: Key, row: Row)
    requires Sound(w)
    ensures Put(key, row) in MessageWrites(w, m) <==> LeadsTo(w.config, w.node, m.mode, m.hash, key, row)
  {
    DeliveryLeadsTo(w.config, w.node, Delivery(m.mode, m.hash, w.walk(m.hash)), key, row);
  }

  lemma TargetIsListed(w: World, tasks: seq<Task>, key: Key, row: Row)
    requires Sound(w) && !key.BlockKey?
    ensures Target(w, tasks, Put(key, row)) <==> ListedRow(w, tasks, key, row)
  {
    TargetsAre(w, tasks, Put(key, row));
    forall m
      ensures Put(key, row) in MessageWrites(w, m) <==> LeadsTo(w.config, w.node, m.mode, m.hash, key, row)
    {
      MessageLeadsTo(w, m, key, row);
    }
  }

  /** For any table but that of the blocks: exactly the rows the listed messages lead to. */
  lemma RowsAtTheEnd(w: World, base: Store, tasks: seq<Task>, s: State, run: seq<Action>, key: Key)
    requires Complete(w, base, tasks, s, run) && key !in base.rows && Agrees(w, tasks, key) && !key.BlockKey?
    ensures var rows := Exec(w, s, run).store.rows;
            && (key in rows <==> exists row :: ListedRow(w, tasks, key, row))
            && (key in rows ==> ListedRow(w, tasks, key, rows[key]))
  {
    StoredIsTargeted(w, base, tasks, s, run, key);
    forall row
      ensures Target(w, tasks, Put(key, row)) <==> ListedRow(w, tasks, key, row)
    {
      TargetIsListed(w, tasks, key, row);
    }
    assert forall row :: Target(w, tasks, Put(key, row)) ==> ListedRow(w, tasks, key, row);
    if row :| ListedRow(w, tasks, key, row) {
      assert Target(w, tasks, Put(key, row));
    }
  }

  /** A FULL or GET_LOGS task lists the transaction. */
  ghost predicate WholeListed(w: World, tasks: seq<Task>, h: Hash)
  {
    Listed(w, tasks, Message(Full, h)) || Listed(w, tasks, Message(GetLogs, h))
  }

  /**
   * Once all is drained, the new transactions are exactly those that FULL or GET_LOGS tasks list, and those PARTIAL
   * tasks list that concern the configuration, with the node's data, the gas used and the fee.
   */
  lemma TransactionsAtTheEnd(w: World, base: Store, tasks: seq<Task>, s: State, run: seq<Action>, h: Hash)
    requires Complete(w, base, tasks, s, run) && TransactionKey(h) !in base.rows
    ensures var rows := Exec(w, s, run).store.rows;
            && (TransactionKey(h) in rows <==>
                WholeListed(w, tasks, h) || (Listed(w, tasks, Message(Partial, h)) && Saves(w.config, w.node(h))))
            && (TransactionKey(h) in rows ==>
                rows[TransactionKey(h)]
                == TransactionRow(w.node(h).data, w.node(h).receipt.gasUsed, true,
                                  w.node(h).data.gasPrice * w.node(h).receipt.gasUsed))
  {
    AgreesExactlyWhen(w, tasks, TransactionKey(h));
    RowsAtTheEnd(w, base, tasks, s, run, TransactionKey(h));
    TransactionsListed(w, tasks, h, Exec(w, s, run).store);
  }

  lemma TransactionsListed(w: World, tasks: seq<Task>, h: Hash, now: Store)
    requires TransactionKey(h) in now.rows <==> exists row :: ListedRow(w, tasks, TransactionKey(h), row)
    requires TransactionKey(h) in now.rows ==> ListedRow(w, tasks, TransactionKey(h), now.rows[TransactionKey(h)])
    ensures TransactionKey(h) in now.rows <==>
            WholeListed(w, tasks, h) || (Listed(w, tasks, Message(Partial, h)) && Saves(w.config, w.node(h)))
    ensures TransactionKey(h) in now.rows ==>
              now.rows[TransactionKey(h)]
              == TransactionRow(w.node(h).data, w.node(h).receipt.gasUsed, true,
                                w.node(h).data.gasPrice * w.node(h).receipt.gasUsed)
  {
    ListedTransaction(w, tasks, h, TransactionRow(w.node(h).data, w.node(h).receipt.gasUsed, true,
                                                  w.node(h).data.gasPrice * w.node(h).receipt.gasUsed));
    if TransactionKey(h) in now.rows {
      ListedTransaction(w, tasks, h, now.rows[TransactionKey(h)]);
    }
  }

  lemma ListedTransaction(w: World, tasks: seq<Task>, h: Hash, row: Row)
    ensures ListedRow(w, tasks, TransactionKey(h), row) <==>
            && row == TransactionRow(w.node(h).data, w.node(h).receipt.gasUsed, true,
                                     w.node(h).data.gasPrice * w.node(h).receipt.gasUsed)
            && (WholeListed(w, tasks, h) || (Listed(w, tasks, Message(Partial, h)) && Saves(w.config, w.node(h))))
  {
    if m :| Listed(w, tasks, m) && LeadsTo(w.config, w.node, m.mode, m.hash, TransactionKey(h), row) {
      assert m == Message(m.mode, h);
    }
  }

  /** The new logs are exactly those of such whole transactions, and those selected in partial mode. */
  lemma LogsAtTheEnd(w: World, base: Store, tasks: seq<Task>, s: State, run: seq<Action>, h: Hash, l: Log)
    requires Complete(w, base, tasks, s, run) && l in w.node(h).receipt.logs && LogKey(h, l.logIndex) !in base.rows
    ensures var rows, key := Exec(w, s, run).store.rows, LogKey(h, l.logIndex);
            && (key in rows <==>
                || WholeListed(w, tasks, h)
                || (Listed(w, tasks, Message(Partial, h)) && Selects(w.config, w.node(h), l)))
            && (key in rows ==> rows[key] == LogRow(l.address, l.payload))
  {
    AgreesExactlyWhen(w, tasks, LogKey(h, l.logIndex));
    RowsAtTheEnd(w, base, tasks, s, run, LogKey(h, l.logIndex));
    if WholeListed(w, tasks, h) || (Listed(w, tasks, Message(Partial, h)) && Selects(w.config, w.node(h), l)) {
      ListedLog(w, tasks, h, l);
    }
    if LogKey(h, l.logIndex) in Exec(w, s, run).store.rows {
      LogIsListed(w, tasks, h, l, Exec(w, s, run).store.rows[LogKey(h, l.logIndex)]);
    }
  }

  lemma LogIsListed(w: World, tasks: seq<Task>, h: Hash, l: Log, row: Row)
    requires DistinctIndices(w.node) && l in w.node(h).receipt.logs
    requires ListedRow(w, tasks, LogKey(h, l.logIndex), row)
    ensures WholeListed(w, tasks, h) || (Listed(w, tasks, Message(Partial, h)) && Selects(w.config, w.node(h), l))
    ensures row == LogRow(l.address, l.payload)
  {
    assert UniqueIndices(w.node(h).receipt.logs);
    var m :| Listed(w, tasks, m) && LeadsTo(w.config, w.node, m.mode, m.hash, LogKey(h, l.logIndex), row);
    assert m == Message(m.mode, h);
  }

  lemma ListedLog(w: World, tasks: seq<Task>, h: Hash, l: Log)
    requires l in w.node(h).receipt.logs
    requires WholeListed(w, tasks, h) || (Listed(w, tasks, Message(Partial, h)) && Selects(w.config, w.node(h), l))
    ensures ListedRow(w, tasks, LogKey(h, l.logIndex), LogRow(l.address, l.payload))
  {
    var mode := if Listed(w, tasks, Message(Full, h)) then Full
                else if Listed(w, tasks, Message(GetLogs, h)) then GetLogs else Partial;
    var m := Message(mode, h);
    assert LeadsTo(w.config, w.node, m.mode, m.hash, LogKey(h, l.logIndex), LogRow(l.address, l.payload));
  }

  /**
   * The new blocks are exactly those some task reaches, with hash and header; the reward is the node's if FULL tasks
   * reach them, 0 if only others do. (Where both do and it is not 0, either may be stored.)
   */
  lemma BlocksAtTheEnd(w: World, base: Store, tasks: seq<Task>, s: State, run: seq<Action>, n: int)
    requires Complete(w, base, tasks, s, run) && BlockKey(n) !in base.rows && SameReward(w, tasks, n)
    ensures var rows := Exec(w, s, run).store.rows;
            && (BlockKey(n) in rows <==> exists i :: 0 <= i < |tasks| && Reaches(w, tasks[i], n))
            && (BlockKey(n) in rows ==>
                && w.chain(n).Some?
                && rows[BlockKey(n)] == BlockRow(w.chain(n).value.hash, w.chain(n).value.header,
                                                 if exists i :: 0 <= i < |tasks| && Reaches(w, tasks[i], n)
                                                                && tasks[i].mode.Full?
                                                 then w.rewards(n) else 0))
  {
    AgreesExactlyWhen(w, tasks, BlockKey(n));
    StoredIsTargeted(w, base, tasks, s, run, BlockKey(n));
    forall row
      ensures Target(w, tasks, Put(BlockKey(n), row)) <==> IsBlockRow(w, tasks, Put(BlockKey(n), row))
    {
      BlockTarget(w, tasks, n, row);
    }
    if i :| 0 <= i < |tasks| && Reaches(w, tasks[i], n) {
      var wr := BlockRowWrite(w, tasks[i].mode, n);
      assert ScansRow(w, tasks[i], wr);
      assert Target(w, tasks, Put(BlockKey(n), wr.row));
    }
  }

  lemma BlockTarget(w: World, tasks: seq<Task>, n: int, row: Row)
    requires Sound(w)
    ensures Target(w, tasks, Put(BlockKey(n), row)) <==> IsBlockRow(w, tasks, Put(BlockKey(n), row))
  {
    TargetsAre(w, tasks, Put(BlockKey(n), row));
    if m :| Listed(w, tasks, m) && Put(BlockKey(n), row) in MessageWrites(w, m) {
      MessageLeadsTo(w, m, BlockKey(n), row);
    }
  }
}
