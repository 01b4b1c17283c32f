/** What the tables hold after any deliveries, in terms of the receipts, field by field. */
module TableRows {
  import opened Sequences
  import opened EventCodec
  import opened TransactionEvents
  import opened Database
  import opened TxProcessor
  import opened Selection
  import opened Amounts
  import opened Ledger
  import opened Confluence
  import opened LiquidityRun

  /** A message of this mode stands for the whole transaction. */
  predicate Whole(mode: Mode)
  {
    mode.Full? || mode.GetLogs?
  }

  /** A message has its transaction saved: always, or in partial mode if the configuration is concerned. */
  ghost predicate SavedBy(cfg: Config, info: TxInfo, mode: Mode)
  {
    Whole(mode) || (mode.Partial? && Saves(cfg, info))
  }

  /** And with it the log with this index. */
  ghost predicate LogSavedBy(cfg: Config, info: TxInfo, mode: Mode, index: int)
  {
    Whole(mode) || (mode.Partial? && exists l :: Selects(cfg, info, l) && l.logIndex == index)
  }

  /** The log is a token transfer of a handled ERC721 contract that allows such events. */
  ghost predicate NftOf(cfg: Config, info: TxInfo, l: Log)
  {
    && l in info.receipt.logs && l.payload.TransferToken?
    && l.address in Handled(cfg, info) && l.address in cfg
    && cfg[l.address].category == Erc721 && TransferNonFungible in cfg[l.address].events
  }

  /** Handling a message of this mode for this hash inserts this row under this key. */
  ghost predicate LeadsTo(cfg: Config, node: Node, mode: Mode, hash: Hash, key: Key, row: Row)
  {
    var info := node(hash);
    match key
    case TransactionKey(h) =>
      && h == hash && SavedBy(cfg, info, mode)
      && row == TransactionRow(info.data, info.receipt.gasUsed, true, info.data.gasPrice * info.receipt.gasUsed)
    case LogKey(h, i) =>
      && h == hash && LogSavedBy(cfg, info, mode, i)
      && exists l :: l in info.receipt.logs && l.logIndex == i && row == LogRow(l.address, l.payload)
    case NftKey(h, i) =>
      && h == hash && mode.Partial?
      && exists l :: NftOf(cfg, info, l) && l.logIndex == i
                     && row == NftRow(l.address, l.payload.src, l.payload.dst, l.payload.tokenId)
    case PairKey(a, h) =>
      && h == hash && mode.Partial? && a in Handled(cfg, info) && a in cfg
      && row != PairRow(0, 0)
      && row == PairRow(Recorded(a, cfg[a], info.receipt.logs).amount0, Recorded(a, cfg[a], info.receipt.logs).amount1)
    case SupplyKey(a, h) =>
      && h == hash && mode.Partial? && Owns(info.receipt.logs, a)
      && row != SupplyRow(0)
      && exists c :: c in Handled(cfg, info) && c in cfg
                     && row == SupplyRow(Recorded(c, cfg[c], info.receipt.logs).supply)
    case BlockKey(_) => false
  }

  // ---- one delivery ----

  /** Saving a transaction with the logs of these indices. */
  ghost predicate SavedRow(info: TxInfo, indices: set<int>, hash: Hash, key: Key, row: Row)
  {
    match key
    case TransactionKey(h) =>
      && h == hash
      && row == TransactionRow(info.data, info.receipt.gasUsed, true, info.data.gasPrice * info.receipt.gasUsed)
    case LogKey(h, i) =>
      && h == hash && i in indices
      && exists l :: l in info.receipt.logs && l.logIndex == i && row == LogRow(l.address, l.payload)
    case _ => false
  }

  lemma TransactionPuts(hash: Hash, info: TxInfo, indices: set<int>, key: Key, row: Row)
    ensures Put(key, row) in TransactionWrites(hash, info, indices) <==> SavedRow(info, indices, hash, key, row)
  {
    TransactionWritesAre(hash, info, indices, Put(key, row));
  }

  /** The transfer of this index, emitted by this contract. */
  ghost predicate TransferAt(contract: Address, logs: seq<Log>, i: int, row: Row)
  {
    exists l :: l in logs && l.payload.TransferToken? && l.address == contract && l.logIndex == i
                && row == NftRow(l.address, l.payload.src, l.payload.dst, l.payload.tokenId)
  }

  lemma NftEventIsTransfer(contract: Address, cc: ContractConfig, logs: seq<Log>, e: Event)
    requires e in GetTransactionEvents(cc.category, logs) && Relevant(contract, cc.events, e)
    requires e.TransferNonFungibleEvent?
    ensures cc.category == Erc721 && TransferNonFungible in cc.events
    ensures TransferAt(contract, logs, e.logIndex, NftRow(e.address, e.src, e.dst, e.tokenId))
  {
    EventsComeFromLogs(cc.category, logs, e);
    var l :| l in logs && e in Classify(cc.category, l);
    NftEventOfLog(cc.category, l, e);
    ClassifyKeepsPosition(cc.category, l, e);
  }

  lemma TransferIsNftEvent(contract: Address, cc: ContractConfig, hash: Hash, logs: seq<Log>, i: int, row: Row)
    requires cc.category == Erc721 && TransferNonFungible in cc.events && TransferAt(contract, logs, i, row)
    ensures Put(NftKey(hash, i), row) in NftWrites(contract, cc.events, hash, GetTransactionEvents(Erc721, logs))
  {
    var es := GetTransactionEvents(Erc721, logs);
    var l :| l in logs && l.payload.TransferToken? && l.address == contract && l.logIndex == i
             && row == NftRow(l.address, l.payload.src, l.payload.dst, l.payload.tokenId);
    var e := TransferNonFungibleEvent(l.address, i, l.payload.src, l.payload.dst, l.payload.tokenId);
    TransferIsClassified(l);
    EventsComeFromLogs(Erc721, logs, e);
    assert Relevant(contract, cc.events, e) && Put(NftKey(hash, i), row) == NftWrite(hash, e);
    NftWritesAre(contract, cc.events, hash, es, Put(NftKey(hash, i), row));
  }

  lemma NftEvents(contract: Address, cc: ContractConfig, hash: Hash, logs: seq<Log>, i: int, row: Row)
    ensures Put(NftKey(hash, i), row) in EventWrites(contract, cc, hash, logs) <==>
            cc.category == Erc721 && TransferNonFungible in cc.events && TransferAt(contract, logs, i, row)
  {
    var es, wr := GetTransactionEvents(cc.category, logs), Put(NftKey(hash, i), row);
    NftWritesAre(contract, cc.events, hash, es, wr);
    if e :| e in es && Relevant(contract, cc.events, e) && e.TransferNonFungibleEvent? && wr == NftWrite(hash, e) {
      NftEventIsTransfer(contract, cc, logs, e);
    }
    if cc.category == Erc721 && TransferNonFungible in cc.events && TransferAt(contract, logs, i, row) {
      TransferIsNftEvent(contract, cc, hash, logs, i, row);
    }
  }

  lemma TransferIsClassified(l: Log)
    requires l.payload.TransferToken?
    ensures TransferNonFungibleEvent(l.address, l.logIndex, l.payload.src, l.payload.dst, l.payload.tokenId)
            in Classify(Erc721, l)
  {
    var es := Classify(Erc721, l);
    assert es[|es| - 1] in es;
  }

  /** The rows of the event tables that partial mode inserts. */
  lemma SelectionPuts(cfg: Config, node: Node, hash: Hash, order: seq<Address>, key: Key, row: Row)
    requires Walks(order, node(hash).receipt.logs)
    ensures Put(key, row) in SelectPartial(cfg, hash, node(hash), order).writes <==>
            (key.NftKey? || key.PairKey? || key.SupplyKey?) && LeadsTo(cfg, node, Partial, hash, key, row)
  {
    var info := node(hash);
    SelectionWritesAre(cfg, hash, info, order, Put(key, row));
    forall a | a in Handled(cfg, info) && a in cfg
      ensures Put(key, row) in EventWrites(a, cfg[a], hash, info.receipt.logs) <==>
              EventRow(a, cfg[a], info, hash, key, row)
    {
      EventPuts(a, cfg[a], info, hash, key, row);
    }
  }

  /** The rows inserted for the events of one contract. */
  ghost predicate EventRow(contract: Address, cc: ContractConfig, info: TxInfo, hash: Hash, key: Key, row: Row)
  {
    var recorded := Recorded(contract, cc, info.receipt.logs);
    match key
    case NftKey(h, i) =>
      && h == hash && cc.category == Erc721 && TransferNonFungible in cc.events
      && TransferAt(contract, info.receipt.logs, i, row)
    case PairKey(a, h) =>
      h == hash && a == contract && row != PairRow(0, 0) && row == PairRow(recorded.amount0, recorded.amount1)
    case SupplyKey(a, h) =>
      h == hash && Owns(info.receipt.logs, a) && row != SupplyRow(0) && row == SupplyRow(recorded.supply)
    case _ => false
  }

  lemma EventPuts(contract: Address, cc: ContractConfig, info: TxInfo, hash: Hash, key: Key, row: Row)
    ensures Put(key, row) in EventWrites(contract, cc, hash, info.receipt.logs) <==>
            EventRow(contract, cc, info, hash, key, row)
  {
    var logs := info.receipt.logs;
    match key {
      case NftKey(h, i) =>
        if h == hash {
          NftEvents(contract, cc, hash, logs, i, row);
        } else {
          NftWritesAre(contract, cc.events, hash, GetTransactionEvents(cc.category, logs), Put(key, row));
        }
      case PairKey(_, _) => PairRowOfEvents(contract, cc, hash, logs, key, row);
      case SupplyKey(_, _) => SupplyRowIs(contract, cc, hash, logs, key, row);
      case _ => NftWritesAre(contract, cc.events, hash, GetTransactionEvents(cc.category, logs), Put(key, row));
    }
  }

  /** Exactly which rows a delivery inserts. */
  lemma DeliveryLeadsTo(cfg: Config, node: Node, d: Delivery, key: Key, row: Row)
    requires Proper(node, d)
    ensures Put(key, row) in WritesOf(cfg, node, d) <==> LeadsTo(cfg, node, d.mode, d.hash, key, row)
  {
    var info := node(d.hash);
    if d.mode.Partial? {
      var sel := SelectPartial(cfg, d.hash, info, d.order);
      InAppend(sel.writes, if sel.save then TransactionWrites(d.hash, info, sel.indices) else [], Put(key, row));
      SelectionPuts(cfg, node, d.hash, d.order, key, row);
      TransactionPuts(d.hash, info, sel.indices, key, row);
      PartialSelectionIs(cfg, d.hash, info, d.order, if key.LogKey? then key.logIndex else 0);
      assert forall l :: Selects(cfg, info, l) ==> Saves(cfg, info);
    } else if !d.mode.LogFilter? {
      TransactionPuts(d.hash, info, AllIndices(info.receipt.logs), key, row);
    }
  }

  /** A delivery is processed exactly if its transaction is saved. */
  lemma ProcessedIs(cfg: Config, node: Node, d: Delivery)
    requires Proper(node, d)
    ensures Processed(cfg, node, d) <==> SavedBy(cfg, node(d.hash), d.mode)
  {
    if d.mode.Partial? {
      PartialSelectionIs(cfg, d.hash, node(d.hash), d.order, 0);
    }
  }

  // ---- after any deliveries ----

  /** Some delivery inserts the row. */
  ghost predicate LedTo(cfg: Config, node: Node, ds: seq<Delivery>, key: Key, row: Row)
  {
    exists d :: d in ds && LeadsTo(cfg, node, d.mode, d.hash, key, row)
  }

  /** A new row is stored exactly if some delivery inserts one under its key, and it is such a row. */
  lemma RowsAfterRun(cfg: Config, node: Node, s: Store, ds: seq<Delivery>, key: Key)
    requires AllProper(node, ds)
    ensures var rows := Process(cfg, node, s, ds).rows;
            && (key in s.rows ==> key in rows && rows[key] == s.rows[key])
            && (key !in s.rows ==> (key in rows <==> exists row :: LedTo(cfg, node, ds, key, row)))
            && (key in rows && key !in s.rows ==> LedTo(cfg, node, ds, key, rows[key]))
  {
    var ws := AllWrites(cfg, node, ds);
    ProcessInsertsAll(cfg, node, s, ds);
    InsertAllRows(s, ws, key);
    forall row
      ensures Put(key, row) in ws <==> LedTo(cfg, node, ds, key, row)
    {
      WrittenIsLedTo(cfg, node, ds, key, row);
    }
    if w :| w in ws && w.Put? && w.key == key {
      assert Put(key, w.row) in ws;
    }
    if row :| LedTo(cfg, node, ds, key, row) {
      assert Put(key, row) in ws;
      assert Writes(ws, key);
    }
  }

  lemma WrittenIsLedTo(cfg: Config, node: Node, ds: seq<Delivery>, key: Key, row: Row)
    requires AllProper(node, ds)
    ensures Put(key, row) in AllWrites(cfg, node, ds) <==> LedTo(cfg, node, ds, key, row)
  {
    AllWritesAre(cfg, node, ds, Put(key, row));
    forall d | d in ds
      ensures Put(key, row) in WritesOf(cfg, node, d) <==> LeadsTo(cfg, node, d.mode, d.hash, key, row)
    {
      DeliveryLeadsTo(cfg, node, d, key, row);
    }
  }

  /** A FULL or GET_LOGS delivery of the hash is among them. */
  ghost predicate WholeDelivered(ds: seq<Delivery>, h: Hash)
  {
    exists d :: d in ds && d.hash == h && Whole(d.mode)
  }

  /**
   * A new transaction row is stored exactly if its hash was delivered in FULL or GET_LOGS mode, or in PARTIAL mode and
   * the configuration is concerned; it holds the node's data, the gas used, and gas price times gas used as the fee.
   */
  lemma TransactionRowsAfterRun(cfg: Config, node: Node, s: Store, ds: seq<Delivery>, h: Hash)
    requires AllProper(node, ds) && TransactionKey(h) !in s.rows
    ensures var rows := Process(cfg, node, s, ds).rows;
            && (TransactionKey(h) in rows <==>
                WholeDelivered(ds, h) || (Delivered(ds, Partial, h) && Saves(cfg, node(h))))
            && (TransactionKey(h) in rows ==>
                rows[TransactionKey(h)]
                == TransactionRow(node(h).data, node(h).receipt.gasUsed, true,
                                  node(h).data.gasPrice * node(h).receipt.gasUsed))
  {
    var key := TransactionKey(h);
    RowsAfterRun(cfg, node, s, ds, key);
    SavedDelivery(cfg, node, ds, h);
    TransactionLedTo(cfg, node, ds, h, TransactionRow(node(h).data, node(h).receipt.gasUsed, true,
                                                      node(h).data.gasPrice * node(h).receipt.gasUsed));
    if key in Process(cfg, node, s, ds).rows {
      TransactionLedTo(cfg, node, ds, h, Process(cfg, node, s, ds).rows[key]);
    }
  }

  lemma TransactionLedTo(cfg: Config, node: Node, ds: seq<Delivery>, h: Hash, row: Row)
    ensures LedTo(cfg, node, ds, TransactionKey(h), row) <==>
            && (exists d :: d in ds && d.hash == h && SavedBy(cfg, node(h), d.mode))
            && row == TransactionRow(node(h).data, node(h).receipt.gasUsed, true,
                                     node(h).data.gasPrice * node(h).receipt.gasUsed)
  {
  }

  lemma SavedDelivery(cfg: Config, node: Node, ds: seq<Delivery>, h: Hash)
    ensures (exists d :: d in ds && d.hash == h && SavedBy(cfg, node(h), d.mode))
            <==> WholeDelivered(ds, h) || (Delivered(ds, Partial, h) && Saves(cfg, node(h)))
  {
    if d :| d in ds && d.hash == h && SavedBy(cfg, node(h), d.mode) {
      assert d.mode.Partial? ==> Delivered(ds, Partial, h);
    }
    if Delivered(ds, Partial, h) && Saves(cfg, node(h)) {
      var d :| d in ds && d.mode == Partial && d.hash == h;
      assert SavedBy(cfg, node(h), d.mode);
    }
    if d :| d in ds && d.hash == h && Whole(d.mode) {
      assert SavedBy(cfg, node(h), d.mode);
    }
  }

  /** The log of this index is to be saved: with its whole transaction, or selected in partial mode. */
  ghost predicate LogWanted(cfg: Config, node: Node, ds: seq<Delivery>, h: Hash, i: int)
  {
    || (WholeDelivered(ds, h) && exists l :: l in node(h).receipt.logs && l.logIndex == i)
    || (Delivered(ds, Partial, h) && exists l :: Selects(cfg, node(h), l) && l.logIndex == i)
  }

  /**
   * A new log row is stored exactly if its transaction was delivered in FULL or GET_LOGS mode and has such a log, or in
   * PARTIAL mode and the log is selected; it holds that log's emitter and payload.
   */
  lemma LogRowsAfterRun(cfg: Config, node: Node, s: Store, ds: seq<Delivery>, h: Hash, i: int)
    requires AllProper(node, ds) && DistinctIndices(node) && LogKey(h, i) !in s.rows
    ensures var rows := Process(cfg, node, s, ds).rows;
            && (LogKey(h, i) in rows <==> LogWanted(cfg, node, ds, h, i))
            && (LogKey(h, i) in rows ==>
                forall l :: l in node(h).receipt.logs && l.logIndex == i ==>
                  rows[LogKey(h, i)] == LogRow(l.address, l.payload))
  {
    var key := LogKey(h, i);
    RowsAfterRun(cfg, node, s, ds, key);
    assert UniqueIndices(node(h).receipt.logs);
    if r :| LedTo(cfg, node, ds, key, r) {
      var d :| d in ds && LeadsTo(cfg, node, d.mode, d.hash, key, r);
      assert Delivered(ds, d.mode, h);
    }
    if LogWanted(cfg, node, ds, h, i) {
      WantedIsLedTo(cfg, node, ds, h, i);
    }
  }

  lemma WantedIsLedTo(cfg: Config, node: Node, ds: seq<Delivery>, h: Hash, i: int)
    requires LogWanted(cfg, node, ds, h, i)
    ensures exists row :: LedTo(cfg, node, ds, LogKey(h, i), row)
  {
    var l :| l in node(h).receipt.logs && l.logIndex == i;
    var row := LogRow(l.address, l.payload);
    if WholeDelivered(ds, h) {
      var d :| d in ds && d.hash == h && Whole(d.mode);
      assert LeadsTo(cfg, node, d.mode, d.hash, LogKey(h, i), row);
    } else {
      var d :| d in ds && d.hash == h && d.mode.Partial?;
      assert LeadsTo(cfg, node, d.mode, d.hash, LogKey(h, i), row);
    }
    assert LedTo(cfg, node, ds, LogKey(h, i), row);
  }

  /** Once a transaction is delivered in FULL or GET_LOGS mode, it is stored with every log of its receipt. */
  lemma WholeTransactionsAreStored(cfg: Config, node: Node, s: Store, ds: seq<Delivery>, h: Hash, l: Log)
    requires AllProper(node, ds) && DistinctIndices(node) && WholeDelivered(ds, h)
    ensures TransactionKey(h) in Process(cfg, node, s, ds).rows
    ensures l in node(h).receipt.logs ==>
              var key := LogKey(h, l.logIndex);
              && key in Process(cfg, node, s, ds).rows
              && (key !in s.rows ==> Process(cfg, node, s, ds).rows[key] == LogRow(l.address, l.payload))
  {
    RowsAfterRun(cfg, node, s, ds, TransactionKey(h));
    if TransactionKey(h) !in s.rows {
      TransactionRowsAfterRun(cfg, node, s, ds, h);
    }
    if l in node(h).receipt.logs {
      RowsAfterRun(cfg, node, s, ds, LogKey(h, l.logIndex));
      if LogKey(h, l.logIndex) !in s.rows {
        LogRowsAfterRun(cfg, node, s, ds, h, l.logIndex);
      }
    }
  }

  /** A new NFT row is stored exactly if a partial delivery has such a transfer, and holds that transfer. */
  lemma NftRowsAfterRun(cfg: Config, node: Node, s: Store, ds: seq<Delivery>, h: Hash, i: int)
    requires AllProper(node, ds) && DistinctIndices(node) && NftKey(h, i) !in s.rows
    ensures var rows := Process(cfg, node, s, ds).rows;
            && (NftKey(h, i) in rows <==>
                Delivered(ds, Partial, h) && exists l :: NftOf(cfg, node(h), l) && l.logIndex == i)
            && (NftKey(h, i) in rows ==>
                forall l :: NftOf(cfg, node(h), l) && l.logIndex == i ==>
                  rows[NftKey(h, i)] == NftRow(l.address, l.payload.src, l.payload.dst, l.payload.tokenId))
  {
    var key := NftKey(h, i);
    RowsAfterRun(cfg, node, s, ds, key);
    assert UniqueIndices(node(h).receipt.logs);
    if r :| LedTo(cfg, node, ds, key, r) {
      var d :| d in ds && LeadsTo(cfg, node, d.mode, d.hash, key, r);
      assert Delivered(ds, Partial, h);
    }
    if Delivered(ds, Partial, h) && exists l :: NftOf(cfg, node(h), l) && l.logIndex == i {
      var d :| d in ds && d.mode == Partial && d.hash == h;
      var l :| NftOf(cfg, node(h), l) && l.logIndex == i;
      var row := NftRow(l.address, l.payload.src, l.payload.dst, l.payload.tokenId);
      assert LeadsTo(cfg, node, d.mode, d.hash, key, row);
      assert LedTo(cfg, node, ds, key, row);
    }
  }

  /**
   * A new supply row is stored exactly if a partial delivery handles a contract with an amount not 0, under the emitter
   * of the last Redeem, Issue or Transfer log; it holds the amount of such a contract.
   */
  lemma SupplyRowsAfterRun(cfg: Config, node: Node, s: Store, ds: seq<Delivery>, a: Address, h: Hash)
    requires AllProper(node, ds) && SupplyKey(a, h) !in s.rows
    ensures var rows, key := Process(cfg, node, s, ds).rows, SupplyKey(a, h);
            && (key in rows <==> Delivered(ds, Partial, h) && exists c :: Credits(cfg, node, c, key))
            && (key in rows ==>
                exists c :: Credits(cfg, node, c, key)
                            && rows[key] == SupplyRow(Recorded(c, cfg[c], node(h).receipt.logs).supply))
  {
    var key := SupplyKey(a, h);
    RowsAfterRun(cfg, node, s, ds, key);
    forall r
      ensures LedTo(cfg, node, ds, key, r) <==>
              && Delivered(ds, Partial, h)
              && exists c :: Credits(cfg, node, c, key)
                             && r == SupplyRow(Recorded(c, cfg[c], node(h).receipt.logs).supply)
    {
      if Delivered(ds, Partial, h) {
        var d :| d in ds && d.mode == Partial && d.hash == h;
        assert LeadsTo(cfg, node, d.mode, d.hash, key, r) ==> LedTo(cfg, node, ds, key, r);
      }
    }
    if c :| Credits(cfg, node, c, key) {
      var row := SupplyRow(Recorded(c, cfg[c], node(h).receipt.logs).supply);
      assert Delivered(ds, Partial, h) ==> LedTo(cfg, node, ds, key, row);
    }
  }

  /** Deliveries insert no block row. */
  lemma NoBlockRowsAfterRun(cfg: Config, node: Node, s: Store, ds: seq<Delivery>, n: int)
    requires AllProper(node, ds)
    ensures BlockKey(n) in Process(cfg, node, s, ds).rows <==> BlockKey(n) in s.rows
  {
    RowsAfterRun(cfg, node, s, ds, BlockKey(n));
  }

  // ---- the bag of internal transactions ----

  /** The internal transactions of a hash, each with it. */
  function Trace(h: Hash, internals: seq<InternalTransaction>): (trace: seq<(Hash, InternalTransaction)>)
    ensures |trace| == |internals| && forall i :: 0 <= i < |internals| ==> trace[i] == (h, internals[i])
  {
    seq(|internals|, i requires 0 <= i < |internals| => (h, internals[i]))
  }

  /** The traces of the deliveries whose transaction is saved, repeats included. */
  ghost function Traces(cfg: Config, node: Node, ds: seq<Delivery>): multiset<(Hash, InternalTransaction)>
  {
    if ds == [] then multiset{}
    else
      var d := ds[|ds| - 1];
      Traces(cfg, node, ds[..|ds| - 1])
      + if SavedBy(cfg, node(d.hash), d.mode) then multiset(Trace(d.hash, node(d.hash).internals)) else multiset{}
  }

  /** What a list of writes adds to the bag. */
  function Appended(ws: seq<Write>): multiset<(Hash, InternalTransaction)>
  {
    if ws == [] then multiset{}
    else
      var w := ws[|ws| - 1];
      Appended(ws[..|ws| - 1]) + match w case Append(h, t) => multiset{(h, t)} case Put(_, _) => multiset{}
  }

  lemma {:induction false} BagGets(s: Store, ws: seq<Write>)
    ensures InsertAll(s, ws).internals == s.internals + Appended(ws)
  {
    if ws != [] {
      BagGets(s, ws[..|ws| - 1]);
    }
  }

  lemma {:induction false} AppendedJoin(ws: seq<Write>, vs: seq<Write>)
    ensures Appended(ws + vs) == Appended(ws) + Appended(vs)
  {
    if vs == [] {
      AppendNothing(ws);
    } else {
      AppendLast(ws, vs);
      AppendedJoin(ws, vs[..|vs| - 1]);
    }
  }

  lemma {:induction false} PutsAppendNothing(ws: seq<Write>)
    requires forall w <- ws :: w.Put?
    ensures Appended(ws) == multiset{}
  {
    if ws != [] {
      assert ws[|ws| - 1] in ws;
      PutsAppendNothing(ws[..|ws| - 1]);
    }
  }

  lemma {:induction false} InternalsAppend(hash: Hash, internals: seq<InternalTransaction>)
    ensures Appended(InternalWrites(hash, internals)) == multiset(Trace(hash, internals))
  {
    if internals != [] {
      var m := |internals| - 1;
      InternalsAppend(hash, internals[..m]);
      assert Trace(hash, internals) == Trace(hash, internals[..m]) + [(hash, internals[m])];
      AppendedJoin(InternalWrites(hash, internals[..m]), [Append(hash, internals[m])]);
      assert [Append(hash, internals[m])][..0] == [];
    }
  }

  lemma TransactionAppended(node: Node, hash: Hash, indices: set<int>)
    ensures Appended(TransactionWrites(hash, node(hash), indices)) == multiset(Trace(hash, node(hash).internals))
  {
    var info := node(hash);
    var puts := [TransactionWrite(hash, info)] + LogWrites(hash, info.receipt.logs, indices);
    OnlyPuts(hash, info, indices);
    PutsAppendNothing(puts);
    AppendedJoin(puts, InternalWrites(hash, info.internals));
    InternalsAppend(hash, info.internals);
  }

  lemma OnlyPuts(hash: Hash, info: TxInfo, indices: set<int>)
    ensures forall w <- [TransactionWrite(hash, info)] + LogWrites(hash, info.receipt.logs, indices) :: w.Put?
  {
    forall w | w in [TransactionWrite(hash, info)] + LogWrites(hash, info.receipt.logs, indices)
      ensures w.Put?
    {
      LogWritesAre(hash, info.receipt.logs, indices, w);
    }
  }

  lemma SelectionAppended(cfg: Config, node: Node, hash: Hash, order: seq<Address>)
    requires Walks(order, node(hash).receipt.logs)
    ensures Appended(SelectPartial(cfg, hash, node(hash), order).writes) == multiset{}
  {
    var sel := SelectPartial(cfg, hash, node(hash), order);
    forall w | w in sel.writes
      ensures w.Put?
    {
      SelectionWritesAre(cfg, hash, node(hash), order, w);
      var a :| a in cfg && w in EventWrites(a, cfg[a], hash, node(hash).receipt.logs);
      EventWritesOnlyPut(a, cfg[a], hash, node(hash).receipt.logs, w);
    }
    PutsAppendNothing(sel.writes);
  }

  lemma PartialAppended(cfg: Config, node: Node, hash: Hash, order: seq<Address>)
    requires Walks(order, node(hash).receipt.logs)
    ensures Appended(PartialWrites(cfg, hash, node(hash), order)) ==
            if Saves(cfg, node(hash)) then multiset(Trace(hash, node(hash).internals)) else multiset{}
  {
    var sel := SelectPartial(cfg, hash, node(hash), order);
    PartialSelectionIs(cfg, hash, node(hash), order, 0);
    SelectionAppended(cfg, node, hash, order);
    TransactionAppended(node, hash, sel.indices);
    AppendedJoin(sel.writes, if sel.save then TransactionWrites(hash, node(hash), sel.indices) else []);
  }

  lemma DeliveryAppended(cfg: Config, node: Node, d: Delivery)
    requires Proper(node, d)
    ensures Appended(WritesOf(cfg, node, d)) ==
            if SavedBy(cfg, node(d.hash), d.mode) then multiset(Trace(d.hash, node(d.hash).internals)) else multiset{}
  {
    if d.mode.Partial? {
      PartialAppended(cfg, node, d.hash, d.order);
    } else if !d.mode.LogFilter? {
      TransactionAppended(node, d.hash, AllIndices(node(d.hash).receipt.logs));
    }
  }

  /** The bag grows by exactly the internal transactions of the saved deliveries, each as often as it is delivered. */
  lemma {:induction false} InternalsAfterRun(cfg: Config, node: Node, s: Store, ds: seq<Delivery>)
    requires AllProper(node, ds)
    ensures Process(cfg, node, s, ds).internals == s.internals + Traces(cfg, node, ds)
  {
    if ds != [] {
      var m := |ds| - 1;
      InternalsAfterRun(cfg, node, s, ds[..m]);
      OneMoreTrace(cfg, node, Process(cfg, node, s, ds[..m]), ds[m]);
    }
  }

  lemma OneMoreTrace(cfg: Config, node: Node, s: Store, d: Delivery)
    requires Proper(node, d)
    ensures InsertAll(s, WritesOf(cfg, node, d)).internals
            == s.internals + if SavedBy(cfg, node(d.hash), d.mode) then multiset(Trace(d.hash, node(d.hash).internals))
                             else multiset{}
  {
    BagGets(s, WritesOf(cfg, node, d));
    DeliveryAppended(cfg, node, d);
  }
}
