/** Any finite sequence of deliveries: repeats and reordering do not change the keyed tables. */
module Confluence {
  import opened Sequences
  import opened EventCodec
  import opened TransactionEvents
  import opened Database
  import opened TxProcessor
  import opened Selection
  import opened Amounts
  import opened Ledger

  /** The node answers the same for the same hash. */
  type Node = Hash -> TxInfo

  /** One message handled: its mode and hash, and the order in which the set of log addresses was walked. */
  datatype Delivery = Delivery(mode: Mode, hash: Hash, order: seq<Address>)

  ghost predicate Proper(node: Node, d: Delivery)
  {
    Walks(d.order, node(d.hash).receipt.logs)
  }

  /** A receipt gives different logs different indices. */
  ghost predicate DistinctIndices(node: Node)
  {
    forall h :: UniqueIndices(node(h).receipt.logs)
  }

  ghost predicate UniqueIndices(logs: seq<Log>)
  {
    forall l, m :: l in logs && m in logs && l.logIndex == m.logIndex ==> l == m
  }

  /** The mode decides the processor: FULL is the default, and LOG_FILTER raises before writing anything. */
  function WritesOf(cfg: Config, node: Node, d: Delivery): seq<Write>
  {
    match d.mode
    case Full => FullWrites(d.hash, node(d.hash))
    case GetLogs => FullWrites(d.hash, node(d.hash))
    case Partial => PartialWrites(cfg, d.hash, node(d.hash), d.order)
    case LogFilter => []
  }

  function AllWrites(cfg: Config, node: Node, ds: seq<Delivery>): seq<Write>
  {
    if ds == [] then [] else AllWrites(cfg, node, ds[..|ds| - 1]) + WritesOf(cfg, node, ds[|ds| - 1])
  }

  /** The tables after handling the deliveries one after the other. */
  function Process(cfg: Config, node: Node, s: Store, ds: seq<Delivery>): Store
  {
    if ds == [] then s
    else InsertAll(Process(cfg, node, s, ds[..|ds| - 1]), WritesOf(cfg, node, ds[|ds| - 1]))
  }

  lemma {:induction false} ProcessInsertsAll(cfg: Config, node: Node, s: Store, ds: seq<Delivery>)
    ensures Process(cfg, node, s, ds) == InsertAll(s, AllWrites(cfg, node, ds))
  {
    if ds != [] {
      var m := |ds| - 1;
      ProcessInsertsAll(cfg, node, s, ds[..m]);
      InsertAllAppend(s, AllWrites(cfg, node, ds[..m]), WritesOf(cfg, node, ds[m]));
    }
  }

  lemma {:induction false} AllWritesAre(cfg: Config, node: Node, ds: seq<Delivery>, w: Write)
    ensures w in AllWrites(cfg, node, ds) <==> exists d :: d in ds && w in WritesOf(cfg, node, d)
  {
    if ds != [] {
      var m := |ds| - 1;
      AllWritesAre(cfg, node, ds[..m], w);
      InAppend(AllWrites(cfg, node, ds[..m]), WritesOf(cfg, node, ds[m]), w);
      forall d
        ensures d in ds <==> d in ds[..m] || d == ds[m]
      {
        InPrefixOrLast(ds, d);
      }
    }
  }

  // ---- the order of iteration does not matter ----

  lemma EmittersInAnyOrder(cfg: Config, hash: Hash, logs: seq<Log>, order: seq<Address>, order': seq<Address>, w: Write)
    requires Walks(order, logs) && Walks(order', logs)
    ensures w in EmitterWrites(cfg, hash, logs, order) <==> w in EmitterWrites(cfg, hash, logs, order')
  {
    EmitterWritesAre(cfg, hash, logs, order, w);
    EmitterWritesAre(cfg, hash, logs, order', w);
  }

  lemma SelectionInAnyOrder(cfg: Config, hash: Hash, info: TxInfo, order: seq<Address>, order': seq<Address>, w: Write)
    requires Walks(order, info.receipt.logs) && Walks(order', info.receipt.logs)
    ensures var a, b := SelectPartial(cfg, hash, info, order), SelectPartial(cfg, hash, info, order');
            a.save == b.save && a.indices == b.indices && (w in a.writes <==> w in b.writes)
  {
    var a, b := SelectPartial(cfg, hash, info, order), SelectPartial(cfg, hash, info, order');
    PartialSelectionIs(cfg, hash, info, order, 0);
    PartialSelectionIs(cfg, hash, info, order', 0);
    forall index
      ensures index in a.indices <==> index in b.indices
    {
      IndexSelected(cfg, hash, info, order, index);
      IndexSelected(cfg, hash, info, order', index);
    }
    EmittersInAnyOrder(cfg, hash, info.receipt.logs, order, order', w);
  }

  /** Two deliveries of the same message write the same rows. */
  lemma SameMessageSameWrites(cfg: Config, node: Node, d: Delivery, e: Delivery, w: Write)
    requires Proper(node, d) && Proper(node, e) && d.mode == e.mode && d.hash == e.hash
    ensures w in WritesOf(cfg, node, d) <==> w in WritesOf(cfg, node, e)
  {
    if d.mode.Partial? {
      SelectionInAnyOrder(cfg, d.hash, node(d.hash), d.order, e.order, w);
      var a, b := SelectPartial(cfg, d.hash, node(d.hash), d.order), SelectPartial(cfg, d.hash, node(d.hash), e.order);
      var rest := if a.save then TransactionWrites(d.hash, node(d.hash), a.indices) else [];
      InAppend(a.writes, rest, w);
      InAppend(b.writes, rest, w);
    }
  }

  // ---- every row is a function of its key ----

  function NftRowOf(l: Log): Row
    requires l.payload.TransferToken?
  {
    NftRow(l.address, l.payload.src, l.payload.dst, l.payload.tokenId)
  }

  /** A handled contract with an amount to record under this supply key. */
  ghost predicate Credits(cfg: Config, node: Node, contract: Address, key: Key)
  {
    && key.SupplyKey? && contract in Handled(cfg, node(key.hash)) && contract in cfg
    && SupplyAmount(contract, cfg[contract], node(key.hash).receipt.logs) != 0
    && Owns(node(key.hash).receipt.logs, key.address)
  }

  /**
   * No two handled contracts have different amounts to record under one supply key; other keys have no such trouble.
   */
  ghost predicate Determined(cfg: Config, node: Node, key: Key)
  {
    forall c, d :: Credits(cfg, node, c, key) && Credits(cfg, node, d, key) ==>
      SupplyAmount(c, cfg[c], node(key.hash).receipt.logs) == SupplyAmount(d, cfg[d], node(key.hash).receipt.logs)
  }

  /** What a row under this key must hold; a supply row is that of some contract with an amount to record under it. */
  ghost predicate Faithful(cfg: Config, node: Node, key: Key, row: Row)
  {
    match key
    case TransactionKey(h) => Put(key, row) == TransactionWrite(h, node(h))
    case LogKey(h, i) => exists l :: l in node(h).receipt.logs && l.logIndex == i && Put(key, row) == LogWrite(h, l)
    case NftKey(h, i) =>
      exists l :: l in node(h).receipt.logs && l.logIndex == i && l.payload.TransferToken? && row == NftRowOf(l)
    case PairKey(a, h) => a in cfg && row == PairRowOf(a, cfg[a], node(h).receipt.logs)
    case SupplyKey(_, h) =>
      exists c :: Credits(cfg, node, c, key) && row == SupplyRow(SupplyAmount(c, cfg[c], node(h).receipt.logs))
    case BlockKey(_) => false
  }

  function PairRowOf(pair: Address, cc: ContractConfig, logs: seq<Log>): Row
  {
    PairRow(Recorded(pair, cc, logs).amount0, Recorded(pair, cc, logs).amount1)
  }

  lemma FaithfulRowsAgree(cfg: Config, node: Node, key: Key, row: Row, row': Row)
    requires DistinctIndices(node) && Determined(cfg, node, key)
    requires Faithful(cfg, node, key, row) && Faithful(cfg, node, key, row')
    ensures row == row'
  {
    match key {
      case LogKey(h, i) => assert UniqueIndices(node(h).receipt.logs);
      case NftKey(h, i) => assert UniqueIndices(node(h).receipt.logs);
      case _ =>
    }
  }

  lemma TransactionWritesAreFaithful(cfg: Config, node: Node, hash: Hash, indices: set<int>, key: Key, row: Row)
    requires Put(key, row) in TransactionWrites(hash, node(hash), indices)
    ensures Faithful(cfg, node, key, row)
  {
    TransactionWritesAre(hash, node(hash), indices, Put(key, row));
    if Put(key, row) != TransactionWrite(hash, node(hash)) {
      var l :| l in node(hash).receipt.logs && l.logIndex in indices && Put(key, row) == LogWrite(hash, l);
      assert key == LogKey(hash, l.logIndex);
    }
  }

  lemma NftEventOfLog(category: Category, l: Log, e: Event)
    requires e in Classify(category, l) && e.TransferNonFungibleEvent?
    ensures l.logIndex == e.logIndex && l.payload.TransferToken?
    ensures NftRow(e.address, e.src, e.dst, e.tokenId) == NftRowOf(l)
  {
  }

  lemma NftEventComesFromTokenTransfer(category: Category, logs: seq<Log>, e: Event)
    requires e in GetTransactionEvents(category, logs) && e.TransferNonFungibleEvent?
    ensures exists l :: l in logs && l.logIndex == e.logIndex && l.payload.TransferToken?
                        && NftRow(e.address, e.src, e.dst, e.tokenId) == NftRowOf(l)
  {
    EventsComeFromLogs(category, logs, e);
    var l :| l in logs && e in Classify(category, l);
    NftEventOfLog(category, l, e);
  }

  lemma EventWritesAreFaithful(cfg: Config, node: Node, contract: Address, hash: Hash, key: Key, row: Row)
    requires contract in cfg && contract in Handled(cfg, node(hash))
    requires Put(key, row) in EventWrites(contract, cfg[contract], hash, node(hash).receipt.logs)
    ensures Faithful(cfg, node, key, row)
  {
    var cc, logs := cfg[contract], node(hash).receipt.logs;
    if key.SupplyKey? {
      SupplyRowIs(contract, cc, hash, logs, key, row);
      assert Credits(cfg, node, contract, key);
    }
    var es := GetTransactionEvents(cc.category, logs);
    NftWritesAre(contract, cc.events, hash, es, Put(key, row));
    AmountsAreRecorded(contract, cc, logs);
    if e :| e in es && Relevant(contract, cc.events, e) && e.TransferNonFungibleEvent?
             && Put(key, row) == NftWrite(hash, e) {
      NftEventComesFromTokenTransfer(cc.category, logs, e);
    }
  }

  lemma SelectionIsFaithful(cfg: Config, node: Node, hash: Hash, order: seq<Address>, key: Key, row: Row)
    requires Walks(order, node(hash).receipt.logs)
    requires Put(key, row) in SelectPartial(cfg, hash, node(hash), order).writes
    ensures Faithful(cfg, node, key, row)
  {
    SelectionWritesAre(cfg, hash, node(hash), order, Put(key, row));
    var a :| a in Handled(cfg, node(hash)) && a in cfg
             && Put(key, row) in EventWrites(a, cfg[a], hash, node(hash).receipt.logs);
    EventWritesAreFaithful(cfg, node, a, hash, key, row);
  }

  lemma PartialWritesAreFaithful(cfg: Config, node: Node, hash: Hash, order: seq<Address>, key: Key, row: Row)
    requires Walks(order, node(hash).receipt.logs)
    requires Put(key, row) in PartialWrites(cfg, hash, node(hash), order)
    ensures Faithful(cfg, node, key, row)
  {
    var info := node(hash);
    var w := Put(key, row);
    var sel := SelectPartial(cfg, hash, info, order);
    InAppend(sel.writes, if sel.save then TransactionWrites(hash, info, sel.indices) else [], w);
    if w in sel.writes {
      SelectionIsFaithful(cfg, node, hash, order, key, row);
    } else {
      TransactionWritesAreFaithful(cfg, node, hash, sel.indices, key, row);
    }
  }

  lemma WritesAreFaithful(cfg: Config, node: Node, d: Delivery, key: Key, row: Row)
    requires Proper(node, d) && Put(key, row) in WritesOf(cfg, node, d)
    ensures Faithful(cfg, node, key, row)
  {
    match d.mode {
      case Partial => PartialWritesAreFaithful(cfg, node, d.hash, d.order, key, row);
      case LogFilter =>
      case _ => TransactionWritesAreFaithful(cfg, node, d.hash, AllIndices(node(d.hash).receipt.logs), key, row);
    }
  }

  // ---- main results ----

  ghost predicate AllProper(node: Node, ds: seq<Delivery>)
  {
    forall d <- ds :: Proper(node, d)
  }

  ghost predicate Delivered(ds: seq<Delivery>, mode: Mode, hash: Hash)
  {
    exists d :: d in ds && d.mode == mode && d.hash == hash
  }

  lemma AllWritesAgree(cfg: Config, node: Node, ds: seq<Delivery>, key: Key)
    requires DistinctIndices(node) && AllProper(node, ds) && Determined(cfg, node, key)
    ensures Agreed(AllWrites(cfg, node, ds), key)
  {
    var ws := AllWrites(cfg, node, ds);
    forall v, w | v in ws && w in ws && v.Put? && w.Put? && v.key == key && w.key == key
      ensures v.row == w.row
    {
      AllWritesAre(cfg, node, ds, v);
      AllWritesAre(cfg, node, ds, w);
      var d :| d in ds && v in WritesOf(cfg, node, d);
      var e :| e in ds && w in WritesOf(cfg, node, e);
      WritesAreFaithful(cfg, node, d, key, v.row);
      WritesAreFaithful(cfg, node, e, key, w.row);
      FaithfulRowsAgree(cfg, node, key, v.row, w.row);
    }
  }

  lemma MoreDeliveriesMoreWrites(cfg: Config, node: Node, ds: seq<Delivery>, es: seq<Delivery>, w: Write)
    requires AllProper(node, ds) && AllProper(node, es)
    requires forall mode, hash :: Delivered(ds, mode, hash) ==> Delivered(es, mode, hash)
    requires w in AllWrites(cfg, node, ds)
    ensures w in AllWrites(cfg, node, es)
  {
    AllWritesAre(cfg, node, ds, w);
    var d :| d in ds && w in WritesOf(cfg, node, d);
    assert Delivered(ds, d.mode, d.hash);
    var e :| e in es && e.mode == d.mode && e.hash == d.hash;
    SameMessageSameWrites(cfg, node, d, e, w);
    AllWritesAre(cfg, node, es, w);
  }

  /**
   * Two sequences that deliver the same set of (mode, hash) pairs, in any order, with any repeats and any walks over
   * the address sets, leave the same row under every key, except for supply keys under which handled contracts have
   * different amounts to record.
   */
  lemma TablesDependOnTheDeliveredSet(cfg: Config, node: Node, s: Store, ds: seq<Delivery>, es: seq<Delivery>, key: Key)
    requires DistinctIndices(node) && AllProper(node, ds) && AllProper(node, es) && Determined(cfg, node, key)
    requires forall mode, hash :: Delivered(ds, mode, hash) <==> Delivered(es, mode, hash)
    ensures var a, b := Process(cfg, node, s, ds).rows, Process(cfg, node, s, es).rows;
            && (key in a <==> key in b)
            && (key in a ==> a[key] == b[key])
  {
    ProcessInsertsAll(cfg, node, s, ds);
    ProcessInsertsAll(cfg, node, s, es);
    AllWritesAgree(cfg, node, ds, key);
    forall row
      ensures Put(key, row) in AllWrites(cfg, node, ds) <==> Put(key, row) in AllWrites(cfg, node, es)
    {
      if Put(key, row) in AllWrites(cfg, node, ds) {
        MoreDeliveriesMoreWrites(cfg, node, ds, es, Put(key, row));
      }
      if Put(key, row) in AllWrites(cfg, node, es) {
        MoreDeliveriesMoreWrites(cfg, node, es, ds, Put(key, row));
      }
    }
    OrderAndRepetitionDoNotMatter(s, AllWrites(cfg, node, ds), AllWrites(cfg, node, es), key);
  }

  /** Delivering a message again changes no keyed table at all, the supply table included. */
  lemma RedeliveryChangesNoRow(cfg: Config, node: Node, s: Store, ds: seq<Delivery>, d: Delivery)
    requires AllProper(node, ds) && Proper(node, d) && Delivered(ds, d.mode, d.hash)
    ensures Process(cfg, node, s, ds + [d]).rows == Process(cfg, node, s, ds).rows
  {
    assert (ds + [d])[..|ds + [d]| - 1] == ds;
    var t := Process(cfg, node, s, ds);
    var ws := WritesOf(cfg, node, d);
    ProcessInsertsAll(cfg, node, s, ds);
    forall key
      ensures key in InsertAll(t, ws).rows <==> key in t.rows
      ensures key in t.rows ==> InsertAll(t, ws).rows[key] == t.rows[key]
    {
      InsertAllRows(t, ws, key);
      if w :| w in ws && w.Put? && w.key == key {
        var e :| e in ds && e.mode == d.mode && e.hash == d.hash;
        SameMessageSameWrites(cfg, node, d, e, w);
        AllWritesAre(cfg, node, ds, w);
        InsertAllRows(s, AllWrites(cfg, node, ds), key);
      }
    }
  }

  // ---- the internal transactions are a bag ----

  /** Whether processing a delivery returns True. */
  predicate Processed(cfg: Config, node: Node, d: Delivery)
  {
    match d.mode
    case Partial => SelectPartial(cfg, d.hash, node(d.hash), d.order).save
    case LogFilter => false
    case _ => true
  }

  function TraceLengths(cfg: Config, node: Node, ds: seq<Delivery>): nat
  {
    if ds == [] then 0
    else
      var m := |ds| - 1;
      TraceLengths(cfg, node, ds[..m]) + if Processed(cfg, node, ds[m]) then |node(ds[m].hash).internals| else 0
  }

  lemma NoAppends(ws: seq<Write>)
    requires forall w <- ws :: w.Put?
    ensures Appends(ws) == 0
  {
    if ws != [] {
      var m := |ws| - 1;
      assert ws[m].Put?;
      NoAppends(ws[..m]);
    }
  }

  lemma TransactionAppends(hash: Hash, info: TxInfo, indices: set<int>)
    ensures Appends(TransactionWrites(hash, info, indices)) == |info.internals|
  {
    var first, second := [TransactionWrite(hash, info)], LogWrites(hash, info.receipt.logs, indices);
    forall w | w in second
      ensures w.Put?
    {
      LogWritesAre(hash, info.receipt.logs, indices, w);
    }
    NoAppends(first);
    NoAppends(second);
    AppendsJoin(first, second);
    InternalWritesAppend(hash, info.internals);
    AppendsJoin(first + second, InternalWrites(hash, info.internals));
  }

  lemma EventWritesOnlyPut(contract: Address, cc: ContractConfig, hash: Hash, logs: seq<Log>, w: Write)
    requires w in EventWrites(contract, cc, hash, logs)
    ensures w.Put?
  {
    NftWritesAre(contract, cc.events, hash, GetTransactionEvents(cc.category, logs), w);
  }

  lemma SelectionOnlyPuts(cfg: Config, hash: Hash, info: TxInfo, order: seq<Address>)
    ensures Appends(SelectPartial(cfg, hash, info, order).writes) == 0
  {
    var sel := SelectPartial(cfg, hash, info, order);
    forall w | w in sel.writes
      ensures w.Put?
    {
      EmitterWritesAre(cfg, hash, info.receipt.logs, order, w);
      var a :| a in cfg && w in EventWrites(a, cfg[a], hash, info.receipt.logs);
      EventWritesOnlyPut(a, cfg[a], hash, info.receipt.logs, w);
    }
    NoAppends(sel.writes);
  }

  lemma DeliveryAppends(cfg: Config, node: Node, d: Delivery)
    ensures Appends(WritesOf(cfg, node, d)) == if Processed(cfg, node, d) then |node(d.hash).internals| else 0
  {
    var info := node(d.hash);
    match d.mode {
      case Partial =>
        var sel := SelectPartial(cfg, d.hash, info, d.order);
        var rest := if sel.save then TransactionWrites(d.hash, info, sel.indices) else [];
        SelectionOnlyPuts(cfg, d.hash, info, d.order);
        AppendsJoin(sel.writes, rest);
        TransactionAppends(d.hash, info, sel.indices);
      case LogFilter =>
      case _ => TransactionAppends(d.hash, info, AllIndices(info.receipt.logs));
    }
  }

  /**
   * The bag of internal transactions grows by the trace length of each delivery for which processing returned True,
   * repeats included.
   */
  lemma {:induction false} InternalTransactionsAreConserved(cfg: Config, node: Node, s: Store, ds: seq<Delivery>)
    ensures |Process(cfg, node, s, ds).internals| == |s.internals| + TraceLengths(cfg, node, ds)
  {
    if ds != [] {
      var m := |ds| - 1;
      InternalTransactionsAreConserved(cfg, node, s, ds[..m]);
      BagGrowsByAppends(Process(cfg, node, s, ds[..m]), WritesOf(cfg, node, ds[m]));
      DeliveryAppends(cfg, node, ds[m]);
    }
  }
}
