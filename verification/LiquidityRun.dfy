/** The pair-liquidity table after any run, against the logs of the pair. */
module LiquidityRun {
  import opened Sequences
  import opened Sums
  import opened TransactionEvents
  import opened Database
  import opened TxProcessor
  import opened Selection
  import opened Amounts
  import opened Confluence

  /** The transactions delivered in partial mode whose events are searched for this pair. */
  function HandlingHashes(cfg: Config, node: Node, ds: seq<Delivery>, pair: Address): set<Hash>
  {
    set d | d in ds && d.mode.Partial? && pair in Handled(cfg, node(d.hash)) :: d.hash
  }

  function Amount0(row: Row): int { if row.PairRow? then row.amount0 else 0 }

  function Amount1(row: Row): int { if row.PairRow? then row.amount1 else 0 }

  /** The pair's rows of the liquidity table, by transaction. */
  function RowsOfPair(rows: map<Key, Row>, pair: Address): map<Hash, Row>
  {
    map k | k in rows && k.PairKey? && k.address == pair :: k.hash := rows[k]
  }

  function Column0(rows: map<Hash, Row>): map<Hash, int> { map h | h in rows :: Amount0(rows[h]) }

  function Column1(rows: map<Hash, Row>): map<Hash, int> { map h | h in rows :: Amount1(rows[h]) }

  function LogAmounts0(node: Node, pair: Address, cc: ContractConfig, hashes: set<Hash>): map<Hash, int>
  {
    map h | h in hashes :: Recorded(pair, cc, node(h).receipt.logs).amount0
  }

  function LogAmounts1(node: Node, pair: Address, cc: ContractConfig, hashes: set<Hash>): map<Hash, int>
  {
    map h | h in hashes :: Recorded(pair, cc, node(h).receipt.logs).amount1
  }

  lemma PairRowOfEvents(contract: Address, cc: ContractConfig, hash: Hash, logs: seq<Log>, key: Key, row: Row)
    requires key.PairKey?
    ensures Put(key, row) in EventWrites(contract, cc, hash, logs) <==>
            && key == PairKey(contract, hash) && row == PairRowOf(contract, cc, logs) && row != PairRow(0, 0)
  {
    var es := GetTransactionEvents(cc.category, logs);
    NftWritesAre(contract, cc.events, hash, es, Put(key, row));
    AmountsAreRecorded(contract, cc, logs);
  }

  lemma PairRowOfSelection(cfg: Config, info: TxInfo, order: seq<Address>, pair: Address, hash: Hash, key: Key,
                           row: Row)
    requires Walks(order, info.receipt.logs) && key.PairKey? && key.address == pair
    ensures Put(key, row) in SelectPartial(cfg, hash, info, order).writes <==>
            && key.hash == hash && pair in Handled(cfg, info) && pair in cfg
            && row == PairRowOf(pair, cfg[pair], info.receipt.logs) && row != PairRow(0, 0)
  {
    var w := Put(key, row);
    SelectionWritesAre(cfg, hash, info, order, w);
    if a :| a in Handled(cfg, info) && a in cfg && w in EventWrites(a, cfg[a], hash, info.receipt.logs) {
      PairRowOfEvents(a, cfg[a], hash, info.receipt.logs, key, row);
    }
    if pair in cfg {
      PairRowOfEvents(pair, cfg[pair], hash, info.receipt.logs, key, row);
    }
  }

  lemma NoPairRowOfTransaction(hash: Hash, info: TxInfo, indices: set<int>, key: Key, row: Row)
    requires key.PairKey?
    ensures Put(key, row) !in TransactionWrites(hash, info, indices)
  {
    TransactionWritesAre(hash, info, indices, Put(key, row));
  }

  /** A delivery writes a liquidity row exactly for the pairs it handles whose amounts are not both 0. */
  lemma PairRowOfDelivery(cfg: Config, node: Node, d: Delivery, pair: Address, hash: Hash, row: Row)
    requires Proper(node, d)
    ensures Put(PairKey(pair, hash), row) in WritesOf(cfg, node, d) <==>
            && d.mode.Partial? && d.hash == hash && pair in Handled(cfg, node(hash)) && pair in cfg
            && row == PairRowOf(pair, cfg[pair], node(hash).receipt.logs) && row != PairRow(0, 0)
  {
    var key := PairKey(pair, hash);
    var info := node(d.hash);
    if d.mode.Partial? {
      var sel := SelectPartial(cfg, d.hash, info, d.order);
      InAppend(sel.writes, if sel.save then TransactionWrites(d.hash, info, sel.indices) else [], Put(key, row));
      NoPairRowOfTransaction(d.hash, info, sel.indices, key, row);
      PairRowOfSelection(cfg, info, d.order, pair, d.hash, key, row);
    } else if !d.mode.LogFilter? {
      NoPairRowOfTransaction(d.hash, info, AllIndices(info.receipt.logs), key, row);
    }
  }

  lemma PairRowsAfterRun(cfg: Config, node: Node, s: Store, ds: seq<Delivery>, pair: Address, hash: Hash)
    requires AllProper(node, ds) && pair in cfg && PairKey(pair, hash) !in s.rows
    ensures var rows := Process(cfg, node, s, ds).rows;
            var held := Recorded(pair, cfg[pair], node(hash).receipt.logs);
            && (PairKey(pair, hash) in rows <==>
                hash in HandlingHashes(cfg, node, ds, pair) && PairRow(held.amount0, held.amount1) != PairRow(0, 0))
            && (PairKey(pair, hash) in rows ==> rows[PairKey(pair, hash)] == PairRow(held.amount0, held.amount1))
  {
    var key := PairKey(pair, hash);
    var ws := AllWrites(cfg, node, ds);
    var row := PairRowOf(pair, cfg[pair], node(hash).receipt.logs);
    ProcessInsertsAll(cfg, node, s, ds);
    InsertAllRows(s, ws, key);
    if w :| w in ws && w.Put? && w.key == key {
      AllWritesAre(cfg, node, ds, w);
      var d :| d in ds && w in WritesOf(cfg, node, d);
      PairRowOfDelivery(cfg, node, d, pair, hash, w.row);
    }
    if key in Process(cfg, node, s, ds).rows {
      var w := Put(key, Process(cfg, node, s, ds).rows[key]);
      AllWritesAre(cfg, node, ds, w);
      var d :| d in ds && w in WritesOf(cfg, node, d);
      PairRowOfDelivery(cfg, node, d, pair, hash, w.row);
    }
    if hash in HandlingHashes(cfg, node, ds, pair) && row != PairRow(0, 0) {
      var d :| d in ds && d.mode.Partial? && pair in Handled(cfg, node(d.hash)) && d.hash == hash;
      PairRowOfDelivery(cfg, node, d, pair, hash, row);
      AllWritesAre(cfg, node, ds, Put(key, row));
      assert Writes(ws, key);
    }
  }

  /**
   * For a configured pair, and no row of it to begin with: after any deliveries, with repeats, the amounts of its rows
   * sum to mints - burns + swap-ins - swap-outs (of the allowed kinds) of its logs over the distinct transactions that
   * handle it. Rows that are left out because both amounts are 0 lose nothing.
   */
  lemma LiquidityRowsSumToTheLogs(cfg: Config, node: Node, s: Store, ds: seq<Delivery>, pair: Address)
    requires AllProper(node, ds) && pair in cfg
    requires forall h :: PairKey(pair, h) !in s.rows
    ensures var rows := RowsOfPair(Process(cfg, node, s, ds).rows, pair);
            var hashes := HandlingHashes(cfg, node, ds, pair);
            && SumValues(Column0(rows)) == SumValues(LogAmounts0(node, pair, cfg[pair], hashes))
            && SumValues(Column1(rows)) == SumValues(LogAmounts1(node, pair, cfg[pair], hashes))
  {
    var all := Process(cfg, node, s, ds).rows;
    var rows := RowsOfPair(all, pair);
    var hashes := HandlingHashes(cfg, node, ds, pair);
    forall h
      ensures h in rows <==> PairKey(pair, h) in all
      ensures h in rows ==> rows[h] == all[PairKey(pair, h)]
      ensures h in rows ==> h in hashes
    {
      PairRowsAfterRun(cfg, node, s, ds, pair, h);
      if PairKey(pair, h) in all {
        assert PairKey(pair, h).hash in rows;
      }
    }
    forall h | h in hashes
      ensures LogAmounts0(node, pair, cfg[pair], hashes)[h] == if h in rows then Column0(rows)[h] else 0
      ensures LogAmounts1(node, pair, cfg[pair], hashes)[h] == if h in rows then Column1(rows)[h] else 0
    {
      PairRowsAfterRun(cfg, node, s, ds, pair, h);
    }
    SumValuesDropZeros(LogAmounts0(node, pair, cfg[pair], hashes), Column0(rows));
    SumValuesDropZeros(LogAmounts1(node, pair, cfg[pair], hashes), Column1(rows));
  }
}
