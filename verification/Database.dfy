/**
 * The tables (db/manager.py): first write wins on each primary key (ON CONFLICT DO NOTHING), except for the
 * internal transactions, which have no key and are only ever appended.
 */
module Database {
  import opened Options
  import opened TransactionEvents

  type Hash = string

  // ---- what the node reports ----

  datatype BlockData = BlockData(number: int, hash: string, header: string, transactions: seq<Hash>)

  datatype TransactionData = TransactionData(
    blockNumber: int, from: Address, to: Option<Address>, value: real, gasPrice: real, gasLimit: real, input: string)

  datatype Receipt = Receipt(gasUsed: real, logs: seq<Log>, contractAddress: Option<Address>)

  datatype InternalTransaction = InternalTransaction(
    from: Address, to: Address, value: real, gasUsed: real, gasLimit: real, input: string, callType: string)

  // ---- rows ----

  /** Table and primary key. */
  datatype Key =
    | BlockKey(number: int)
    | TransactionKey(hash: Hash)
    | LogKey(hash: Hash, logIndex: int)
    | NftKey(hash: Hash, logIndex: int)
    | SupplyKey(address: Address, hash: Hash)
    | PairKey(address: Address, hash: Hash)

  datatype Row =
    | BlockRow(hash: string, header: string, reward: int)
    | TransactionRow(data: TransactionData, gasUsed: real, isTokenTx: bool, fee: real)
    | LogRow(address: Address, payload: Payload)
    | NftRow(address: Address, src: Address, dst: Address, tokenId: nat)
    | SupplyRow(amount: int)
    | PairRow(amount0: int, amount1: int)

  /** One INSERT statement. */
  datatype Write =
    | Put(key: Key, row: Row)
    | Append(hash: Hash, internal: InternalTransaction)

  datatype Store = Store(rows: map<Key, Row>, internals: multiset<(Hash, InternalTransaction)>)

  const EmptyStore := Store(map[], multiset{})

  function Insert(s: Store, w: Write): Store
  {
    match w
    case Put(key, row) => if key in s.rows then s else s.(rows := s.rows[key := row])
    case Append(hash, internal) => s.(internals := s.internals + multiset{(hash, internal)})
  }

  function InsertAll(s: Store, ws: seq<Write>): Store
  {
    if ws == [] then s else Insert(InsertAll(s, ws[..|ws| - 1]), ws[|ws| - 1])
  }

  class DatabaseManager {
    var rows: map<Key, Row>
    var internals: multiset<(Hash, InternalTransaction)>

    constructor ()
      ensures Contents() == EmptyStore
    {
      rows, internals := map[], multiset{};
    }

    ghost function Contents(): Store
      reads this
    {
      Store(rows, internals)
    }

    method InsertBlock(block: BlockData, reward: int)
      modifies this
      ensures Contents() == Insert(old(Contents()),
                                   Put(BlockKey(block.number), BlockRow(block.hash, block.header, reward)))
    {
      if BlockKey(block.number) !in rows {
        rows := rows[BlockKey(block.number) := BlockRow(block.hash, block.header, reward)];
      }
    }

    method InsertTransaction(hash: Hash, data: TransactionData, gasUsed: real, isTokenTx: bool, fee: real)
      modifies this
      ensures Contents() == Insert(old(Contents()), Put(TransactionKey(hash),
                                                           TransactionRow(data, gasUsed, isTokenTx, fee)))
    {
      if TransactionKey(hash) !in rows {
        rows := rows[TransactionKey(hash) := TransactionRow(data, gasUsed, isTokenTx, fee)];
      }
    }

    method InsertInternalTransaction(hash: Hash, internal: InternalTransaction)
      modifies this
      ensures Contents() == Insert(old(Contents()), Append(hash, internal))
    {
      internals := internals + multiset{(hash, internal)};
    }

    method InsertTransactionLog(hash: Hash, l: Log)
      modifies this
      ensures Contents() == Insert(old(Contents()), Put(LogKey(hash, l.logIndex), LogRow(l.address, l.payload)))
    {
      if LogKey(hash, l.logIndex) !in rows {
        rows := rows[LogKey(hash, l.logIndex) := LogRow(l.address, l.payload)];
      }
    }

    method InsertNftTransfer(hash: Hash, logIndex: int, address: Address, src: Address, dst: Address, tokenId: nat)
      modifies this
      ensures Contents() == Insert(old(Contents()), Put(NftKey(hash, logIndex), NftRow(address, src, dst, tokenId)))
    {
      if NftKey(hash, logIndex) !in rows {
        rows := rows[NftKey(hash, logIndex) := NftRow(address, src, dst, tokenId)];
      }
    }

    method InsertContractSupplyChange(address: Address, amountChanged: int, hash: Hash)
      modifies this
      ensures Contents() == Insert(old(Contents()), Put(SupplyKey(address, hash), SupplyRow(amountChanged)))
    {
      if SupplyKey(address, hash) !in rows {
        rows := rows[SupplyKey(address, hash) := SupplyRow(amountChanged)];
      }
    }

    method InsertPairLiquidityChange(address: Address, amount0: int, amount1: int, hash: Hash)
      modifies this
      ensures Contents() == Insert(old(Contents()), Put(PairKey(address, hash), PairRow(amount0, amount1)))
    {
      if PairKey(address, hash) !in rows {
        rows := rows[PairKey(address, hash) := PairRow(amount0, amount1)];
      }
    }
  }

  function BlockWrite(block: BlockData, reward: int): Write
  {
    Put(BlockKey(block.number), BlockRow(block.hash, block.header, reward))
  }

  function LogWrite(hash: Hash, l: Log): Write
  {
    Put(LogKey(hash, l.logIndex), LogRow(l.address, l.payload))
  }

  // ---- what a list of writes leaves behind ----

  lemma {:induction false} InsertAllAppend(s: Store, ws: seq<Write>, vs: seq<Write>)
    ensures InsertAll(s, ws + vs) == InsertAll(InsertAll(s, ws), vs)
  {
    if vs == [] {
      assert ws + vs == ws;
    } else {
      var m := |vs| - 1;
      InsertAllAppend(s, ws, vs[..m]);
      assert (ws + vs)[..|ws + vs| - 1] == ws + vs[..m];
    }
  }

  lemma InsertOneMore(s: Store, ws: seq<Write>, w: Write)
    ensures InsertAll(s, ws + [w]) == Insert(InsertAll(s, ws), w)
  {
    assert (ws + [w])[..|ws|] == ws;
  }

  ghost predicate Writes(ws: seq<Write>, key: Key)
  {
    exists w :: w in ws && w.Put? && w.key == key
  }

  /** Rows already present survive; a new row is one of the rows written for its key; no key appears from nowhere. */
  lemma {:induction false} InsertAllRows(s: Store, ws: seq<Write>, key: Key)
    ensures var rows := InsertAll(s, ws).rows;
            && (key in rows <==> key in s.rows || Writes(ws, key))
            && (key in s.rows ==> rows[key] == s.rows[key])
            && (key in rows && key !in s.rows ==> Put(key, rows[key]) in ws)
  {
    if ws != [] {
      var m := |ws| - 1;
      InsertAllRows(s, ws[..m], key);
      assert ws == ws[..m] + [ws[m]];
      var t := InsertAll(s, ws[..m]);
      if Writes(ws, key) && !Writes(ws[..m], key) {
        var w :| w in ws && w.Put? && w.key == key;
        assert w == ws[m];
      }
      if Writes(ws[..m], key) {
        var w :| w in ws[..m] && w.Put? && w.key == key;
        assert w in ws;
      }
    }
  }

  /** No two writes disagree about the row of this key. */
  ghost predicate Agreed(ws: seq<Write>, key: Key)
  {
    forall v, w :: v in ws && w in ws && v.Put? && w.Put? && v.key == key && w.key == key ==> v.row == w.row
  }

  /** For keys on which the writers agree, only the set of writes matters: not their order nor their number. */
  lemma OrderAndRepetitionDoNotMatter(s: Store, ws: seq<Write>, vs: seq<Write>, key: Key)
    requires Agreed(ws, key)
    requires forall row :: Put(key, row) in ws <==> Put(key, row) in vs
    ensures var a, b := InsertAll(s, ws).rows, InsertAll(s, vs).rows;
            && (key in a <==> key in b)
            && (key in a ==> a[key] == b[key])
  {
    InsertAllRows(s, ws, key);
    InsertAllRows(s, vs, key);
    if w :| w in ws && w.Put? && w.key == key {
      assert Put(key, w.row) in vs;
    }
    if v :| v in vs && v.Put? && v.key == key {
      assert Put(key, v.row) in ws;
    }
  }

  function Appends(ws: seq<Write>): nat
  {
    if ws == [] then 0 else Appends(ws[..|ws| - 1]) + if ws[|ws| - 1].Append? then 1 else 0
  }

  lemma {:induction false} AppendsJoin(ws: seq<Write>, vs: seq<Write>)
    ensures Appends(ws + vs) == Appends(ws) + Appends(vs)
  {
    if vs == [] {
      assert ws + vs == ws;
    } else {
      AppendsJoin(ws, vs[..|vs| - 1]);
      assert (ws + vs)[..|ws + vs| - 1] == ws + vs[..|vs| - 1];
    }
  }

  lemma {:induction false} BagGrowsByAppends(s: Store, ws: seq<Write>)
    ensures |InsertAll(s, ws).internals| == |s.internals| + Appends(ws)
  {
    if ws != [] {
      BagGrowsByAppends(s, ws[..|ws| - 1]);
    }
  }
}
