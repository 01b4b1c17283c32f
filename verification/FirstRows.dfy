/** Which row a list of inserts leaves under a key that is not there yet: the first one. */
module FirstRows {
  import opened Sequences
  import opened TransactionEvents
  import opened Database
  import opened TxProcessor
  import opened Selection
  import opened Ledger
  import opened Confluence

  /** If the list writes the key at all, the first row it writes is this one. */
  ghost predicate FirstIs(ws: seq<Write>, key: Key, row: Row)
  {
    ws != [] ==>
      if ws[0].Put? && ws[0].key == key then ws[0].row == row else FirstIs(ws[1..], key, row)
  }

  lemma {:induction false} OnlyIsFirst(ws: seq<Write>, key: Key, row: Row)
    requires forall r :: Put(key, r) in ws ==> r == row
    ensures FirstIs(ws, key, row)
  {
    if ws != [] {
      if ws[0].Put? && ws[0].key == key {
        assert ws[0] == Put(key, ws[0].row) && ws[0] in ws;
      } else {
        assert forall r :: Put(key, r) in ws[1..] ==> Put(key, r) in ws;
        OnlyIsFirst(ws[1..], key, row);
      }
    }
  }

  lemma {:induction false} FirstStaysFirst(ws: seq<Write>, vs: seq<Write>, key: Key, row: Row)
    requires FirstIs(ws, key, row) && Put(key, row) in ws
    ensures FirstIs(ws + vs, key, row) && Put(key, row) in ws + vs
  {
    assert (ws + vs)[0] == ws[0] && (ws + vs)[1..] == ws[1..] + vs;
    if !(ws[0].Put? && ws[0].key == key) {
      assert ws == [ws[0]] + ws[1..];
      FirstStaysFirst(ws[1..], vs, key, row);
    }
  }

  /** The first row written under a new key is the one that stays. */
  lemma {:induction false} FirstStays(s: Store, ws: seq<Write>, key: Key, row: Row)
    requires FirstIs(ws, key, row) && Put(key, row) in ws && key !in s.rows
    ensures key in InsertAll(s, ws).rows && InsertAll(s, ws).rows[key] == row
    decreases |ws|
  {
    assert ws == [ws[0]] + ws[1..];
    InsertAllAppend(s, [ws[0]], ws[1..]);
    assert [ws[0]][..0] == [];
    assert InsertAll(s, [ws[0]]) == Insert(s, ws[0]);
    if ws[0].Put? && ws[0].key == key {
      InsertAllRows(Insert(s, ws[0]), ws[1..], key);
    } else {
      FirstStays(Insert(s, ws[0]), ws[1..], key, row);
    }
  }

  /** The first emitter of a walk has the first word. */
  lemma {:induction false} FirstEmitterIsFirst(cfg: Config, hash: Hash, logs: seq<Log>, order: seq<Address>, key: Key,
                                               row: Row)
    requires order != [] && order[0] in cfg
    requires Put(key, row) in EventWrites(order[0], cfg[order[0]], hash, logs)
    requires forall r :: Put(key, r) in EventWrites(order[0], cfg[order[0]], hash, logs) ==> r == row
    ensures FirstIs(EmitterWrites(cfg, hash, logs, order), key, row)
    ensures Put(key, row) in EmitterWrites(cfg, hash, logs, order)
    decreases |order|
  {
    var m := |order| - 1;
    EmitterStep(cfg, hash, logs, order, m);
    assert order[..m + 1] == order;
    if m == 0 {
      assert EmitterWrites(cfg, hash, logs, order) == EventWrites(order[0], cfg[order[0]], hash, logs);
      OnlyIsFirst(EventWrites(order[0], cfg[order[0]], hash, logs), key, row);
    } else {
      FirstEmitterIsFirst(cfg, hash, logs, order[..m], key, row);
      FirstStaysFirst(EmitterWrites(cfg, hash, logs, order[..m]),
                      if order[m] in cfg then EventWrites(order[m], cfg[order[m]], hash, logs) else [], key, row);
    }
  }

  /** A walk that begins with the given address, if it is there. */
  ghost function WalkFrom(first: Address, logs: seq<Log>): (order: seq<Address>)
    ensures Walks(order, logs)
    ensures first in order ==> order[0] == first
  {
    WalkExists(first, logs);
    var order :| Walks(order, logs) && (first in order ==> order[0] == first);
    order
  }

  lemma WalkExists(first: Address, logs: seq<Log>)
    ensures exists order :: Walks(order, logs) && (first in order ==> order[0] == first)
  {
    if first in LogAddresses(logs) {
      var order := EnumerateFrom(LogAddresses(logs), first);
    } else {
      var order := Enumerate(LogAddresses(logs));
    }
  }

  /** The amount row of a contract under a supply key. */
  function AmountRow(cfg: Config, node: Node, c: Address, key: Key): Row
    requires key.SupplyKey? && c in cfg
  {
    SupplyRow(SupplyAmount(c, cfg[c], node(key.hash).receipt.logs))
  }

  lemma OwnRowOnly(cfg: Config, node: Node, c: Address, key: Key, row: Row)
    requires Credits(cfg, node, c, key)
    ensures Put(key, row) in EventWrites(c, cfg[c], key.hash, node(key.hash).receipt.logs)
            <==> row == AmountRow(cfg, node, c, key)
  {
    SupplyRowIs(c, cfg[c], key.hash, node(key.hash).receipt.logs, key, row);
  }

  /** A partial handler whose walk begins with a contract that credits the key inserts that contract's row first. */
  lemma SelectionFirst(cfg: Config, node: Node, c: Address, key: Key, order: seq<Address>)
    requires Credits(cfg, node, c, key) && Walks(order, node(key.hash).receipt.logs)
    requires c in order ==> order[0] == c
    ensures var writes := SelectPartial(cfg, key.hash, node(key.hash), order).writes;
            FirstIs(writes, key, AmountRow(cfg, node, c, key)) && Put(key, AmountRow(cfg, node, c, key)) in writes
  {
    var info, row := node(key.hash), AmountRow(cfg, node, c, key);
    forall r
      ensures Put(key, r) in EventWrites(c, cfg[c], key.hash, info.receipt.logs) <==> r == row
    {
      OwnRowOnly(cfg, node, c, key, r);
    }
    if info.data.to.Some? && info.data.to.value !in cfg {
      assert c in order;
      FirstEmitterIsFirst(cfg, key.hash, info.receipt.logs, order, key, row);
    } else {
      assert Handled(cfg, info) == {c};
      OnlyIsFirst(EventWrites(c, cfg[c], key.hash, info.receipt.logs), key, row);
    }
  }
}
