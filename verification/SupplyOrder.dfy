/** When the supply table depends on the order in which an address set happens to be walked. */
module SupplyOrder {
  import opened EventCodec
  import opened TransactionEvents
  import opened Database
  import opened TxProcessor
  import opened Ledger
  import opened Confluence
  import opened FirstRows

  /** The same row, or none, is left under the key. */
  ghost predicate SameRow(a: Store, b: Store, key: Key)
  {
    (key in a.rows <==> key in b.rows) && (key in a.rows && key in b.rows ==> a.rows[key] == b.rows[key])
  }

  /** Whatever is delivered from whatever tables, the row under this key depends on the delivered set only. */
  ghost predicate Confluent(cfg: Config, node: Node, key: Key)
  {
    forall s, ds, es :: AllProper(node, ds) && AllProper(node, es)
                        && (forall mode, hash :: Delivered(ds, mode, hash) <==> Delivered(es, mode, hash)) ==>
      SameRow(Process(cfg, node, s, ds), Process(cfg, node, s, es), key)
  }

  /** On empty tables, the contract a walk begins with decides the supply row it credits. */
  lemma FirstCreditorDecides(cfg: Config, node: Node, order: seq<Address>, c: Address, key: Key)
    requires key.SupplyKey? && Walks(order, node(key.hash).receipt.logs) && (c in order ==> order[0] == c)
    requires Credits(cfg, node, c, key)
    ensures var rows := Process(cfg, node, EmptyStore, [Delivery(Partial, key.hash, order)]).rows;
            key in rows && rows[key] == AmountRow(cfg, node, c, key)
  {
    var info, row := node(key.hash), AmountRow(cfg, node, c, key);
    var sel := SelectPartial(cfg, key.hash, info, order);
    var saved := if sel.save then TransactionWrites(key.hash, info, sel.indices) else [];
    SelectionFirst(cfg, node, c, key, order);
    FirstStaysFirst(sel.writes, saved, key, row);
    FirstStays(EmptyStore, sel.writes + saved, key, row);
    OneDelivery(cfg, node, EmptyStore, Delivery(Partial, key.hash, order));
  }

  lemma OneDelivery(cfg: Config, node: Node, s: Store, d: Delivery)
    ensures Process(cfg, node, s, [d]) == InsertAll(s, WritesOf(cfg, node, d))
  {
    assert [d][..0] == [];
  }

  /** Two contracts with different amounts under one key: some walk begins with either, and the rows differ. */
  lemma WalkDecides(cfg: Config, node: Node, key: Key, c: Address, d: Address) returns (one: Delivery, other: Delivery)
    requires Credits(cfg, node, c, key) && Credits(cfg, node, d, key)
    requires SupplyAmount(c, cfg[c], node(key.hash).receipt.logs)
             != SupplyAmount(d, cfg[d], node(key.hash).receipt.logs)
    ensures one.mode == other.mode == Partial && one.hash == other.hash == key.hash
    ensures Proper(node, one) && Proper(node, other)
    ensures !SameRow(Process(cfg, node, EmptyStore, [one]), Process(cfg, node, EmptyStore, [other]), key)
  {
    var logs := node(key.hash).receipt.logs;
    var first := WalkFrom(c, logs);
    var second := WalkFrom(d, logs);
    FirstCreditorDecides(cfg, node, first, c, key);
    FirstCreditorDecides(cfg, node, second, d, key);
    one, other := Delivery(Partial, key.hash, first), Delivery(Partial, key.hash, second);
  }

  /**
   * The row under a key depends only on the delivered set, for all starting tables, deliveries and walks, if and only
   * if no two handled contracts have different amounts to record under it.
   */
  lemma ConfluentExactlyWhen(cfg: Config, node: Node, key: Key)
    requires DistinctIndices(node)
    ensures Confluent(cfg, node, key) <==> Determined(cfg, node, key)
  {
    if Determined(cfg, node, key) {
      DeterminedIsConfluent(cfg, node, key);
    } else {
      DisputedIsNotConfluent(cfg, node, key);
    }
  }

  lemma DeterminedIsConfluent(cfg: Config, node: Node, key: Key)
    requires DistinctIndices(node) && Determined(cfg, node, key)
    ensures Confluent(cfg, node, key)
  {
    forall s, ds, es | AllProper(node, ds) && AllProper(node, es)
                       && (forall mode, hash :: Delivered(ds, mode, hash) <==> Delivered(es, mode, hash))
      ensures SameRow(Process(cfg, node, s, ds), Process(cfg, node, s, es), key)
    {
      TablesDependOnTheDeliveredSet(cfg, node, s, ds, es, key);
    }
  }

  lemma DisputedIsNotConfluent(cfg: Config, node: Node, key: Key)
    requires !Determined(cfg, node, key)
    ensures !Confluent(cfg, node, key)
  {
    var c, d :| Credits(cfg, node, c, key) && Credits(cfg, node, d, key) &&
      SupplyAmount(c, cfg[c], node(key.hash).receipt.logs) != SupplyAmount(d, cfg[d], node(key.hash).receipt.logs);
    var one, other := WalkDecides(cfg, node, key, c, d);
    SameOneDelivered(one, other);
    assert AllProper(node, [one]) && AllProper(node, [other]);
  }

  lemma SameOneDelivered(one: Delivery, other: Delivery)
    requires one.mode == other.mode && one.hash == other.hash
    ensures forall mode, hash :: Delivered([one], mode, hash) <==> Delivered([other], mode, hash)
  {
    assert forall d :: d in [one] <==> d == one;
    assert forall d :: d in [other] <==> d == other;
    assert one in [one] && other in [other];
  }

  /**
   * An input where it fails: token `l.address` mints u, then token `m.address` mints v, and neither is the recipient.
   * The row is u or v according to which address the set yields first.
   */
  lemma TwoMintsCollide(cfg: Config, node: Node, hash: Hash, l: Log, m: Log)
    requires node(hash).receipt.logs == [l, m] && l.address != m.address && l.address in cfg && m.address in cfg
    requires node(hash).data.to.Some? && node(hash).data.to.value !in cfg
    requires forall a <- [l.address, m.address] ::
               (cfg[a].category == Erc20 && MintFungible in cfg[a].events && BurnFungible in cfg[a].events)
    requires forall k <- [l, m] ::
               (k.payload.Transfer? && k.payload.src in BURN_ADDRESSES && k.payload.dst !in BURN_ADDRESSES)
    requires l.payload.value > 0 && m.payload.value > 0
    ensures var key := SupplyKey(m.address, hash);
            var a := Process(cfg, node, EmptyStore, [Delivery(Partial, hash, [l.address, m.address])]).rows;
            var b := Process(cfg, node, EmptyStore, [Delivery(Partial, hash, [m.address, l.address])]).rows;
            && key in a && a[key] == SupplyRow(l.payload.value)
            && key in b && b[key] == SupplyRow(m.payload.value)
  {
    var key := SupplyKey(m.address, hash);
    assert l.address in [l.address, m.address] && m.address in [l.address, m.address] && l in [l, m] && m in [l, m];
    TwoEmitters(l, m);
    SupplyOfTwo(l.address, cfg[l.address], l, m);
    SupplyOfTwo(m.address, cfg[m.address], l, m);
    assert Credits(cfg, node, l.address, key) && Credits(cfg, node, m.address, key);
    FirstCreditorDecides(cfg, node, [l.address, m.address], l.address, key);
    FirstCreditorDecides(cfg, node, [m.address, l.address], m.address, key);
  }

  lemma TwoEmitters(l: Log, m: Log)
    requires l.address != m.address
    ensures l.address in LogAddresses([l, m]) && m.address in LogAddresses([l, m])
    ensures Walks([l.address, m.address], [l, m]) && Walks([m.address, l.address], [l, m])
  {
    assert l in [l, m] && m in [l, m];
    assert forall k :: k in [l, m] <==> k == l || k == m;
    assert LogAddresses([l, m]) == {l.address, m.address};
  }
}
