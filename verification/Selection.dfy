/** What processing one transaction selects, stated without the passes and without the order of iteration. */
module Selection {
  import opened Deltas
  import opened Sequences
  import opened TransactionEvents
  import opened Database
  import opened TxProcessor

  /** The amounts of the per-mapper passes are those of the logs read once, in order. */
  lemma AmountsAreThoseOfTheLogs(contract: Address, cc: ContractConfig, logs: seq<Log>)
    ensures TotalDelta(contract, cc.events, GetTransactionEvents(cc.category, logs))
            == TotalDelta(contract, cc.events, InLogOrder(cc.category, logs))
  {
    PassesArePermutation(cc.category, logs);
    SumOfPermutation(Shares(contract, cc.events), GetTransactionEvents(cc.category, logs),
                     InLogOrder(cc.category, logs));
  }

  // ---- which logs are saved ----

  /** The log decodes, under the contract's category, to an event whose kind the configuration allows. */
  predicate Wanted(cc: ContractConfig, l: Log)
  {
    match (cc.category, l.payload)
    case (Erc20, Transfer(src, dst, _)) =>
      || TransferFungible in cc.events
      || (dst in {ZeroAddress, DeadAddress} && BurnFungible in cc.events)
      || (dst !in {ZeroAddress, DeadAddress} && src in {ZeroAddress, DeadAddress} && MintFungible in cc.events)
    case (Erc20, Issue(_)) => MintFungible in cc.events
    case (Erc20, Redeem(_)) => BurnFungible in cc.events
    case (Erc721, TransferToken(src, dst, _)) =>
      || TransferNonFungible in cc.events
      || (dst in {ZeroAddress, DeadAddress} && BurnNonFungible in cc.events)
      || (dst !in {ZeroAddress, DeadAddress} && src in {ZeroAddress, DeadAddress} && MintNonFungible in cc.events)
    case (UniSwapV2Factory, PairCreated(_, _, _)) => PairCreation in cc.events
    case (UniSwapV2Pair, Mint(_, _, _)) => MintPair in cc.events
    case (UniSwapV2Pair, Burn(_, _, _, _)) => BurnPair in cc.events
    case (UniSwapV2Pair, Swap(_, _, _, _, _, _)) => SwapPair in cc.events
    case _ => false
  }

  lemma WantedIs(cc: ContractConfig, l: Log)
    ensures Wanted(cc, l) <==> exists e :: e in Classify(cc.category, l) && KindOf(e) in cc.events
  {
    var es := Classify(cc.category, l);
    assert es == [] || es == [es[0]] || es == [es[0], es[1]];
    assert forall e :: e in es ==> e == es[0] || (|es| == 2 && e == es[1]);
    assert Wanted(cc, l) ==> es != [] && (KindOf(es[0]) in cc.events || (|es| == 2 && KindOf(es[1]) in cc.events));
  }

  lemma SavedIndicesOfOneContract(contract: Address, cc: ContractConfig, logs: seq<Log>, index: int)
    ensures index in EventIndices(contract, cc, logs)
            <==> exists l :: l in logs && l.address == contract && l.logIndex == index && Wanted(cc, l)
  {
    var es := GetTransactionEvents(cc.category, logs);
    IndicesAreThoseOfRelevantEvents(contract, cc.events, es, index);
    if index in EventIndices(contract, cc, logs) {
      var e :| e in es && Relevant(contract, cc.events, e) && e.logIndex == index;
      EventsComeFromLogs(cc.category, logs, e);
      var l :| l in logs && e in Classify(cc.category, l);
      ClassifyKeepsPosition(cc.category, l, e);
      WantedIs(cc, l);
    }
    if l :| l in logs && l.address == contract && l.logIndex == index && Wanted(cc, l) {
      WantedIs(cc, l);
      var e :| e in Classify(cc.category, l) && KindOf(e) in cc.events;
      EventsComeFromLogs(cc.category, logs, e);
      ClassifyKeepsPosition(cc.category, l, e);
      assert Relevant(contract, cc.events, e);
    }
  }

  lemma {:induction false} EmitterIndicesAre(cfg: Config, logs: seq<Log>, order: seq<Address>, index: int)
    ensures index in EmitterIndices(cfg, logs, order)
            <==> exists a :: a in order && a in cfg && index in EventIndices(a, cfg[a], logs)
  {
    if order != [] {
      var m := |order| - 1;
      EmitterIndicesAre(cfg, logs, order[..m], index);
      assert order == order[..m] + [order[m]];
    }
  }

  lemma {:induction false} EmitterWritesAre(cfg: Config, hash: Hash, logs: seq<Log>, order: seq<Address>, w: Write)
    ensures w in EmitterWrites(cfg, hash, logs, order)
            <==> exists a :: a in order && a in cfg && w in EventWrites(a, cfg[a], hash, logs)
  {
    if order != [] {
      var m := |order| - 1;
      EmitterWritesAre(cfg, hash, logs, order[..m], w);
      var last := if order[m] in cfg then EventWrites(order[m], cfg[order[m]], hash, logs) else [];
      InAppend(EmitterWrites(cfg, hash, logs, order[..m]), last, w);
      forall a
        ensures a in order <==> a in order[..m] || a == order[m]
      {
        InPrefixOrLast(order, a);
      }
    }
  }

  /** The contracts whose events a transaction is searched for. */
  function Handled(cfg: Config, info: TxInfo): set<Address>
  {
    if info.data.to.Some? then
      if info.data.to.value in cfg then {info.data.to.value} else LogAddresses(info.receipt.logs) * cfg.Keys
    else if info.receipt.contractAddress.Some? && info.receipt.contractAddress.value in cfg then
      {info.receipt.contractAddress.value}
    else {}
  }

  /** The transaction addresses a configured contract, or creates one. */
  predicate Addressed(cfg: Config, info: TxInfo)
  {
    if info.data.to.Some? then info.data.to.value in cfg
    else info.receipt.contractAddress.Some? && info.receipt.contractAddress.value in cfg
  }

  /** The log was emitted by a handled contract, which wants it. */
  ghost predicate Selects(cfg: Config, info: TxInfo, l: Log)
  {
    l in info.receipt.logs && l.address in Handled(cfg, info) && l.address in cfg && Wanted(cfg[l.address], l)
  }

  ghost predicate Saves(cfg: Config, info: TxInfo)
  {
    Addressed(cfg, info) || exists l :: Selects(cfg, info, l)
  }

  /**
   * Partial mode selects exactly the wanted logs of the handled contracts, and saves the transaction exactly when
   * it addresses a configured contract or such a log exists, whatever order the address set is walked in.
   */
  lemma PartialSelectionIs(cfg: Config, hash: Hash, info: TxInfo, order: seq<Address>, index: int)
    requires Walks(order, info.receipt.logs)
    ensures var sel := SelectPartial(cfg, hash, info, order);
            && (sel.save <==> Saves(cfg, info))
            && (index in sel.indices <==> exists l :: Selects(cfg, info, l) && l.logIndex == index)
  {
    IndexSelected(cfg, hash, info, order, index);
    var sel := SelectPartial(cfg, hash, info, order);
    if sel.save && !Addressed(cfg, info) {
      var i := SomeElement(sel.indices);
      IndexSelected(cfg, hash, info, order, i);
    }
    if l :| Selects(cfg, info, l) {
      IndexSelected(cfg, hash, info, order, l.logIndex);
    }
  }

  /** An index is selected if and only if some handled contract marks it. */
  lemma IndexMarked(cfg: Config, hash: Hash, info: TxInfo, order: seq<Address>, index: int)
    requires Walks(order, info.receipt.logs)
    ensures index in SelectPartial(cfg, hash, info, order).indices
            <==> exists a :: a in Handled(cfg, info) && a in cfg && index in EventIndices(a, cfg[a], info.receipt.logs)
  {
    EmitterIndicesAre(cfg, info.receipt.logs, order, index);
  }

  lemma IndexSelected(cfg: Config, hash: Hash, info: TxInfo, order: seq<Address>, index: int)
    requires Walks(order, info.receipt.logs)
    ensures index in SelectPartial(cfg, hash, info, order).indices
            <==> exists l :: Selects(cfg, info, l) && l.logIndex == index
  {
    var logs := info.receipt.logs;
    IndexMarked(cfg, hash, info, order, index);
    if a :| a in Handled(cfg, info) && a in cfg && index in EventIndices(a, cfg[a], logs) {
      SavedIndicesOfOneContract(a, cfg[a], logs, index);
      var l :| l in logs && l.address == a && l.logIndex == index && Wanted(cfg[a], l);
      assert Selects(cfg, info, l);
    }
    if l :| Selects(cfg, info, l) && l.logIndex == index {
      SavedIndicesOfOneContract(l.address, cfg[l.address], logs, index);
    }
  }

  // ---- which rows are written ----

  lemma {:induction false} LogWritesAre(hash: Hash, logs: seq<Log>, indices: set<int>, w: Write)
    ensures w in LogWrites(hash, logs, indices)
            <==> exists l :: l in logs && l.logIndex in indices && w == LogWrite(hash, l)
  {
    if logs != [] {
      var m := |logs| - 1;
      LogWritesAre(hash, logs[..m], indices, w);
      assert logs == logs[..m] + [logs[m]];
    }
  }

  /** The rows inserted for events are those of the handled contracts. */
  lemma SelectionWritesAre(cfg: Config, hash: Hash, info: TxInfo, order: seq<Address>, w: Write)
    requires Walks(order, info.receipt.logs)
    ensures w in SelectPartial(cfg, hash, info, order).writes
            <==> exists a :: a in Handled(cfg, info) && a in cfg && w in EventWrites(a, cfg[a], hash, info.receipt.logs)
  {
    EmitterWritesAre(cfg, hash, info.receipt.logs, order, w);
  }

  lemma {:induction false} InternalWritesAppend(hash: Hash, internals: seq<InternalTransaction>)
    ensures forall w <- InternalWrites(hash, internals) :: w.Append?
    ensures Appends(InternalWrites(hash, internals)) == |internals|
  {
    if internals != [] {
      var m := |internals| - 1;
      InternalWritesAppend(hash, internals[..m]);
      assert InternalWrites(hash, internals)[..m] == InternalWrites(hash, internals[..m]) by {
        InternalCount(hash, internals[..m]);
      }
      InternalCount(hash, internals);
    }
  }

  lemma {:induction false} InternalCount(hash: Hash, internals: seq<InternalTransaction>)
    ensures |InternalWrites(hash, internals)| == |internals|
  {
    if internals != [] {
      InternalCount(hash, internals[..|internals| - 1]);
    }
  }

  lemma TransactionWritesAre(hash: Hash, info: TxInfo, indices: set<int>, w: Write)
    requires w.Put?
    ensures w in TransactionWrites(hash, info, indices)
            <==> w == TransactionWrite(hash, info)
                 || exists l :: l in info.receipt.logs && l.logIndex in indices && w == LogWrite(hash, l)
  {
    LogWritesAre(hash, info.receipt.logs, indices, w);
    InternalWritesAppend(hash, info.internals);
  }

  lemma {:induction false} NftWritesAre(contract: Address, allowed: set<Kind>, hash: Hash, es: seq<Event>, w: Write)
    ensures w in NftWrites(contract, allowed, hash, es)
            <==> exists e :: e in es && Relevant(contract, allowed, e) && e.TransferNonFungibleEvent?
                             && w == NftWrite(hash, e)
  {
    if es != [] {
      var m := |es| - 1;
      NftWritesAre(contract, allowed, hash, es[..m], w);
      assert es == es[..m] + [es[m]];
    }
  }
}
