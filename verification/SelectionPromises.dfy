/**
 * What partial mode is documented to save, and exactly when it does (consumer/tx_processor.py,
 * docs/configuration.md).
 */
module SelectionPromises {
  import opened Options
  import opened TransactionEvents
  import opened Database
  import opened TxProcessor
  import opened Selection
  import opened Confluence

  /** A log of a configured contract that decodes to an event the configuration allows. */
  ghost predicate Promised(cfg: Config, info: TxInfo, l: Log)
  {
    l in info.receipt.logs && l.address in cfg && Wanted(cfg[l.address], l)
  }

  /** The contract the transaction is for: its recipient, or the contract it creates. */
  function Recipient(info: TxInfo): Option<Address>
  {
    if info.data.to.Some? then info.data.to else info.receipt.contractAddress
  }

  lemma PromisedAndSelected(cfg: Config, hash: Hash, info: TxInfo, order: seq<Address>, l: Log)
    requires Walks(order, info.receipt.logs) && UniqueIndices(info.receipt.logs) && Promised(cfg, info, l)
    ensures l.logIndex in SelectPartial(cfg, hash, info, order).indices <==> l.address in Handled(cfg, info)
  {
    IndexSelected(cfg, hash, info, order, l.logIndex);
    assert l.address in Handled(cfg, info) ==> Selects(cfg, info, l);
  }

  /**
   * In a saved transaction every promised log is selected if and only if neither recipient nor new contract is
   * configured, or all promised logs are its own.
   */
  lemma AllPromisedSelectedExactlyWhen(cfg: Config, hash: Hash, info: TxInfo, order: seq<Address>)
    requires Walks(order, info.receipt.logs) && UniqueIndices(info.receipt.logs)
    requires SelectPartial(cfg, hash, info, order).save
    ensures (forall l :: Promised(cfg, info, l) ==> l.logIndex in SelectPartial(cfg, hash, info, order).indices)
            <==>
            !Addressed(cfg, info) || forall l :: Promised(cfg, info, l) ==> Recipient(info) == Some(l.address)
  {
    forall l | Promised(cfg, info, l)
      ensures l.logIndex in SelectPartial(cfg, hash, info, order).indices
              <==> !Addressed(cfg, info) || Recipient(info) == Some(l.address)
    {
      PromisedAndSelected(cfg, hash, info, order, l);
      assert l.address in LogAddresses(info.receipt.logs);
    }
  }

  /** A configured recipient, and a transfer of another configured token: the transaction is saved without that log. */
  lemma RecipientHidesOtherEmitters(cfg: Config, hash: Hash, info: TxInfo, order: seq<Address>, to: Address, l: Log)
    requires Walks(order, info.receipt.logs) && info.receipt.logs == [l] && info.data.to == Some(to)
    requires to in cfg && l.address in cfg && l.address != to
    requires cfg[l.address].category == Erc20 && TransferFungible in cfg[l.address].events && l.payload.Transfer?
    ensures Promised(cfg, info, l)
    ensures SelectPartial(cfg, hash, info, order).save
    ensures SelectPartial(cfg, hash, info, order).indices == {}
  {
    assert l in [l];
    forall index
      ensures index !in SelectPartial(cfg, hash, info, order).indices
    {
      IndexSelected(cfg, hash, info, order, index);
    }
  }

  /** A transaction is to be stored if a configured contract is its recipient, emits one of its logs, or is created. */
  ghost predicate Documented(cfg: Config, info: TxInfo)
  {
    || (info.data.to.Some? && info.data.to.value in cfg)
    || (exists l :: l in info.receipt.logs && l.address in cfg)
    || (info.receipt.contractAddress.Some? && info.receipt.contractAddress.value in cfg)
  }

  /** Only such transactions are saved; among them, those with a configured recipient or, if not, a promised log. */
  lemma DocumentedSavedExactlyWhen(cfg: Config, hash: Hash, info: TxInfo, order: seq<Address>)
    requires Walks(order, info.receipt.logs)
    ensures SelectPartial(cfg, hash, info, order).save <==>
            && Documented(cfg, info)
            && (Addressed(cfg, info) || (info.data.to.Some? && exists l :: Promised(cfg, info, l)))
  {
    PartialSelectionIs(cfg, hash, info, order, 0);
    if l :| Selects(cfg, info, l) {
      assert Promised(cfg, info, l);
    }
    if info.data.to.Some? && !Addressed(cfg, info) {
      if l :| Promised(cfg, info, l) {
        assert l.address in LogAddresses(info.receipt.logs);
        assert Selects(cfg, info, l);
      }
    }
  }

  /** A configured recipient or new contract is enough, whatever the logs. */
  lemma AddressedIsSaved(cfg: Config, hash: Hash, info: TxInfo, order: seq<Address>)
    requires if info.data.to.Some? then info.data.to.value in cfg
             else info.receipt.contractAddress.Some? && info.receipt.contractAddress.value in cfg
    ensures SelectPartial(cfg, hash, info, order).save && Saves(cfg, info)
  {
  }

  /** An input documented to be saved that is not: a configured token emits a log, but of no allowed event. */
  lemma UnwantedLogIsNotEnough(cfg: Config, hash: Hash, info: TxInfo, order: seq<Address>, to: Address, l: Log)
    requires Walks(order, info.receipt.logs) && info.receipt.logs == [l]
    requires info.data.to == Some(to) && to !in cfg && info.receipt.contractAddress == None
    requires l.address in cfg && !Wanted(cfg[l.address], l)
    ensures Documented(cfg, info) && !SelectPartial(cfg, hash, info, order).save
  {
    assert l in info.receipt.logs;
    DocumentedSavedExactlyWhen(cfg, hash, info, order);
  }

  /** And another: it creates a contract that is not configured, and is dropped with a configured token's event. */
  lemma CreationDropsPromisedLogs(cfg: Config, hash: Hash, info: TxInfo, order: seq<Address>, created: Address, l: Log)
    requires Walks(order, info.receipt.logs) && info.receipt.logs == [l]
    requires info.data.to == None && info.receipt.contractAddress == Some(created) && created !in cfg
    requires l.address in cfg && Wanted(cfg[l.address], l)
    ensures Promised(cfg, info, l) && Documented(cfg, info) && !SelectPartial(cfg, hash, info, order).save
  {
    assert l in info.receipt.logs;
    DocumentedSavedExactlyWhen(cfg, hash, info, order);
  }
}
