/** Processing one transaction into rows (consumer/tx_processor.py, web3/parser.py). */
module TxProcessor {
  import opened Deltas
  import opened TransactionEvents
  import opened Database

  datatype ContractConfig = ContractConfig(category: Category, events: set<Kind>)

  /** The configured contracts by address. */
  type Config = map<Address, ContractConfig>

  /** What the node reports about one transaction hash. */
  datatype TxInfo = TxInfo(data: TransactionData, receipt: Receipt, internals: seq<InternalTransaction>)

  // ---- the events of one contract ----

  predicate Relevant(contract: Address, allowed: set<Kind>, e: Event)
  {
    KindOf(e) in allowed && e.address == contract
  }

  function DeltaOf(e: Event): Delta
  {
    match e
    case MintFungibleEvent(_, _, value) => Delta(value, 0, 0)
    case BurnFungibleEvent(_, _, value) => Delta(-value, 0, 0)
    case MintPairEvent(_, _, _, amount0, amount1) => Delta(0, amount0, amount1)
    case BurnPairEvent(_, _, _, _, amount0, amount1) => Delta(0, -amount0, -amount1)
    case SwapPairEvent(_, _, _, _, in0, in1, out0, out1) => Delta(0, in0 - out0, in1 - out1)
    case _ => NoDelta
  }

  function Share(contract: Address, allowed: set<Kind>, e: Event): Delta
  {
    if Relevant(contract, allowed, e) then DeltaOf(e) else NoDelta
  }

  function Shares(contract: Address, allowed: set<Kind>): Event -> Delta
  {
    e => Share(contract, allowed, e)
  }

  function TotalDelta(contract: Address, allowed: set<Kind>, es: seq<Event>): Delta
  {
    Sum(Shares(contract, allowed), es)
  }

  function Indices(contract: Address, allowed: set<Kind>, es: seq<Event>): set<int>
  {
    if es == [] then {}
    else
      var m := |es| - 1;
      Indices(contract, allowed, es[..m]) + if Relevant(contract, allowed, es[m]) then {es[m].logIndex} else {}
  }

  lemma {:induction false} IndicesAreThoseOfRelevantEvents(contract: Address, allowed: set<Kind>, es: seq<Event>,
                                                           index: int)
    ensures index in Indices(contract, allowed, es)
            <==> exists e :: e in es && Relevant(contract, allowed, e) && e.logIndex == index
  {
    if es != [] {
      var m := |es| - 1;
      assert es == es[..m] + [es[m]];
      IndicesAreThoseOfRelevantEvents(contract, allowed, es[..m], index);
    }
  }

  function NftWrite(hash: Hash, e: Event): Write
    requires e.TransferNonFungibleEvent?
  {
    Put(NftKey(hash, e.logIndex), NftRow(e.address, e.src, e.dst, e.tokenId))
  }

  function NftWrites(contract: Address, allowed: set<Kind>, hash: Hash, es: seq<Event>): seq<Write>
  {
    if es == [] then []
    else
      var m := |es| - 1;
      NftWrites(contract, allowed, hash, es[..m]) +
      if Relevant(contract, allowed, es[m]) && es[m].TransferNonFungibleEvent? then [NftWrite(hash, es[m])] else []
  }

  /** The supply row carries the address of the last event seen, whichever contract that event belongs to. */
  function SupplyWrites(contract: Address, allowed: set<Kind>, hash: Hash, es: seq<Event>): seq<Write>
  {
    var d := TotalDelta(contract, allowed, es);
    if d.supply != 0 && es != [] then [Put(SupplyKey(es[|es| - 1].address, hash), SupplyRow(d.supply))] else []
  }

  function PairWrites(contract: Address, allowed: set<Kind>, hash: Hash, es: seq<Event>): seq<Write>
  {
    var d := TotalDelta(contract, allowed, es);
    if d.amount0 != 0 || d.amount1 != 0 then [Put(PairKey(contract, hash), PairRow(d.amount0, d.amount1))] else []
  }

  /** All rows `_handle_transaction_events` inserts for one contract. */
  function EventWrites(contract: Address, cc: ContractConfig, hash: Hash, logs: seq<Log>): seq<Write>
  {
    var es := GetTransactionEvents(cc.category, logs);
    NftWrites(contract, cc.events, hash, es)
    + SupplyWrites(contract, cc.events, hash, es)
    + PairWrites(contract, cc.events, hash, es)
  }

  function EventIndices(contract: Address, cc: ContractConfig, logs: seq<Log>): set<int>
  {
    Indices(contract, cc.events, GetTransactionEvents(cc.category, logs))
  }

  // ---- the configured emitters, in the order a Python set is walked ----

  function LogAddresses(logs: seq<Log>): set<Address>
  {
    set l | l in logs :: l.address
  }

  /** `order` walks the distinct addresses of the logs, each once. */
  ghost predicate Walks(order: seq<Address>, logs: seq<Log>)
  {
    && (forall a :: a in order <==> a in LogAddresses(logs))
    && (forall i, j :: 0 <= i < j < |order| ==> order[i] != order[j])
  }

  function EmitterWrites(cfg: Config, hash: Hash, logs: seq<Log>, order: seq<Address>): seq<Write>
  {
    if order == [] then []
    else
      var m := |order| - 1;
      EmitterWrites(cfg, hash, logs, order[..m]) +
      if order[m] in cfg then EventWrites(order[m], cfg[order[m]], hash, logs) else []
  }

  function EmitterIndices(cfg: Config, logs: seq<Log>, order: seq<Address>): set<int>
  {
    if order == [] then {}
    else
      var m := |order| - 1;
      EmitterIndices(cfg, logs, order[..m]) +
      if order[m] in cfg then EventIndices(order[m], cfg[order[m]], logs) else {}
  }

  // ---- the transaction itself ----

  function LogWrites(hash: Hash, logs: seq<Log>, indices: set<int>): seq<Write>
  {
    if logs == [] then []
    else
      var m := |logs| - 1;
      LogWrites(hash, logs[..m], indices) + if logs[m].logIndex in indices then [LogWrite(hash, logs[m])] else []
  }

  function InternalWrites(hash: Hash, internals: seq<InternalTransaction>): seq<Write>
  {
    if internals == [] then []
    else InternalWrites(hash, internals[..|internals| - 1]) + [Append(hash, internals[|internals| - 1])]
  }

  /** Gas price times gas used. */
  function Fee(info: TxInfo): real
  {
    info.data.gasPrice * info.receipt.gasUsed
  }

  function TransactionWrite(hash: Hash, info: TxInfo): Write
  {
    Put(TransactionKey(hash),
        TransactionRow(info.data, info.receipt.gasUsed, true, Fee(info)))
  }

  /** All rows `_handle_transaction` inserts. */
  function TransactionWrites(hash: Hash, info: TxInfo, indices: set<int>): seq<Write>
  {
    [TransactionWrite(hash, info)] + LogWrites(hash, info.receipt.logs, indices) + InternalWrites(hash, info.internals)
  }

  // ---- the processors ----

  /** Whether the transaction is saved, which of its logs are, and the rows inserted before it is. */
  datatype Selection = Selection(save: bool, indices: set<int>, writes: seq<Write>)

  function SelectInteraction(cfg: Config, hash: Hash, to: Address, logs: seq<Log>, order: seq<Address>): Selection
  {
    if to in cfg then Selection(true, EventIndices(to, cfg[to], logs), EventWrites(to, cfg[to], hash, logs))
    else
      var indices := EmitterIndices(cfg, logs, order);
      Selection(indices != {}, indices, EmitterWrites(cfg, hash, logs, order))
  }

  /** The contract-creation inserts are skipped: no category passes their tests. The events are handled. */
  function SelectCreation(cfg: Config, hash: Hash, contract: Address, logs: seq<Log>): Selection
  {
    if contract in cfg
    then Selection(true, EventIndices(contract, cfg[contract], logs), EventWrites(contract, cfg[contract], hash, logs))
    else Selection(false, {}, [])
  }

  function SelectPartial(cfg: Config, hash: Hash, info: TxInfo, order: seq<Address>): Selection
  {
    if info.data.to.Some? then SelectInteraction(cfg, hash, info.data.to.value, info.receipt.logs, order)
    else if info.receipt.contractAddress.Some? then
      SelectCreation(cfg, hash, info.receipt.contractAddress.value, info.receipt.logs)
    else Selection(false, {}, [])
  }

  function PartialWrites(cfg: Config, hash: Hash, info: TxInfo, order: seq<Address>): seq<Write>
  {
    var sel := SelectPartial(cfg, hash, info, order);
    sel.writes + if sel.save then TransactionWrites(hash, info, sel.indices) else []
  }

  function AllIndices(logs: seq<Log>): set<int>
  {
    set l | l in logs :: l.logIndex
  }

  function FullWrites(hash: Hash, info: TxInfo): seq<Write>
  {
    TransactionWrites(hash, info, AllIndices(info.receipt.logs))
  }

  class TransactionProcessor {
    const db: DatabaseManager
    const config: Config

    constructor (db: DatabaseManager, config: Config)
      ensures this.db == db && this.config == config
    {
      this.db := db;
      this.config := config;
    }

    method HandleTransactionEvents(contract: Address, hash: Hash, logs: seq<Log>) returns (logIndicesToSave: set<int>)
      requires contract in config
      modifies db
      ensures logIndicesToSave == EventIndices(contract, config[contract], logs)
      ensures db.Contents() == InsertAll(old(db.Contents()), EventWrites(contract, config[contract], hash, logs))
    {
      var allowedEvents := config[contract].events;
      var events := GetTransactionEvents(config[contract].category, logs);
      var amountChanged, pairAmount0Changed, pairAmount1Changed;
      logIndicesToSave, amountChanged, pairAmount0Changed, pairAmount1Changed :=
        WalkEvents(contract, allowedEvents, hash, events);
      ghost var before := old(db.Contents());
      ghost var nfts := NftWrites(contract, allowedEvents, hash, events);
      ghost var supply := SupplyWrites(contract, allowedEvents, hash, events);
      ghost var pair := PairWrites(contract, allowedEvents, hash, events);
      InsertAllAppend(before, nfts, supply);
      InsertAllAppend(before, nfts + supply, pair);
      InsertAtMostOne(InsertAll(before, nfts), supply);
      InsertAtMostOne(InsertAll(before, nfts + supply), pair);
      if amountChanged != 0 {
        // the loop variable still holds the last event
        var event := events[|events| - 1];
        db.InsertContractSupplyChange(event.address, amountChanged, hash);
      }
      if pairAmount0Changed != 0 || pairAmount1Changed != 0 {
        db.InsertPairLiquidityChange(contract, pairAmount0Changed, pairAmount1Changed, hash);
      }
    }

    /** One event that passed the filter: accumulate its amounts, or insert its NFT transfer. */
    method HandleEvent(event: Event, hash: Hash, amount: int, amount0: int, amount1: int)
      returns (amountChanged: int, pairAmount0Changed: int, pairAmount1Changed: int)
      modifies db
      ensures Delta(amountChanged, pairAmount0Changed, pairAmount1Changed)
              == Delta(amount, amount0, amount1).Plus(DeltaOf(event))
      ensures db.Contents() == if event.TransferNonFungibleEvent? then Insert(old(db.Contents()), NftWrite(hash, event))
                               else old(db.Contents())
    {
      amountChanged, pairAmount0Changed, pairAmount1Changed := amount, amount0, amount1;
      match event {
        case BurnFungibleEvent(_, _, value) => amountChanged := amountChanged - value;
        case MintFungibleEvent(_, _, value) => amountChanged := amountChanged + value;
        case MintPairEvent(_, _, _, amount0, amount1) =>
          pairAmount0Changed := pairAmount0Changed + amount0;
          pairAmount1Changed := pairAmount1Changed + amount1;
        case BurnPairEvent(_, _, _, _, amount0, amount1) =>
          pairAmount0Changed := pairAmount0Changed - amount0;
          pairAmount1Changed := pairAmount1Changed - amount1;
        case SwapPairEvent(_, _, _, _, in0, in1, out0, out1) =>
          pairAmount0Changed := pairAmount0Changed + in0;
          pairAmount1Changed := pairAmount1Changed + in1;
          pairAmount0Changed := pairAmount0Changed - out0;
          pairAmount1Changed := pairAmount1Changed - out1;
        case TransferNonFungibleEvent(address, logIndex, src, dst, tokenId) =>
          db.InsertNftTransfer(hash, logIndex, address, src, dst, tokenId);
        case _ =>
      }
    }

    /** The loop over the events: filter, mark, accumulate, and insert NFT transfers on the way. */
    method WalkEvents(contract: Address, allowedEvents: set<Kind>, hash: Hash, events: seq<Event>)
      returns (logIndicesToSave: set<int>, amountChanged: int, pairAmount0Changed: int, pairAmount1Changed: int)
      modifies db
      ensures logIndicesToSave == Indices(contract, allowedEvents, events)
      ensures Delta(amountChanged, pairAmount0Changed, pairAmount1Changed)
              == TotalDelta(contract, allowedEvents, events)
      ensures db.Contents() == InsertAll(old(db.Contents()), NftWrites(contract, allowedEvents, hash, events))
    {
      logIndicesToSave := {};
      amountChanged, pairAmount0Changed, pairAmount1Changed := 0, 0, 0;
      ghost var before := db.Contents();
      for i := 0 to |events|
        invariant Tally(logIndicesToSave, Delta(amountChanged, pairAmount0Changed, pairAmount1Changed), db.Contents())
                  == TallyOf(before, contract, allowedEvents, hash, events[..i])
      {
        WalkStep(before, contract, allowedEvents, hash, events, i);
        var event := events[i];
        // only allowed kinds, and only those this contract emitted
        if KindOf(event) in allowedEvents && event.address == contract {
          logIndicesToSave := logIndicesToSave + {event.logIndex};
          amountChanged, pairAmount0Changed, pairAmount1Changed :=
            HandleEvent(event, hash, amountChanged, pairAmount0Changed, pairAmount1Changed);
        }
      }
      assert events[..|events|] == events;
    }

    method HandleTransaction(hash: Hash, info: TxInfo, logIndicesToSave: set<int>)
      modifies db
      ensures db.Contents() == InsertAll(old(db.Contents()), TransactionWrites(hash, info, logIndicesToSave))
    {
      ghost var before := db.Contents();
      ghost var first := [TransactionWrite(hash, info)];
      db.InsertTransaction(hash, info.data, info.receipt.gasUsed, true, Fee(info));
      InsertAtMostOne(before, first);
      HandleLogs(before, first, hash, info.receipt.logs, logIndicesToSave);
      HandleInternals(before, first + LogWrites(hash, info.receipt.logs, logIndicesToSave), hash, info.internals);
    }

    method HandleLogs(ghost before: Store, ghost done: seq<Write>, hash: Hash, logs: seq<Log>,
                      logIndicesToSave: set<int>)
      requires db.Contents() == InsertAll(before, done)
      modifies db
      ensures db.Contents() == InsertAll(before, done + LogWrites(hash, logs, logIndicesToSave))
    {
      assert done + [] == done;
      for i := 0 to |logs|
        invariant db.Contents() == InsertAll(before, done + LogWrites(hash, logs[..i], logIndicesToSave))
      {
        LogStep(before, done, hash, logs, logIndicesToSave, i);
        if logs[i].logIndex in logIndicesToSave {
          db.InsertTransactionLog(hash, logs[i]);
        }
      }
      assert logs[..|logs|] == logs;
    }

    method HandleInternals(ghost before: Store, ghost done: seq<Write>, hash: Hash, internals: seq<InternalTransaction>)
      requires db.Contents() == InsertAll(before, done)
      modifies db
      ensures db.Contents() == InsertAll(before, done + InternalWrites(hash, internals))
    {
      assert done + [] == done;
      for i := 0 to |internals|
        invariant db.Contents() == InsertAll(before, done + InternalWrites(hash, internals[..i]))
      {
        assert internals[..i + 1][..i] == internals[..i];
        InsertOneMore(before, done + InternalWrites(hash, internals[..i]), Append(hash, internals[i]));
        assert done + InternalWrites(hash, internals[..i]) + [Append(hash, internals[i])]
               == done + InternalWrites(hash, internals[..i + 1]);
        db.InsertInternalTransaction(hash, internals[i]);
      }
      assert internals[..|internals|] == internals;
    }

    method ProcessRegularContractInteraction(hash: Hash, to: Address, logs: seq<Log>, eventAddresses: seq<Address>)
      returns (shouldSave: bool, logIndicesToSave: set<int>)
      modifies db
      ensures var sel := SelectInteraction(config, hash, to, logs, eventAddresses);
              && shouldSave == sel.save && logIndicesToSave == sel.indices
              && db.Contents() == InsertAll(old(db.Contents()), sel.writes)
    {
      if to !in config {
        logIndicesToSave := {};
        for i := 0 to |eventAddresses|
          invariant logIndicesToSave == EmitterIndices(config, logs, eventAddresses[..i])
          invariant db.Contents()
                  == InsertAll(old(db.Contents()), EmitterWrites(config, hash, logs, eventAddresses[..i]))
        {
          EmitterStep(config, hash, logs, eventAddresses, i);
          if eventAddresses[i] in config {
            InsertAllAppend(old(db.Contents()), EmitterWrites(config, hash, logs, eventAddresses[..i]),
                            EventWrites(eventAddresses[i], config[eventAddresses[i]], hash, logs));
            var logIndices := HandleTransactionEvents(eventAddresses[i], hash, logs);
            logIndicesToSave := logIndicesToSave + logIndices;
          }
        }
        assert eventAddresses[..|eventAddresses|] == eventAddresses;
        shouldSave := |logIndicesToSave| > 0;
      } else {
        logIndicesToSave := HandleTransactionEvents(to, hash, logs);
        shouldSave := true;
      }
    }

    method ProcessContractCreation(hash: Hash, contract: Address, logs: seq<Log>)
      returns (shouldSave: bool, logIndicesToSave: set<int>)
      modifies db
      ensures var sel := SelectCreation(config, hash, contract, logs);
              && shouldSave == sel.save && logIndicesToSave == sel.indices
              && db.Contents() == InsertAll(old(db.Contents()), sel.writes)
    {
      if contract in config {
        logIndicesToSave := HandleTransactionEvents(contract, hash, logs);
        return true, logIndicesToSave;
      }
      return false, {};
    }

    /** PartialTransactionProcessor.process_transaction; `eventAddresses` is the order the address set is walked in. */
    method ProcessPartial(hash: Hash, info: TxInfo, eventAddresses: seq<Address>) returns (saved: bool)
      modifies db
      ensures saved == SelectPartial(config, hash, info, eventAddresses).save
      ensures db.Contents() == InsertAll(old(db.Contents()), PartialWrites(config, hash, info, eventAddresses))
    {
      var logIndicesToSave: set<int> := {};
      saved := false;
      if info.data.to.Some? {
        saved, logIndicesToSave :=
          ProcessRegularContractInteraction(hash, info.data.to.value, info.receipt.logs, eventAddresses);
      } else if info.receipt.contractAddress.Some? {
        saved, logIndicesToSave :=
          ProcessContractCreation(hash, info.receipt.contractAddress.value, info.receipt.logs);
      }
      ghost var sel := SelectPartial(config, hash, info, eventAddresses);
      InsertAllAppend(old(db.Contents()), sel.writes,
                      if sel.save then TransactionWrites(hash, info, sel.indices) else []);
      if saved {
        HandleTransaction(hash, info, logIndicesToSave);
      }
    }

    /** FullTransactionProcessor.process_transaction. */
    method ProcessFull(hash: Hash, info: TxInfo) returns (saved: bool)
      modifies db
      ensures saved
      ensures db.Contents() == InsertAll(old(db.Contents()), FullWrites(hash, info))
    {
      HandleTransaction(hash, info, set l | l in info.receipt.logs :: l.logIndex);
      saved := true;
    }
  }

  lemma InsertAtMostOne(s: Store, ws: seq<Write>)
    requires |ws| <= 1
    ensures InsertAll(s, ws) == if ws == [] then s else Insert(s, ws[0])
  {
  }

  /** What the event loop has gathered: marked indices, accumulated amounts, and the tables. */
  datatype Tally = Tally(indices: set<int>, delta: Delta, store: Store)

  function TallyOf(s: Store, contract: Address, allowed: set<Kind>, hash: Hash, es: seq<Event>): Tally
  {
    Tally(Indices(contract, allowed, es), TotalDelta(contract, allowed, es),
          InsertAll(s, NftWrites(contract, allowed, hash, es)))
  }

  lemma WalkStep(s: Store, contract: Address, allowed: set<Kind>, hash: Hash, es: seq<Event>, i: nat)
    requires i < |es|
    ensures TallyOf(s, contract, allowed, hash, es[..i + 1]) ==
            var t, e := TallyOf(s, contract, allowed, hash, es[..i]), es[i];
            if !Relevant(contract, allowed, e) then t
            else Tally(t.indices + {e.logIndex}, t.delta.Plus(DeltaOf(e)),
                       if e.TransferNonFungibleEvent? then Insert(t.store, NftWrite(hash, e)) else t.store)
  {
    assert es[..i + 1] == es[..i] + [es[i]];
    assert es[..i + 1][..i] == es[..i];
    if Relevant(contract, allowed, es[i]) && es[i].TransferNonFungibleEvent? {
      InsertOneMore(s, NftWrites(contract, allowed, hash, es[..i]), NftWrite(hash, es[i]));
    } else {
      assert NftWrites(contract, allowed, hash, es[..i + 1]) == NftWrites(contract, allowed, hash, es[..i]);
    }
  }

  lemma LogStep(s: Store, done: seq<Write>, hash: Hash, logs: seq<Log>, indices: set<int>, i: nat)
    requires i < |logs|
    ensures InsertAll(s, done + LogWrites(hash, logs[..i + 1], indices)) ==
            var t := InsertAll(s, done + LogWrites(hash, logs[..i], indices));
            if logs[i].logIndex in indices then Insert(t, LogWrite(hash, logs[i])) else t
  {
    assert logs[..i + 1][..i] == logs[..i];
    var ws := LogWrites(hash, logs[..i], indices);
    if logs[i].logIndex in indices {
      InsertOneMore(s, done + ws, LogWrite(hash, logs[i]));
      assert done + ws + [LogWrite(hash, logs[i])] == done + LogWrites(hash, logs[..i + 1], indices);
    } else {
      assert LogWrites(hash, logs[..i + 1], indices) == ws;
    }
  }

  lemma EmitterStep(cfg: Config, hash: Hash, logs: seq<Log>, order: seq<Address>, i: nat)
    requires i < |order|
    ensures EmitterWrites(cfg, hash, logs, order[..i + 1])
            == EmitterWrites(cfg, hash, logs, order[..i])
               + if order[i] in cfg then EventWrites(order[i], cfg[order[i]], hash, logs) else []
    ensures EmitterIndices(cfg, logs, order[..i + 1])
            == EmitterIndices(cfg, logs, order[..i])
               + if order[i] in cfg then EventIndices(order[i], cfg[order[i]], logs) else {}
    ensures order[i] !in cfg
            ==> EmitterWrites(cfg, hash, logs, order[..i + 1]) == EmitterWrites(cfg, hash, logs, order[..i])
  {
    assert order[..i + 1][..i] == order[..i];
  }
}
