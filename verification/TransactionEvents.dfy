/**
 * From the logs of a receipt to contract events (web3/transaction_events). A log is given with the event it
 * decodes to under the ABIs of the application; a mapper sees the logs of its own signature, whoever emitted them.
 */
module TransactionEvents {

  /** The two addresses the mappers treat as burned, 0x00..00 and 0x00..dead, and all others. */
  datatype Address = ZeroAddress | DeadAddress | Account(id: string)

  datatype Category = Unknown | Erc20 | Erc721 | Erc1155 | UniSwapV2Factory | UniSwapV2Pair

  datatype Payload =
    | Transfer(src: Address, dst: Address, value: nat)
    | Issue(amount: nat)
    | Redeem(amount: nat)
    | TransferToken(src: Address, dst: Address, tokenId: nat)
    | PairCreated(pair: Address, token0: Address, token1: Address)
    | Mint(sender: Address, amount0: nat, amount1: nat)
    | Burn(sender: Address, amount0: nat, amount1: nat, to: Address)
    | Swap(sender: Address, in0: nat, in1: nat, out0: nat, out1: nat, to: Address)
    | Undecoded(data: string)

  datatype Log = Log(address: Address, logIndex: int, payload: Payload)

  datatype Event =
    | MintFungibleEvent(address: Address, logIndex: int, value: int)
    | BurnFungibleEvent(address: Address, logIndex: int, value: int)
    | TransferFungibleEvent(address: Address, logIndex: int, src: Address, dst: Address, value: int)
    | PairCreatedEvent(address: Address, logIndex: int, pairAddress: Address, token0: Address, token1: Address)
    | MintPairEvent(address: Address, logIndex: int, sender: Address, amount0: int, amount1: int)
    | BurnPairEvent(address: Address, logIndex: int, src: Address, dst: Address, amount0: int, amount1: int)
    | SwapPairEvent(address: Address, logIndex: int, src: Address, dst: Address, in0: int, in1: int, out0: int,
                    out1: int)
    | MintNonFungibleEvent(address: Address, logIndex: int, tokenId: nat)
    | BurnNonFungibleEvent(address: Address, logIndex: int, tokenId: nat)
    | TransferNonFungibleEvent(address: Address, logIndex: int, src: Address, dst: Address, tokenId: nat)

  /** The event class names a contract's configuration may list. */
  datatype Kind =
    | MintFungible | BurnFungible | TransferFungible | PairCreation | MintPair | BurnPair | SwapPair
    | MintNonFungible | BurnNonFungible | TransferNonFungible

  function KindOf(e: Event): Kind
  {
    match e
    case MintFungibleEvent(_, _, _) => MintFungible
    case BurnFungibleEvent(_, _, _) => BurnFungible
    case TransferFungibleEvent(_, _, _, _, _) => TransferFungible
    case PairCreatedEvent(_, _, _, _, _) => PairCreation
    case MintPairEvent(_, _, _, _, _) => MintPair
    case BurnPairEvent(_, _, _, _, _, _) => BurnPair
    case SwapPairEvent(_, _, _, _, _, _, _, _) => SwapPair
    case MintNonFungibleEvent(_, _, _) => MintNonFungible
    case BurnNonFungibleEvent(_, _, _) => BurnNonFungible
    case TransferNonFungibleEvent(_, _, _, _, _) => TransferNonFungible
  }

  const BURN_ADDRESSES: set<Address> := {ZeroAddress, DeadAddress}

  // ---- the registered mappers, one pass over the receipt each ----

  datatype Mapper =
    | Erc20Transfer | Erc20Issue | Erc20Redeem
    | Erc721Transfer
    | FactoryPairCreated
    | PairMints | PairBurns | PairSwaps

  /** The mappers of a category in registration order; the other categories have none. */
  function MappersOf(category: Category): seq<Mapper>
  {
    match category
    case Erc20 => [Erc20Transfer, Erc20Issue, Erc20Redeem]
    case Erc721 => [Erc721Transfer]
    case UniSwapV2Factory => [FactoryPairCreated]
    case UniSwapV2Pair => [PairMints, PairBurns, PairSwaps]
    case Unknown => []
    case Erc1155 => []
  }

  /** What one mapper yields for one log. A transfer between two burn addresses still yields its burn event. */
  function MapLog(m: Mapper, l: Log): seq<Event>
  {
    match (m, l.payload)
    case (Erc20Transfer, Transfer(src, dst, value)) =>
      (if dst in BURN_ADDRESSES then [BurnFungibleEvent(l.address, l.logIndex, value)]
       else if src in BURN_ADDRESSES then [MintFungibleEvent(l.address, l.logIndex, value)]
       else [])
      + [TransferFungibleEvent(l.address, l.logIndex, src, dst, value)]
    case (Erc20Issue, Issue(amount)) => [MintFungibleEvent(l.address, l.logIndex, amount)]
    case (Erc20Redeem, Redeem(amount)) => [BurnFungibleEvent(l.address, l.logIndex, amount)]
    case (Erc721Transfer, TransferToken(src, dst, tokenId)) =>
      (if dst in BURN_ADDRESSES then [BurnNonFungibleEvent(l.address, l.logIndex, tokenId)]
       else if src in BURN_ADDRESSES then [MintNonFungibleEvent(l.address, l.logIndex, tokenId)]
       else [])
      + [TransferNonFungibleEvent(l.address, l.logIndex, src, dst, tokenId)]
    case (FactoryPairCreated, PairCreated(pair, token0, token1)) =>
      [PairCreatedEvent(l.address, l.logIndex, pair, token0, token1)]
    case (PairMints, Mint(sender, amount0, amount1)) =>
      [MintPairEvent(l.address, l.logIndex, sender, amount0, amount1)]
    case (PairBurns, Burn(sender, amount0, amount1, to)) =>
      [BurnPairEvent(l.address, l.logIndex, sender, to, amount0, amount1)]
    case (PairSwaps, Swap(sender, in0, in1, out0, out1, to)) =>
      [SwapPairEvent(l.address, l.logIndex, sender, to, in0, in1, out0, out1)]
    case _ => []
  }

  function Pass(m: Mapper, logs: seq<Log>): seq<Event>
  {
    if logs == [] then [] else MapLog(m, logs[0]) + Pass(m, logs[1..])
  }

  function Passes(ms: seq<Mapper>, logs: seq<Log>): seq<Event>
  {
    if ms == [] then [] else Pass(ms[0], logs) + Passes(ms[1..], logs)
  }

  /** `get_transaction_events`. */
  function GetTransactionEvents(category: Category, logs: seq<Log>): seq<Event>
  {
    Passes(MappersOf(category), logs)
  }

  // ---- reference: the logs in order, each classified once ----

  function Classify(category: Category, l: Log): seq<Event>
  {
    match l.payload
    case Transfer(src, dst, value) =>
      if category != Erc20 then []
      else
        var transfer := TransferFungibleEvent(l.address, l.logIndex, src, dst, value);
        if dst in BURN_ADDRESSES then [BurnFungibleEvent(l.address, l.logIndex, value), transfer]
        else if src in BURN_ADDRESSES then [MintFungibleEvent(l.address, l.logIndex, value), transfer]
        else [transfer]
    case Issue(amount) => if category != Erc20 then [] else [MintFungibleEvent(l.address, l.logIndex, amount)]
    case Redeem(amount) => if category != Erc20 then [] else [BurnFungibleEvent(l.address, l.logIndex, amount)]
    case TransferToken(src, dst, tokenId) =>
      if category != Erc721 then []
      else
        var transfer := TransferNonFungibleEvent(l.address, l.logIndex, src, dst, tokenId);
        if dst in BURN_ADDRESSES then [BurnNonFungibleEvent(l.address, l.logIndex, tokenId), transfer]
        else if src in BURN_ADDRESSES then [MintNonFungibleEvent(l.address, l.logIndex, tokenId), transfer]
        else [transfer]
    case PairCreated(pair, token0, token1) =>
      if category != UniSwapV2Factory then [] else [PairCreatedEvent(l.address, l.logIndex, pair, token0, token1)]
    case Mint(sender, amount0, amount1) =>
      if category != UniSwapV2Pair then [] else [MintPairEvent(l.address, l.logIndex, sender, amount0, amount1)]
    case Burn(sender, amount0, amount1, to) =>
      if category != UniSwapV2Pair then [] else [BurnPairEvent(l.address, l.logIndex, sender, to, amount0, amount1)]
    case Swap(sender, in0, in1, out0, out1, to) =>
      if category != UniSwapV2Pair then []
      else [SwapPairEvent(l.address, l.logIndex, sender, to, in0, in1, out0, out1)]
    case Undecoded(_) => []
  }

  function InLogOrder(category: Category, logs: seq<Log>): seq<Event>
  {
    if logs == [] then [] else Classify(category, logs[0]) + InLogOrder(category, logs[1..])
  }

  // ---- the passes are a permutation of the in-order classification ----

  function MapLogAll(ms: seq<Mapper>, l: Log): seq<Event>
  {
    if ms == [] then [] else MapLog(ms[0], l) + MapLogAll(ms[1..], l)
  }

  lemma MapLogOne(m: Mapper, l: Log)
    ensures MapLogAll([m], l) == MapLog(m, l)
  {
    assert [m][1..] == [];
  }

  lemma MapLogThree(a: Mapper, b: Mapper, c: Mapper, l: Log)
    ensures MapLogAll([a, b, c], l) == MapLog(a, l) + (MapLog(b, l) + MapLog(c, l))
  {
    assert [a, b, c][1..] == [b, c] && [b, c][1..] == [c];
    MapLogOne(c, l);
  }

  lemma Erc20MappersClassify(l: Log)
    ensures MapLogAll(MappersOf(Erc20), l) == Classify(Erc20, l)
  {
    MapLogThree(Erc20Transfer, Erc20Issue, Erc20Redeem, l);
  }

  lemma PairMappersClassify(l: Log)
    ensures MapLogAll(MappersOf(UniSwapV2Pair), l) == Classify(UniSwapV2Pair, l)
  {
    MapLogThree(PairMints, PairBurns, PairSwaps, l);
  }

  lemma MappersClassify(category: Category, l: Log)
    ensures MapLogAll(MappersOf(category), l) == Classify(category, l)
  {
    match category {
      case Erc20 => Erc20MappersClassify(l);
      case UniSwapV2Pair => PairMappersClassify(l);
      case Erc721 => MapLogOne(Erc721Transfer, l);
      case UniSwapV2Factory => MapLogOne(FactoryPairCreated, l);
      case _ =>
    }
  }

  lemma {:induction false} PassesEmpty(ms: seq<Mapper>)
    ensures Passes(ms, []) == []
  {
    if ms != [] {
      PassesEmpty(ms[1..]);
    }
  }

  lemma {:induction false} PassesCons(ms: seq<Mapper>, logs: seq<Log>)
    requires logs != []
    ensures multiset(Passes(ms, logs)) == multiset(MapLogAll(ms, logs[0])) + multiset(Passes(ms, logs[1..]))
  {
    if ms != [] {
      PassesCons(ms[1..], logs);
    }
  }

  /** One pass per mapper yields the same events as classifying each log once, in another order. */
  lemma {:induction false} PassesArePermutation(category: Category, logs: seq<Log>)
    ensures multiset(GetTransactionEvents(category, logs)) == multiset(InLogOrder(category, logs))
  {
    if logs == [] {
      PassesEmpty(MappersOf(category));
    } else {
      PassesCons(MappersOf(category), logs);
      MappersClassify(category, logs[0]);
      PassesArePermutation(category, logs[1..]);
    }
  }

  /** An event comes from a log of the receipt, carrying its address and index. */
  lemma {:induction false} ClassifiedFrom(category: Category, logs: seq<Log>, e: Event)
    ensures e in InLogOrder(category, logs) <==> exists l :: l in logs && e in Classify(category, l)
  {
    if logs != [] {
      ClassifiedFrom(category, logs[1..], e);
      assert logs == [logs[0]] + logs[1..];
      if l :| l in logs && e in Classify(category, l) {
        assert l == logs[0] || l in logs[1..];
      }
    }
  }

  lemma EventsComeFromLogs(category: Category, logs: seq<Log>, e: Event)
    ensures e in GetTransactionEvents(category, logs) <==> exists l :: l in logs && e in Classify(category, l)
  {
    PassesArePermutation(category, logs);
    ClassifiedFrom(category, logs, e);
    assert e in multiset(GetTransactionEvents(category, logs)) <==> e in multiset(InLogOrder(category, logs));
  }

  lemma ClassifyKeepsPosition(category: Category, l: Log, e: Event)
    requires e in Classify(category, l)
    ensures e.address == l.address && e.logIndex == l.logIndex
  {
  }
}
