/** The amounts a receipt records for a contract, summed over its logs in order, kind by kind. */
module Amounts {
  import opened Deltas
  import opened TransactionEvents
  import opened TxProcessor
  import opened Selection

  /**
   * What one log adds to the supply of an ERC20 contract: a transfer to a burn address is a burn, one from a burn
   * address to elsewhere a mint; each counts if its kind is allowed.
   */
  function SupplyOf(contract: Address, allowed: set<Kind>, l: Log): int
  {
    if l.address != contract then 0
    else
      match l.payload
      case Transfer(src, dst, value) =>
        if dst in {ZeroAddress, DeadAddress} then if BurnFungible in allowed then -(value as int) else 0
        else if src in {ZeroAddress, DeadAddress} then if MintFungible in allowed then value else 0
        else 0
      case Issue(amount) => if MintFungible in allowed then amount else 0
      case Redeem(amount) => if BurnFungible in allowed then -(amount as int) else 0
      case _ => 0
  }

  /** What one log of a pair adds to the amounts held. */
  function LiquidityOf(pair: Address, allowed: set<Kind>, l: Log): Delta
  {
    if l.address != pair then NoDelta
    else
      match l.payload
      case Mint(_, amount0, amount1) => if MintPair in allowed then Delta(0, amount0, amount1) else NoDelta
      case Burn(_, amount0, amount1, _) =>
        if BurnPair in allowed then Delta(0, -(amount0 as int), -(amount1 as int)) else NoDelta
      case Swap(_, in0, in1, out0, out1, _) =>
        if SwapPair in allowed then Delta(0, in0 - out0, in1 - out1) else NoDelta
      case _ => NoDelta
  }

  function RecordedOf(contract: Address, cc: ContractConfig, l: Log): Delta
  {
    match cc.category
    case Erc20 => Delta(SupplyOf(contract, cc.events, l), 0, 0)
    case UniSwapV2Pair => LiquidityOf(contract, cc.events, l)
    case _ => NoDelta
  }

  /**
   * What is recorded for a contract: for a token its mints - burns, for a pair its mints - burns + swap-ins -
   * swap-outs, as far as their kinds are allowed; nothing for other categories.
   */
  function Recorded(contract: Address, cc: ContractConfig, logs: seq<Log>): Delta
  {
    if logs == [] then NoDelta else RecordedOf(contract, cc, logs[0]).Plus(Recorded(contract, cc, logs[1..]))
  }

  lemma EventShares(contract: Address, cc: ContractConfig, l: Log)
    ensures var es := Classify(cc.category, l);
            match |es|
            case 0 => RecordedOf(contract, cc, l) == NoDelta
            case 1 => Share(contract, cc.events, es[0]) == RecordedOf(contract, cc, l)
            case 2 => && Share(contract, cc.events, es[0]) == RecordedOf(contract, cc, l)
                      && Share(contract, cc.events, es[1]) == NoDelta
            case _ => false
  {
  }

  lemma LogShares(contract: Address, cc: ContractConfig, l: Log)
    ensures Sum(Shares(contract, cc.events), Classify(cc.category, l)) == RecordedOf(contract, cc, l)
  {
    EventShares(contract, cc, l);
    SumOfFew(Shares(contract, cc.events), Classify(cc.category, l));
  }

  lemma InOrderFirst(contract: Address, cc: ContractConfig, logs: seq<Log>)
    requires logs != []
    ensures TotalDelta(contract, cc.events, InLogOrder(cc.category, logs))
            == RecordedOf(contract, cc, logs[0])
               .Plus(TotalDelta(contract, cc.events, InLogOrder(cc.category, logs[1..])))
  {
    LogShares(contract, cc, logs[0]);
    SumAppend(Shares(contract, cc.events), Classify(cc.category, logs[0]), InLogOrder(cc.category, logs[1..]));
  }

  lemma {:induction false} InOrder(contract: Address, cc: ContractConfig, logs: seq<Log>)
    ensures TotalDelta(contract, cc.events, InLogOrder(cc.category, logs)) == Recorded(contract, cc, logs)
  {
    if logs != [] {
      InOrder(contract, cc, logs[1..]);
      InOrderFirst(contract, cc, logs);
    }
  }

  /** The accumulators of the event loop end as the sums over the logs. */
  lemma AmountsAreRecorded(contract: Address, cc: ContractConfig, logs: seq<Log>)
    ensures TotalDelta(contract, cc.events, GetTransactionEvents(cc.category, logs)) == Recorded(contract, cc, logs)
  {
    AmountsAreThoseOfTheLogs(contract, cc, logs);
    InOrder(contract, cc, logs);
  }
}
