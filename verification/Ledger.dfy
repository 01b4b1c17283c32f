/** The recorded amounts against plain ledgers that replay a contract's logs in order. */
module Ledger {
  import opened Options
  import opened Deltas
  import opened Sequences
  import opened Sums
  import opened TransactionEvents
  import opened Database
  import opened TxProcessor
  import opened Selection
  import opened Amounts

  // ---- token balances ----

  type Balances = map<Address, int>

  function Add(b: Balances, account: Address, amount: int): Balances
  {
    b[account := (if account in b then b[account] else 0) + amount]
  }

  /** EIP-20 Transfer moves a balance; Issue and Redeem change the balance of the token's owner. */
  function Apply(b: Balances, contract: Address, owner: Address, l: Log): Balances
  {
    if l.address != contract then b
    else
      match l.payload
      case Transfer(src, dst, value) => Add(Add(b, src, -(value as int)), dst, value)
      case Issue(amount) => Add(b, owner, amount)
      case Redeem(amount) => Add(b, owner, -(amount as int))
      case _ => b
  }

  function Replay(b: Balances, contract: Address, owner: Address, logs: seq<Log>): Balances
    decreases |logs|
  {
    if logs == [] then b else Replay(Apply(b, contract, owner, logs[0]), contract, owner, logs[1..])
  }

  /** The total held outside the burn addresses. */
  ghost function Circulating(b: Balances): int
  {
    SumValues(b - BURN_ADDRESSES)
  }

  /** The value a log moves from one burn address to another. */
  function BurnToBurnOf(contract: Address, l: Log): nat
  {
    match l.payload
    case Transfer(src, dst, value) =>
      if l.address == contract && src in BURN_ADDRESSES && dst in BURN_ADDRESSES then value else 0
    case _ => 0
  }

  function BurnToBurn(contract: Address, logs: seq<Log>): nat
  {
    if logs == [] then 0 else BurnToBurnOf(contract, logs[0]) + BurnToBurn(contract, logs[1..])
  }

  lemma AddCirculates(b: Balances, account: Address, amount: int)
    ensures Circulating(Add(b, account, amount)) == Circulating(b) + if account in BURN_ADDRESSES then 0 else amount
  {
    if account in BURN_ADDRESSES {
      assert Add(b, account, amount) - BURN_ADDRESSES == b - BURN_ADDRESSES;
    } else {
      var c := b - BURN_ADDRESSES;
      var v := (if account in b then b[account] else 0) + amount;
      assert Add(b, account, amount) - BURN_ADDRESSES == c[account := v];
      SumValuesUpdate(c, account, v);
    }
  }

  lemma ApplyCirculates(b: Balances, contract: Address, owner: Address, l: Log)
    requires owner !in BURN_ADDRESSES
    ensures Circulating(Apply(b, contract, owner, l)) == Circulating(b) +
                                                         if l.address != contract then 0
                                                         else
                                                           match l.payload
                                                           case Transfer(src, dst, value) =>
                                                             (if src in BURN_ADDRESSES then 0 else -(value as int))
                                                             + (if dst in BURN_ADDRESSES then 0 else value)
                                                           case Issue(amount) => amount
                                                           case Redeem(amount) => -(amount as int)
                                                           case _ => 0
  {
    if l.address == contract {
      match l.payload {
        case Transfer(src, dst, value) =>
          AddCirculates(b, src, -(value as int));
          AddCirculates(Add(b, src, -(value as int)), dst, value);
        case Issue(amount) => AddCirculates(b, owner, amount);
        case Redeem(amount) => AddCirculates(b, owner, -(amount as int));
        case _ =>
      }
    }
  }

  /** The contract is a token whose mints and burns are all to be recorded. */
  predicate FullToken(cc: ContractConfig)
  {
    cc.category == Erc20 && MintFungible in cc.events && BurnFungible in cc.events
  }

  lemma LogCirculates(contract: Address, cc: ContractConfig, owner: Address, l: Log, b: Balances)
    requires FullToken(cc) && owner !in BURN_ADDRESSES
    ensures RecordedOf(contract, cc, l).supply
            == Circulating(Apply(b, contract, owner, l)) - Circulating(b) - BurnToBurnOf(contract, l)
  {
    ApplyCirculates(b, contract, owner, l);
  }

  lemma {:induction false} SupplyIsCirculation(contract: Address, cc: ContractConfig, owner: Address, logs: seq<Log>,
                                               b: Balances)
    requires FullToken(cc) && owner !in BURN_ADDRESSES
    ensures Recorded(contract, cc, logs).supply
            == Circulating(Replay(b, contract, owner, logs)) - Circulating(b) - BurnToBurn(contract, logs)
    decreases |logs|
  {
    if logs != [] {
      LogCirculates(contract, cc, owner, logs[0], b);
      SupplyIsCirculation(contract, cc, owner, logs[1..], Apply(b, contract, owner, logs[0]));
    }
  }

  /**
   * With mint and burn events allowed, the supply change recorded for an ERC20 contract is the change of the total
   * held outside the burn addresses when its logs are replayed from any balances, less what moved between two burn
   * addresses.
   */
  lemma SupplyAgreesWithTheLedger(contract: Address, cc: ContractConfig, owner: Address, logs: seq<Log>, b: Balances)
    requires FullToken(cc) && owner !in BURN_ADDRESSES
    ensures TotalDelta(contract, cc.events, GetTransactionEvents(cc.category, logs)).supply
            == Circulating(Replay(b, contract, owner, logs)) - Circulating(b) - BurnToBurn(contract, logs)
  {
    AmountsAreRecorded(contract, cc, logs);
    SupplyIsCirculation(contract, cc, owner, logs, b);
  }

  lemma {:induction false} BurnToBurnIsZero(contract: Address, logs: seq<Log>)
    ensures BurnToBurn(contract, logs) == 0 <==> forall l <- logs :: BurnToBurnOf(contract, l) == 0
  {
    if logs != [] {
      BurnToBurnIsZero(contract, logs[1..]);
      assert logs == [logs[0]] + logs[1..];
    }
  }

  /** Both guards of the transfer mapper hold, so the empty branch is taken and then the burn branch. */
  predicate MovesBetweenBurnAddresses(contract: Address, l: Log)
  {
    l.address == contract && l.payload.Transfer? && l.payload.src in BURN_ADDRESSES && l.payload.dst in BURN_ADDRESSES
  }

  /** The recorded change is the ledger's exactly when no log moves a positive value between two burn addresses. */
  lemma SupplyIsExactUnlessBurntTwice(contract: Address, cc: ContractConfig, owner: Address, logs: seq<Log>,
                                      b: Balances)
    requires FullToken(cc) && owner !in BURN_ADDRESSES
    ensures TotalDelta(contract, cc.events, GetTransactionEvents(cc.category, logs)).supply
            == Circulating(Replay(b, contract, owner, logs)) - Circulating(b)
            <==>
            forall l <- logs :: MovesBetweenBurnAddresses(contract, l) ==> l.payload.value == 0
  {
    SupplyAgreesWithTheLedger(contract, cc, owner, logs, b);
    BurnToBurnIsZero(contract, logs);
    assert forall l <- logs :: BurnToBurnOf(contract, l) == 0 <==>
             (MovesBetweenBurnAddresses(contract, l) ==> l.payload.value == 0);
  }

  // ---- where the supply row goes ----

  /** The supply change recorded for a contract: its mints - burns, as far as allowed. */
  function SupplyAmount(contract: Address, cc: ContractConfig, logs: seq<Log>): int
  {
    Recorded(contract, cc, logs).supply
  }

  /** The logs an ERC20 mapper yields events for, whoever emitted them. */
  predicate Decodes(m: Mapper, l: Log)
  {
    match m
    case Erc20Transfer => l.payload.Transfer?
    case Erc20Issue => l.payload.Issue?
    case Erc20Redeem => l.payload.Redeem?
    case _ => false
  }

  function LastOf(m: Mapper, logs: seq<Log>): Option<Log>
  {
    if logs == [] then None
    else if Decodes(m, logs[|logs| - 1]) then Some(logs[|logs| - 1])
    else LastOf(m, logs[..|logs| - 1])
  }

  /** The emitter of the last Redeem log, else of the last Issue log, else of the last Transfer log. */
  function SupplyRowOwner(logs: seq<Log>): Option<Address>
  {
    match LastOf(Erc20Redeem, logs)
    case Some(l) => Some(l.address)
    case None =>
      match LastOf(Erc20Issue, logs)
      case Some(l) => Some(l.address)
      case None => if LastOf(Erc20Transfer, logs).Some? then Some(LastOf(Erc20Transfer, logs).value.address) else None
  }

  lemma {:induction false} PassLast(m: Mapper, logs: seq<Log>)
    requires logs != []
    ensures Pass(m, logs) == Pass(m, logs[..|logs| - 1]) + MapLog(m, logs[|logs| - 1])
  {
    var k := |logs| - 1;
    if k == 0 {
      AppendNothing(MapLog(m, logs[0]));
      assert Pass(m, logs[1..]) == [];
    } else {
      PassLast(m, logs[1..]);
      assert logs[1..][..k - 1] == logs[..k][1..] && logs[1..][k - 1] == logs[k];
      Associative(MapLog(m, logs[0]), Pass(m, logs[..k][1..]), MapLog(m, logs[k]));
    }
  }

  lemma DecodesToItself(m: Mapper, l: Log)
    requires m == Erc20Transfer || m == Erc20Issue || m == Erc20Redeem
    ensures Decodes(m, l) <==> MapLog(m, l) != []
    ensures Decodes(m, l) ==> MapLog(m, l)[|MapLog(m, l)| - 1].address == l.address
  {
  }

  /** A pass ends with an event of the last log its mapper decodes. */
  lemma {:induction false} LastOfPass(m: Mapper, logs: seq<Log>)
    requires m == Erc20Transfer || m == Erc20Issue || m == Erc20Redeem
    ensures Pass(m, logs) != [] <==> LastOf(m, logs).Some?
    ensures Pass(m, logs) != [] ==> Pass(m, logs)[|Pass(m, logs)| - 1].address == LastOf(m, logs).value.address
  {
    if logs != [] {
      var k := |logs| - 1;
      PassLast(m, logs);
      DecodesToItself(m, logs[k]);
      if Decodes(m, logs[k]) {
        AppendLast(Pass(m, logs[..k]), MapLog(m, logs[k]));
      } else {
        AppendNothing(Pass(m, logs[..k]));
        LastOfPass(m, logs[..k]);
      }
    }
  }

  lemma PassesFirst(m: Mapper, ms: seq<Mapper>, logs: seq<Log>)
    ensures Passes([m] + ms, logs) == Pass(m, logs) + Passes(ms, logs)
  {
    assert ([m] + ms)[1..] == ms;
  }

  lemma Erc20Passes(logs: seq<Log>)
    ensures GetTransactionEvents(Erc20, logs)
            == Pass(Erc20Transfer, logs) + (Pass(Erc20Issue, logs) + Pass(Erc20Redeem, logs))
  {
    PassesFirst(Erc20Redeem, [], logs);
    AppendNothing(Pass(Erc20Redeem, logs));
    PassesFirst(Erc20Issue, [Erc20Redeem], logs);
    PassesFirst(Erc20Transfer, [Erc20Issue, Erc20Redeem], logs);
    AppendNothing([Erc20Redeem]);
    assert [Erc20Issue] + [Erc20Redeem] == [Erc20Issue, Erc20Redeem];
    assert [Erc20Transfer] + [Erc20Issue, Erc20Redeem] == MappersOf(Erc20);
  }

  lemma LastEventIsTheOwners(logs: seq<Log>)
    ensures var es := GetTransactionEvents(Erc20, logs);
            && (es != [] <==> SupplyRowOwner(logs).Some?)
            && (es != [] ==> Some(es[|es| - 1].address) == SupplyRowOwner(logs))
  {
    var transfers, issues, redeems := Pass(Erc20Transfer, logs), Pass(Erc20Issue, logs), Pass(Erc20Redeem, logs);
    Erc20Passes(logs);
    LastOfPass(Erc20Transfer, logs);
    LastOfPass(Erc20Issue, logs);
    LastOfPass(Erc20Redeem, logs);
    if redeems != [] {
      AppendLast(issues, redeems);
      AppendLast(transfers, issues + redeems);
    } else {
      AppendNothing(issues);
      if issues != [] {
        AppendLast(transfers, issues);
      } else {
        AppendNothing(transfers);
      }
    }
  }

  /** The owner in terms of positions: no log of a kind comes after the last of it. */
  lemma {:induction false} LastOfIs(m: Mapper, logs: seq<Log>)
    ensures match LastOf(m, logs)
            case None => forall l <- logs :: !Decodes(m, l)
            case Some(l) =>
              exists k :: 0 <= k < |logs| && logs[k] == l && Decodes(m, l)
                          && forall j :: k < j < |logs| ==> !Decodes(m, logs[j])
  {
    if logs != [] {
      var n := |logs| - 1;
      LastOfIs(m, logs[..n]);
      assert logs == logs[..n] + [logs[n]];
      if Decodes(m, logs[n]) {
        assert logs[n] == LastOf(m, logs).value;
      } else if LastOf(m, logs).Some? {
        var k :| 0 <= k < |logs[..n]| && logs[..n][k] == LastOf(m, logs).value && Decodes(m, logs[..n][k])
                 && forall j :: k < j < |logs[..n]| ==> !Decodes(m, logs[..n][j]);
        forall j | k < j < |logs|
          ensures !Decodes(m, logs[j])
        {
          assert j < n ==> logs[..n][j] == logs[j];
        }
        assert logs[k] == LastOf(m, logs).value;
      }
    }
  }

  /** The last log of the kind the mapper decodes was emitted by this address. */
  ghost predicate LastEmittedBy(m: Mapper, logs: seq<Log>, emitter: Address)
  {
    exists k :: 0 <= k < |logs| && Decodes(m, logs[k]) && logs[k].address == emitter
                && forall j :: k < j < |logs| ==> !Decodes(m, logs[j])
  }

  ghost predicate HasLog(m: Mapper, logs: seq<Log>)
  {
    exists l :: l in logs && Decodes(m, l)
  }

  /** The address emitted the last Redeem log; or, without any, the last Issue log; or else the last Transfer log. */
  ghost predicate Owns(logs: seq<Log>, emitter: Address)
  {
    if HasLog(Erc20Redeem, logs) then LastEmittedBy(Erc20Redeem, logs, emitter)
    else if HasLog(Erc20Issue, logs) then LastEmittedBy(Erc20Issue, logs, emitter)
    else LastEmittedBy(Erc20Transfer, logs, emitter)
  }

  lemma LastEmitterIs(m: Mapper, logs: seq<Log>, emitter: Address)
    ensures HasLog(m, logs) <==> LastOf(m, logs).Some?
    ensures LastEmittedBy(m, logs, emitter) <==> LastOf(m, logs).Some? && LastOf(m, logs).value.address == emitter
  {
    LastOfIs(m, logs);
    if k :| 0 <= k < |logs| && Decodes(m, logs[k]) && logs[k].address == emitter
            && forall j :: k < j < |logs| ==> !Decodes(m, logs[j]) {
      assert logs[k] in logs;
    }
  }

  lemma OwnerIs(logs: seq<Log>, emitter: Address)
    ensures Owns(logs, emitter) <==> SupplyRowOwner(logs) == Some(emitter)
  {
    LastEmitterIs(Erc20Redeem, logs, emitter);
    LastEmitterIs(Erc20Issue, logs, emitter);
    LastEmitterIs(Erc20Transfer, logs, emitter);
  }

  lemma {:induction false} OnlyErc20ChangesSupply(contract: Address, cc: ContractConfig, logs: seq<Log>)
    requires !cc.category.Erc20?
    ensures SupplyAmount(contract, cc, logs) == 0
  {
    if logs != [] {
      OnlyErc20ChangesSupply(contract, cc, logs[1..]);
    }
  }

  lemma {:induction false} NftWritesHaveNftKeys(contract: Address, allowed: set<Kind>, hash: Hash, es: seq<Event>,
                                                w: Write)
    requires w in NftWrites(contract, allowed, hash, es)
    ensures w.Put? && w.key.NftKey?
  {
    NftWritesAre(contract, allowed, hash, es, w);
  }

  lemma SupplyWritesAre(contract: Address, cc: ContractConfig, hash: Hash, logs: seq<Log>, key: Key, row: Row)
    requires key.SupplyKey?
    ensures Put(key, row) in EventWrites(contract, cc, hash, logs)
            <==> Put(key, row) in SupplyWrites(contract, cc.events, hash, GetTransactionEvents(cc.category, logs))
  {
    var es := GetTransactionEvents(cc.category, logs);
    var w := Put(key, row);
    if w in NftWrites(contract, cc.events, hash, es) {
      NftWritesHaveNftKeys(contract, cc.events, hash, es, w);
    }
    InAppend(NftWrites(contract, cc.events, hash, es) + SupplyWrites(contract, cc.events, hash, es),
             PairWrites(contract, cc.events, hash, es), w);
    InAppend(NftWrites(contract, cc.events, hash, es), SupplyWrites(contract, cc.events, hash, es), w);
  }

  /**
   * The rows a contract's events insert in the supply table: one if its amount is not 0, and under the emitter of the
   * last Redeem log of the receipt, else of the last Issue log, else of the last Transfer log.
   */
  lemma SupplyRowIs(contract: Address, cc: ContractConfig, hash: Hash, logs: seq<Log>, key: Key, row: Row)
    requires key.SupplyKey?
    ensures var amount := SupplyAmount(contract, cc, logs);
            Put(key, row) in EventWrites(contract, cc, hash, logs)
            <==>
            && amount != 0 && row == SupplyRow(amount)
            && key.hash == hash && Owns(logs, key.address)
  {
    SupplyWritesAre(contract, cc, hash, logs, key, row);
    OwnerIs(logs, key.address);
    AmountsAreRecorded(contract, cc, logs);
    if cc.category.Erc20? {
      LastEventIsTheOwners(logs);
    } else {
      OnlyErc20ChangesSupply(contract, cc, logs);
    }
  }

  /** The amount is recorded for the contract itself if and only if it emitted that last log. */
  lemma AttributedExactlyWhen(contract: Address, cc: ContractConfig, hash: Hash, logs: seq<Log>)
    requires SupplyAmount(contract, cc, logs) != 0
    ensures var own := Put(SupplyKey(contract, hash), SupplyRow(SupplyAmount(contract, cc, logs)));
            own in EventWrites(contract, cc, hash, logs) <==> Owns(logs, contract)
  {
    SupplyRowIs(contract, cc, hash, logs, SupplyKey(contract, hash), SupplyRow(SupplyAmount(contract, cc, logs)));
  }

  /** A mint by contract `l.address` followed by another token's transfer: the row is written for the other token. */
  lemma SupplyRowCanBeMisattributed(cc: ContractConfig, hash: Hash, l: Log, m: Log)
    requires FullToken(cc) && m.address != l.address
    requires l.payload.Transfer? && l.payload.src in BURN_ADDRESSES && l.payload.dst !in BURN_ADDRESSES
    requires l.payload.value > 0
    requires m.payload.Transfer?
    ensures Put(SupplyKey(m.address, hash), SupplyRow(l.payload.value)) in EventWrites(l.address, cc, hash, [l, m])
    ensures forall row :: Put(SupplyKey(l.address, hash), row) !in EventWrites(l.address, cc, hash, [l, m])
  {
    SupplyOfTwo(l.address, cc, l, m);
    SupplyRowIs(l.address, cc, hash, [l, m], SupplyKey(m.address, hash), SupplyRow(l.payload.value));
    forall row
      ensures Put(SupplyKey(l.address, hash), row) !in EventWrites(l.address, cc, hash, [l, m])
    {
      SupplyRowIs(l.address, cc, hash, [l, m], SupplyKey(l.address, hash), row);
    }
  }

  lemma LastOfTwo(k: Mapper, l: Log, m: Log)
    ensures LastOf(k, [l, m]) == if Decodes(k, m) then Some(m) else if Decodes(k, l) then Some(l) else None
  {
    assert [l, m][..1] == [l] && [l][..0] == [];
    assert LastOf(k, [l]) == if Decodes(k, l) then Some(l) else LastOf(k, []);
  }

  lemma RecordedOfTwo(contract: Address, cc: ContractConfig, l: Log, m: Log)
    ensures Recorded(contract, cc, [l, m]) == RecordedOf(contract, cc, l).Plus(RecordedOf(contract, cc, m))
  {
    assert [l, m][1..] == [m] && [m][1..] == [];
    var none := Recorded(contract, cc, []);
    assert none == NoDelta;
    assert Recorded(contract, cc, [m]) == RecordedOf(contract, cc, m).Plus(none);
    assert Recorded(contract, cc, [l, m]) == RecordedOf(contract, cc, l).Plus(Recorded(contract, cc, [m]));
  }

  lemma SupplyOfTwo(contract: Address, cc: ContractConfig, l: Log, m: Log)
    requires FullToken(cc) && l.payload.Transfer? && m.payload.Transfer?
    ensures SupplyAmount(contract, cc, [l, m]) == SupplyOf(contract, cc.events, l) + SupplyOf(contract, cc.events, m)
    ensures forall a :: Owns([l, m], a) <==> a == m.address
  {
    RecordedOfTwo(contract, cc, l, m);
    LastOfTwo(Erc20Redeem, l, m);
    LastOfTwo(Erc20Issue, l, m);
    LastOfTwo(Erc20Transfer, l, m);
    forall a
      ensures Owns([l, m], a) <==> a == m.address
    {
      OwnerIs([l, m], a);
    }
  }
}
