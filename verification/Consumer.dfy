/** The consumer: one Kafka event at a time (consumer/__init__.py). */
module Consumer {
  import opened Options
  import opened Sequences
  import opened EventCodec
  import opened TransactionEvents
  import opened Database
  import opened TxProcessor
  import opened Confluence

  datatype Outcome = Done(saved: bool) | BadEvent | NotImplemented

  /** A raw Kafka event, and how the address set of its receipt will be walked. */
  datatype Incoming = Incoming(event: string, walk: seq<Address>)

  /** The deliveries a consumer takes from a list of events: it stops at the first that raises. */
  function Taken(incoming: seq<Incoming>): seq<Delivery>
  {
    if incoming == [] then []
    else
      match Decode(incoming[0].event)
      case Malformed => []
      case Event(mode, hash) =>
        [Delivery(mode, hash, incoming[0].walk)] + if mode.LogFilter? then [] else Taken(incoming[1..])
  }

  predicate Raises(m: Incoming)
  {
    match Decode(m.event)
    case Malformed => true
    case Event(mode, _) => mode.LogFilter?
  }

  function ProcessedCount(cfg: Config, node: Node, ds: seq<Delivery>): nat
  {
    if ds == [] then 0
    else ProcessedCount(cfg, node, ds[..|ds| - 1]) + if Processed(cfg, node, ds[|ds| - 1]) then 1 else 0
  }

  lemma {:induction false} ProcessedAtMostConsumed(cfg: Config, node: Node, ds: seq<Delivery>)
    ensures ProcessedCount(cfg, node, ds) <= |ds|
  {
    if ds != [] {
      ProcessedAtMostConsumed(cfg, node, ds[..|ds| - 1]);
    }
  }

  /** Some event raises; those after it are not taken. */
  predicate Fails(incoming: seq<Incoming>)
  {
    incoming != [] && (Raises(incoming[0]) || Fails(incoming[1..]))
  }

  /** The first event that raises, or the end. */
  function Stop(incoming: seq<Incoming>): (n: nat)
    ensures n <= |incoming|
  {
    if incoming == [] || Raises(incoming[0]) then 0 else 1 + Stop(incoming[1..])
  }

  lemma {:induction false} StopIs(incoming: seq<Incoming>)
    ensures forall i :: 0 <= i < Stop(incoming) ==> !Raises(incoming[i])
    ensures Stop(incoming) < |incoming| ==> Raises(incoming[Stop(incoming)])
    ensures Fails(incoming) <==> Stop(incoming) < |incoming|
  {
    if incoming != [] && !Raises(incoming[0]) {
      StopIs(incoming[1..]);
      assert forall i :: 1 <= i < |incoming| ==> incoming[i] == incoming[1..][i - 1];
    }
  }

  /** The deliveries taken are the events before the first that raises, and that one too if it is a LOG_FILTER event. */
  lemma {:induction false} TakenIs(incoming: seq<Incoming>)
    ensures var n := Stop(incoming);
            && |Taken(incoming)| == n + (if n < |incoming| && Decode(incoming[n].event).Event? then 1 else 0)
            && forall i :: 0 <= i < |Taken(incoming)| ==>
                 && i < |incoming| && Decode(incoming[i].event).Event?
                 && Taken(incoming)[i] == Delivery(Decode(incoming[i].event).mode, Decode(incoming[i].event).hash,
                                                   incoming[i].walk)
  {
    if incoming != [] && !Raises(incoming[0]) {
      TakenIs(incoming[1..]);
      assert forall i :: 1 <= i < |incoming| ==> incoming[i] == incoming[1..][i - 1];
    }
  }

  /** One turn of the consuming loop, as seen by the list of deliveries taken so far. */
  lemma TakenStep(incoming: seq<Incoming>, i: nat, ds: seq<Delivery>)
    requires i < |incoming| && Taken(incoming) == ds + Taken(incoming[i..]) && Fails(incoming) == Fails(incoming[i..])
    ensures match Decode(incoming[i].event)
            case Malformed => Taken(incoming) == ds && Fails(incoming)
            case Event(mode, hash) =>
              var more := ds + [Delivery(mode, hash, incoming[i].walk)];
              if mode.LogFilter? then Taken(incoming) == more && Fails(incoming)
              else Taken(incoming) == more + Taken(incoming[i + 1..]) && Fails(incoming) == Fails(incoming[i + 1..])
  {
    Drop(incoming, i);
    var rest := incoming[i..];
    match Decode(incoming[i].event) {
      case Malformed =>
        AppendNothing(ds);
      case Event(mode, hash) =>
        var d := Delivery(mode, hash, incoming[i].walk);
        AppendNothing([d]);
        Associative(ds, [d], Taken(rest[1..]));
    }
  }

  /** The tables and the two counters of a consumer. */
  datatype Tallied = Tallied(store: Store, consumed: nat, processed: nat)

  function After(cfg: Config, node: Node, a: Tallied, ds: seq<Delivery>): Tallied
  {
    Tallied(Process(cfg, node, a.store, ds), a.consumed + |ds|, a.processed + ProcessedCount(cfg, node, ds))
  }

  lemma OneMoreDelivery(cfg: Config, node: Node, a: Tallied, ds: seq<Delivery>, d: Delivery)
    ensures After(cfg, node, a, ds + [d]) ==
            var t := After(cfg, node, a, ds);
            Tallied(InsertAll(t.store, WritesOf(cfg, node, d)), t.consumed + 1,
                    t.processed + if Processed(cfg, node, d) then 1 else 0)
  {
    assert (ds + [d])[..|ds + [d]| - 1] == ds;
  }

  /**
   * `now` is where a consumer stands that started at `start` and has taken `ds`, with the events from `i` on to come.
   */
  ghost predicate MidWay(cfg: Config, node: Node, start: Tallied, incoming: seq<Incoming>, i: nat, ds: seq<Delivery>,
                         now: Tallied)
  {
    && i <= |incoming|
    && Taken(incoming) == ds + Taken(incoming[i..]) && Fails(incoming) == Fails(incoming[i..])
    && now == After(cfg, node, start, ds)
  }

  lemma Begin(cfg: Config, node: Node, start: Tallied, incoming: seq<Incoming>)
    ensures MidWay(cfg, node, start, incoming, 0, [], start)
  {
    assert incoming[0..] == incoming;
  }

  lemma End(cfg: Config, node: Node, start: Tallied, incoming: seq<Incoming>, ds: seq<Delivery>, now: Tallied)
    requires MidWay(cfg, node, start, incoming, |incoming|, ds, now)
    ensures now == After(cfg, node, start, Taken(incoming)) && !Fails(incoming)
  {
    AppendNothing(ds);
  }

  lemma TurnTaken(cfg: Config, node: Node, start: Tallied, incoming: seq<Incoming>, i: nat, ds: seq<Delivery>,
                  now: Tallied,
                  d: Delivery)
    requires i < |incoming| && MidWay(cfg, node, start, incoming, i, ds, now)
    requires Decode(incoming[i].event) == Event(d.mode, d.hash) && d.order == incoming[i].walk
    ensures var next := Tallied(InsertAll(now.store, WritesOf(cfg, node, d)), now.consumed + 1,
                                now.processed + if Processed(cfg, node, d) then 1 else 0);
            if d.mode.LogFilter? then next == After(cfg, node, start, Taken(incoming)) && Fails(incoming)
            else MidWay(cfg, node, start, incoming, i + 1, ds + [d], next)
  {
    TakenStep(incoming, i, ds);
    OneMoreDelivery(cfg, node, start, ds, d);
  }

  class DataConsumer {
    const processor: TransactionProcessor
    const node: Node
    var txHash: Option<Hash>
    var nConsumedTxs: nat
    var nProcessedTxs: nat

    constructor (processor: TransactionProcessor, node: Node)
      ensures this.processor == processor && this.node == node
      ensures txHash == None && nConsumedTxs == 0 && nProcessedTxs == 0
    {
      this.processor := processor;
      this.node := node;
      txHash, nConsumedTxs, nProcessedTxs := None, 0, 0;
    }

    method OnKafkaEvent(incoming: Incoming) returns (outcome: Outcome)
      modifies this, processor.db
      ensures match Decode(incoming.event)
              case Malformed =>
                && outcome == BadEvent && processor.db.Contents() == old(processor.db.Contents())
                && nConsumedTxs == old(nConsumedTxs) && nProcessedTxs == old(nProcessedTxs) && txHash == old(txHash)
              case Event(mode, hash) =>
                var d := Delivery(mode, hash, incoming.walk);
                && txHash == Some(hash) && nConsumedTxs == old(nConsumedTxs) + 1
                && nProcessedTxs == old(nProcessedTxs) + (if Processed(processor.config, node, d) then 1 else 0)
                && processor.db.Contents()
                   == InsertAll(old(processor.db.Contents()), WritesOf(processor.config, node, d))
                && outcome == if mode.LogFilter? then NotImplemented else Done(Processed(processor.config, node, d))
    {
      match Decode(incoming.event) {
        case Malformed =>
          return BadEvent;
        case Event(mode, hash) =>
          txHash := Some(hash);
          nConsumedTxs := nConsumedTxs + 1;
          var info := node(hash);
          var saved: bool;
          match mode {
            case Partial => saved := processor.ProcessPartial(hash, info, incoming.walk);
            case LogFilter => return NotImplemented;
            case _ => saved := processor.ProcessFull(hash, info);
          }
          nProcessedTxs := nProcessedTxs + if saved then 1 else 0;
          return Done(saved);
      }
    }

    ghost function Standing(): Tallied
      reads this, processor.db
    {
      Tallied(processor.db.Contents(), nConsumedTxs, nProcessedTxs)
    }

    /** One turn of the consuming loop. */
    method ConsumeNext(incoming: seq<Incoming>, i: nat, ghost start: Tallied, ghost ds: seq<Delivery>)
      returns (outcome: Outcome, ghost ds': seq<Delivery>)
      requires i < |incoming| && MidWay(processor.config, node, start, incoming, i, ds, Standing())
      modifies this, processor.db
      ensures outcome.Done? ==> MidWay(processor.config, node, start, incoming, i + 1, ds', Standing())
      ensures !outcome.Done? ==> Standing() == After(processor.config, node, start, Taken(incoming)) && Fails(incoming)
    {
      ghost var now := Standing();
      TakenStep(incoming, i, ds);
      outcome := OnKafkaEvent(incoming[i]);
      ds' := ds;
      if !outcome.BadEvent? {
        ghost var d := Delivery(Decode(incoming[i].event).mode, Decode(incoming[i].event).hash, incoming[i].walk);
        TurnTaken(processor.config, node, start, incoming, i, ds, now, d);
        ds' := ds + [d];
      }
    }

    /** Consuming until the events run out (exit code 0) or one raises (exit code 1). */
    method ConsumeAll(incoming: seq<Incoming>) returns (exitCode: int)
      modifies this, processor.db
      ensures Standing() == After(processor.config, node, old(Standing()), Taken(incoming))
      ensures exitCode == if Fails(incoming) then 1 else 0
    {
      ghost var start := Standing();
      ghost var ds: seq<Delivery> := [];
      Begin(processor.config, node, start, incoming);
      for i := 0 to |incoming|
        invariant MidWay(processor.config, node, start, incoming, i, ds, Standing())
      {
        var outcome;
        outcome, ds := ConsumeNext(incoming, i, start, ds);
        if !outcome.Done? {
          return 1;
        }
      }
      End(processor.config, node, start, incoming, ds, Standing());
      exitCode := 0;
    }

    /**
     * The tables, both counters and the bag of internal transactions account for exactly the deliveries taken;
     * processed transactions never outnumber consumed ones.
     */
    method StartConsumingData(incoming: seq<Incoming>) returns (exitCode: int)
      modifies this, processor.db
      ensures Standing() == After(processor.config, node, old(Standing()), Taken(incoming))
      ensures exitCode == if Fails(incoming) then 1 else 0
      ensures |processor.db.internals|
              == old(|processor.db.internals|) + TraceLengths(processor.config, node, Taken(incoming))
      ensures nProcessedTxs - old(nProcessedTxs) <= nConsumedTxs - old(nConsumedTxs)
    {
      ghost var before := processor.db.Contents();
      exitCode := ConsumeAll(incoming);
      InternalTransactionsAreConserved(processor.config, node, before, Taken(incoming));
      ProcessedAtMostConsumed(processor.config, node, Taken(incoming));
    }
  }
}
