/** The producer's loop followed by the consumer's loop is the sequential loop: the pieces fit the step system. */
module PipelineMethods {
  import opened Sequences
  import opened EventCodec
  import opened Database
  import opened TxProcessor
  import opened Confluence
  import opened Consumer
  import opened Producer
  import opened Pipeline
  import opened PipelineRefinement
  import opened PipelineTheorems

  /** The messages of the blocks first..end-1. */
  function ScanMessages(w: World, mode: Mode, first: int, end: int): seq<Message>
    requires Exists(w.chain, first, end)
    decreases end - first
  {
    if end <= first then []
    else ScanMessages(w, mode, first, end - 1) + BlockMessages(mode, w.chain(end - 1).value.transactions)
  }

  /** A scan of this world in FULL or PARTIAL mode. */
  ghost predicate Scans(w: World, sc: Scan)
  {
    && sc.chain == w.chain && sc.rewards == w.rewards
    && (sc.mode.Full? || sc.mode.Partial?) && sc.getBlockReward == sc.mode.Full?
  }

  ghost predicate PlainHashes(w: World)
  {
    forall n, h :: w.chain(n).Some? && h in w.chain(n).value.transactions ==> SEPARATOR !in h
  }

  /** The stream is the encoding of the messages, and decodes back to them. */
  lemma {:induction false} StreamDecodes(w: World, sc: Scan, first: int, end: int, e: string)
    requires Scans(w, sc) && PlainHashes(w) && Exists(w.chain, first, end)
    requires e in Stream(sc, first, end)
    ensures Decode(e).Event? && Message(Decode(e).mode, Decode(e).hash) in ScanMessages(w, sc.mode, first, end)
    ensures Decode(e).mode == sc.mode
    decreases end - first
  {
    var hashes := sc.chain(end - 1).value.transactions;
    var ms := BlockMessages(sc.mode, hashes);
    InAppend(Stream(sc, first, end - 1), Messages(sc.mode, hashes), e);
    if e in Messages(sc.mode, hashes) {
      var i :| 0 <= i < |hashes| && Messages(sc.mode, hashes)[i] == e;
      RoundTrip(hashes[i], sc.mode);
      assert ms[i] in ms;
      InAppend(ScanMessages(w, sc.mode, first, end - 1), ms, ms[i]);
    } else {
      StreamDecodes(w, sc, first, end - 1, e);
      var m := Message(Decode(e).mode, Decode(e).hash);
      InAppend(ScanMessages(w, sc.mode, first, end - 1), ms, m);
    }
  }

  lemma {:induction false} MessagesStream(w: World, sc: Scan, first: int, end: int, m: Message)
    requires Scans(w, sc) && PlainHashes(w) && Exists(w.chain, first, end)
    requires m in ScanMessages(w, sc.mode, first, end)
    ensures Encode(m.hash, m.mode) in Stream(sc, first, end) && Decode(Encode(m.hash, m.mode)) == Event(m.mode, m.hash)
    decreases end - first
  {
    var hashes := sc.chain(end - 1).value.transactions;
    var ms := BlockMessages(sc.mode, hashes);
    InAppend(ScanMessages(w, sc.mode, first, end - 1), ms, m);
    InAppend(Stream(sc, first, end - 1), Messages(sc.mode, hashes), Encode(m.hash, m.mode));
    if m in ms {
      var i :| 0 <= i < |hashes| && ms[i] == m;
      RoundTrip(hashes[i], sc.mode);
      assert Messages(sc.mode, hashes)[i] == Encode(m.hash, m.mode);
    } else {
      MessagesStream(w, sc, first, end - 1, m);
    }
  }

  /** Block by block or all block rows first: the same rows are written. */
  lemma {:induction false} ScanSplits(w: World, sc: Scan, first: int, next: int, last: int, wr: Write)
    requires Scans(w, sc) && first <= next && (next == first || next <= last + 1) && Exists(w.chain, first, next)
    ensures wr in ScanWrites(w, sc.mode, first, last) <==>
            || wr in BlockWrites(sc, first, next)
            || Carries(w, ScanMessages(w, sc.mode, first, next), wr)
            || wr in ScanWrites(w, sc.mode, next, last)
    decreases next - first
  {
    if first < next {
      var n := next - 1;
      ScanSplits(w, sc, first, n, last, wr);
      var row := BlockRowWrite(w, sc.mode, n);
      var ms := BlockMessages(sc.mode, w.chain(n).value.transactions);
      ListWritesAre(w, ms, wr);
      CarriesAppend(w, ScanMessages(w, sc.mode, first, n), ms, wr);
      InAppend(BlockWrites(sc, first, n), [row], wr);
      InAppend([row], ListWrites(w, ms), wr);
      InAppend([row] + ListWrites(w, ms), ScanWrites(w, sc.mode, next, last), wr);
    }
  }

  /** When no event raises, every event is taken. */
  lemma {:induction false} AllAreTaken(incoming: seq<Incoming>, d: Delivery)
    requires forall x :: x in incoming ==> !Raises(x)
    ensures !Fails(incoming)
    ensures d in Taken(incoming)
            <==> exists x :: x in incoming && Decode(x.event) == Event(d.mode, d.hash) && x.walk == d.order
  {
    if incoming != [] {
      var x, rest := incoming[0], incoming[1..];
      assert !Raises(x);
      AllAreTaken(rest, d);
      InAppend([Delivery(Decode(x.event).mode, Decode(x.event).hash, x.walk)], Taken(rest), d);
      if y :| y in incoming && Decode(y.event) == Event(d.mode, d.hash) && y.walk == d.order {
        assert y == x || y in rest;
      }
    }
  }

  /** The events are those of the stream, each at least once, in any order, each receipt walked in some order. */
  ghost predicate Delivers(w: World, sc: Scan, first: int, end: int, incoming: seq<Incoming>)
    requires Exists(sc.chain, first, end)
  {
    && (forall e :: e in Stream(sc, first, end) ==> exists x :: x in incoming && x.event == e)
    && (forall x :: x in incoming ==> x.event in Stream(sc, first, end))
    && (forall x :: x in incoming && Decode(x.event).Event? ==>
          Walks(x.walk, w.node(Decode(x.event).hash).receipt.logs))
  }

  lemma DeliveredWrites(w: World, sc: Scan, first: int, end: int, incoming: seq<Incoming>, wr: Write)
    requires Sound(w) && Scans(w, sc) && PlainHashes(w) && Exists(w.chain, first, end)
    requires Delivers(w, sc, first, end, incoming)
    ensures !Fails(incoming)
    ensures wr in AllWrites(w.config, w.node, Taken(incoming)) <==> Carries(w, ScanMessages(w, sc.mode, first, end), wr)
  {
    var ds, ms := Taken(incoming), ScanMessages(w, sc.mode, first, end);
    forall x | x in incoming
      ensures !Raises(x)
    {
      StreamDecodes(w, sc, first, end, x.event);
    }
    AllWritesAre(w.config, w.node, ds, wr);
    AllAreTaken(incoming, Delivery(Full, [], []));
    if d :| d in ds && wr in WritesOf(w.config, w.node, d) {
      AllAreTaken(incoming, d);
      var x :| x in incoming && Decode(x.event) == Event(d.mode, d.hash) && x.walk == d.order;
      StreamDecodes(w, sc, first, end, x.event);
      OrderIsIrrelevant(w, Message(d.mode, d.hash), d.order, wr);
    }
    if m :| m in ms && wr in MessageWrites(w, m) {
      MessagesStream(w, sc, first, end, m);
      var x :| x in incoming && x.event == Encode(m.hash, m.mode);
      var d := Delivery(m.mode, m.hash, x.walk);
      AllAreTaken(incoming, d);
      OrderIsIrrelevant(w, m, x.walk, wr);
    }
  }

  /** All rows of one scan: what the sequential loop writes, and what the two loops write one after the other. */
  lemma ScanRowsAre(w: World, sc: Scan, first: int, next: int, last: int, incoming: seq<Incoming>, wr: Write)
    requires Sound(w) && Scans(w, sc) && PlainHashes(w) && Exists(w.chain, first, next)
    requires first <= next && (next == first || next <= last + 1) && (next > last || w.chain(next).None?)
    requires Delivers(w, sc, first, next, incoming)
    ensures wr in TasksWrites(w, [ScanTask(sc.mode, first, last)])
            <==> wr in BlockWrites(sc, first, next) + AllWrites(w.config, w.node, Taken(incoming))
  {
    var tasks := [ScanTask(sc.mode, first, last)];
    TasksWritesAre(w, tasks, wr);
    assert InTasks(w, tasks, wr) <==> wr in TaskWrites(w, tasks[0]);
    TaskWritesAre(w, tasks[0], wr);
    ScanSplits(w, sc, first, next, last, wr);
    DeliveredWrites(w, sc, first, next, incoming, wr);
    InAppend(BlockWrites(sc, first, next), AllWrites(w.config, w.node, Taken(incoming)), wr);
  }

  /**
   * The states DataProducer.StartProducer and then DataConsumer.ConsumeAll leave (their contracts say so): running
   * the producer's loop to its end and consuming its stream in any order, with repeats, gives the sequential tables.
   */
  lemma ProduceThenConsume(w: World, sc: Scan, base: Store, first: int, next: int, last: int, incoming: seq<Incoming>,
                           key: Key)
    requires Sound(w) && Scans(w, sc) && PlainHashes(w) && Exists(w.chain, first, next)
    requires first <= next && (next == first || next <= last + 1) && (next > last || w.chain(next).None?)
    requires Delivers(w, sc, first, next, incoming)
    requires Certain(w, base, [ScanTask(sc.mode, first, last)], key)
    ensures var produced := InsertAll(base, BlockWrites(sc, first, next));
            var rows := Process(w.config, w.node, produced, Taken(incoming)).rows;
            var expected := Sequential(w, base, [ScanTask(sc.mode, first, last)]).rows;
            && !Fails(incoming)
            && (key in rows <==> key in expected) && (key in rows ==> rows[key] == expected[key])
  {
    var tasks := [ScanTask(sc.mode, first, last)];
    var produced := InsertAll(base, BlockWrites(sc, first, next));
    var ws := AllWrites(w.config, w.node, Taken(incoming));
    ProcessInsertsAll(w.config, w.node, produced, Taken(incoming));
    InsertAllAppend(base, BlockWrites(sc, first, next), ws);
    DeliveredWrites(w, sc, first, next, incoming, Put(key, SupplyRow(0)));
    forall row
      ensures Put(key, row) in TasksWrites(w, tasks) <==> Put(key, row) in BlockWrites(sc, first, next) + ws
    {
      ScanRowsAre(w, sc, first, next, last, incoming, Put(key, row));
    }
    if key in base.rows {
      InsertAllRows(base, TasksWrites(w, tasks), key);
      InsertAllRows(base, BlockWrites(sc, first, next) + ws, key);
    } else {
      forall v, u | v in TasksWrites(w, tasks) && u in TasksWrites(w, tasks) && v.Put? && u.Put?
                    && v.key == key && u.key == key
        ensures v.row == u.row
      {
        TasksWritesAre(w, tasks, v);
        TasksWritesAre(w, tasks, u);
        assert Target(w, tasks, Put(key, v.row)) && Target(w, tasks, Put(key, u.row));
      }
      OrderAndRepetitionDoNotMatter(base, TasksWrites(w, tasks), BlockWrites(sc, first, next) + ws, key);
    }
  }
}
