/** Which rows the sequential loop writes, and under which keys it agrees with itself. */
module PipelineTargets {
  import opened Sequences
  import opened EventCodec
  import opened Database
  import opened TxProcessor
  import opened Selection
  import opened Ledger
  import opened Confluence
  import opened Producer
  import opened Pipeline
  import opened PipelineRefinement

  /** The scan gets as far as block n. */
  ghost predicate Reaches(w: World, t: Task, n: int)
  {
    t.next <= n <= t.last && Exists(w.chain, t.next, n + 1)
  }

  /** The task has the message already, or scans a block that lists its transaction. */
  ghost predicate Lists(w: World, t: Task, m: Message)
  {
    m in t.batch || exists n :: Reaches(w, t, n) && m in BlockMessages(t.mode, w.chain(n).value.transactions)
  }

  ghost predicate Listed(w: World, tasks: seq<Task>, m: Message)
  {
    exists i :: 0 <= i < |tasks| && Lists(w, tasks[i], m)
  }

  /** The row of a block the task gets as far as. */
  ghost predicate ScansRow(w: World, t: Task, wr: Write)
  {
    exists n :: Reaches(w, t, n) && wr == BlockRowWrite(w, t.mode, n)
  }

  ghost predicate IsBlockRow(w: World, tasks: seq<Task>, wr: Write)
  {
    exists i :: 0 <= i < |tasks| && ScansRow(w, tasks[i], wr)
  }

  ghost predicate ComesFrom(w: World, t: Task, wr: Write)
  {
    ScansRow(w, t, wr) || exists m :: Lists(w, t, m) && wr in MessageWrites(w, m)
  }

  /** What the task does when it reads its next block, and what comes after. */
  lemma ComesFromFirst(w: World, t: Task, wr: Write)
    requires t.batch == [] && t.next <= t.last && w.chain(t.next).Some?
    ensures var rest := t.(next := t.next + 1);
            ComesFrom(w, t, wr) <==>
            || wr == BlockRowWrite(w, t.mode, t.next)
            || Carries(w, BlockMessages(t.mode, w.chain(t.next).value.transactions), wr)
            || ComesFrom(w, rest, wr)
  {
    var rest := t.(next := t.next + 1);
    forall n
      ensures Reaches(w, t, n) <==> n == t.next || Reaches(w, rest, n)
    {
      assert n > t.next && Reaches(w, rest, n) ==> Exists(w.chain, t.next, n + 1);
    }
    var ms := BlockMessages(t.mode, w.chain(t.next).value.transactions);
    forall m
      ensures Lists(w, t, m) <==> m in ms || Lists(w, rest, m)
    {
      assert Reaches(w, t, t.next);
    }
  }

  lemma ScanWritesFirst(w: World, mode: Mode, next: int, last: int, wr: Write)
    requires next <= last && w.chain(next).Some?
    ensures wr in ScanWrites(w, mode, next, last) <==>
            || wr == BlockRowWrite(w, mode, next)
            || Carries(w, BlockMessages(mode, w.chain(next).value.transactions), wr)
            || wr in ScanWrites(w, mode, next + 1, last)
  {
    var row := BlockRowWrite(w, mode, next);
    var ms := BlockMessages(mode, w.chain(next).value.transactions);
    ListWritesAre(w, ms, wr);
    InAppend([row] + ListWrites(w, ms), ScanWrites(w, mode, next + 1, last), wr);
    InAppend([row], ListWrites(w, ms), wr);
  }

  lemma NothingToScan(w: World, t: Task, wr: Write)
    requires t.batch == [] && (t.next > t.last || w.chain(t.next).None?)
    ensures !ComesFrom(w, t, wr)
  {
    forall n
      ensures !Reaches(w, t, n)
    {
      assert n >= t.next && Exists(w.chain, t.next, n + 1) ==> w.chain(t.next).Some?;
    }
  }

  lemma {:induction false} ScanComesFrom(w: World, t: Task, wr: Write)
    requires t.batch == []
    ensures wr in ScanWrites(w, t.mode, t.next, t.last) <==> ComesFrom(w, t, wr)
    decreases t.last - t.next
  {
    if t.next <= t.last && w.chain(t.next).Some? {
      ScanComesFrom(w, t.(next := t.next + 1), wr);
      ComesFromFirst(w, t, wr);
      ScanWritesFirst(w, t.mode, t.next, t.last, wr);
    } else {
      NothingToScan(w, t, wr);
    }
  }

  lemma TaskComesFrom(w: World, t: Task, wr: Write)
    ensures wr in TaskWrites(w, t) <==> ComesFrom(w, t, wr)
  {
    var scan := t.(batch := []);
    TaskWritesAre(w, t, wr);
    ScanComesFrom(w, scan, wr);
    assert forall n :: Reaches(w, t, n) <==> Reaches(w, scan, n);
    assert ScansRow(w, t, wr) <==> ScansRow(w, scan, wr);
    forall m
      ensures Lists(w, t, m) <==> m in t.batch || Lists(w, scan, m)
    {
    }
  }

  /** The rows of the sequential loop are those of the blocks its tasks reach and of the messages they list. */
  lemma TargetsAre(w: World, tasks: seq<Task>, wr: Write)
    ensures Target(w, tasks, wr) <==>
            IsBlockRow(w, tasks, wr) || exists m :: Listed(w, tasks, m) && wr in MessageWrites(w, m)
  {
    forall i | 0 <= i < |tasks|
      ensures wr in TaskWrites(w, tasks[i]) <==> ComesFrom(w, tasks[i], wr)
    {
      TaskComesFrom(w, tasks[i], wr);
    }
  }

  // ---- where the sequential loop agrees with itself ----

  lemma MessageRowIsFaithful(w: World, m: Message, wr: Write)
    requires Sound(w) && wr.Put? && wr in MessageWrites(w, m)
    ensures Faithful(w.config, w.node, wr.key, wr.row)
  {
    var d := Delivery(m.mode, m.hash, w.walk(m.hash));
    assert wr == Put(wr.key, wr.row);
    WritesAreFaithful(w.config, w.node, d, wr.key, wr.row);
  }

  /** Tasks that reach the block agree on its reward: it is 0, or all of them are FULL tasks, or none is. */
  ghost predicate SameReward(w: World, tasks: seq<Task>, n: int)
  {
    || w.rewards(n) == 0
    || forall i, j :: 0 <= i < |tasks| && 0 <= j < |tasks| && Reaches(w, tasks[i], n) && Reaches(w, tasks[j], n) ==>
         (tasks[i].mode.Full? <==> tasks[j].mode.Full?)
  }

  /** Supply rows come from the partial processor, which inserts one for each contract that credits the key. */
  lemma SupplyRowsOfMessage(w: World, m: Message, key: Key, row: Row)
    requires Sound(w) && key.SupplyKey?
    ensures Put(key, row) in MessageWrites(w, m) <==>
            && m == Message(Partial, key.hash)
            && exists c :: Credits(w.config, w.node, c, key)
                           && row == SupplyRow(SupplyAmount(c, w.config[c], w.node(key.hash).receipt.logs))
  {
    var info, order, wr := w.node(m.hash), w.walk(m.hash), Put(key, row);
    if m.mode.Partial? {
      var sel := SelectPartial(w.config, m.hash, info, order);
      var rest := if sel.save then TransactionWrites(m.hash, info, sel.indices) else [];
      InAppend(sel.writes, rest, wr);
      TransactionWritesAre(m.hash, info, sel.indices, wr);
      SelectionWritesAre(w.config, m.hash, info, order, wr);
      forall a | a in w.config
        ensures wr in EventWrites(a, w.config[a], m.hash, info.receipt.logs) <==>
                && SupplyAmount(a, w.config[a], info.receipt.logs) != 0
                && row == SupplyRow(SupplyAmount(a, w.config[a], info.receipt.logs))
                && key.hash == m.hash && Owns(info.receipt.logs, key.address)
      {
        SupplyRowIs(a, w.config[a], m.hash, info.receipt.logs, key, row);
      }
    } else if !m.mode.LogFilter? {
      TransactionWritesAre(m.hash, info, AllIndices(info.receipt.logs), wr);
    }
  }

  lemma BlockKeyAgrees(w: World, tasks: seq<Task>, n: int)
    requires Sound(w)
    ensures Agrees(w, tasks, BlockKey(n)) <==> SameReward(w, tasks, n)
  {
    forall row
      ensures Target(w, tasks, Put(BlockKey(n), row)) <==> IsBlockRow(w, tasks, Put(BlockKey(n), row))
    {
      var wr := Put(BlockKey(n), row);
      TargetsAre(w, tasks, wr);
      if m :| Listed(w, tasks, m) && wr in MessageWrites(w, m) {
        MessageRowIsFaithful(w, m, wr);
      }
    }
    if Agrees(w, tasks, BlockKey(n)) {
      forall i, j | 0 <= i < |tasks| && 0 <= j < |tasks| && Reaches(w, tasks[i], n) && Reaches(w, tasks[j], n)
        ensures w.rewards(n) == 0 || (tasks[i].mode.Full? <==> tasks[j].mode.Full?)
      {
        var mine, theirs := BlockRowWrite(w, tasks[i].mode, n), BlockRowWrite(w, tasks[j].mode, n);
        assert ScansRow(w, tasks[i], mine) && ScansRow(w, tasks[j], theirs);
        assert Target(w, tasks, Put(BlockKey(n), mine.row)) && Target(w, tasks, Put(BlockKey(n), theirs.row));
      }
    }
  }

  lemma SupplyKeyAgrees(w: World, tasks: seq<Task>, key: Key)
    requires Sound(w) && key.SupplyKey?
    ensures Agrees(w, tasks, key) <==>
            (Listed(w, tasks, Message(Partial, key.hash)) ==> Determined(w.config, w.node, key))
  {
    var m := Message(Partial, key.hash);
    var logs := w.node(key.hash).receipt.logs;
    forall row
      ensures Target(w, tasks, Put(key, row)) <==>
              && Listed(w, tasks, m)
              && exists c :: Credits(w.config, w.node, c, key)
                             && row == SupplyRow(SupplyAmount(c, w.config[c], logs))
    {
      TargetsAre(w, tasks, Put(key, row));
      forall k
        ensures Put(key, row) in MessageWrites(w, k) <==>
                && k == m
                && exists c :: Credits(w.config, w.node, c, key)
                               && row == SupplyRow(SupplyAmount(c, w.config[c], logs))
      {
        SupplyRowsOfMessage(w, k, key, row);
      }
    }
    if Agrees(w, tasks, key) && Listed(w, tasks, m) {
      forall c, d | Credits(w.config, w.node, c, key) && Credits(w.config, w.node, d, key)
        ensures SupplyAmount(c, w.config[c], logs) == SupplyAmount(d, w.config[d], logs)
      {
        assert Target(w, tasks, Put(key, SupplyRow(SupplyAmount(c, w.config[c], logs))));
        assert Target(w, tasks, Put(key, SupplyRow(SupplyAmount(d, w.config[d], logs))));
      }
    }
  }

  /**
   * The sequential loop agrees with itself about a block if and only if all tasks that reach it insert the same
   * reward; about a supply key if and only if no partial task lists its transaction, or no contracts dispute it; and
   * about all other keys.
   */
  lemma AgreesExactlyWhen(w: World, tasks: seq<Task>, key: Key)
    requires Sound(w)
    ensures Agrees(w, tasks, key) <==>
            match key
            case BlockKey(n) => SameReward(w, tasks, n)
            case SupplyKey(_, h) => Listed(w, tasks, Message(Partial, h)) ==> Determined(w.config, w.node, key)
            case _ => true
  {
    if key.BlockKey? {
      BlockKeyAgrees(w, tasks, key.number);
    } else if key.SupplyKey? {
      SupplyKeyAgrees(w, tasks, key);
    } else {
      forall a, b | Target(w, tasks, Put(key, a)) && Target(w, tasks, Put(key, b))
        ensures a == b
      {
        RowIsFaithful(w, tasks, key, a);
        RowIsFaithful(w, tasks, key, b);
        FaithfulRowsAgree(w.config, w.node, key, a, b);
      }
    }
  }

  lemma RowIsFaithful(w: World, tasks: seq<Task>, key: Key, row: Row)
    requires Sound(w) && Target(w, tasks, Put(key, row)) && !key.BlockKey?
    ensures Faithful(w.config, w.node, key, row)
  {
    TargetsAre(w, tasks, Put(key, row));
    var m :| Listed(w, tasks, m) && Put(key, row) in MessageWrites(w, m);
    MessageRowIsFaithful(w, m, Put(key, row));
  }
}
