/** Every drained run of the pipeline leaves the tables of the plain sequential loop. */
module PipelineRefinement {
  import opened Sequences
  import opened TransactionEvents
  import opened Database
  import opened TxProcessor
  import opened Confluence
  import opened Pipeline

  // ---- which rows some work will write ----

  /** Handling some message of the list writes this row. */
  ghost predicate Carries(w: World, ms: seq<Message>, wr: Write)
  {
    exists m :: m in ms && wr in MessageWrites(w, m)
  }

  ghost predicate InTasks(w: World, tasks: seq<Task>, wr: Write)
  {
    exists i :: 0 <= i < |tasks| && wr in TaskWrites(w, tasks[i])
  }

  ghost predicate InTopic(w: World, topic: seq<seq<Message>>, wr: Write)
  {
    exists p :: 0 <= p < |topic| && Carries(w, topic[p], wr)
  }

  ghost predicate InWorker(b: Worker, wr: Write)
  {
    b.Busy? && wr in b.todo
  }

  ghost predicate InWorkers(workers: seq<Worker>, wr: Write)
  {
    exists c :: 0 <= c < |workers| && InWorker(workers[c], wr)
  }

  ghost predicate Pending(w: World, s: State, wr: Write)
  {
    InTasks(w, s.tasks, wr) || InTopic(w, s.topic, wr) || InWorkers(s.workers, wr)
  }

  ghost predicate RowStored(s: Store, wr: Write)
  {
    wr.Put? && wr.key in s.rows && s.rows[wr.key] == wr.row
  }

  /** Handling a message that never reached the broker would have written this row. */
  ghost predicate IsLost(w: World, s: State, wr: Write)
  {
    exists m :: m in s.lost && wr in MessageWrites(w, m)
  }

  ghost predicate AccountedFor(w: World, s: State, wr: Write)
  {
    Pending(w, s, wr) || RowStored(s.store, wr) || IsLost(w, s, wr)
  }

  /** The sequential loop writes this row. */
  ghost predicate Target(w: World, tasks: seq<Task>, wr: Write)
  {
    InTasks(w, tasks, wr)
  }

  /** All rows the sequential loop writes under the key are the same. */
  ghost predicate Agrees(w: World, tasks: seq<Task>, key: Key)
  {
    forall a, b :: Target(w, tasks, Put(key, a)) && Target(w, tasks, Put(key, b)) ==> a == b
  }

  /** Rows the claim is about: their key is new, and the sequential loop agrees with itself about it. */
  ghost predicate Tracked(w: World, base: Store, tasks: seq<Task>, wr: Write)
  {
    wr.Put? && wr.key !in base.rows && Agrees(w, tasks, wr.key)
  }

  lemma {:induction false} ListWritesAre(w: World, ms: seq<Message>, wr: Write)
    ensures wr in ListWrites(w, ms) <==> Carries(w, ms, wr)
  {
    if ms != [] {
      ListWritesAre(w, ms[1..], wr);
      InAppend(MessageWrites(w, ms[0]), ListWrites(w, ms[1..]), wr);
      if m :| m in ms && wr in MessageWrites(w, m) {
        assert m == ms[0] || m in ms[1..];
      }
    }
  }

  lemma TaskWritesAre(w: World, t: Task, wr: Write)
    ensures wr in TaskWrites(w, t) <==> Carries(w, t.batch, wr) || wr in ScanWrites(w, t.mode, t.next, t.last)
  {
    ListWritesAre(w, t.batch, wr);
  }

  lemma InTasksFirst(w: World, tasks: seq<Task>, wr: Write)
    requires tasks != []
    ensures InTasks(w, tasks, wr) <==> wr in TaskWrites(w, tasks[0]) || InTasks(w, tasks[1..], wr)
  {
    if i :| 0 <= i < |tasks| && wr in TaskWrites(w, tasks[i]) {
      if i > 0 {
        assert tasks[1..][i - 1] == tasks[i];
      }
    }
    if i :| 0 <= i < |tasks[1..]| && wr in TaskWrites(w, tasks[1..][i]) {
      assert tasks[1..][i] == tasks[i + 1];
    }
  }

  lemma {:induction false} TasksWritesAre(w: World, tasks: seq<Task>, wr: Write)
    ensures wr in TasksWrites(w, tasks) <==> InTasks(w, tasks, wr)
  {
    if tasks != [] {
      TasksWritesAre(w, tasks[1..], wr);
      InTasksFirst(w, tasks, wr);
      InAppend(TaskWrites(w, tasks[0]), TasksWrites(w, tasks[1..]), wr);
    }
  }

  lemma CarriesAppend(w: World, a: seq<Message>, b: seq<Message>, wr: Write)
    ensures Carries(w, a + b, wr) <==> Carries(w, a, wr) || Carries(w, b, wr)
  {
    if m :| m in a && wr in MessageWrites(w, m) {
      assert m in a + b;
    }
    if m :| m in b && wr in MessageWrites(w, m) {
      assert m in a + b;
    }
  }

  // Replacing one task, partition or worker: what it loses or gains is `moved`.

  lemma TaskReplaced(w: World, tasks: seq<Task>, i: nat, t: Task, wr: Write, moved: bool)
    requires i < |tasks|
    requires wr in TaskWrites(w, tasks[i]) || moved <==> wr in TaskWrites(w, t) || moved
    ensures InTasks(w, tasks, wr) || moved <==> InTasks(w, tasks[i := t], wr) || moved
  {
    var tasks' := tasks[i := t];
    if j :| 0 <= j < |tasks| && wr in TaskWrites(w, tasks[j]) {
      assert tasks'[j] == if i == j then t else tasks[j];
    }
    if j :| 0 <= j < |tasks'| && wr in TaskWrites(w, tasks'[j]) {
      assert tasks'[j] == if i == j then t else tasks[j];
    }
  }

  lemma TopicReplaced(w: World, topic: seq<seq<Message>>, p: nat, ms: seq<Message>, wr: Write, moved: bool)
    requires p < |topic|
    requires Carries(w, topic[p], wr) || moved <==> Carries(w, ms, wr) || moved
    ensures InTopic(w, topic, wr) || moved <==> InTopic(w, topic[p := ms], wr) || moved
  {
    var topic' := topic[p := ms];
    if q :| 0 <= q < |topic| && Carries(w, topic[q], wr) {
      assert topic'[q] == if q == p then ms else topic[q];
    }
    if q :| 0 <= q < |topic'| && Carries(w, topic'[q], wr) {
      assert topic'[q] == if q == p then ms else topic[q];
    }
  }

  lemma WorkerReplaced(workers: seq<Worker>, c: nat, b: Worker, wr: Write, moved: bool)
    requires c < |workers|
    requires InWorker(workers[c], wr) || moved <==> InWorker(b, wr) || moved
    ensures InWorkers(workers, wr) || moved <==> InWorkers(workers[c := b], wr) || moved
  {
    var workers' := workers[c := b];
    if d :| 0 <= d < |workers| && InWorker(workers[d], wr) {
      assert workers'[d] == if d == c then b else workers[d];
    }
    if d :| 0 <= d < |workers'| && InWorker(workers'[d], wr) {
      assert workers'[d] == if d == c then b else workers[d];
    }
  }

  // ---- the invariant ----

  ghost predicate BaseKept(base: Store, s: Store)
  {
    forall key :: key in base.rows ==> key in s.rows && s.rows[key] == base.rows[key]
  }

  ghost predicate Known(w: World, base: Store, tasks: seq<Task>, m: Message)
  {
    forall wr :: Tracked(w, base, tasks, wr) && wr in MessageWrites(w, m) ==> Target(w, tasks, wr)
  }

  /** Bookkeeping: base rows survive, only sent messages are about, handlers insert rows of their message. */
  ghost predicate Sane(w: World, base: Store, tasks: seq<Task>, s: State)
  {
    && BaseKept(base, s.store)
    && (forall m :: m in s.sent ==> Known(w, base, tasks, m))
    && (forall p, m :: 0 <= p < |s.topic| && m in s.topic[p] ==> m in s.sent)
    && (forall c :: 0 <= c < |s.workers| && s.workers[c].Busy? ==>
          && s.workers[c].message in s.sent
          && forall wr :: wr in s.workers[c].todo ==> wr in MessageWrites(w, s.workers[c].message))
  }

  /**
   * Conservation: a row of the sequential loop is still to be written, or stored, or was lost with a message; and no
   * other row is.
   */
  ghost predicate Conserves(w: World, base: Store, tasks: seq<Task>, s: State)
  {
    forall wr :: Tracked(w, base, tasks, wr) ==> (Target(w, tasks, wr) <==> AccountedFor(w, s, wr))
  }

  lemma OrderIsIrrelevant(w: World, m: Message, order: seq<Address>, wr: Write)
    requires Sound(w) && Walks(order, w.node(m.hash).receipt.logs)
    ensures wr in HandlerWrites(w, m, order) <==> wr in MessageWrites(w, m)
  {
    SameMessageSameWrites(w.config, w.node, Delivery(m.mode, m.hash, order), Delivery(m.mode, m.hash, w.walk(m.hash)),
                          wr);
  }

  // ---- one step at a time ----

  lemma SameRowOrNew(w: World, base: Store, tasks: seq<Task>, s: State, v: Write, wr: Write)
    requires Conserves(w, base, tasks, s) && Tracked(w, base, tasks, wr)
    requires wr == v ==> Pending(w, s, wr)
    ensures RowStored(Insert(s.store, v), wr) <==> RowStored(s.store, wr) || wr == v
  {
    if wr == v && wr.key in s.store.rows {
      var present := Put(wr.key, s.store.rows[wr.key]);
      assert RowStored(s.store, present) && Tracked(w, base, tasks, present);
      assert AccountedFor(w, s, present) && AccountedFor(w, s, wr);
      assert Target(w, tasks, present) && Target(w, tasks, wr);
    }
  }

  /** Reading a block leaves everything but the block's own row still to be written. */
  lemma ProducedTaskWrites(w: World, t: Task, wr: Write)
    requires t.batch == [] && t.next <= t.last && w.chain(t.next).Some?
    ensures wr in TaskWrites(w, t)
            <==> wr == BlockRowWrite(w, t.mode, t.next) || wr in TaskWrites(w, AfterProduce(w, t))
  {
    var t' := AfterProduce(w, t);
    var row := BlockRowWrite(w, t.mode, t.next);
    InAppend([row] + ListWrites(w, t'.batch), ScanWrites(w, t.mode, t.next + 1, t.last), wr);
    InAppend([row], ListWrites(w, t'.batch), wr);
  }

  lemma ProduceConserves(w: World, base: Store, tasks: seq<Task>, s: State, i: nat, wr: Write)
    requires Conserves(w, base, tasks, s) && Tracked(w, base, tasks, wr)
    requires Enabled(w, s, Produce(i))
    ensures var s' := Next(w, s, Produce(i));
            AccountedFor(w, s, wr) <==> AccountedFor(w, s', wr)
  {
    var t := s.tasks[i];
    var t' := AfterProduce(w, t);
    var row := BlockRowWrite(w, t.mode, t.next);
    ProducedTaskWrites(w, t, wr);
    TaskReplaced(w, s.tasks, i, t', wr, wr == row);
    assert wr == row ==> wr in TaskWrites(w, s.tasks[i]);
    SameRowOrNew(w, base, tasks, s, row, wr);
  }

  lemma SendConserves(w: World, s: State, i: nat, p: nat, k: nat, wr: Write)
    requires Enabled(w, s, Send(i, p, k))
    ensures var s' := Next(w, s, Send(i, p, k));
            AccountedFor(w, s, wr) <==> AccountedFor(w, s', wr)
  {
    var t := s.tasks[i];
    var t' := t.(batch := t.batch[k..]);
    var moved := Carries(w, t.batch[..k], wr);
    assert t.batch == t.batch[..k] + t.batch[k..];
    CarriesAppend(w, t.batch[..k], t.batch[k..], wr);
    CarriesAppend(w, s.topic[p], t.batch[..k], wr);
    TaskWritesAre(w, t, wr);
    TaskWritesAre(w, t', wr);
    TaskReplaced(w, s.tasks, i, t', wr, moved);
    TopicReplaced(w, s.topic, p, s.topic[p] + t.batch[..k], wr, moved);
    var s' := Next(w, s, Send(i, p, k));
    if moved {
      assert wr in TaskWrites(w, s.tasks[i]);
      assert Carries(w, s'.topic[p], wr);
    }
  }

  lemma LosingTaskWrites(w: World, t: Task, j: nat, wr: Write)
    requires j < |t.batch|
    ensures wr in TaskWrites(w, t) <==>
            wr in TaskWrites(w, t.(batch := t.batch[..j] + t.batch[j + 1..])) || wr in MessageWrites(w, t.batch[j])
  {
    var m := t.batch[j];
    Cut(t.batch, j);
    CarriesAppend(w, t.batch[..j], [m] + t.batch[j + 1..], wr);
    CarriesAppend(w, [m], t.batch[j + 1..], wr);
    CarriesAppend(w, t.batch[..j], t.batch[j + 1..], wr);
    TaskWritesAre(w, t, wr);
    TaskWritesAre(w, t.(batch := t.batch[..j] + t.batch[j + 1..]), wr);
    assert m in [m];
    assert Carries(w, [m], wr) <==> wr in MessageWrites(w, m);
  }

  /** A message that does not reach the broker takes its rows with it, unless another message brings them. */
  lemma LoseConserves(w: World, s: State, i: nat, j: nat, wr: Write)
    requires Enabled(w, s, Lose(i, j))
    ensures var s' := Next(w, s, Lose(i, j));
            AccountedFor(w, s, wr) <==> AccountedFor(w, s', wr)
  {
    var s' := Next(w, s, Lose(i, j));
    var m := s.tasks[i].batch[j];
    var moved := wr in MessageWrites(w, m);
    LosingTaskWrites(w, s.tasks[i], j, wr);
    TaskReplaced(w, s.tasks, i, s'.tasks[i], wr, moved);
    if moved {
      assert wr in TaskWrites(w, s.tasks[i]);
      assert m in s'.lost;
    }
  }

  lemma FetchConserves(w: World, s: State, c: nat, p: nat, order: seq<Address>, wr: Write)
    requires Sound(w) && Enabled(w, s, Fetch(c, p, order))
    ensures var s' := Next(w, s, Fetch(c, p, order));
            AccountedFor(w, s, wr) <==> AccountedFor(w, s', wr)
  {
    var m := s.topic[p][0];
    var b := Busy(m, HandlerWrites(w, m, order));
    OrderIsIrrelevant(w, m, order, wr);
    var moved := wr in MessageWrites(w, m);
    CarriesAppend(w, [m], s.topic[p][1..], wr);
    assert [m] + s.topic[p][1..] == s.topic[p];
    assert moved ==> m in s.topic[p];
    assert Carries(w, [m], wr) ==> moved;
    TopicReplaced(w, s.topic, p, s.topic[p][1..], wr, moved);
    WorkerReplaced(s.workers, c, b, wr, moved);
    var s' := Next(w, s, Fetch(c, p, order));
    if moved {
      assert Carries(w, s.topic[p], wr);
      assert InWorker(s'.workers[c], wr);
    }
  }

  lemma InsertRowConserves(w: World, base: Store, tasks: seq<Task>, s: State, c: nat, wr: Write)
    requires Conserves(w, base, tasks, s) && Tracked(w, base, tasks, wr)
    requires Enabled(w, s, InsertRow(c))
    ensures var s' := Next(w, s, InsertRow(c));
            AccountedFor(w, s, wr) <==> AccountedFor(w, s', wr)
  {
    var b := s.workers[c];
    var v := b.todo[0];
    InAppend([v], b.todo[1..], wr);
    assert [v] + b.todo[1..] == b.todo;
    assert wr == v ==> InWorker(s.workers[c], wr);
    WorkerReplaced(s.workers, c, Busy(b.message, b.todo[1..]), wr, wr == v);
    SameRowOrNew(w, base, tasks, s, v, wr);
  }

  lemma ReturnConserves(w: World, s: State, c: nat, wr: Write)
    requires Enabled(w, s, Return(c))
    ensures var s' := Next(w, s, Return(c));
            AccountedFor(w, s, wr) <==> AccountedFor(w, s', wr)
  {
    WorkerReplaced(s.workers, c, Idle, wr, false);
  }

  /** A message delivered again brings rows of the sequential loop only, which are accounted for already. */
  lemma RedeliverConserves(w: World, base: Store, tasks: seq<Task>, s: State, p: nat, m: Message, wr: Write)
    requires Sane(w, base, tasks, s) && Conserves(w, base, tasks, s) && Tracked(w, base, tasks, wr)
    requires Enabled(w, s, Redeliver(p, m))
    ensures var s' := Next(w, s, Redeliver(p, m));
            AccountedFor(w, s, wr) <==> AccountedFor(w, s', wr)
  {
    var moved := wr in MessageWrites(w, m);
    CarriesAppend(w, [m], s.topic[p], wr);
    assert Carries(w, [m], wr) ==> moved;
    TopicReplaced(w, s.topic, p, [m] + s.topic[p], wr, moved);
    if moved {
      assert Known(w, base, tasks, m);
      var s' := Next(w, s, Redeliver(p, m));
      assert m in s'.topic[p];
      assert Carries(w, s'.topic[p], wr);
    }
  }

  lemma CrashConserves(w: World, base: Store, tasks: seq<Task>, s: State, c: nat, p: nat, wr: Write)
    requires Sane(w, base, tasks, s) && Conserves(w, base, tasks, s) && Tracked(w, base, tasks, wr)
    requires Enabled(w, s, Crash(c, p))
    ensures var s' := Next(w, s, Crash(c, p));
            AccountedFor(w, s, wr) <==> AccountedFor(w, s', wr)
  {
    var m := s.workers[c].message;
    var moved := wr in MessageWrites(w, m);
    WorkerReplaced(s.workers, c, Idle, wr, moved);
    CarriesAppend(w, [m], s.topic[p], wr);
    assert Carries(w, [m], wr) ==> moved;
    TopicReplaced(w, s.topic, p, [m] + s.topic[p], wr, moved);
    if moved {
      assert Known(w, base, tasks, m);
      var s' := Next(w, s, Crash(c, p));
      assert m in s'.topic[p];
      assert Carries(w, s'.topic[p], wr);
    }
  }

  lemma StepConserves(w: World, base: Store, tasks: seq<Task>, s: State, a: Action)
    requires Sound(w) && Enabled(w, s, a)
    requires Sane(w, base, tasks, s) && Conserves(w, base, tasks, s)
    ensures Conserves(w, base, tasks, Next(w, s, a))
  {
    var s' := Next(w, s, a);
    forall wr | Tracked(w, base, tasks, wr)
      ensures Target(w, tasks, wr) <==> AccountedFor(w, s', wr)
    {
      match a {
        case Produce(i) => ProduceConserves(w, base, tasks, s, i, wr);
        case Send(i, p, k) => SendConserves(w, s, i, p, k, wr);
        case Lose(i, j) => LoseConserves(w, s, i, j, wr);
        case Fetch(c, p, order) => FetchConserves(w, s, c, p, order, wr);
        case InsertRow(c) => InsertRowConserves(w, base, tasks, s, c, wr);
        case Return(c) => ReturnConserves(w, s, c, wr);
        case Redeliver(p, m) => RedeliverConserves(w, base, tasks, s, p, m, wr);
        case Crash(c, p) => CrashConserves(w, base, tasks, s, c, p, wr);
      }
    }
  }
}
