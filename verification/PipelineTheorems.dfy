/** End-to-end agreement with the sequential loop, and what every reachable state of the pipeline keeps. */
module PipelineTheorems {
  import opened Sequences
  import opened EventCodec
  import opened TransactionEvents
  import opened Database
  import opened TxProcessor
  import opened Confluence
  import opened Pipeline
  import opened PipelineRefinement
  import opened PipelineTargets

  // ---- bookkeeping is kept ----

  lemma KeptStep(w: World, base: Store, s: State, a: Action)
    requires BaseKept(base, s.store) && Enabled(w, s, a)
    ensures BaseKept(base, Next(w, s, a).store)
  {
  }

  lemma BatchIsKnown(w: World, base: Store, tasks: seq<Task>, s: State, i: nat, m: Message)
    requires Conserves(w, base, tasks, s) && i < |s.tasks| && m in s.tasks[i].batch
    ensures Known(w, base, tasks, m)
  {
    forall wr | Tracked(w, base, tasks, wr) && wr in MessageWrites(w, m)
      ensures Target(w, tasks, wr)
    {
      assert Carries(w, s.tasks[i].batch, wr);
      TaskWritesAre(w, s.tasks[i], wr);
      assert Pending(w, s, wr) && AccountedFor(w, s, wr);
    }
  }

  lemma SaneSend(w: World, base: Store, tasks: seq<Task>, s: State, i: nat, p: nat, k: nat)
    requires Sane(w, base, tasks, s) && Conserves(w, base, tasks, s) && Enabled(w, s, Send(i, p, k))
    ensures Sane(w, base, tasks, Next(w, s, Send(i, p, k)))
  {
    var s' := Next(w, s, Send(i, p, k));
    var chunk := s.tasks[i].batch[..k];
    forall m | m in s'.sent
      ensures Known(w, base, tasks, m)
    {
      if m in chunk {
        assert m in s.tasks[i].batch;
        BatchIsKnown(w, base, tasks, s, i, m);
      }
    }
    forall q, m | 0 <= q < |s'.topic| && m in s'.topic[q]
      ensures m in s'.sent
    {
      InAppend(s.topic[p], chunk, m);
    }
  }

  lemma SaneWorker(w: World, base: Store, tasks: seq<Task>, s: State, c: nat, m: Message, order: seq<Address>,
                   s': State)
    requires Sound(w) && Sane(w, base, tasks, s) && c < |s.workers|
    requires m in s.sent && Walks(order, w.node(m.hash).receipt.logs)
    requires s'.workers == s.workers[c := Busy(m, HandlerWrites(w, m, order))]
    requires s'.store == s.store && s'.sent == s.sent && |s'.topic| == |s.topic|
    requires forall p, m :: 0 <= p < |s'.topic| && m in s'.topic[p] ==> m in s.topic[p]
    ensures Sane(w, base, tasks, s')
  {
    forall wr | wr in HandlerWrites(w, m, order)
      ensures wr in MessageWrites(w, m)
    {
      OrderIsIrrelevant(w, m, order, wr);
    }
  }

  lemma SanePutBack(w: World, base: Store, tasks: seq<Task>, s: State, p: nat, m: Message, s': State)
    requires Sane(w, base, tasks, s) && p < |s.topic| && m in s.sent
    requires s'.topic == s.topic[p := [m] + s.topic[p]] && s'.store == s.store && s'.sent == s.sent
    requires |s'.workers| == |s.workers|
    requires forall c :: 0 <= c < |s.workers| ==> s'.workers[c] == s.workers[c] || s'.workers[c].Idle?
    ensures Sane(w, base, tasks, s')
  {
    forall k | k in s'.topic[p]
      ensures k in s.sent
    {
      InAppend([m], s.topic[p], k);
    }
  }

  lemma SaneStep(w: World, base: Store, tasks: seq<Task>, s: State, a: Action)
    requires Sound(w) && Enabled(w, s, a)
    requires Sane(w, base, tasks, s) && Conserves(w, base, tasks, s)
    ensures Sane(w, base, tasks, Next(w, s, a))
  {
    var s' := Next(w, s, a);
    KeptStep(w, base, s, a);
    match a {
      case Produce(i) =>
      case Send(i, p, k) => SaneSend(w, base, tasks, s, i, p, k);
      case Lose(i, j) =>
      case Fetch(c, p, order) =>
        assert s.topic[p][0] in s.topic[p];
        SaneWorker(w, base, tasks, s, c, s.topic[p][0], order, s');
      case InsertRow(c) =>
        forall wr | wr in s.workers[c].todo[1..]
          ensures wr in s.workers[c].todo
        {
        }
      case Return(c) =>
      case Redeliver(p, m) => SanePutBack(w, base, tasks, s, p, m, s');
      case Crash(c, p) => SanePutBack(w, base, tasks, s, p, s.workers[c].message, s');
    }
  }

  lemma {:induction false} ConservesRun(w: World, base: Store, tasks: seq<Task>, s: State, run: seq<Action>)
    requires Sound(w) && Allowed(w, s, run)
    requires Sane(w, base, tasks, s) && Conserves(w, base, tasks, s)
    ensures Sane(w, base, tasks, Exec(w, s, run)) && Conserves(w, base, tasks, Exec(w, s, run))
    decreases |run|
  {
    if run != [] {
      SaneStep(w, base, tasks, s, run[0]);
      StepConserves(w, base, tasks, s, run[0]);
      ConservesRun(w, base, tasks, Next(w, s, run[0]), run[1..]);
    }
  }

  lemma InitialConserves(w: World, base: Store, tasks: seq<Task>, s: State)
    requires Initial(w, tasks, base, s)
    ensures Sane(w, base, tasks, s) && Conserves(w, base, tasks, s)
  {
  }

  // ---- the conditions, for all keys at once ----

  /** Two tasks that insert the same new block insert the same reward for it. */
  ghost predicate RewardsAgree(w: World, base: Store, tasks: seq<Task>)
  {
    forall n :: BlockKey(n) !in base.rows ==> SameReward(w, tasks, n)
  }

  /** No contracts dispute a new supply key of a transaction that a partial task lists. */
  ghost predicate SuppliesAgree(w: World, base: Store, tasks: seq<Task>)
  {
    forall key: Key :: key.SupplyKey? && key !in base.rows && Listed(w, tasks, Message(Partial, key.hash)) ==>
      Determined(w.config, w.node, key)
  }

  /** The row under this key does not depend on who is first: it is there already, or the sequential loop agrees. */
  ghost predicate Certain(w: World, base: Store, tasks: seq<Task>, key: Key)
  {
    key in base.rows || Agrees(w, tasks, key)
  }

  lemma AllCertainExactlyWhen(w: World, base: Store, tasks: seq<Task>)
    requires Sound(w)
    ensures (forall key :: Certain(w, base, tasks, key)) <==>
            RewardsAgree(w, base, tasks) && SuppliesAgree(w, base, tasks)
  {
    if forall key :: Certain(w, base, tasks, key) {
      forall n | BlockKey(n) !in base.rows
        ensures SameReward(w, tasks, n)
      {
        assert Certain(w, base, tasks, BlockKey(n));
        AgreesExactlyWhen(w, tasks, BlockKey(n));
      }
      forall key: Key | key.SupplyKey? && key !in base.rows && Listed(w, tasks, Message(Partial, key.hash))
        ensures Determined(w.config, w.node, key)
      {
        assert Certain(w, base, tasks, key);
        AgreesExactlyWhen(w, tasks, key);
      }
    }
    if RewardsAgree(w, base, tasks) && SuppliesAgree(w, base, tasks) {
      forall key
        ensures Certain(w, base, tasks, key)
      {
        AgreesExactlyWhen(w, tasks, key);
      }
    }
  }

  // ---- main results ----

  lemma DrainedIsDone(w: World, s: State, wr: Write)
    requires Drained(w, s)
    ensures !Pending(w, s, wr)
  {
    forall i | 0 <= i < |s.tasks|
      ensures wr !in TaskWrites(w, s.tasks[i])
    {
      assert Ended(w, s.tasks[i]);
    }
  }

  lemma SequentialRows(w: World, base: Store, tasks: seq<Task>, key: Key)
    ensures var rows := Sequential(w, base, tasks).rows;
            && (key in rows <==> key in base.rows || exists row :: Target(w, tasks, Put(key, row)))
            && (key in base.rows ==> rows[key] == base.rows[key])
            && (key in rows && key !in base.rows ==> Target(w, tasks, Put(key, rows[key])))
  {
    var ws := TasksWrites(w, tasks);
    InsertAllRows(base, ws, key);
    if wr :| wr in ws && wr.Put? && wr.key == key {
      TasksWritesAre(w, tasks, wr);
    }
    if row :| Target(w, tasks, Put(key, row)) {
      var wr := Put(key, row);
      TasksWritesAre(w, tasks, wr);
      assert Writes(ws, key);
    }
    var rows := Sequential(w, base, tasks).rows;
    if key in rows && key !in base.rows {
      TasksWritesAre(w, tasks, Put(key, rows[key]));
    }
  }

  /**
   * Once everything is drained, the row under each certain key is the one the sequential loop leaves, except that rows
   * can be missing whose messages never reached the broker.
   */
  lemma DrainedRow(w: World, base: Store, tasks: seq<Task>, s: State, run: seq<Action>, key: Key)
    requires Sound(w) && Initial(w, tasks, base, s) && Allowed(w, s, run)
    requires Drained(w, Exec(w, s, run)) && Certain(w, base, tasks, key)
    ensures var e, expected := Exec(w, s, run), Sequential(w, base, tasks).rows;
            && (key in e.store.rows ==> key in expected && e.store.rows[key] == expected[key])
            && (key in expected && key !in e.store.rows ==> IsLost(w, e, Put(key, expected[key])))
  {
    InitialConserves(w, base, tasks, s);
    ConservesRun(w, base, tasks, s, run);
    var e := Exec(w, s, run);
    SequentialRows(w, base, tasks, key);
    if key !in base.rows {
      if key in e.store.rows {
        StoredIsTarget(w, base, tasks, e, key);
      }
      if key in Sequential(w, base, tasks).rows {
        var wr := Put(key, Sequential(w, base, tasks).rows[key]);
        DrainedIsDone(w, e, wr);
        assert Tracked(w, base, tasks, wr) && AccountedFor(w, e, wr);
      }
    }
  }

  lemma StoredIsTarget(w: World, base: Store, tasks: seq<Task>, e: State, key: Key)
    requires Conserves(w, base, tasks, e) && key in e.store.rows && key !in base.rows && Agrees(w, tasks, key)
    ensures Target(w, tasks, Put(key, e.store.rows[key]))
  {
    var present := Put(key, e.store.rows[key]);
    assert RowStored(e.store, present) && Tracked(w, base, tasks, present);
    assert AccountedFor(w, e, present);
  }

  /**
   * Any interleaving of producer tasks (FULL, PARTIAL and GET_LOGS together) and consumers, with redelivery and
   * consumers stopping in the middle of a handler: once everything is drained and no message was lost on the way to
   * the broker, the row under each certain key is the one the sequential loop leaves, from whatever tables the run
   * started with. (Under other keys it need not be: ThrottledOutcome.RowCanWin.)
   */
  lemma EveryDrainedRunEqualsTheSequentialLoop(w: World, base: Store, tasks: seq<Task>, s: State, run: seq<Action>,
                                               key: Key)
    requires Sound(w) && Initial(w, tasks, base, s) && Allowed(w, s, run)
    requires Drained(w, Exec(w, s, run)) && Exec(w, s, run).lost == {} && Certain(w, base, tasks, key)
    ensures var rows, expected := Exec(w, s, run).store.rows, Sequential(w, base, tasks).rows;
            && (key in rows <==> key in expected)
            && (key in rows ==> rows[key] == expected[key])
  {
    DrainedRow(w, base, tasks, s, run, key);
  }

  /** In every reachable state, drained or not, a stored row is one the sequential loop writes. */
  lemma NothingElseIsEverStored(w: World, base: Store, tasks: seq<Task>, s: State, run: seq<Action>, key: Key)
    requires Sound(w) && Initial(w, tasks, base, s) && Allowed(w, s, run)
    requires Certain(w, base, tasks, key) && key in Exec(w, s, run).store.rows
    ensures key in Sequential(w, base, tasks).rows
    ensures Sequential(w, base, tasks).rows[key] == Exec(w, s, run).store.rows[key]
  {
    InitialConserves(w, base, tasks, s);
    ConservesRun(w, base, tasks, s, run);
    SequentialRows(w, base, tasks, key);
    if key !in base.rows {
      StoredIsTarget(w, base, tasks, Exec(w, s, run), key);
    }
  }
}
