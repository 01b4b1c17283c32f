/** What is missing from the tables when messages never reach the broker: refused appends, timeouts. */
module PipelineLosses {
  import opened Sequences
  import opened TransactionEvents
  import opened Database
  import opened Pipeline
  import opened PipelineRefinement
  import opened PipelineTargets
  import opened PipelineTheorems

  /** The row is queued, about to be inserted, or stored. */
  ghost predicate OnTheWay(w: World, s: State, wr: Write)
  {
    InTopic(w, s.topic, wr) || InWorkers(s.workers, wr) || RowStored(s.store, wr)
  }

  /** Every row of a message that reached the broker is on its way or there. */
  ghost predicate SentArrive(w: World, base: Store, tasks: seq<Task>, s: State)
  {
    forall m, wr :: m in s.sent && Tracked(w, base, tasks, wr) && wr in MessageWrites(w, m) ==> OnTheWay(w, s, wr)
  }

  /** Every new row but those of blocks is one of a message that reached the broker. */
  ghost predicate StoredWereSent(w: World, base: Store, s: State)
  {
    forall key :: key in s.store.rows && key !in base.rows && !key.BlockKey? ==>
      WasSent(w, s, Put(key, s.store.rows[key]))
  }

  ghost predicate WasSent(w: World, s: State, wr: Write)
  {
    exists m :: m in s.sent && wr in MessageWrites(w, m)
  }

  lemma InsertKeeps(s: Store, v: Write, wr: Write)
    requires RowStored(s, wr)
    ensures RowStored(Insert(s, v), wr)
  {
  }

  lemma FetchedIsOnTheWay(w: World, s: State, c: nat, p: nat, order: seq<Address>, wr: Write)
    requires Sound(w) && Enabled(w, s, Fetch(c, p, order)) && OnTheWay(w, s, wr)
    ensures OnTheWay(w, Next(w, s, Fetch(c, p, order)), wr)
  {
    FetchConserves(w, s.(tasks := [], lost := {}), c, p, order, wr);
    assert AccountedFor(w, s.(tasks := [], lost := {}), wr);
  }

  lemma InsertedIsOnTheWay(w: World, base: Store, tasks: seq<Task>, s: State, c: nat, wr: Write)
    requires Conserves(w, base, tasks, s) && Tracked(w, base, tasks, wr) && Enabled(w, s, InsertRow(c))
    requires OnTheWay(w, s, wr)
    ensures OnTheWay(w, Next(w, s, InsertRow(c)), wr)
  {
    var b := s.workers[c];
    var v := b.todo[0];
    assert [v] + b.todo[1..] == b.todo;
    InAppend([v], b.todo[1..], wr);
    assert wr == v ==> InWorker(s.workers[c], wr);
    WorkerReplaced(s.workers, c, Busy(b.message, b.todo[1..]), wr, wr == v);
    SameRowOrNew(w, base, tasks, s, v, wr);
  }

  lemma PutBackIsOnTheWay(w: World, s: State, p: nat, m: Message, wr: Write)
    requires p < |s.topic|
    ensures InTopic(w, s.topic, wr) || wr in MessageWrites(w, m) ==> InTopic(w, s.topic[p := [m] + s.topic[p]], wr)
  {
    var topic' := s.topic[p := [m] + s.topic[p]];
    CarriesAppend(w, [m], s.topic[p], wr);
    if q :| 0 <= q < |s.topic| && Carries(w, s.topic[q], wr) {
      assert Carries(w, topic'[q], wr);
    }
    if wr in MessageWrites(w, m) {
      assert m in topic'[p];
      assert Carries(w, topic'[p], wr);
    }
  }

  lemma SentIsOnTheWay(w: World, s: State, i: nat, p: nat, k: nat, wr: Write)
    requires Enabled(w, s, Send(i, p, k))
    ensures InTopic(w, s.topic, wr) || Carries(w, s.tasks[i].batch[..k], wr) ==>
              InTopic(w, Next(w, s, Send(i, p, k)).topic, wr)
  {
    var topic' := Next(w, s, Send(i, p, k)).topic;
    CarriesAppend(w, s.topic[p], s.tasks[i].batch[..k], wr);
    if q :| 0 <= q < |s.topic| && Carries(w, s.topic[q], wr) {
      assert Carries(w, topic'[q], wr);
    }
    if Carries(w, s.tasks[i].batch[..k], wr) {
      assert Carries(w, topic'[p], wr);
    }
  }

  lemma CrashedIsOnTheWay(w: World, base: Store, tasks: seq<Task>, s: State, c: nat, p: nat, wr: Write)
    requires Sane(w, base, tasks, s) && Enabled(w, s, Crash(c, p)) && OnTheWay(w, s, wr)
    ensures OnTheWay(w, Next(w, s, Crash(c, p)), wr)
  {
    var m := s.workers[c].message;
    PutBackIsOnTheWay(w, s, p, m, wr);
    WorkerReplaced(s.workers, c, Idle, wr, wr in MessageWrites(w, m));
  }

  lemma StaysOnTheWay(w: World, base: Store, tasks: seq<Task>, s: State, a: Action, wr: Write)
    requires Sound(w) && Sane(w, base, tasks, s) && Conserves(w, base, tasks, s) && Enabled(w, s, a)
    requires Tracked(w, base, tasks, wr) && OnTheWay(w, s, wr)
    ensures OnTheWay(w, Next(w, s, a), wr)
  {
    match a {
      case Produce(i) =>
        if RowStored(s.store, wr) {
          InsertKeeps(s.store, BlockRowWrite(w, s.tasks[i].mode, s.tasks[i].next), wr);
        }
      case Send(i, p, k) => SentIsOnTheWay(w, s, i, p, k, wr);
      case Lose(i, j) =>
      case Fetch(c, p, order) => FetchedIsOnTheWay(w, s, c, p, order, wr);
      case InsertRow(c) => InsertedIsOnTheWay(w, base, tasks, s, c, wr);
      case Return(c) => WorkerReplaced(s.workers, c, Idle, wr, false);
      case Redeliver(p, m) => PutBackIsOnTheWay(w, s, p, m, wr);
      case Crash(c, p) => CrashedIsOnTheWay(w, base, tasks, s, c, p, wr);
    }
  }

  lemma SentArriveStep(w: World, base: Store, tasks: seq<Task>, s: State, a: Action)
    requires Sound(w) && Sane(w, base, tasks, s) && Conserves(w, base, tasks, s) && Enabled(w, s, a)
    requires SentArrive(w, base, tasks, s)
    ensures SentArrive(w, base, tasks, Next(w, s, a))
  {
    var s' := Next(w, s, a);
    forall m, wr | m in s'.sent && Tracked(w, base, tasks, wr) && wr in MessageWrites(w, m)
      ensures OnTheWay(w, s', wr)
    {
      if m in s.sent {
        StaysOnTheWay(w, base, tasks, s, a, wr);
      } else {
        assert Carries(w, s.tasks[a.i].batch[..a.k], wr);
        SentIsOnTheWay(w, s, a.i, a.p, a.k, wr);
      }
    }
  }

  lemma StoredWereSentStep(w: World, base: Store, tasks: seq<Task>, s: State, a: Action)
    requires Sound(w) && Sane(w, base, tasks, s) && Enabled(w, s, a) && StoredWereSent(w, base, s)
    ensures StoredWereSent(w, base, Next(w, s, a))
  {
    var s' := Next(w, s, a);
    forall key | key in s'.store.rows && key !in base.rows && !key.BlockKey?
      ensures WasSent(w, s', Put(key, s'.store.rows[key]))
    {
      if key in s.store.rows {
        var m :| m in s.sent && Put(key, s.store.rows[key]) in MessageWrites(w, m);
        assert m in s'.sent;
      } else {
        assert a.InsertRow?;
        var m := s.workers[a.c].message;
        assert s.workers[a.c].todo[0] in s.workers[a.c].todo;
        assert m in s'.sent && Put(key, s'.store.rows[key]) in MessageWrites(w, m);
      }
    }
  }

  lemma {:induction false} LossesRun(w: World, base: Store, tasks: seq<Task>, s: State, run: seq<Action>)
    requires Sound(w) && Allowed(w, s, run) && Sane(w, base, tasks, s) && Conserves(w, base, tasks, s)
    requires SentArrive(w, base, tasks, s) && StoredWereSent(w, base, s)
    ensures SentArrive(w, base, tasks, Exec(w, s, run)) && StoredWereSent(w, base, Exec(w, s, run))
    decreases |run|
  {
    if run != [] {
      SaneStep(w, base, tasks, s, run[0]);
      StepConserves(w, base, tasks, s, run[0]);
      SentArriveStep(w, base, tasks, s, run[0]);
      StoredWereSentStep(w, base, tasks, s, run[0]);
      LossesRun(w, base, tasks, Next(w, s, run[0]), run[1..]);
    }
  }

  /** Once all is drained, a new row of a certain key, other than a block's, is stored if and only if it was sent. */
  lemma StoredExactlyWhenSent(w: World, base: Store, tasks: seq<Task>, s: State, run: seq<Action>, wr: Write)
    requires Sound(w) && Initial(w, tasks, base, s) && Allowed(w, s, run) && Drained(w, Exec(w, s, run))
    requires Tracked(w, base, tasks, wr) && !wr.key.BlockKey?
    ensures RowStored(Exec(w, s, run).store, wr) <==> WasSent(w, Exec(w, s, run), wr)
  {
    var e := Exec(w, s, run);
    InitialConserves(w, base, tasks, s);
    LossesRun(w, base, tasks, s, run);
    if RowStored(e.store, wr) {
      assert WasSent(w, e, Put(wr.key, e.store.rows[wr.key]));
    }
    if m :| m in e.sent && wr in MessageWrites(w, m) {
      assert OnTheWay(w, e, wr);
      DrainedIsDone(w, e, wr);
    }
  }

  /** Under this key the tables hold what the sequential loop leaves. */
  ghost predicate AsExpected(w: World, base: Store, tasks: seq<Task>, s: Store, key: Key)
  {
    var expected := Sequential(w, base, tasks).rows;
    (key in s.rows <==> key in expected) && (key in s.rows && key in expected ==> s.rows[key] == expected[key])
  }

  /** Every new row of a certain key that a lost message would have led to is also one of a message that was sent. */
  ghost predicate LossesRecovered(w: World, base: Store, tasks: seq<Task>, s: State)
  {
    forall m, wr :: m in s.lost && Tracked(w, base, tasks, wr) && wr in MessageWrites(w, m) ==> WasSent(w, s, wr)
  }

  /**
   * With failed sends: a drained run leaves the sequential loop's rows under all certain keys if and only if whatever
   * the lost messages would have led to came with other messages.
   */
  lemma NothingMissingExactlyWhen(w: World, base: Store, tasks: seq<Task>, s: State, run: seq<Action>)
    requires Sound(w) && Initial(w, tasks, base, s) && Allowed(w, s, run) && Drained(w, Exec(w, s, run))
    ensures (forall key :: Certain(w, base, tasks, key) ==> AsExpected(w, base, tasks, Exec(w, s, run).store, key))
            <==> LossesRecovered(w, base, tasks, Exec(w, s, run))
  {
    var e := Exec(w, s, run);
    if LossesRecovered(w, base, tasks, e) {
      forall key | Certain(w, base, tasks, key)
        ensures AsExpected(w, base, tasks, e.store, key)
      {
        RecoveredRow(w, base, tasks, s, run, key);
      }
    }
    if forall key :: Certain(w, base, tasks, key) ==> AsExpected(w, base, tasks, e.store, key) {
      forall m, wr | m in e.lost && Tracked(w, base, tasks, wr) && wr in MessageWrites(w, m)
        ensures WasSent(w, e, wr)
      {
        ExpectedWasSent(w, base, tasks, s, run, m, wr);
      }
    }
  }

  lemma RecoveredRow(w: World, base: Store, tasks: seq<Task>, s: State, run: seq<Action>, key: Key)
    requires Sound(w) && Initial(w, tasks, base, s) && Allowed(w, s, run) && Drained(w, Exec(w, s, run))
    requires LossesRecovered(w, base, tasks, Exec(w, s, run)) && Certain(w, base, tasks, key)
    ensures AsExpected(w, base, tasks, Exec(w, s, run).store, key)
  {
    var e, expected := Exec(w, s, run), Sequential(w, base, tasks).rows;
    DrainedRow(w, base, tasks, s, run, key);
    SequentialRows(w, base, tasks, key);
    if key in expected && key !in e.store.rows {
      var wr := Put(key, expected[key]);
      KeptInRun(w, base, tasks, s, run);
      var m :| m in e.lost && wr in MessageWrites(w, m);
      MessageRowIsFaithful(w, m, wr);
      StoredExactlyWhenSent(w, base, tasks, s, run, wr);
      assert false;
    }
  }

  lemma KeptInRun(w: World, base: Store, tasks: seq<Task>, s: State, run: seq<Action>)
    requires Sound(w) && Initial(w, tasks, base, s) && Allowed(w, s, run)
    ensures BaseKept(base, Exec(w, s, run).store)
  {
    InitialConserves(w, base, tasks, s);
    ConservesRun(w, base, tasks, s, run);
  }

  lemma ExpectedWasSent(w: World, base: Store, tasks: seq<Task>, s: State, run: seq<Action>, m: Message, wr: Write)
    requires Sound(w) && Initial(w, tasks, base, s) && Allowed(w, s, run) && Drained(w, Exec(w, s, run))
    requires m in Exec(w, s, run).lost && Tracked(w, base, tasks, wr) && wr in MessageWrites(w, m)
    requires AsExpected(w, base, tasks, Exec(w, s, run).store, wr.key)
    ensures WasSent(w, Exec(w, s, run), wr)
  {
    var e := Exec(w, s, run);
    InitialConserves(w, base, tasks, s);
    ConservesRun(w, base, tasks, s, run);
    MessageRowIsFaithful(w, m, wr);
    assert IsLost(w, e, wr) && AccountedFor(w, e, wr);
    assert Target(w, tasks, Put(wr.key, wr.row));
    SequentialRows(w, base, tasks, wr.key);
    StoredIsTarget(w, base, tasks, e, wr.key);
    StoredExactlyWhenSent(w, base, tasks, s, run, wr);
  }
}
