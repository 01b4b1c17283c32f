/** Exactly when the outcome of the throttled pipeline does not depend on the interleaving, key by key. */
module ThrottledOutcome {
  import opened EventCodec
  import opened TransactionEvents
  import opened Database
  import opened TxProcessor
  import opened Ledger
  import opened Confluence
  import opened FirstRows
  import Flow = FlowControl
  import Pipe = Pipeline
  import opened PipelineRefinement
  import opened PipelineTargets
  import opened PipelineTheorems
  import opened PipelineLosses
  import opened Throttled
  import opened ThrottledInvariants
  import opened ThrottledProgress
  import opened ThrottledSettling
  import opened ThrottledRewards

  // ---- the first contract of a walk has its row stored ----

  /** The row under the key is the given one, or there is none and each handler's first row under it is this one. */
  ghost predicate Ready(s: Pipe.State, key: Key, row: Row)
  {
    if key in s.store.rows then s.store.rows[key] == row
    else forall c :: 0 <= c < |s.workers| && s.workers[c].Busy? ==> FirstIs(s.workers[c].todo, key, row)
  }

  /** The handler of any message inserts this contract's row first, if it inserts a row under the key at all. */
  lemma HandlerFirst(w: Pipe.World, c: Address, key: Key, m: Pipe.Message, order: seq<Address>)
    requires Pipe.Sound(w) && Credits(w.config, w.node, c, key) && Walks(order, w.node(m.hash).receipt.logs)
    requires c in order ==> order[0] == c
    ensures FirstIs(Pipe.HandlerWrites(w, m, order), key, AmountRow(w.config, w.node, c, key))
  {
    var row := AmountRow(w.config, w.node, c, key);
    if m == Pipe.Message(Partial, key.hash) {
      SelectionFirst(w.config, w.node, c, key, order);
      var sel := SelectPartial(w.config, m.hash, w.node(m.hash), order);
      FirstStaysFirst(sel.writes, if sel.save then TransactionWrites(m.hash, w.node(m.hash), sel.indices) else [],
                      key, row);
    } else {
      forall r
        ensures Put(key, r) !in Pipe.HandlerWrites(w, m, order)
      {
        OrderIsIrrelevant(w, m, order, Put(key, r));
        SupplyRowsOfMessage(w, m, key, r);
      }
      OnlyIsFirst(Pipe.HandlerWrites(w, m, order), key, row);
    }
  }

  lemma ReadyStep(w: Pipe.World, c: Address, key: Key, s: Pipe.State, a: Pipe.Action)
    requires Pipe.Sound(w) && Credits(w.config, w.node, c, key) && Pipe.Enabled(w, s, a)
    requires a.Fetch? && c in a.order ==> a.order[0] == c
    requires Ready(s, key, AmountRow(w.config, w.node, c, key))
    ensures Ready(Pipe.Next(w, s, a), key, AmountRow(w.config, w.node, c, key))
  {
    match a {
      case Fetch(k, p, order) => HandlerFirst(w, c, key, s.topic[p][0], order);
      case _ =>
    }
  }

  /** Each walk of the world begins with the given address, if it is there. */
  ghost predicate WalksFrom(w: Pipe.World, c: Address)
  {
    forall h :: c in w.walk(h) ==> w.walk(h)[0] == c
  }

  lemma {:induction false} ReadyRun(w: Pipe.World, t: Flow.Topic, c: Address, key: Key, x: State, run: seq<Action>)
    requires Pipe.Sound(w) && WalksFrom(w, c) && Credits(w.config, w.node, c, key)
    requires Allowed(w, t, x, run) && AllWalked(w, run) && Ready(x.pipe, key, AmountRow(w.config, w.node, c, key))
    ensures Ready(Exec(w, t, x, run).pipe, key, AmountRow(w.config, w.node, c, key))
    decreases |run|
  {
    if run != [] {
      assert run[0] in run && forall a :: a in run[1..] ==> a in run;
      if PipePart(x, run[0]).Some? {
        ReadyStep(w, c, key, x.pipe, PipePart(x, run[0]).value);
      }
      ReadyRun(w, t, c, key, Next(w, t, x, run[0]), run[1..]);
    }
  }

  // ---- a row that is to be written under a new key means that some row will be ----

  ghost predicate Alive(w: Pipe.World, s: Pipe.State, key: Key)
  {
    key in s.store.rows || exists row :: Pending(w, s, Put(key, row))
  }

  lemma PendingStays(w: Pipe.World, s: Pipe.State, a: Pipe.Action, wr: Write)
    requires Pipe.Sound(w) && Pipe.Enabled(w, s, a) && !a.Lose? && !a.Redeliver? && !a.Crash?
    requires wr.Put? && Pending(w, s, wr)
    ensures Pending(w, Pipe.Next(w, s, a), wr) || wr.key in Pipe.Next(w, s, a).store.rows
  {
    match a {
      case Produce(i) =>
        var row := Pipe.BlockRowWrite(w, s.tasks[i].mode, s.tasks[i].next);
        ProducedTaskWrites(w, s.tasks[i], wr);
        TaskReplaced(w, s.tasks, i, Pipe.AfterProduce(w, s.tasks[i]), wr, wr == row);
      case Send(i, p, k) =>
        SendConserves(w, s.(lost := {}), i, p, k, wr);
        assert AccountedFor(w, s.(lost := {}), wr);
      case Fetch(c, p, order) =>
        FetchConserves(w, s.(lost := {}), c, p, order, wr);
        assert AccountedFor(w, s.(lost := {}), wr);
      case InsertRow(c) =>
        InsertedOrPending(w, s, c, wr);
      case Return(c) =>
        WorkerReplaced(s.workers, c, Pipe.Idle, wr, false);
    }
  }

  lemma InsertedOrPending(w: Pipe.World, s: Pipe.State, c: nat, wr: Write)
    requires Pipe.Enabled(w, s, Pipe.InsertRow(c)) && wr.Put? && Pending(w, s, wr)
    ensures var s' := Pipe.Next(w, s, Pipe.InsertRow(c)); Pending(w, s', wr) || wr.key in s'.store.rows
  {
    var b := s.workers[c];
    assert [b.todo[0]] + b.todo[1..] == b.todo;
    assert wr in b.todo <==> wr == b.todo[0] || wr in b.todo[1..];
    WorkerReplaced(s.workers, c, Pipe.Busy(b.message, b.todo[1..]), wr, wr == b.todo[0]);
  }

  lemma AliveStep(w: Pipe.World, s: Pipe.State, a: Pipe.Action, key: Key)
    requires Pipe.Sound(w) && Pipe.Enabled(w, s, a) && !a.Lose? && !a.Redeliver? && !a.Crash? && Alive(w, s, key)
    ensures Alive(w, Pipe.Next(w, s, a), key)
  {
    if row :| Pending(w, s, Put(key, row)) {
      PendingStays(w, s, a, Put(key, row));
    }
  }

  lemma {:induction false} AliveRun(w: Pipe.World, t: Flow.Topic, key: Key, x: State, run: seq<Action>)
    requires Pipe.Sound(w) && Allowed(w, t, x, run) && FaultFree(run) && Alive(w, x.pipe, key)
    ensures Alive(w, Exec(w, t, x, run).pipe, key)
    decreases |run|
  {
    if run != [] {
      assert run[0] in run && forall a :: a in run[1..] ==> a in run;
      if PipePart(x, run[0]).Some? {
        AliveStep(w, x.pipe, PipePart(x, run[0]).value, key);
      }
      AliveRun(w, t, key, Next(w, t, x, run[0]), run[1..]);
    }
  }

  // ---- runs do not depend on how the sequential loop would walk ----

  /** The two worlds differ at most in the walks of their sequential loops. */
  ghost predicate SameButWalks(w: Pipe.World, v: Pipe.World)
  {
    v == w.(walk := v.walk)
  }

  lemma SameStep(w: Pipe.World, v: Pipe.World, s: Pipe.State, a: Pipe.Action)
    requires SameButWalks(w, v)
    ensures Pipe.Enabled(w, s, a) <==> Pipe.Enabled(v, s, a)
    ensures Pipe.Enabled(w, s, a) ==> Pipe.Next(w, s, a) == Pipe.Next(v, s, a)
  {
  }

  lemma {:induction false} SameRun(w: Pipe.World, v: Pipe.World, t: Flow.Topic, x: State, run: seq<Action>)
    requires SameButWalks(w, v) && Allowed(v, t, x, run)
    ensures Allowed(w, t, x, run) && Exec(w, t, x, run) == Exec(v, t, x, run)
    decreases |run|
  {
    if run != [] {
      if PipePart(x, run[0]).Some? {
        SameStep(w, v, x.pipe, PipePart(x, run[0]).value);
      }
      SameRun(w, v, t, Next(v, t, x, run[0]), run[1..]);
    }
  }

  // ---- every row the sequential loop writes can be the one that is stored ----

  /** Some run under the limiter is drained and leaves this row. */
  ghost predicate CanWin(w: Pipe.World, t: Flow.Topic, x: State, wr: Write)
  {
    exists run :: Allowed(w, t, x, run) && FaultFree(run) && Drained(w, Exec(w, t, x, run))
                  && RowStored(Exec(w, t, x, run).pipe.store, wr)
  }

  lemma SupplyRowIsLeft(w: Pipe.World, t: Flow.Topic, tasks: seq<Pipe.Task>, base: Store, x: State, c: Address,
                      key: Key)
    requires Pipe.Sound(w) && WalksFrom(w, c) && Initial(w, t, tasks, base, x)
    requires key !in base.rows && Credits(w.config, w.node, c, key)
    requires Listed(w, tasks, Pipe.Message(Partial, key.hash))
    ensures CanWin(w, t, x, Put(key, AmountRow(w.config, w.node, c, key)))
  {
    var row := AmountRow(w.config, w.node, c, key);
    SupplyRowsOfMessage(w, Pipe.Message(Partial, key.hash), key, row);
    TargetsAre(w, tasks, Put(key, row));
    assert Pending(w, x.pipe, Put(key, row));
    LinkedAtFirst(w, t, tasks, base, x);
    var run, e := DrainCalm(w, t, x);
    ReadyRun(w, t, c, key, x, run);
    AliveRun(w, t, key, x, run);
    if r :| Pending(w, e.pipe, Put(key, r)) {
      DrainedIsDone(w, e.pipe, Put(key, r));
    }
  }

  /** The same world, with walks that begin with the given address wherever they can. */
  lemma Rewalked(w: Pipe.World, c: Address) returns (v: Pipe.World)
    requires Pipe.Sound(w)
    ensures SameButWalks(w, v) && WalksFrom(v, c) && Pipe.Sound(v)
  {
    v := w.(walk := (h: Hash) => WalkFrom(c, w.node(h).receipt.logs));
    forall h
      ensures Walks(v.walk(h), v.node(h).receipt.logs) && (c in v.walk(h) ==> v.walk(h)[0] == c)
    {
      assert v.walk(h) == WalkFrom(c, w.node(h).receipt.logs);
    }
  }

  /** A supply row of the sequential loop is that of a contract, for a transaction that some partial task lists. */
  lemma TargetSupplyRow(w: Pipe.World, tasks: seq<Pipe.Task>, key: Key, row: Row) returns (c: Address)
    requires Pipe.Sound(w) && key.SupplyKey? && Target(w, tasks, Put(key, row))
    ensures Listed(w, tasks, Pipe.Message(Partial, key.hash))
    ensures Credits(w.config, w.node, c, key) && row == AmountRow(w.config, w.node, c, key)
  {
    TargetsAre(w, tasks, Put(key, row));
    var m :| Listed(w, tasks, m) && Put(key, row) in Pipe.MessageWrites(w, m);
    SupplyRowsOfMessage(w, m, key, row);
    c :| Credits(w.config, w.node, c, key)
         && row == SupplyRow(SupplyAmount(c, w.config[c], w.node(key.hash).receipt.logs));
  }

  lemma WinsInBoth(w: Pipe.World, v: Pipe.World, t: Flow.Topic, x: State, wr: Write)
    requires SameButWalks(w, v) && CanWin(v, t, x, wr)
    ensures CanWin(w, t, x, wr)
  {
    var run :| Allowed(v, t, x, run) && FaultFree(run) && Drained(v, Exec(v, t, x, run))
               && RowStored(Exec(v, t, x, run).pipe.store, wr);
    SameRun(w, v, t, x, run);
  }

  lemma SupplyRowCanWin(w: Pipe.World, t: Flow.Topic, tasks: seq<Pipe.Task>, base: Store, x: State, key: Key, row: Row)
    requires Pipe.Sound(w) && Initial(w, t, tasks, base, x)
    requires key.SupplyKey? && key !in base.rows && Target(w, tasks, Put(key, row))
    ensures CanWin(w, t, x, Put(key, row))
  {
    var c := TargetSupplyRow(w, tasks, key, row);
    var v := Rewalked(w, c);
    SameLists(w, v, tasks, Pipe.Message(Partial, key.hash));
    SupplyRowIsLeft(v, t, tasks, base, x, c, key);
    WinsInBoth(w, v, t, x, Put(key, row));
  }

  lemma SameLists(w: Pipe.World, v: Pipe.World, tasks: seq<Pipe.Task>, m: Pipe.Message)
    requires SameButWalks(w, v) && Listed(w, tasks, m)
    ensures Listed(v, tasks, m)
  {
    var i :| 0 <= i < |tasks| && Lists(w, tasks[i], m);
    forall n
      ensures Reaches(w, tasks[i], n) <==> Reaches(v, tasks[i], n)
    {
    }
    assert Lists(v, tasks[i], m);
  }

  lemma BlockRowCanWin(w: Pipe.World, t: Flow.Topic, tasks: seq<Pipe.Task>, base: Store, x: State, key: Key, row: Row)
    requires Pipe.Sound(w) && Initial(w, t, tasks, base, x)
    requires key.BlockKey? && key !in base.rows && Target(w, tasks, Put(key, row))
    ensures CanWin(w, t, x, Put(key, row))
  {
    var wr := Put(key, row);
    TargetsAre(w, tasks, wr);
    if m :| Listed(w, tasks, m) && wr in Pipe.MessageWrites(w, m) {
      MessageRowIsFaithful(w, m, wr);
    }
    var i: nat :| i < |tasks| && ScansRow(w, tasks[i], wr);
    var n :| Reaches(w, tasks[i], n) && wr == Pipe.BlockRowWrite(w, tasks[i].mode, n);
    TaskCanWin(w, t, tasks, base, x, i, n);
  }

  /** Where the sequential loop agrees with itself, every drained run stores its row. */
  lemma AgreedRowCanWin(w: Pipe.World, t: Flow.Topic, tasks: seq<Pipe.Task>, base: Store, x: State, key: Key, row: Row)
    requires Pipe.Sound(w) && Initial(w, t, tasks, base, x)
    requires Agrees(w, tasks, key) && key !in base.rows && Target(w, tasks, Put(key, row))
    ensures CanWin(w, t, x, Put(key, row))
  {
    LinkedAtFirst(w, t, tasks, base, x);
    var run, e := DrainCalm(w, t, x);
    DrainedIsExpected(w, t, tasks, base, x, run, key);
    SequentialRows(w, base, tasks, key);
  }

  /** Every row the sequential loop writes under a new key is the one left by some complete run under the limiter. */
  lemma RowCanWin(w: Pipe.World, t: Flow.Topic, tasks: seq<Pipe.Task>, base: Store, x: State, key: Key, row: Row)
    requires Pipe.Sound(w) && Initial(w, t, tasks, base, x)
    requires key !in base.rows && Target(w, tasks, Put(key, row))
    ensures CanWin(w, t, x, Put(key, row))
  {
    if key.BlockKey? {
      BlockRowCanWin(w, t, tasks, base, x, key, row);
    } else if key.SupplyKey? {
      SupplyRowCanWin(w, t, tasks, base, x, key, row);
    } else {
      AgreesExactlyWhen(w, tasks, key);
      AgreedRowCanWin(w, t, tasks, base, x, key, row);
    }
  }

  // ---- main results ----

  /** However a run under the limiter ends, it leaves the sequential loop's row under this key. */
  ghost predicate DeterministicAt(w: Pipe.World, t: Flow.Topic, base: Store, tasks: seq<Pipe.Task>, x: State, key: Key)
  {
    forall run :: Allowed(w, t, x, run) && Drained(w, Exec(w, t, x, run)) ==>
      AsExpected(w, base, tasks, Exec(w, t, x, run).pipe.store, key)
  }

  lemma {:induction false} NothingLost(w: Pipe.World, t: Flow.Topic, x: State, run: seq<Action>)
    requires Allowed(w, t, x, run)
    ensures Exec(w, t, x, run).pipe.lost == x.pipe.lost
    decreases |run|
  {
    if run != [] {
      NothingLost(w, t, Next(w, t, x, run[0]), run[1..]);
    }
  }

  lemma DrainedIsExpected(w: Pipe.World, t: Flow.Topic, tasks: seq<Pipe.Task>, base: Store, x: State, run: seq<Action>,
                          key: Key)
    requires Pipe.Sound(w) && Initial(w, t, tasks, base, x) && Certain(w, base, tasks, key)
    requires Allowed(w, t, x, run) && Drained(w, Exec(w, t, x, run))
    ensures AsExpected(w, base, tasks, Exec(w, t, x, run).pipe.store, key)
  {
    var pipeRun := RunIsAPipelineRun(w, t, x, run);
    NothingLost(w, t, x, run);
    EveryDrainedRunEqualsTheSequentialLoop(w, base, tasks, x.pipe, pipeRun, key);
  }

  /**
   * Key by key: every drained run under the limiter leaves the sequential loop's row if and only if the key is there
   * already, or the sequential loop writes one row only under it.
   */
  lemma DeterministicAtExactlyWhenCertain(w: Pipe.World, t: Flow.Topic, tasks: seq<Pipe.Task>, base: Store, x: State,
                                          key: Key)
    requires Pipe.Sound(w) && Initial(w, t, tasks, base, x)
    ensures DeterministicAt(w, t, base, tasks, x, key) <==> Certain(w, base, tasks, key)
  {
    if Certain(w, base, tasks, key) {
      forall run | Allowed(w, t, x, run) && Drained(w, Exec(w, t, x, run))
        ensures AsExpected(w, base, tasks, Exec(w, t, x, run).pipe.store, key)
      {
        DrainedIsExpected(w, t, tasks, base, x, run, key);
      }
    } else {
      var a, b :| Target(w, tasks, Put(key, a)) && Target(w, tasks, Put(key, b)) && a != b;
      RowCanWin(w, t, tasks, base, x, key, a);
      RowCanWin(w, t, tasks, base, x, key, b);
      TwoWinners(w, t, tasks, base, x, key, a, b);
    }
  }

  lemma TwoWinners(w: Pipe.World, t: Flow.Topic, tasks: seq<Pipe.Task>, base: Store, x: State, key: Key, a: Row, b: Row)
    requires CanWin(w, t, x, Put(key, a)) && CanWin(w, t, x, Put(key, b)) && a != b
    ensures !DeterministicAt(w, t, base, tasks, x, key)
  {
    var one :| Allowed(w, t, x, one) && FaultFree(one) && Drained(w, Exec(w, t, x, one))
               && RowStored(Exec(w, t, x, one).pipe.store, Put(key, a));
    var other :| Allowed(w, t, x, other) && FaultFree(other) && Drained(w, Exec(w, t, x, other))
                 && RowStored(Exec(w, t, x, other).pipe.store, Put(key, b));
    assert !(AsExpected(w, base, tasks, Exec(w, t, x, one).pipe.store, key)
             && AsExpected(w, base, tasks, Exec(w, t, x, other).pipe.store, key));
  }

  /**
   * All tables at once: every drained run under the limiter leaves the tables of the sequential loop if and only if no
   * two tasks insert different rewards for the same new block, and no contracts dispute a new supply key of a
   * transaction that a partial task lists. (A FULL and a PARTIAL scan over the same new block with a non-zero reward
   * insert different ones.)
   */
  lemma DeterministicExactlyWhen(w: Pipe.World, t: Flow.Topic, tasks: seq<Pipe.Task>, base: Store, x: State)
    requires Pipe.Sound(w) && Initial(w, t, tasks, base, x)
    ensures (forall key :: DeterministicAt(w, t, base, tasks, x, key)) <==>
            RewardsAgree(w, base, tasks) && SuppliesAgree(w, base, tasks)
  {
    AllCertainExactlyWhen(w, base, tasks);
    forall key
      ensures DeterministicAt(w, t, base, tasks, x, key) <==> Certain(w, base, tasks, key)
    {
      DeterministicAtExactlyWhenCertain(w, t, tasks, base, x, key);
    }
  }
}
