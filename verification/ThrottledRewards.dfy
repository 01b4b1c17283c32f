/** Each task that reaches a new block can be the one whose row for it is stored. */
module ThrottledRewards {
  import opened Database
  import Flow = FlowControl
  import Pipe = Pipeline
  import opened PipelineRefinement
  import opened PipelineTargets
  import opened PipelineOrder
  import opened Throttled
  import opened ThrottledInvariants
  import opened ThrottledProgress
  import opened ThrottledSettling

  lemma {:induction false} RowsStay(w: Pipe.World, s: Pipe.State, run: seq<Pipe.Action>, key: Key)
    requires Pipe.Allowed(w, s, run) && key in s.store.rows
    ensures key in Pipe.Exec(w, s, run).store.rows
    ensures Pipe.Exec(w, s, run).store.rows[key] == s.store.rows[key]
    decreases |run|
  {
    if run != [] {
      RowsStay(w, Pipe.Next(w, s, run[0]), run[1..], key);
    }
  }

  /** Only task `i` has read blocks so far. */
  ghost predicate OnlyMoved(tasks: seq<Pipe.Task>, x: State, i: nat)
  {
    && |x.pipe.tasks| == |tasks|
    && forall j :: 0 <= j < |tasks| && j != i ==> x.pipe.tasks[j].next == tasks[j].next
  }

  lemma StaysInIntervals(w: Pipe.World, t: Flow.Topic, base: Store, tasks: seq<Pipe.Task>, x: State, run: seq<Action>,
                         e: State)
    requires Pipe.Sound(w) && InIntervals(base, tasks, x.pipe) && RunsTo(w, t, x, run, e)
    ensures InIntervals(base, tasks, e.pipe)
  {
    var pipeRun := RunIsAPipelineRun(w, t, x, run);
    IntervalsRun(w, base, tasks, x.pipe, pipeRun);
  }

  /** The block before which task `i` stands has no row yet. */
  lemma NotReadYet(base: Store, tasks: seq<Pipe.Task>, x: State, i: nat, n: int)
    requires InIntervals(base, tasks, x.pipe) && OnlyMoved(tasks, x, i) && i < |tasks|
    requires x.pipe.tasks[i].next <= n && BlockKey(n) !in base.rows
    ensures BlockKey(n) !in x.pipe.store.rows
  {
    assert !IsRead(tasks, x.pipe, n);
  }

  lemma ReadInserts(w: Pipe.World, t: Flow.Topic, x: State, i: nat, e: State)
    requires Pipe.Sound(w) && Enabled(w, t, x, Read(i)) && e == Next(w, t, x, Read(i))
    ensures BlockKey(x.pipe.tasks[i].next) !in x.pipe.store.rows ==>
              RowStored(e.pipe.store, Pipe.BlockRowWrite(w, x.pipe.tasks[i].mode, x.pipe.tasks[i].next))
    ensures |e.pipe.tasks| == |x.pipe.tasks| && e.pipe.tasks[i].next == x.pipe.tasks[i].next + 1
    ensures e.pipe.tasks[i].last == x.pipe.tasks[i].last && e.pipe.tasks[i].mode == x.pipe.tasks[i].mode
    ensures forall j :: 0 <= j < |x.pipe.tasks| && j != i ==> e.pipe.tasks[j] == x.pipe.tasks[j]
  {
  }

  /** A task whose every call finds the topic drained inserts the row of any new block it reaches. */
  lemma {:induction false} TaskAloneInserts(w: Pipe.World, t: Flow.Topic, base: Store, tasks: seq<Pipe.Task>, x: State,
                                            i: nat, n: int)
    returns (run: seq<Action>, e: State)
    requires Regular(w, t, x) && Calm(t, x) && InIntervals(base, tasks, x.pipe) && OnlyMoved(tasks, x, i)
    requires i < |tasks| && Reaches(w, x.pipe.tasks[i], n) && BlockKey(n) !in base.rows
    ensures RunsTo(w, t, x, run, e) && Regular(w, t, e) && Calm(t, e)
    ensures RowStored(e.pipe.store, Pipe.BlockRowWrite(w, x.pipe.tasks[i].mode, n))
    decreases n - x.pipe.tasks[i].next
  {
    var first, y, z := SettleAndRead(w, t, base, tasks, x, i, n);
    if y.pipe.tasks[i].next == n {
      NotReadYet(base, tasks, y, i, n);
      run, e := first, z;
    } else {
      var rest;
      rest, e := TaskAloneInserts(w, t, base, tasks, z, i, n);
      Then(w, t, x, first, z, rest, e);
      run := first + rest;
    }
  }

  /** Everything comes to rest (`y`), then task `i` reads its next block (`z`). */
  lemma SettleAndRead(w: Pipe.World, t: Flow.Topic, base: Store, tasks: seq<Pipe.Task>, x: State, i: nat, n: int)
    returns (run: seq<Action>, y: State, z: State)
    requires Regular(w, t, x) && Calm(t, x) && InIntervals(base, tasks, x.pipe) && OnlyMoved(tasks, x, i)
    requires i < |tasks| && Reaches(w, x.pipe.tasks[i], n)
    ensures RunsTo(w, t, x, run, z) && Regular(w, t, z) && Calm(t, z)
    ensures InIntervals(base, tasks, y.pipe) && OnlyMoved(tasks, y, i) && y.pipe.tasks[i].next == x.pipe.tasks[i].next
    ensures InIntervals(base, tasks, z.pipe) && OnlyMoved(tasks, z, i)
    ensures z.pipe.tasks[i].next == x.pipe.tasks[i].next + 1
    ensures z.pipe.tasks[i].last == x.pipe.tasks[i].last && z.pipe.tasks[i].mode == x.pipe.tasks[i].mode
    ensures BlockKey(y.pipe.tasks[i].next) !in y.pipe.store.rows ==>
              w.chain(y.pipe.tasks[i].next).Some?
              && RowStored(z.pipe.store, Pipe.BlockRowWrite(w, x.pipe.tasks[i].mode, y.pipe.tasks[i].next))
  {
    var first;
    first, y := SettleOnly(w, t, base, tasks, x, i);
    assert Reaches(w, y.pipe.tasks[i], n);
    z := ReadAlone(w, t, base, tasks, y, i, n);
    Then(w, t, x, first, y, [Read(i)], z);
    run := first + [Read(i)];
  }

  lemma ReadAlone(w: Pipe.World, t: Flow.Topic, base: Store, tasks: seq<Pipe.Task>, y: State, i: nat, n: int)
    returns (z: State)
    requires Regular(w, t, y) && Settled(y) && InIntervals(base, tasks, y.pipe) && OnlyMoved(tasks, y, i)
    requires i < |tasks| && Reaches(w, y.pipe.tasks[i], n)
    ensures RunsTo(w, t, y, [Read(i)], z) && Regular(w, t, z) && Calm(t, z)
    ensures InIntervals(base, tasks, z.pipe) && OnlyMoved(tasks, z, i)
    ensures z.pipe.tasks[i].next == y.pipe.tasks[i].next + 1
    ensures z.pipe.tasks[i].last == y.pipe.tasks[i].last && z.pipe.tasks[i].mode == y.pipe.tasks[i].mode
    ensures BlockKey(y.pipe.tasks[i].next) !in y.pipe.store.rows ==>
              w.chain(y.pipe.tasks[i].next).Some?
              && RowStored(z.pipe.store, Pipe.BlockRowWrite(w, y.pipe.tasks[i].mode, y.pipe.tasks[i].next))
  {
    assert w.chain(y.pipe.tasks[i].next).Some?;
    z := ReadNext(w, t, y, i);
    ReadInserts(w, t, y, i, z);
    StaysInIntervals(w, t, base, tasks, y, [Read(i)], z);
  }

  lemma SettleOnly(w: Pipe.World, t: Flow.Topic, base: Store, tasks: seq<Pipe.Task>, x: State, i: nat)
    returns (run: seq<Action>, y: State)
    requires Regular(w, t, x) && Calm(t, x) && InIntervals(base, tasks, x.pipe) && OnlyMoved(tasks, x, i)
    requires i < |tasks|
    ensures RunsTo(w, t, x, run, y) && Regular(w, t, y) && Settled(y)
    ensures InIntervals(base, tasks, y.pipe) && OnlyMoved(tasks, y, i) && y.pipe.tasks[i].next == x.pipe.tasks[i].next
    ensures y.pipe.tasks[i].last == x.pipe.tasks[i].last && y.pipe.tasks[i].mode == x.pipe.tasks[i].mode
  {
    run, y := Settle(w, t, x);
    StaysInIntervals(w, t, base, tasks, x, run, y);
  }

  /** Some complete run under the limiter ends with the block's row as this task inserts it. */
  lemma TaskCanWin(w: Pipe.World, t: Flow.Topic, tasks: seq<Pipe.Task>, base: Store, x: State, i: nat, n: int)
    requires Pipe.Sound(w) && Initial(w, t, tasks, base, x)
    requires i < |tasks| && Reaches(w, tasks[i], n) && BlockKey(n) !in base.rows
    ensures exists run, e :: RunsTo(w, t, x, run, e) && Drained(w, e)
                             && RowStored(e.pipe.store, Pipe.BlockRowWrite(w, tasks[i].mode, n))
  {
    var row := Pipe.BlockRowWrite(w, tasks[i].mode, n);
    LinkedAtFirst(w, t, tasks, base, x);
    var first, y := TaskAloneInserts(w, t, base, tasks, x, i, n);
    var second, e := DrainCalm(w, t, y);
    var pipeRun := RunIsAPipelineRun(w, t, y, second);
    RowsStay(w, y.pipe, pipeRun, row.key);
    Then(w, t, x, first, y, second, e);
  }
}
