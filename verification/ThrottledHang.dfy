/** Exactly which scans may never finish, for any number of producer tasks. */
module ThrottledHang {
  import opened Sums
  import opened Database
  import opened Producer
  import opened KafkaProducer
  import opened CapacityReached
  import Flow = FlowControl
  import Pipe = Pipeline
  import opened Throttled
  import opened ThrottledInvariants
  import opened ThrottledMeasure
  import opened ThrottledProgress
  import opened ThrottledSettling
  import opened ThrottledDraining

  /** The messages the task has still to send. */
  function Left(w: Pipe.World, task: Pipe.Task): nat
  {
    |task.batch| + MessagesAhead(w, task.next, task.last)
  }

  function LeftOf(w: Pipe.World): Pipe.Task -> nat
  {
    task => Left(w, task)
  }

  function AllLeft(w: Pipe.World, tasks: seq<Pipe.Task>): nat
  {
    Weight(LeftOf(w), tasks)
  }

  /** The task has, or will read, a list of messages, and `rest` messages to send from that list on. */
  ghost predicate HasList(w: Pipe.World, task: Pipe.Task, rest: nat)
  {
    (task.batch != [] && rest == Left(w, task)) || exists b :: HasBlock(w, task, b, rest)
  }

  ghost predicate HasBlock(w: Pipe.World, task: Pipe.Task, b: int, rest: nat)
  {
    && task.next <= b <= task.last && Exists(w.chain, task.next, b + 1)
    && w.chain(b).value.transactions != [] && rest == MessagesAhead(w, b, task.last)
  }

  /** More messages than the topic may hold can have been sent before some list is. */
  ghost predicate MayHang(w: Pipe.World, t: Flow.Topic, tasks: seq<Pipe.Task>)
  {
    exists i, rest :: 0 <= i < |tasks| && HasList(w, tasks[i], rest) && AllLeft(w, tasks) - rest > Capacity(t.n)
  }

  ghost predicate HangsAfter(w: Pipe.World, t: Flow.Topic, x: State, run: seq<Action>)
  {
    && Allowed(w, t, x, run)
    && |Exec(w, t, x, run).flow.producers| == |Exec(w, t, x, run).pipe.tasks|
    && Hung(w, t, Exec(w, t, x, run))
  }

  lemma {:induction false} OneOfAll(w: Pipe.World, tasks: seq<Pipe.Task>, i: nat)
    requires i < |tasks|
    ensures Left(w, tasks[i]) <= AllLeft(w, tasks)
  {
    if i > 0 {
      OneOfAll(w, tasks[1..], i - 1);
    }
  }

  // ---- a call that stalled was overtaxed ----

  /** How far the task is since `start`; while a call waits at the limiter, its whole list is still to be sent. */
  ghost predicate Follows(w: Pipe.World, start: Pipe.Task, q: Flow.Producer, task: Pipe.Task)
  {
    && start.next <= task.next && task.last == start.last && Exists(w.chain, start.next, task.next)
    && ((q.Resting? || q.Asking? || q.Told?) && task.batch != [] ==> HasList(w, start, Left(w, task)))
  }

  /** No total told to the task exceeds what all tasks can have sent by then; `all` is what they had to send. */
  ghost predicate Explained(w: Pipe.World, t: Flow.Topic, all: nat, start: Pipe.Task, q: Flow.Producer, task: Pipe.Task)
  {
    && Follows(w, start, q, task)
    && match q
       case Asking(_, stalls) => stalls > 0 ==> all - Left(w, task) > Capacity(t.n)
       case Told(_, stalls, told) =>
         told <= all - Left(w, task) && (stalls > 0 ==> all - Left(w, task) > Capacity(t.n))
       case _ => true
  }

  lemma ReadHasList(w: Pipe.World, start: Pipe.Task, task: Pipe.Task)
    requires start.next <= task.next <= task.last && task.last == start.last && task.batch == []
    requires Exists(w.chain, start.next, task.next) && w.chain(task.next).Some?
    ensures var task' := Pipe.AfterProduce(w, task);
            Left(w, task') == Left(w, task) && (task'.batch != [] ==> HasList(w, start, Left(w, task')))
  {
    var task' := Pipe.AfterProduce(w, task);
    if task'.batch != [] {
      assert HasBlock(w, start, task.next, Left(w, task'));
    }
  }

  lemma MovedTaskIsExplained(w: Pipe.World, t: Flow.Topic, all: nat, start: Pipe.Task, total: int, a: Action,
                             q: Flow.Producer, task: Pipe.Task, q': Flow.Producer, task': Pipe.Task)
    requires TaskMoves(w, t, total, a, q, task, q', task') && TaskLinked(t, q, task)
    requires Explained(w, t, all, start, q, task) && total <= all - Left(w, task)
    ensures Explained(w, t, all, start, q', task')
    ensures Left(w, task') == Left(w, task) - if a.Deliver? then q.batch else 0
  {
    if a.Read? {
      ReadHasList(w, start, task);
    }
  }

  /** What is counted, delivered or still to be sent never adds up to more than there was. */
  ghost predicate Accounted(w: Pipe.World, all: nat, x: State)
  {
    TotalCount(x) + Total(Flow.DeliveredByAlls(x.flow.producers)) + AllLeft(w, x.pipe.tasks) <= all
  }

  ghost predicate AllExplained(w: Pipe.World, t: Flow.Topic, all: nat, tasks: seq<Pipe.Task>, x: State)
  {
    && |x.flow.producers| == |x.pipe.tasks| == |tasks|
    && forall i :: 0 <= i < |tasks| ==> Explained(w, t, all, tasks[i], x.flow.producers[i], x.pipe.tasks[i])
  }

  lemma TotalIsSent(w: Pipe.World, all: nat, x: State, i: nat)
    requires Accounted(w, all, x) && i < |x.pipe.tasks|
    ensures TotalCount(x) <= all - Left(w, x.pipe.tasks[i])
  {
    OneOfAll(w, x.pipe.tasks, i);
    Flow.AllNonNegative(Flow.DeliveredByAlls(x.flow.producers));
  }

  /** Task `i` and its call are as given; the other tasks and calls are as they were. */
  ghost predicate Replaced(x: State, i: nat, q: Flow.Producer, task: Pipe.Task, e: State)
  {
    && i < |x.pipe.tasks| == |x.flow.producers|
    && e.flow.producers == x.flow.producers[i := q] && e.pipe.tasks == x.pipe.tasks[i := task]
  }

  lemma TaskFacts(w: Pipe.World, t: Flow.Topic, x: State, a: Action, i: nat)
    requires Linked(w, t, x) && Enabled(w, t, x, a) && TaskOf(a) == i
    ensures var e := Next(w, t, x, a);
            && i < |x.flow.producers| && i < |e.pipe.tasks| && i < |e.flow.producers|
            && Replaced(x, i, e.flow.producers[i], e.pipe.tasks[i], e)
            && TaskMoves(w, t, TotalCount(x), a, x.flow.producers[i], x.pipe.tasks[i],
                         e.flow.producers[i], e.pipe.tasks[i])
            && TotalCount(e) == TotalCount(x) + (if a.Count? then x.flow.producers[i].batch else 0)
            && e.flow.uncounted == x.flow.uncounted
  {
    var e := Next(w, t, x, a);
    OthersStay(w, t, x, a);
    TaskAfter(w, t, x, a, i);
    TotalCountAfter(w, t, x, a);
    TaskCountsAll(w, t, x, a);
    assert e.flow.producers == x.flow.producers[i := e.flow.producers[i]];
    assert e.pipe.tasks == x.pipe.tasks[i := e.pipe.tasks[i]];
  }

  lemma TaskCountsAll(w: Pipe.World, t: Flow.Topic, x: State, a: Action)
    requires Enabled(w, t, x, a) && TaskOf(a) != -1
    ensures Next(w, t, x, a).flow.uncounted == x.flow.uncounted
  {
  }

  lemma TaskIsAccounted(w: Pipe.World, t: Flow.Topic, all: nat, start: Pipe.Task, x: State, a: Action, i: nat)
    requires Linked(w, t, x) && Enabled(w, t, x, a) && TaskOf(a) == i && i < |x.pipe.tasks|
    requires Accounted(w, all, x) && Explained(w, t, all, start, x.flow.producers[i], x.pipe.tasks[i])
    ensures var x' := Next(w, t, x, a);
            && |x'.flow.producers| == |x'.pipe.tasks| == |x.pipe.tasks|
            && Accounted(w, all, x') && Explained(w, t, all, start, x'.flow.producers[i], x'.pipe.tasks[i])
  {
    var x' := Next(w, t, x, a);
    TaskFacts(w, t, x, a, i);
    TotalIsSent(w, all, x, i);
    assert TaskLinked(t, x.flow.producers[i], x.pipe.tasks[i]);
    var q', task' := x'.flow.producers[i], x'.pipe.tasks[i];
    MovedTaskIsExplained(w, t, all, start, TotalCount(x), a, x.flow.producers[i], x.pipe.tasks[i], q', task');
    ReplacedAccounts(w, t, x, i, q', task', x');
  }

  /** Replacing one task moves what is left and what is delivered by its own share. */
  lemma ReplacedAccounts(w: Pipe.World, t: Flow.Topic, x: State, i: nat, q: Flow.Producer, task: Pipe.Task, e: State)
    requires Replaced(x, i, q, task, e)
    ensures AllLeft(w, e.pipe.tasks) == AllLeft(w, x.pipe.tasks) + Left(w, task) - Left(w, x.pipe.tasks[i])
    ensures Total(Flow.DeliveredByAlls(e.flow.producers)) == Total(Flow.DeliveredByAlls(x.flow.producers))
                                                             + Flow.DeliveredByAll(q)
                                                             - Flow.DeliveredByAll(x.flow.producers[i])
  {
    WeightUpdate(LeftOf(w), x.pipe.tasks, i, task);
    Flow.ProducerUpdate(t, x.flow.producers, i, q, 0);
  }

  lemma ExplainedStep(w: Pipe.World, t: Flow.Topic, all: nat, tasks: seq<Pipe.Task>, x: State, a: Action)
    requires Linked(w, t, x) && Enabled(w, t, x, a) && Accounted(w, all, x) && AllExplained(w, t, all, tasks, x)
    ensures Accounted(w, all, Next(w, t, x, a)) && AllExplained(w, t, all, tasks, Next(w, t, x, a))
  {
    var x' := Next(w, t, x, a);
    OthersStay(w, t, x, a);
    if TaskOf(a) != -1 {
      var i := TaskOf(a);
      TaskFacts(w, t, x, a, i);
      TaskIsAccounted(w, t, all, tasks[i], x, a, i);
    } else {
      ConsumersLeaveAccounts(w, t, all, x, a);
    }
    forall i | 0 <= i < |tasks|
      ensures Explained(w, t, all, tasks[i], x'.flow.producers[i], x'.pipe.tasks[i])
    {
      assert Explained(w, t, all, tasks[i], x.flow.producers[i], x.pipe.tasks[i]);
    }
  }

  lemma ConsumersLeaveAccounts(w: Pipe.World, t: Flow.Topic, all: nat, x: State, a: Action)
    requires Linked(w, t, x) && Enabled(w, t, x, a) && TaskOf(a) == -1 && Accounted(w, all, x)
    ensures Accounted(w, all, Next(w, t, x, a))
  {
    var x' := Next(w, t, x, a);
    OthersStay(w, t, x, a);
    TotalCountAfter(w, t, x, a);
    assert x'.flow.producers == x.flow.producers && x'.pipe.tasks == x.pipe.tasks;
  }

  lemma {:induction false} ExplainedRun(w: Pipe.World, t: Flow.Topic, all: nat, tasks: seq<Pipe.Task>, x: State,
                                        run: seq<Action>)
    requires Linked(w, t, x) && Counted(x) && Allowed(w, t, x, run)
    requires Accounted(w, all, x) && AllExplained(w, t, all, tasks, x)
    ensures Linked(w, t, Exec(w, t, x, run)) && AllExplained(w, t, all, tasks, Exec(w, t, x, run))
    decreases |run|
  {
    if run != [] {
      LinkedStep(w, t, x, run[0]);
      ExplainedStep(w, t, all, tasks, x, run[0]);
      ExplainedRun(w, t, all, tasks, Next(w, t, x, run[0]), run[1..]);
    }
  }

  lemma ExplainedAtFirst(w: Pipe.World, t: Flow.Topic, tasks: seq<Pipe.Task>, base: Store, x: State)
    requires Initial(w, t, tasks, base, x)
    ensures Linked(w, t, x) && Counted(x) && TotalCount(x) == 0
    ensures Accounted(w, AllLeft(w, tasks), x) && AllExplained(w, t, AllLeft(w, tasks), tasks, x)
  {
    LinkedAtFirst(w, t, tasks, base, x);
    SumValuesZero(x.flow.scores);
    Flow.AllZero(Flow.DeliveredByAlls(x.flow.producers));
  }

  lemma StalledIsOvertaxed(w: Pipe.World, t: Flow.Topic, tasks: seq<Pipe.Task>, e: State, i: nat)
    requires Linked(w, t, e) && AllExplained(w, t, AllLeft(w, tasks), tasks, e)
    requires i < |tasks| && Stalled(t, e.flow.producers[i])
    ensures MayHang(w, t, tasks)
  {
    assert TaskLinked(t, e.flow.producers[i], e.pipe.tasks[i]);
    assert Explained(w, t, AllLeft(w, tasks), tasks[i], e.flow.producers[i], e.pipe.tasks[i]);
    assert HasList(w, tasks[i], Left(w, e.pipe.tasks[i]));
  }

  lemma HangWasOvertaxed(w: Pipe.World, t: Flow.Topic, tasks: seq<Pipe.Task>, base: Store, x: State, run: seq<Action>)
    requires Initial(w, t, tasks, base, x) && HangsAfter(w, t, x, run)
    ensures MayHang(w, t, tasks)
  {
    ExplainedAtFirst(w, t, tasks, base, x);
    ExplainedRun(w, t, AllLeft(w, tasks), tasks, x, run);
    HungIsOvertaxed(w, t, tasks, Exec(w, t, x, run));
  }

  lemma HungIsOvertaxed(w: Pipe.World, t: Flow.Topic, tasks: seq<Pipe.Task>, e: State)
    requires Linked(w, t, e) && AllExplained(w, t, AllLeft(w, tasks), tasks, e) && Hung(w, t, e)
    ensures MayHang(w, t, tasks)
  {
    var i: nat :| i < |e.flow.producers| && Stalled(t, e.flow.producers[i]);
    StalledIsOvertaxed(w, t, tasks, e, i);
  }

  // ---- overtaxed tasks can hang ----

  /** Nothing came back uncounted. */
  ghost predicate Undisturbed(w: Pipe.World, t: Flow.Topic, x: State)
  {
    Regular(w, t, x) && forall p :: 0 <= p < |x.flow.uncounted| ==> x.flow.uncounted[p] == 0
  }

  /** One step of task `i`. */
  lemma TaskOne(w: Pipe.World, t: Flow.Topic, x: State, a: Action, i: nat) returns (e: State)
    requires Undisturbed(w, t, x) && Enabled(w, t, x, a) && TaskOf(a) == i
    ensures RunsTo(w, t, x, [a], e) && Undisturbed(w, t, e)
    ensures i < |x.flow.producers| && i < |e.pipe.tasks| && i < |e.flow.producers|
    ensures Replaced(x, i, e.flow.producers[i], e.pipe.tasks[i], e)
    ensures TaskMoves(w, t, TotalCount(x), a, x.flow.producers[i], x.pipe.tasks[i],
                      e.flow.producers[i], e.pipe.tasks[i])
    ensures TotalCount(e) == TotalCount(x) + if a.Count? then x.flow.producers[i].batch else 0
    ensures if Fruitless(t, x, a) then StillAhead(e) == StillAhead(x) else Less(StillAhead(e), StillAhead(x))
  {
    One(w, t, x, a);
    TaskFacts(w, t, x, a, i);
    e := Next(w, t, x, a);
  }

  lemma ReplacedTwice(x: State, i: nat, q: Flow.Producer, task: Pipe.Task, y: State, q': Flow.Producer,
                      task': Pipe.Task, e: State)
    requires Replaced(x, i, q, task, y) && Replaced(y, i, q', task', e)
    ensures Replaced(x, i, q', task', e)
  {
  }

  /** The next batch of an admitted call reaches the broker. */
  lemma DeliverBatch(w: Pipe.World, t: Flow.Topic, x: State, i: nat) returns (run: seq<Action>, e: State)
    requires Undisturbed(w, t, x) && i < |x.flow.producers| && x.flow.producers[i].Admitted?
    requires x.flow.producers[i].rest > 0
    ensures RunsTo(w, t, x, run, e) && Undisturbed(w, t, e) && TotalCount(e) == TotalCount(x)
    ensures i < |e.flow.producers| && i < |e.pipe.tasks| && e.flow.producers[i].Delivered?
    ensures Replaced(x, i, e.flow.producers[i], e.pipe.tasks[i], e)
    ensures e.pipe.tasks[i].(batch := []) == x.pipe.tasks[i].(batch := []) && e.flow.producers[i].batch > 0
    ensures |e.pipe.tasks[i].batch| + e.flow.producers[i].batch == |x.pipe.tasks[i].batch|
  {
    var p, y := ChooseOne(w, t, x, i);
    assert TaskLinked(t, y.flow.producers[i], y.pipe.tasks[i]);
    var a := CallOn(w, t, y, i);
    e := TaskOne(w, t, y, a, i);
    ReplacedTwice(x, i, y.flow.producers[i], y.pipe.tasks[i], y, e.flow.producers[i], e.pipe.tasks[i], e);
    Then(w, t, x, [Choose(i, p)], y, [a], e);
    run := [Choose(i, p)] + [a];
  }

  lemma ChooseOne(w: Pipe.World, t: Flow.Topic, x: State, i: nat) returns (p: nat, e: State)
    requires Undisturbed(w, t, x) && i < |x.flow.producers| && x.flow.producers[i].Admitted?
    requires x.flow.producers[i].rest > 0
    ensures RunsTo(w, t, x, [Choose(i, p)], e) && Undisturbed(w, t, e) && TotalCount(e) == TotalCount(x)
    ensures i < |e.flow.producers| && e.flow.producers[i].Bound?
    ensures Replaced(x, i, e.flow.producers[i], x.pipe.tasks[i], e)
  {
    assert TaskLinked(t, x.flow.producers[i], x.pipe.tasks[i]);
    p := SomePick(t, x.flow);
    e := TaskOne(w, t, x, Choose(i, p), i);
  }

  lemma SendOneBatch(w: Pipe.World, t: Flow.Topic, x: State, i: nat)
    returns (run: seq<Action>, e: State, task: Pipe.Task)
    requires Undisturbed(w, t, x) && i < |x.flow.producers| && x.flow.producers[i].Admitted?
    requires x.flow.producers[i].rest > 0
    ensures RunsTo(w, t, x, run, e) && Undisturbed(w, t, e)
    ensures Replaced(x, i, Flow.Admitted(|task.batch|), task, e)
    ensures |task.batch| < |x.pipe.tasks[i].batch| && task.(batch := []) == x.pipe.tasks[i].(batch := [])
    ensures TotalCount(e) + |task.batch| == TotalCount(x) + |x.pipe.tasks[i].batch|
  {
    var first, y := DeliverBatch(w, t, x, i);
    task := y.pipe.tasks[i];
    assert TaskLinked(t, y.flow.producers[i], task);
    e := TaskOne(w, t, y, Count(i), i);
    ReplacedTwice(x, i, y.flow.producers[i], task, y, e.flow.producers[i], task, e);
    Then(w, t, x, first, y, [Count(i)], e);
    run := first + [Count(i)];
  }

  /** An admitted call hands over all its messages and returns. */
  lemma {:induction false} SendRest(w: Pipe.World, t: Flow.Topic, x: State, i: nat) returns (run: seq<Action>, e: State)
    requires Undisturbed(w, t, x) && i < |x.flow.producers| && x.flow.producers[i].Admitted?
    ensures RunsTo(w, t, x, run, e) && Undisturbed(w, t, e)
    ensures Replaced(x, i, Flow.Resting, x.pipe.tasks[i].(batch := []), e)
    ensures TotalCount(e) == TotalCount(x) + |x.pipe.tasks[i].batch|
    decreases |x.pipe.tasks[i].batch|
  {
    assert TaskLinked(t, x.flow.producers[i], x.pipe.tasks[i]);
    if x.flow.producers[i].rest == 0 {
      e := TaskOne(w, t, x, Finish(i), i);
      run := [Finish(i)];
    } else {
      var first, y, task := SendOneBatch(w, t, x, i);
      var rest;
      rest, e := SendRest(w, t, y, i);
      ReplacedTwice(x, i, Flow.Admitted(|task.batch|), task, y, Flow.Resting, task.(batch := []), e);
      Then(w, t, x, first, y, rest, e);
      run := first + rest;
    }
  }

  /** A call made at a total within capacity goes through. */
  lemma SendCall(w: Pipe.World, t: Flow.Topic, x: State, i: nat) returns (run: seq<Action>, e: State)
    requires Undisturbed(w, t, x) && i < |x.flow.producers| && x.flow.producers[i].Resting?
    requires x.pipe.tasks[i].batch != [] && TotalCount(x) <= Capacity(t.n)
    ensures RunsTo(w, t, x, run, e) && Undisturbed(w, t, e)
    ensures Replaced(x, i, Flow.Resting, x.pipe.tasks[i].(batch := []), e)
    ensures TotalCount(e) == TotalCount(x) + |x.pipe.tasks[i].batch|
  {
    var first, y := AdmitNow(w, t, x, i);
    var rest;
    rest, e := SendRest(w, t, y, i);
    ReplacedTwice(x, i, y.flow.producers[i], x.pipe.tasks[i], y, Flow.Resting, x.pipe.tasks[i].(batch := []), e);
    Then(w, t, x, first, y, rest, e);
    run := first + rest;
  }

  lemma AdmitNow(w: Pipe.World, t: Flow.Topic, x: State, i: nat) returns (run: seq<Action>, e: State)
    requires Undisturbed(w, t, x) && i < |x.flow.producers| && x.flow.producers[i].Resting?
    requires x.pipe.tasks[i].batch != [] && TotalCount(x) <= Capacity(t.n)
    ensures RunsTo(w, t, x, run, e) && Undisturbed(w, t, e)
    ensures i < |e.flow.producers| && e.flow.producers[i].Admitted? && TotalCount(e) == TotalCount(x)
    ensures Replaced(x, i, e.flow.producers[i], x.pipe.tasks[i], e)
  {
    var y := CallOne(w, t, x, i);
    e := Poll(w, t, y, i);
    Then(w, t, x, [Call(i)], y, [Ask(i)] + [Judge(i)], e);
    run := [Call(i)] + ([Ask(i)] + [Judge(i)]);
  }

  /** A call made at a total over capacity goes to sleep. */
  lemma StallCall(w: Pipe.World, t: Flow.Topic, x: State, i: nat) returns (run: seq<Action>, e: State)
    requires Undisturbed(w, t, x) && i < |x.flow.producers| && x.flow.producers[i].Resting?
    requires x.pipe.tasks[i].batch != [] && TotalCount(x) > Capacity(t.n)
    ensures RunsTo(w, t, x, run, e) && Undisturbed(w, t, e) && Less(StillAhead(e), StillAhead(x))
    ensures i < |e.flow.producers| && Stalled(t, e.flow.producers[i]) && TotalCount(e) == TotalCount(x)
    ensures Replaced(x, i, e.flow.producers[i], x.pipe.tasks[i], e)
  {
    var y := CallOne(w, t, x, i);
    e := AskOne(w, t, y, i);
    Then(w, t, x, [Call(i)], y, [Ask(i)], e);
    run := [Call(i)] + [Ask(i)];
  }

  lemma CallOne(w: Pipe.World, t: Flow.Topic, x: State, i: nat) returns (e: State)
    requires Undisturbed(w, t, x) && i < |x.flow.producers| && x.flow.producers[i].Resting?
    requires x.pipe.tasks[i].batch != []
    ensures RunsTo(w, t, x, [Call(i)], e) && Undisturbed(w, t, e) && Less(StillAhead(e), StillAhead(x))
    ensures e == Moved(x, i, Flow.Asking(|x.pipe.tasks[i].batch|, 0))
  {
    assert TaskLinked(t, x.flow.producers[i], x.pipe.tasks[i]);
    One(w, t, x, Call(i));
    e := Next(w, t, x, Call(i));
  }

  /** A task between two calls reads its next block. */
  lemma ReadOn(w: Pipe.World, t: Flow.Topic, x: State, i: nat) returns (e: State)
    requires Undisturbed(w, t, x) && i < |x.flow.producers| && x.flow.producers[i].Resting?
    requires x.pipe.tasks[i].batch == [] && Left(w, x.pipe.tasks[i]) > 0
    ensures RunsTo(w, t, x, [Read(i)], e) && Undisturbed(w, t, e) && Less(StillAhead(e), StillAhead(x))
    ensures w.chain(x.pipe.tasks[i].next).Some? && TotalCount(e) == TotalCount(x)
    ensures Replaced(x, i, Flow.Resting, Pipe.AfterProduce(w, x.pipe.tasks[i]), e)
    ensures Left(w, Pipe.AfterProduce(w, x.pipe.tasks[i])) == Left(w, x.pipe.tasks[i])
  {
    e := TaskOne(w, t, x, Read(i), i);
  }

  // While the consumers wait, the tasks fill the topic; those that still have messages then stall.

  ghost predicate AllRest(x: State)
  {
    forall j :: 0 <= j < |x.flow.producers| ==> x.flow.producers[j].Resting?
  }

  lemma {:induction false} NoneLeft(w: Pipe.World, tasks: seq<Pipe.Task>, i: nat)
    requires i < |tasks| && forall j :: 0 <= j < |tasks| && j != i ==> Left(w, tasks[j]) == 0
    ensures AllLeft(w, tasks) == Left(w, tasks[i])
  {
    if i == 0 {
      AllDone(w, tasks[1..]);
    } else {
      NoneLeft(w, tasks[1..], i - 1);
    }
  }

  lemma {:induction false} AllDone(w: Pipe.World, tasks: seq<Pipe.Task>)
    requires forall j :: 0 <= j < |tasks| ==> Left(w, tasks[j]) == 0
    ensures AllLeft(w, tasks) == 0
  {
    if tasks != [] {
      AllDone(w, tasks[1..]);
    }
  }

  /** Sending a list: what it takes from the messages left it adds to the total. */
  lemma SentMovesOver(w: Pipe.World, x: State, i: nat, task: Pipe.Task, e: State)
    requires Replaced(x, i, Flow.Resting, task, e) && AllRest(x)
    ensures AllLeft(w, e.pipe.tasks) == AllLeft(w, x.pipe.tasks) + Left(w, task) - Left(w, x.pipe.tasks[i])
    ensures Weight(BlocksLeft, e.pipe.tasks)
            == Weight(BlocksLeft, x.pipe.tasks) + BlocksLeft(task) - BlocksLeft(x.pipe.tasks[i])
    ensures AllRest(e)
  {
    WeightUpdate(LeftOf(w), x.pipe.tasks, i, task);
    WeightUpdate(BlocksLeft, x.pipe.tasks, i, task);
  }

  /** A task that has more left than from the list on is before that list, and stays so when it goes on. */
  lemma StillHasList(w: Pipe.World, task: Pipe.Task, rest: nat)
    requires HasList(w, task, rest) && rest < Left(w, task)
    ensures task.batch != [] ==> HasList(w, task.(batch := []), rest)
    ensures task.batch == [] ==> w.chain(task.next).Some? && HasList(w, Pipe.AfterProduce(w, task), rest)
  {
    var b :| HasBlock(w, task, b, rest);
    if task.batch != [] {
      assert HasBlock(w, task.(batch := []), b, rest);
    } else {
      assert w.chain(task.next).Some?;
      assert HasBlock(w, Pipe.AfterProduce(w, task), b, rest);
    }
  }

  lemma ListIsLeft(w: Pipe.World, task: Pipe.Task, rest: nat)
    requires HasList(w, task, rest)
    ensures 0 < rest <= Left(w, task)
  {
    if b :| HasBlock(w, task, b, rest) {
      AheadOf(w, task.next, b, task.last);
    }
  }

  lemma {:induction false} AheadOf(w: Pipe.World, next: int, b: int, last: int)
    requires next <= b <= last && Exists(w.chain, next, b + 1)
    ensures MessagesAhead(w, b, last) <= MessagesAhead(w, next, last)
    decreases b - next
  {
    if next < b {
      AheadOf(w, next + 1, b, last);
    }
  }

  /** Task `i` is the one to hang: it waits for the others unless it is far from its list. */
  lemma WhoIsNext(w: Pipe.World, t: Flow.Topic, x: State, i: nat, rest: nat) returns (j: nat)
    requires Linked(w, t, x) && AllRest(x) && i < |x.pipe.tasks| && HasList(w, x.pipe.tasks[i], rest)
    requires TotalCount(x) + AllLeft(w, x.pipe.tasks) - rest > Capacity(t.n) >= TotalCount(x)
    ensures j < |x.pipe.tasks| && Left(w, x.pipe.tasks[j]) > 0
    ensures j == i ==> rest < Left(w, x.pipe.tasks[i])
  {
    if k: nat :| k < |x.pipe.tasks| && k != i && Left(w, x.pipe.tasks[k]) > 0 {
      j := k;
    } else {
      NoneLeft(w, x.pipe.tasks, i);
      j := i;
    }
  }

  lemma {:induction false} FillUp(w: Pipe.World, t: Flow.Topic, x: State, i: nat, rest: nat)
    returns (run: seq<Action>, e: State)
    requires Undisturbed(w, t, x) && AllRest(x) && i < |x.pipe.tasks| && HasList(w, x.pipe.tasks[i], rest)
    requires TotalCount(x) + AllLeft(w, x.pipe.tasks) - rest > Capacity(t.n)
    ensures RunsTo(w, t, x, run, e) && Undisturbed(w, t, e) && AllRest(e)
    ensures TotalCount(e) > Capacity(t.n) && i < |e.pipe.tasks| && Left(w, e.pipe.tasks[i]) > 0
    decreases AllLeft(w, x.pipe.tasks), Weight(BlocksLeft, x.pipe.tasks)
  {
    if TotalCount(x) > Capacity(t.n) {
      ListIsLeft(w, x.pipe.tasks[i], rest);
      run, e := [], x;
    } else {
      var j := WhoIsNext(w, t, x, i, rest);
      var first, y := FillOne(w, t, x, j);
      if i == j {
        StillHasList(w, x.pipe.tasks[i], rest);
      }
      var more;
      more, e := FillUp(w, t, y, i, rest);
      Then(w, t, x, first, y, more, e);
      run := first + more;
    }
  }

  /** A task sends the list it has, or reads the next block if it has none. */
  lemma FillOne(w: Pipe.World, t: Flow.Topic, x: State, j: nat) returns (run: seq<Action>, e: State)
    requires Undisturbed(w, t, x) && AllRest(x) && j < |x.pipe.tasks| && Left(w, x.pipe.tasks[j]) > 0
    requires TotalCount(x) <= Capacity(t.n)
    ensures RunsTo(w, t, x, run, e) && Undisturbed(w, t, e) && AllRest(e)
    ensures TotalCount(e) + AllLeft(w, e.pipe.tasks) == TotalCount(x) + AllLeft(w, x.pipe.tasks)
    ensures AllLeft(w, e.pipe.tasks) < AllLeft(w, x.pipe.tasks)
            || (AllLeft(w, e.pipe.tasks) == AllLeft(w, x.pipe.tasks)
                && Weight(BlocksLeft, e.pipe.tasks) < Weight(BlocksLeft, x.pipe.tasks))
    ensures x.pipe.tasks[j].batch != [] ==> Replaced(x, j, Flow.Resting, x.pipe.tasks[j].(batch := []), e)
    ensures x.pipe.tasks[j].batch == [] ==>
              && w.chain(x.pipe.tasks[j].next).Some?
              && Replaced(x, j, Flow.Resting, Pipe.AfterProduce(w, x.pipe.tasks[j]), e)
  {
    if x.pipe.tasks[j].batch != [] {
      run, e := SendCall(w, t, x, j);
      SentMovesOver(w, x, j, x.pipe.tasks[j].(batch := []), e);
    } else {
      e := ReadOn(w, t, x, j);
      run := [Read(j)];
      SentMovesOver(w, x, j, Pipe.AfterProduce(w, x.pipe.tasks[j]), e);
    }
  }

  /** Every task either has a stalled call, or stands between two calls. */
  ghost predicate RestOrStalled(t: Flow.Topic, x: State)
  {
    forall j :: 0 <= j < |x.flow.producers| ==> x.flow.producers[j].Resting? || Stalled(t, x.flow.producers[j])
  }

  ghost predicate SameLeft(w: Pipe.World, x: State, e: State)
  {
    && |e.pipe.tasks| == |x.pipe.tasks|
    && forall j :: 0 <= j < |x.pipe.tasks| ==> Left(w, e.pipe.tasks[j]) == Left(w, x.pipe.tasks[j])
  }

  /** With the total over capacity, whoever has messages left reads on to the next list and stalls with it. */
  lemma {:induction false} StallAll(w: Pipe.World, t: Flow.Topic, x: State) returns (run: seq<Action>, e: State)
    requires Undisturbed(w, t, x) && TotalCount(x) > Capacity(t.n) && RestOrStalled(t, x)
    ensures RunsTo(w, t, x, run, e) && Undisturbed(w, t, e) && SameLeft(w, x, e) && RestOrStalled(t, e)
    ensures forall j :: 0 <= j < |e.flow.producers| && e.flow.producers[j].Resting? ==> Left(w, e.pipe.tasks[j]) == 0
    decreases StillAhead(x).blocks, StillAhead(x).unsent, StillAhead(x).stages, StillAhead(x).unfetched,
              StillAhead(x).undecremented, StillAhead(x).uninserted
  {
    if j: nat :| j < |x.flow.producers| && x.flow.producers[j].Resting? && Left(w, x.pipe.tasks[j]) > 0 {
      var first, y := StallOne(w, t, x, j);
      var rest;
      rest, e := StallAll(w, t, y);
      Then(w, t, x, first, y, rest, e);
      run := first + rest;
    } else {
      run, e := [], x;
    }
  }

  lemma StallOne(w: Pipe.World, t: Flow.Topic, x: State, j: nat) returns (run: seq<Action>, e: State)
    requires Undisturbed(w, t, x) && TotalCount(x) > Capacity(t.n) && RestOrStalled(t, x)
    requires j < |x.flow.producers| && x.flow.producers[j].Resting? && Left(w, x.pipe.tasks[j]) > 0
    ensures RunsTo(w, t, x, run, e) && Undisturbed(w, t, e) && SameLeft(w, x, e) && RestOrStalled(t, e)
    ensures TotalCount(e) == TotalCount(x) && Less(StillAhead(e), StillAhead(x))
  {
    if x.pipe.tasks[j].batch == [] {
      e := ReadOn(w, t, x, j);
      run := [Read(j)];
      ReplacedKeepsLeft(w, t, x, j, Flow.Resting, Pipe.AfterProduce(w, x.pipe.tasks[j]), e);
    } else {
      run, e := StallCall(w, t, x, j);
      ReplacedKeepsLeft(w, t, x, j, e.flow.producers[j], x.pipe.tasks[j], e);
    }
  }

  lemma ReplacedKeepsLeft(w: Pipe.World, t: Flow.Topic, x: State, j: nat, q: Flow.Producer, task: Pipe.Task, e: State)
    requires Replaced(x, j, q, task, e) && RestOrStalled(t, x)
    requires (q.Resting? || Stalled(t, q)) && Left(w, task) == Left(w, x.pipe.tasks[j])
    ensures SameLeft(w, x, e) && RestOrStalled(t, e)
  {
  }

  /** Then the consumers fetch everything, and the total falls to 0. */
  lemma {:induction false} ConsumeAll(w: Pipe.World, t: Flow.Topic, x: State) returns (run: seq<Action>, e: State)
    requires Undisturbed(w, t, x) && RestOrStalled(t, x)
    ensures RunsTo(w, t, x, run, e) && Undisturbed(w, t, e) && TotalCount(e) == 0 && !UnderWay(e)
    ensures e.flow.producers == x.flow.producers && e.pipe.tasks == x.pipe.tasks
    decreases StillAhead(x).blocks, StillAhead(x).unsent, StillAhead(x).stages, StillAhead(x).unfetched,
              StillAhead(x).undecremented, StillAhead(x).uninserted
  {
    if (exists p :: 0 <= p < |x.pipe.topic| && x.pipe.topic[p] != [])
       || (exists c :: 0 <= c < |x.flow.consumers| && x.flow.consumers[c].Fetched?) {
      var first, y := ConsumeOne(w, t, x);
      var rest;
      rest, e := ConsumeAll(w, t, y);
      Then(w, t, x, first, y, rest, e);
      run := first + rest;
    } else {
      EmptyCountsZero(w, t, x);
      run, e := [], x;
    }
  }

  lemma EmptyCountsZero(w: Pipe.World, t: Flow.Topic, x: State)
    requires Undisturbed(w, t, x) && RestOrStalled(t, x)
    requires forall p :: 0 <= p < |x.pipe.topic| ==> x.pipe.topic[p] == []
    requires forall c :: 0 <= c < |x.flow.consumers| ==> !x.flow.consumers[c].Fetched?
    ensures TotalCount(x) == 0
  {
    Flow.AllZero(x.flow.backlog);
    Flow.AllZero(x.flow.uncounted);
    Flow.AllZero(Flow.FetchedByAlls(x.flow.consumers));
    Flow.AllZero(Flow.DeliveredByAlls(x.flow.producers));
  }

  lemma HangFrom(w: Pipe.World, t: Flow.Topic, x: State, i: nat, rest: nat) returns (run: seq<Action>, e: State)
    requires Undisturbed(w, t, x) && AllRest(x) && i < |x.pipe.tasks| && HasList(w, x.pipe.tasks[i], rest)
    requires TotalCount(x) + AllLeft(w, x.pipe.tasks) - rest > Capacity(t.n)
    ensures RunsTo(w, t, x, run, e) && Regular(w, t, e) && Hung(w, t, e)
  {
    var first, y := FillUp(w, t, x, i, rest);
    var second, z := StallAll(w, t, y);
    assert Left(w, z.pipe.tasks[i]) > 0 && Stalled(t, z.flow.producers[i]);
    var third;
    third, e := ConsumeAll(w, t, z);
    NowHung(w, t, e, i);
    Then(w, t, y, second, z, third, e);
    Then(w, t, x, first, y, second + third, e);
    run := first + (second + third);
  }

  lemma NowHung(w: Pipe.World, t: Flow.Topic, e: State, i: nat)
    requires Regular(w, t, e) && RestOrStalled(t, e) && TotalCount(e) == 0 && !UnderWay(e)
    requires forall j :: 0 <= j < |e.flow.producers| && e.flow.producers[j].Resting? ==> Left(w, e.pipe.tasks[j]) == 0
    requires i < |e.flow.producers| && Stalled(t, e.flow.producers[i])
    ensures Hung(w, t, e)
  {
    NotHungIs(w, t, e);
    forall j: nat
      ensures !Speaks(w, t, e, j)
    {
      assert j < |e.flow.producers| ==> Stalled(t, e.flow.producers[j]) || Left(w, e.pipe.tasks[j]) == 0;
    }
  }

  /**
   * Some run hangs, and then even one without faults, if and only if some task has a list of messages to send and more
   * than 1000 messages per partition can be sent before it, by that task and by all others together: slow consumers
   * make that call sleep, and once they have caught up the total is 0, which never releases it.
   */
  lemma CanHangExactlyWhen(w: Pipe.World, t: Flow.Topic, tasks: seq<Pipe.Task>, base: Store, x: State)
    requires Pipe.Sound(w) && Initial(w, t, tasks, base, x)
    ensures (exists run :: HangsAfter(w, t, x, run)) <==> MayHang(w, t, tasks)
    ensures MayHang(w, t, tasks) ==> exists run :: HangsAfter(w, t, x, run) && FaultFree(run)
  {
    if run :| HangsAfter(w, t, x, run) {
      HangWasOvertaxed(w, t, tasks, base, x, run);
    }
    if MayHang(w, t, tasks) {
      ExplainedAtFirst(w, t, tasks, base, x);
      var i, rest :| 0 <= i < |tasks| && HasList(w, tasks[i], rest) && AllLeft(w, tasks) - rest > Capacity(t.n);
      var run, e := HangFrom(w, t, x, i, rest);
      assert HangsAfter(w, t, x, run);
    }
  }
}
