/** What every reachable state of the throttled pipeline keeps: both halves tell the same story. */
module ThrottledInvariants {
  import opened Sums
  import opened Database
  import opened KafkaProducer
  import opened FlowInvariants
  import Pipe = Pipeline
  import Flow = FlowControl
  import opened Throttled

  /** A call in progress is about the messages its task still has. */
  ghost predicate TaskLinked(t: Flow.Topic, q: Flow.Producer, task: Pipe.Task)
  {
    && |task.batch| <= t.maxList
    && match q
       case Resting => true
       case Asking(len, _) => len == |task.batch| > 0
       case Told(len, _, _) => len == |task.batch| > 0
       case Admitted(rest) => rest == |task.batch|
       case Bound(_, batch, rest) => batch == Pipe.BatchSize(task.batch) > 0 && rest == |task.batch| - batch
       case Delivered(_, batch, rest) => batch > 0 && rest == |task.batch|
  }

  ghost predicate Linked(w: Pipe.World, t: Flow.Topic, x: State)
  {
    && t.n == |x.pipe.topic| && WellFormed(t, x.flow)
    && |x.flow.producers| == |x.pipe.tasks|
    && (forall i :: 0 <= i < |x.pipe.tasks| ==> TaskLinked(t, x.flow.producers[i], x.pipe.tasks[i]))
    && (forall p :: 0 <= p < t.n ==> x.flow.backlog[p] == |x.pipe.topic[p]|)
    && WorkersLinked(x) && |x.pipe.workers| >= 1
    && Fits(w, t, [])
  }

  ghost predicate WorkersLinked(x: State)
  {
    && |x.flow.consumers| == |x.pipe.workers|
    && forall c :: 0 <= c < |x.pipe.workers| ==> (x.flow.consumers[c].Listening? <==> x.pipe.workers[c].Idle?)
  }

  /** The Redis total accounts for what is about; nothing was ever uncounted a negative number of times. */
  ghost predicate Counted(x: State)
  {
    TotalsConserved(x.flow) && forall p :: 0 <= p < |x.flow.uncounted| ==> x.flow.uncounted[p] >= 0
  }

  lemma FlowWellFormed(w: Pipe.World, t: Flow.Topic, x: State, a: Action)
    requires WellFormed(t, x.flow) && TotalsConserved(x.flow) && Enabled(w, t, x, a)
    ensures WellFormed(t, Next(w, t, x, a).flow) && TotalsConserved(Next(w, t, x, a).flow)
  {
    if FlowPart(x, a).Some? {
      WellFormedStep(t, x.flow, FlowPart(x, a).value);
      TotalsConservedStep(t, x.flow, FlowPart(x, a).value);
    }
  }

  lemma UncountedStays(t: Flow.Topic, s: Flow.State, a: Flow.StepKind)
    requires Flow.Enabled(t, s, a) && forall p :: 0 <= p < |s.uncounted| ==> s.uncounted[p] >= 0
    ensures forall p :: 0 <= p < |Flow.Next(t, s, a).uncounted| ==> Flow.Next(t, s, a).uncounted[p] >= 0
  {
  }

  /** The steps of others leave a task and its call alone. */
  function TaskOf(a: Action): int
  {
    match a
    case Read(i) => i
    case Call(i) => i
    case Ask(i) => i
    case Judge(i) => i
    case Choose(i, _) => i
    case Deliver(i) => i
    case Count(i) => i
    case Finish(i) => i
    case _ => -1
  }

  lemma OthersStay(w: Pipe.World, t: Flow.Topic, x: State, a: Action)
    requires Enabled(w, t, x, a) && |x.flow.producers| == |x.pipe.tasks|
    ensures var x' := Next(w, t, x, a);
            && |x'.flow.producers| == |x'.pipe.tasks| == |x.pipe.tasks|
            && forall j :: 0 <= j < |x.pipe.tasks| && j != TaskOf(a) ==>
                 x'.flow.producers[j] == x.flow.producers[j] && x'.pipe.tasks[j] == x.pipe.tasks[j]
  {
  }

  /** What a step of a task does to its call and to its messages, given the Redis total. */
  ghost predicate TaskMoves(w: Pipe.World, t: Flow.Topic, total: int, a: Action, q: Flow.Producer, task: Pipe.Task,
                            q': Flow.Producer, task': Pipe.Task)
  {
    match a
    case Read(_) =>
      && q.Resting? && q' == q && task.batch == [] && task.next <= task.last && w.chain(task.next).Some?
      && task' == Pipe.AfterProduce(w, task)
    case Call(_) => q.Resting? && task.batch != [] && q' == Flow.Asking(|task.batch|, 0) && task' == task
    case Ask(_) => q.Asking? && q' == Flow.Told(q.len, q.stalls, total) && task' == task
    case Judge(_) => q.Told? && q' == Flow.Judgement(t, q) && task' == task
    case Choose(_, p) =>
      var batch := Pipe.BatchSize(task.batch);
      && q.Admitted? && q.rest > 0 && batch <= Flow.BatchLimit(q.rest) && 0 <= p < t.n
      && q' == Flow.Bound(p, batch, q.rest - Flow.BatchLimit(q.rest)) && task' == task
    case Deliver(_) =>
      && q.Bound? && task.batch != [] && q' == Flow.Delivered(q.partition, q.batch, q.rest)
      && task' == task.(batch := task.batch[Pipe.BatchSize(task.batch)..])
    case Count(_) => q.Delivered? && q' == Flow.Admitted(q.rest) && task' == task
    case Finish(_) => q.Admitted? && q.rest == 0 && q' == Flow.Resting && task' == task
    case _ => false
  }

  lemma TaskAfter(w: Pipe.World, t: Flow.Topic, x: State, a: Action, i: nat)
    requires Enabled(w, t, x, a) && |x.flow.producers| == |x.pipe.tasks| && i == TaskOf(a)
    ensures var x' := Next(w, t, x, a);
            && i < |x.pipe.tasks| && |x'.flow.producers| == |x'.pipe.tasks| == |x.pipe.tasks|
            && TaskMoves(w, t, SumValues(x.flow.scores), a, x.flow.producers[i], x.pipe.tasks[i],
                         x'.flow.producers[i], x'.pipe.tasks[i])
  {
  }

  lemma MovedTaskIsLinked(w: Pipe.World, t: Flow.Topic, total: int, a: Action, q: Flow.Producer, task: Pipe.Task,
                          q': Flow.Producer, task': Pipe.Task)
    requires TaskMoves(w, t, total, a, q, task, q', task') && TaskLinked(t, q, task) && Fits(w, t, [])
    ensures TaskLinked(t, q', task')
  {
  }

  lemma TasksStayLinked(w: Pipe.World, t: Flow.Topic, x: State, a: Action)
    requires Linked(w, t, x) && Enabled(w, t, x, a)
    ensures var x' := Next(w, t, x, a);
            && |x'.flow.producers| == |x'.pipe.tasks|
            && forall i :: 0 <= i < |x'.pipe.tasks| ==> TaskLinked(t, x'.flow.producers[i], x'.pipe.tasks[i])
  {
    var x' := Next(w, t, x, a);
    OthersStay(w, t, x, a);
    forall i | 0 <= i < |x'.pipe.tasks|
      ensures TaskLinked(t, x'.flow.producers[i], x'.pipe.tasks[i])
    {
      if i == TaskOf(a) {
        TaskAfter(w, t, x, a, i);
        MovedTaskIsLinked(w, t, SumValues(x.flow.scores), a, x.flow.producers[i], x.pipe.tasks[i],
                          x'.flow.producers[i], x'.pipe.tasks[i]);
      } else {
        assert TaskLinked(t, x.flow.producers[i], x.pipe.tasks[i]);
      }
    }
  }

  /** The consumers and the topic after a step, entry by entry. */
  ghost predicate ConsumersMove(x: State, a: Action, x': State)
  {
    var f, s, f', s' := x.flow, x.pipe, x'.flow, x'.pipe;
    match a
    case Deliver(i) =>
      && i < |f.producers| && f.producers[i].Bound? && i < |s.tasks| && f'.consumers == f.consumers
      && s'.workers == s.workers
      && var p, q := f.producers[i].partition, f.producers[i];
         && 0 <= p < |s.topic| && p < |f.backlog|
         && f'.backlog == f.backlog[p := f.backlog[p] + q.batch]
         && s'.topic == s.topic[p := s.topic[p] + s.tasks[i].batch[..Pipe.BatchSize(s.tasks[i].batch)]]
    case Fetch(c, p, _) =>
      && c < |f.consumers| && c < |s.workers| && p < |s.topic| && p < |f.backlog| && s.topic[p] != []
      && f.consumers[c].Listening? && f'.consumers == f.consumers[c := Flow.Fetched(p)]
      && |s'.workers| == |s.workers| && s'.workers == s.workers[c := s'.workers[c]] && s'.workers[c].Busy?
      && f'.backlog == f.backlog[p := f.backlog[p] - 1] && s'.topic == s.topic[p := s.topic[p][1..]]
    case Decrement(c) =>
      && c < |f.consumers| && f.consumers[c].Fetched? && f'.consumers == f.consumers[c := Flow.Handling]
      && s'.workers == s.workers && f'.backlog == f.backlog && s'.topic == s.topic
    case InsertRow(c) =>
      && c < |s.workers| && s.workers[c].Busy? && s.workers[c].todo != []
      && s'.workers == s.workers[c := Pipe.Busy(s.workers[c].message, s.workers[c].todo[1..])]
      && f'.consumers == f.consumers && f'.backlog == f.backlog && s'.topic == s.topic
    case Return(c) =>
      && c < |f.consumers| && c < |s.workers| && s.workers[c].Busy? && f.consumers[c].Handling?
      && f'.consumers == f.consumers[c := Flow.Listening] && s'.workers == s.workers[c := Pipe.Idle]
      && f'.backlog == f.backlog && s'.topic == s.topic
    case Redeliver(p, m) =>
      && p < |s.topic| && p < |f.backlog| && f'.consumers == f.consumers && s'.workers == s.workers
      && f'.backlog == f.backlog[p := f.backlog[p] + 1] && s'.topic == s.topic[p := [m] + s.topic[p]]
    case Crash(c, p) =>
      && c < |f.consumers| && c < |s.workers| && p < |s.topic| && p < |f.backlog| && s.workers[c].Busy?
      && f'.consumers == f.consumers[c := Flow.Listening] && s'.workers == s.workers[c := Pipe.Idle]
      && f'.backlog == f.backlog[p := f.backlog[p] + 1]
      && s'.topic == s.topic[p := [s.workers[c].message] + s.topic[p]]
    case _ =>
      && f'.consumers == f.consumers && s'.workers == s.workers
      && f'.backlog == f.backlog && s'.topic == s.topic
  }

  lemma ConsumersAfter(w: Pipe.World, t: Flow.Topic, x: State, a: Action)
    requires Enabled(w, t, x, a)
    ensures ConsumersMove(x, a, Next(w, t, x, a))
  {
    if TaskOf(a) != -1 {
      ConsumersAfterTask(w, t, x, a);
    } else {
      ConsumersAfterConsumer(w, t, x, a);
    }
  }

  lemma ConsumersAfterTask(w: Pipe.World, t: Flow.Topic, x: State, a: Action)
    requires Enabled(w, t, x, a) && TaskOf(a) != -1
    ensures ConsumersMove(x, a, Next(w, t, x, a))
  {
  }

  lemma ConsumersAfterConsumer(w: Pipe.World, t: Flow.Topic, x: State, a: Action)
    requires Enabled(w, t, x, a) && TaskOf(a) == -1
    ensures ConsumersMove(x, a, Next(w, t, x, a))
  {
  }

  lemma BacklogStaysLinked(t: Flow.Topic, x: State, a: Action, x': State)
    requires ConsumersMove(x, a, x') && |x.flow.backlog| == |x.pipe.topic| == t.n
    requires forall p :: 0 <= p < t.n ==> x.flow.backlog[p] == |x.pipe.topic[p]|
    requires a.Deliver? && a.i < |x.flow.producers| && a.i < |x.pipe.tasks| ==>
               TaskLinked(t, x.flow.producers[a.i], x.pipe.tasks[a.i])
    ensures |x'.flow.backlog| == |x'.pipe.topic| == t.n
    ensures forall p :: 0 <= p < t.n ==> x'.flow.backlog[p] == |x'.pipe.topic[p]|
  {
  }

  lemma WorkersStayLinked(x: State, a: Action, x': State)
    requires WorkersLinked(x) && ConsumersMove(x, a, x')
    ensures WorkersLinked(x') && |x'.pipe.workers| == |x.pipe.workers|
  {
  }

  lemma LinkedStep(w: Pipe.World, t: Flow.Topic, x: State, a: Action)
    requires Linked(w, t, x) && Counted(x) && Enabled(w, t, x, a)
    ensures Linked(w, t, Next(w, t, x, a)) && Counted(Next(w, t, x, a))
  {
    FlowWellFormed(w, t, x, a);
    TasksStayLinked(w, t, x, a);
    ConsumersAfter(w, t, x, a);
    WorkersStayLinked(x, a, Next(w, t, x, a));
    BacklogStaysLinked(t, x, a, Next(w, t, x, a));
    if FlowPart(x, a).Some? {
      UncountedStays(t, x.flow, FlowPart(x, a).value);
    }
  }

  lemma {:induction false} LinkedRun(w: Pipe.World, t: Flow.Topic, x: State, run: seq<Action>)
    requires Linked(w, t, x) && Counted(x) && Allowed(w, t, x, run)
    ensures Linked(w, t, Exec(w, t, x, run)) && Counted(Exec(w, t, x, run))
    decreases |run|
  {
    if run != [] {
      LinkedStep(w, t, x, run[0]);
      LinkedRun(w, t, Next(w, t, x, run[0]), run[1..]);
    }
  }

  lemma LinkedAtFirst(w: Pipe.World, t: Flow.Topic, tasks: seq<Pipe.Task>, base: Store, x: State)
    requires Initial(w, t, tasks, base, x)
    ensures Linked(w, t, x) && Counted(x)
  {
    InitialTotals(t, x.flow);
  }

  /**
   * The broker's messages of the whole pipeline obey the capacity bound: 1000 per partition and one list per task,
   * apart from the messages that came back uncounted.
   */
  lemma TopicWithinCapacity(w: Pipe.World, t: Flow.Topic, tasks: seq<Pipe.Task>, base: Store, x: State,
                            run: seq<Action>)
    requires Initial(w, t, tasks, base, x) && Allowed(w, t, x, run)
    ensures var e := Exec(w, t, x, run);
            && |e.pipe.topic| == |e.flow.backlog| == t.n
            && (forall p :: 0 <= p < t.n ==> |e.pipe.topic[p]| == e.flow.backlog[p])
            && Total(e.flow.backlog) <= Capacity(t.n) + |tasks| * t.maxList + Total(e.flow.uncounted)
  {
    LinkedAtFirst(w, t, tasks, base, x);
    LinkedRun(w, t, x, run);
    var flowRun := RunIsAFlowRun(w, t, x, run);
    CapacityInEveryRun(t, x.flow, flowRun);
  }
}
