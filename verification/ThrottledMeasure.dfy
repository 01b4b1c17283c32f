/** How far the throttled pipeline still has to go: every step brings the end closer, except for polls and faults. */
module ThrottledMeasure {
  import opened Sums
  import opened KafkaProducer
  import Pipe = Pipeline
  import Flow = FlowControl
  import opened Throttled
  import opened ThrottledInvariants

  /** The weights of a sequence's elements, summed. */
  function Weight<T>(weight: T -> nat, xs: seq<T>): nat
  {
    if xs == [] then 0 else weight(xs[0]) + Weight(weight, xs[1..])
  }

  lemma {:induction false} WeightUpdate<T>(weight: T -> nat, xs: seq<T>, i: nat, x: T)
    requires i < |xs|
    ensures Weight(weight, xs[i := x]) == Weight(weight, xs) + weight(x) - weight(xs[i])
  {
    if i == 0 {
      assert xs[i := x][1..] == xs[1..];
    } else {
      assert xs[i := x][1..] == xs[1..][i - 1 := x];
      WeightUpdate(weight, xs[1..], i - 1, x);
    }
  }

  function BlocksLeft(task: Pipe.Task): nat
  {
    if task.next > task.last then 0 else task.last - task.next + 1
  }

  function MessagesLeft(task: Pipe.Task): nat { |task.batch| }

  function Queued(ms: seq<Pipe.Message>): nat { |ms| }

  function Undecremented(c: Flow.Consumer): nat
  {
    if c.Fetched? then 1 else 0
  }

  function RowsLeft(b: Pipe.Worker): nat
  {
    if b.Idle? then 0 else |b.todo| + 1
  }

  /** How far a call is from its end, for the messages it still has. */
  function Stage(q: Flow.Producer, task: Pipe.Task): nat
  {
    match q
    case Resting => if task.batch != [] then 6 else 0
    case Asking(_, _) => 5
    case Told(_, _, _) => 5
    case Delivered(_, _, _) => 4
    case Admitted(_) => 3
    case Bound(_, _, _) => 2
  }

  function Stages(qs: seq<Flow.Producer>, tasks: seq<Pipe.Task>): nat
    requires |qs| == |tasks|
  {
    if qs == [] then 0 else Stage(qs[0], tasks[0]) + Stages(qs[1..], tasks[1..])
  }

  lemma {:induction false} StagesUpdate(qs: seq<Flow.Producer>, tasks: seq<Pipe.Task>, i: nat, q: Flow.Producer,
                                        task: Pipe.Task)
    requires |qs| == |tasks| && i < |qs|
    ensures Stages(qs[i := q], tasks[i := task]) == Stages(qs, tasks) + Stage(q, task) - Stage(qs[i], tasks[i])
  {
    if i == 0 {
      assert qs[i := q][1..] == qs[1..] && tasks[i := task][1..] == tasks[1..];
    } else {
      assert qs[i := q][1..] == qs[1..][i - 1 := q] && tasks[i := task][1..] == tasks[1..][i - 1 := task];
      StagesUpdate(qs[1..], tasks[1..], i - 1, q, task);
    }
  }

  /** What is still ahead, the weightiest first. */
  datatype Ahead = Ahead(blocks: nat, unsent: nat, stages: nat, unfetched: nat, undecremented: nat, uninserted: nat)

  function StillAhead(x: State): Ahead
    requires |x.flow.producers| == |x.pipe.tasks|
  {
    Ahead(Weight(BlocksLeft, x.pipe.tasks), Weight(MessagesLeft, x.pipe.tasks),
          Stages(x.flow.producers, x.pipe.tasks), Weight(Queued, x.pipe.topic),
          Weight(Undecremented, x.flow.consumers), Weight(RowsLeft, x.pipe.workers))
  }

  predicate Less(a: Ahead, b: Ahead)
  {
    || a.blocks < b.blocks
    || (a.blocks == b.blocks && a.unsent < b.unsent)
    || (a.blocks == b.blocks && a.unsent == b.unsent && a.stages < b.stages)
    || (a.blocks == b.blocks && a.unsent == b.unsent && a.stages == b.stages && a.unfetched < b.unfetched)
    || (a.blocks == b.blocks && a.unsent == b.unsent && a.stages == b.stages && a.unfetched == b.unfetched
        && a.undecremented < b.undecremented)
    || (a.blocks == b.blocks && a.unsent == b.unsent && a.stages == b.stages && a.unfetched == b.unfetched
        && a.undecremented == b.undecremented && a.uninserted < b.uninserted)
  }

  /** A poll that does not admit its call. */
  predicate Fruitless(t: Flow.Topic, x: State, a: Action)
  {
    || a.Ask?
    || (a.Judge? && a.i < |x.flow.producers| && x.flow.producers[a.i].Told?
        && !Decide(x.flow.producers[a.i].total, Capacity(t.n), x.flow.producers[a.i].stalls).Admit?)
  }

  lemma MovedTaskIsCloser(w: Pipe.World, t: Flow.Topic, total: int, a: Action, q: Flow.Producer, task: Pipe.Task,
                          q': Flow.Producer, task': Pipe.Task)
    requires TaskMoves(w, t, total, a, q, task, q', task') && TaskLinked(t, q, task)
    ensures BlocksLeft(task') == BlocksLeft(task) - if a.Read? then 1 else 0
    ensures a.Deliver? ==> MessagesLeft(task') < MessagesLeft(task)
    ensures !a.Read? && !a.Deliver? ==> MessagesLeft(task') == MessagesLeft(task)
    ensures a.Ask? ==> Stage(q', task') == Stage(q, task)
    ensures a.Judge? && !Decide(q.total, Capacity(t.n), q.stalls).Admit? ==> Stage(q', task') == Stage(q, task)
    ensures a.Judge? && Decide(q.total, Capacity(t.n), q.stalls).Admit? ==> Stage(q', task') < Stage(q, task)
    ensures a.Call? || a.Choose? || a.Count? || a.Finish? ==> Stage(q', task') < Stage(q, task)
  {
  }

  /** Replacing one task moves the three sums of tasks by its own share, and nothing else. */
  lemma TaskShare(x: State, x': State, i: nat, q': Flow.Producer, task': Pipe.Task)
    requires |x.flow.producers| == |x.pipe.tasks| && i < |x.pipe.tasks|
    requires x'.flow.producers == x.flow.producers[i := q'] && x'.pipe.tasks == x.pipe.tasks[i := task']
    ensures |x'.flow.producers| == |x'.pipe.tasks|
    ensures var q, task := x.flow.producers[i], x.pipe.tasks[i];
            && StillAhead(x').blocks == StillAhead(x).blocks + BlocksLeft(task') - BlocksLeft(task)
            && StillAhead(x').unsent == StillAhead(x).unsent + MessagesLeft(task') - MessagesLeft(task)
            && StillAhead(x').stages == StillAhead(x).stages + Stage(q', task') - Stage(q, task)
  {
    StagesUpdate(x.flow.producers, x.pipe.tasks, i, q', task');
    WeightUpdate(BlocksLeft, x.pipe.tasks, i, task');
    WeightUpdate(MessagesLeft, x.pipe.tasks, i, task');
  }

  lemma TaskMakesProgress(w: Pipe.World, t: Flow.Topic, x: State, a: Action)
    requires Linked(w, t, x) && Enabled(w, t, x, a) && TaskOf(a) != -1
    ensures |Next(w, t, x, a).flow.producers| == |Next(w, t, x, a).pipe.tasks|
    ensures if Fruitless(t, x, a) then StillAhead(Next(w, t, x, a)) == StillAhead(x)
            else Less(StillAhead(Next(w, t, x, a)), StillAhead(x))
  {
    var x' := Next(w, t, x, a);
    var i := TaskOf(a);
    OthersStay(w, t, x, a);
    TaskAfter(w, t, x, a, i);
    ConsumersAfter(w, t, x, a);
    var q', task' := x'.flow.producers[i], x'.pipe.tasks[i];
    MovedTaskIsCloser(w, t, SumValues(x.flow.scores), a, x.flow.producers[i], x.pipe.tasks[i], q', task');
    assert x'.flow.producers == x.flow.producers[i := q'] && x'.pipe.tasks == x.pipe.tasks[i := task'];
    TaskShare(x, x', i, q', task');
  }

  lemma ConsumersAreCloser(x: State, a: Action, x': State)
    requires ConsumersMove(x, a, x') && TaskOf(a) == -1 && !IsFault(a)
    requires |x.flow.producers| == |x.pipe.tasks|
    requires x'.flow.producers == x.flow.producers && x'.pipe.tasks == x.pipe.tasks
    ensures Less(StillAhead(x'), StillAhead(x))
  {
    match a {
      case Fetch(c, p, order) =>
        WeightUpdate(Queued, x.pipe.topic, p, x.pipe.topic[p][1..]);
      case Decrement(c) =>
        WeightUpdate(Undecremented, x.flow.consumers, c, Flow.Handling);
      case InsertRow(c) =>
        WeightUpdate(RowsLeft, x.pipe.workers, c, x'.pipe.workers[c]);
      case Return(c) =>
        WeightUpdate(Undecremented, x.flow.consumers, c, Flow.Listening);
        WeightUpdate(RowsLeft, x.pipe.workers, c, Pipe.Idle);
    }
  }

  /**
   * Whichever step is taken, the end comes closer, unless it is a fault or a poll that does not admit the call; such
   * a poll leaves what is ahead as it was.
   */
  lemma StepMakesProgress(w: Pipe.World, t: Flow.Topic, x: State, a: Action)
    requires Linked(w, t, x) && Enabled(w, t, x, a) && !IsFault(a)
    ensures |Next(w, t, x, a).flow.producers| == |Next(w, t, x, a).pipe.tasks|
    ensures if Fruitless(t, x, a) then StillAhead(Next(w, t, x, a)) == StillAhead(x)
            else Less(StillAhead(Next(w, t, x, a)), StillAhead(x))
  {
    if TaskOf(a) != -1 {
      TaskMakesProgress(w, t, x, a);
    } else {
      OthersStay(w, t, x, a);
      ConsumersAfter(w, t, x, a);
      var x' := Next(w, t, x, a);
      assert x'.flow.producers == x.flow.producers && x'.pipe.tasks == x.pipe.tasks;
      ConsumersAreCloser(x, a, x');
    }
  }
}
