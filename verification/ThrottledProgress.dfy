/**
 * When the throttled pipeline gets to its end: always, except that the limiter does not let a call through that
 * stalled once and then finds a total of exactly 0 with nothing under way that could change it.
 */
module ThrottledProgress {
  import opened Sums
  import opened KafkaProducer
  import Flow = FlowControl
  import opened FlowInvariants
  import Pipe = Pipeline
  import opened Throttled
  import opened ThrottledInvariants

  /** The call has slept at least once, or is about to. */
  predicate Stalled(t: Flow.Topic, q: Flow.Producer)
  {
    match q
    case Asking(_, stalls) => stalls > 0
    case Told(_, stalls, total) => !Decide(total, Capacity(t.n), stalls).Admit?
    case _ => false
  }

  /** Messages in the blocks next..last, as far as they exist. */
  function MessagesAhead(w: Pipe.World, next: int, last: int): nat
    decreases last - next
  {
    if next > last || w.chain(next).None? then 0
    else |w.chain(next).value.transactions| + MessagesAhead(w, next + 1, last)
  }

  /** The task will not send anything any more, and has nothing left to count. */
  predicate Silent(w: Pipe.World, q: Flow.Producer, task: Pipe.Task)
  {
    !q.Delivered? && task.batch == [] && MessagesAhead(w, task.next, task.last) == 0
  }

  ghost function TotalCount(x: State): int
  {
    SumValues(x.flow.scores)
  }

  /** Some call is stalled, the total is 0, and neither a consumer nor another task will ever change it. */
  ghost predicate Hung(w: Pipe.World, t: Flow.Topic, x: State)
    requires |x.flow.producers| == |x.pipe.tasks|
  {
    && (exists i :: 0 <= i < |x.flow.producers| && Stalled(t, x.flow.producers[i]))
    && TotalCount(x) == 0
    && (forall p :: 0 <= p < |x.pipe.topic| ==> x.pipe.topic[p] == [])
    && (forall c :: 0 <= c < |x.flow.consumers| ==> !x.flow.consumers[c].Fetched?)
    && (forall i :: 0 <= i < |x.flow.producers| ==>
          Stalled(t, x.flow.producers[i]) || Silent(w, x.flow.producers[i], x.pipe.tasks[i]))
  }

  predicate FaultFree(run: seq<Action>)
  {
    forall a <- run :: !IsFault(a)
  }

  ghost predicate Drained(w: Pipe.World, x: State)
  {
    && Pipe.Drained(w, x.pipe)
    && forall i :: 0 <= i < |x.flow.producers| ==> x.flow.producers[i].Resting?
  }

  // ---- a hung pipeline stays hung ----

  lemma MovedTaskStaysHung(w: Pipe.World, t: Flow.Topic, a: Action, q: Flow.Producer, task: Pipe.Task,
                           q': Flow.Producer, task': Pipe.Task)
    requires TaskMoves(w, t, 0, a, q, task, q', task') && TaskLinked(t, q, task)
    requires Stalled(t, q) || Silent(w, q, task)
    ensures Stalled(t, q) ==> Stalled(t, q')
    ensures Silent(w, q, task) ==> Silent(w, q', task')
    ensures !a.Deliver? && !a.Count?
  {
  }

  lemma TotalCountAfter(w: Pipe.World, t: Flow.Topic, x: State, a: Action)
    requires Linked(w, t, x) && Enabled(w, t, x, a)
    ensures TotalCount(Next(w, t, x, a)) == TotalCount(x) +
                                         match a
                                         case Count(i) => x.flow.producers[i].batch
                                         case Decrement(_) => -1
                                         case _ => 0
  {
    if FlowPart(x, a).Some? {
      ScoresAfterStep(t, x.flow, FlowPart(x, a).value);
    }
  }

  /** With nothing queued or fetched, neither consumers nor calls that hand nothing over change that. */
  lemma EmptyStays(x: State, a: Action, x': State)
    requires ConsumersMove(x, a, x') && !IsFault(a) && !a.Deliver?
    requires forall p :: 0 <= p < |x.pipe.topic| ==> x.pipe.topic[p] == []
    requires forall c :: 0 <= c < |x.flow.consumers| ==> !x.flow.consumers[c].Fetched?
    ensures forall p :: 0 <= p < |x'.pipe.topic| ==> x'.pipe.topic[p] == []
    ensures forall c :: 0 <= c < |x'.flow.consumers| ==> !x'.flow.consumers[c].Fetched?
    ensures !a.Decrement?
  {
  }

  lemma HungStays(w: Pipe.World, t: Flow.Topic, x: State, a: Action, i: nat)
    requires Linked(w, t, x) && Hung(w, t, x) && Enabled(w, t, x, a) && !IsFault(a)
    requires i < |x.flow.producers| && Stalled(t, x.flow.producers[i])
    ensures var x' := Next(w, t, x, a);
            && |x'.flow.producers| == |x'.pipe.tasks| == |x.pipe.tasks|
            && Hung(w, t, x') && Stalled(t, x'.flow.producers[i])
  {
    var x' := Next(w, t, x, a);
    OthersStay(w, t, x, a);
    ConsumersAfter(w, t, x, a);
    TotalCountAfter(w, t, x, a);
    if TaskOf(a) != -1 {
      var j := TaskOf(a);
      TaskAfter(w, t, x, a, j);
      assert TaskLinked(t, x.flow.producers[j], x.pipe.tasks[j]);
      MovedTaskStaysHung(w, t, a, x.flow.producers[j], x.pipe.tasks[j], x'.flow.producers[j], x'.pipe.tasks[j]);
    }
    EmptyStays(x, a, x');
    forall j | 0 <= j < |x'.flow.producers|
      ensures Stalled(t, x'.flow.producers[j]) || Silent(w, x'.flow.producers[j], x'.pipe.tasks[j])
    {
      assert Stalled(t, x.flow.producers[j]) || Silent(w, x.flow.producers[j], x.pipe.tasks[j]);
    }
  }

  lemma {:induction false} HungForever(w: Pipe.World, t: Flow.Topic, x: State, run: seq<Action>, i: nat)
    requires Linked(w, t, x) && Counted(x) && Hung(w, t, x) && Allowed(w, t, x, run) && FaultFree(run)
    requires i < |x.flow.producers| && Stalled(t, x.flow.producers[i])
    ensures var e := Exec(w, t, x, run);
            && |e.flow.producers| == |e.pipe.tasks| == |x.pipe.tasks|
            && Hung(w, t, e) && Stalled(t, e.flow.producers[i])
    decreases |run|
  {
    if run != [] {
      assert run[0] in run;
      assert forall a :: a in run[1..] ==> a in run;
      LinkedStep(w, t, x, run[0]);
      HungStays(w, t, x, run[0], i);
      HungForever(w, t, Next(w, t, x, run[0]), run[1..], i);
    }
  }
}
