/**
 * The pipeline with its flow control: the capacity limiter, the choice of partitions and the counters of FlowControl
 * drive the tasks and consumers of Pipeline. A run of the two together is a run of each.
 */
module Throttled {
  import opened Options
  import opened TransactionEvents
  import opened Database
  import Flow = FlowControl
  import opened FlowInvariants
  import Pipe = Pipeline

  datatype State = State(flow: Flow.State, pipe: Pipe.State)

  datatype Action =
      /** Read the next block and insert its row; the task is between two calls of send_batch. */
    | Read(i: nat)
      /** Enter send_batch with the messages of the block. */
    | Call(i: nat)
      /** The limiter reads the total. */
    | Ask(i: nat)
      /** It compares the total with the capacity: admit, sleep, or poll again at once. */
    | Judge(i: nat)
    | Choose(i: nat, p: nat)
      /** The broker gets the batch. */
    | Deliver(i: nat)
    | Count(i: nat)
    | Finish(i: nat)
    | Fetch(c: nat, p: nat, order: seq<Address>)
    | Decrement(c: nat)
    | InsertRow(c: nat)
    | Return(c: nat)
      /** A message not committed is in partition `p` again. */
    | Redeliver(p: nat, message: Pipe.Message)
      /** A consumer stops; its message is in partition `p` again. */
    | Crash(c: nat, p: nat)

  predicate IsFault(a: Action)
  {
    a.Redeliver? || a.Crash?
  }

  /** What the step does to the flow control: all messages of a batch are appended. */
  function FlowPart(x: State, a: Action): Option<Flow.StepKind>
    requires Timely(x, a)
  {
    match a
    case Read(i) => None
    case Call(i) => Some(Flow.Call(i, |x.pipe.tasks[i].batch|))
    case Ask(i) => Some(Flow.Ask(i))
    case Judge(i) => Some(Flow.Judge(i))
    case Choose(i, p) => Some(Flow.Choose(i, Pipe.BatchSize(x.pipe.tasks[i].batch), p))
    case Deliver(i) => Some(Flow.Deliver(i))
    case Count(i) => Some(Flow.Count(i))
    case Finish(i) => Some(Flow.Finish(i))
    case Fetch(c, p, _) => Some(Flow.Fetch(c, p))
    case Decrement(c) => Some(Flow.Decrement(c))
    case InsertRow(c) => None
    case Return(c) => Some(Flow.Handled(c))
    case Redeliver(p, _) => Some(Flow.Redeliver(p))
    case Crash(c, p) => Some(Flow.Stop(c, p))
  }

  /** What it does to messages, handlers and tables. */
  function PipePart(x: State, a: Action): Option<Pipe.Action>
    requires Timely(x, a)
  {
    match a
    case Read(i) => Some(Pipe.Produce(i))
    case Deliver(i) => Some(Pipe.Send(i, x.flow.producers[i].partition, Pipe.BatchSize(x.pipe.tasks[i].batch)))
    case Fetch(c, p, order) => Some(Pipe.Fetch(c, p, order))
    case InsertRow(c) => Some(Pipe.InsertRow(c))
    case Return(c) => Some(Pipe.Return(c))
    case Redeliver(p, m) => Some(Pipe.Redeliver(p, m))
    case Crash(c, p) => Some(Pipe.Crash(c, p))
    case _ => None
  }

  /** Blocks are read between calls, calls are made for blocks with messages, rows are inserted after the decrement. */
  predicate Timely(x: State, a: Action)
  {
    match a
    case Read(i) => i < |x.flow.producers| && x.flow.producers[i].Resting?
    case Call(i) => i < |x.pipe.tasks| && x.pipe.tasks[i].batch != []
    case Choose(i, _) => i < |x.pipe.tasks|
    case Deliver(i) =>
      && i < |x.flow.producers| && i < |x.pipe.tasks|
      && x.flow.producers[i].Bound? && x.flow.producers[i].partition >= 0
    case InsertRow(c) => c < |x.flow.consumers| && x.flow.consumers[c].Handling?
    case _ => true
  }

  ghost predicate Enabled(w: Pipe.World, t: Flow.Topic, x: State, a: Action)
  {
    && Timely(x, a)
    && (FlowPart(x, a).Some? ==> Flow.Enabled(t, x.flow, FlowPart(x, a).value))
    && (PipePart(x, a).Some? ==> Pipe.Enabled(w, x.pipe, PipePart(x, a).value))
  }

  ghost function Next(w: Pipe.World, t: Flow.Topic, x: State, a: Action): State
    requires Enabled(w, t, x, a)
  {
    State(if FlowPart(x, a).Some? then Flow.Next(t, x.flow, FlowPart(x, a).value) else x.flow,
          if PipePart(x, a).Some? then Pipe.Next(w, x.pipe, PipePart(x, a).value) else x.pipe)
  }

  ghost predicate Allowed(w: Pipe.World, t: Flow.Topic, x: State, run: seq<Action>)
    decreases |run|
  {
    run == [] || (Enabled(w, t, x, run[0]) && Allowed(w, t, Next(w, t, x, run[0]), run[1..]))
  }

  ghost function Exec(w: Pipe.World, t: Flow.Topic, x: State, run: seq<Action>): State
    requires Allowed(w, t, x, run)
    decreases |run|
  {
    if run == [] then x else Exec(w, t, Next(w, t, x, run[0]), run[1..])
  }

  /** Nobody has called or fetched, the topic is empty, and no block has more messages than a list may have. */
  ghost predicate Initial(w: Pipe.World, t: Flow.Topic, tasks: seq<Pipe.Task>, base: Store, x: State)
  {
    && Pipe.Initial(w, tasks, base, x.pipe)
    && Flow.Init(t, x.flow)
    && t.n == |x.pipe.topic|
    && |x.flow.producers| == |tasks| && |x.flow.consumers| == |x.pipe.workers|
    && Fits(w, t, tasks)
  }

  ghost predicate Fits(w: Pipe.World, t: Flow.Topic, tasks: seq<Pipe.Task>)
  {
    && (forall n {:trigger w.chain(n)} :: w.chain(n).Some? ==> |w.chain(n).value.transactions| <= t.maxList)
    && (forall i :: 0 <= i < |tasks| ==> |tasks[i].batch| <= t.maxList)
  }

  lemma RunFirst(w: Pipe.World, t: Flow.Topic, x: State, a: Action, rest: seq<Action>)
    requires Enabled(w, t, x, a) && Allowed(w, t, Next(w, t, x, a), rest)
    ensures Allowed(w, t, x, [a] + rest)
    ensures Exec(w, t, x, [a] + rest) == Exec(w, t, Next(w, t, x, a), rest)
  {
    assert ([a] + rest)[1..] == rest;
  }

  lemma {:induction false} RunAppend(w: Pipe.World, t: Flow.Topic, x: State, first: seq<Action>, second: seq<Action>)
    requires Allowed(w, t, x, first) && Allowed(w, t, Exec(w, t, x, first), second)
    ensures Allowed(w, t, x, first + second)
    ensures Exec(w, t, x, first + second) == Exec(w, t, Exec(w, t, x, first), second)
    decreases |first|
  {
    if first == [] {
      assert first + second == second;
    } else {
      var x', rest := Next(w, t, x, first[0]), first[1..];
      assert first + second == [first[0]] + (rest + second);
      RunAppend(w, t, x', rest, second);
      RunFirst(w, t, x, first[0], rest + second);
    }
  }

  // ---- a run of both is a run of each ----

  lemma PipeOne(w: Pipe.World, s: Pipe.State, a: Pipe.Action, run: seq<Pipe.Action>) returns (longer: seq<Pipe.Action>)
    requires Pipe.Enabled(w, s, a) && Pipe.Allowed(w, Pipe.Next(w, s, a), run)
    ensures Pipe.Allowed(w, s, longer) && Pipe.Exec(w, s, longer) == Pipe.Exec(w, Pipe.Next(w, s, a), run)
  {
    longer := [a] + run;
    assert longer[1..] == run;
  }

  /** So whatever holds in every run of Pipeline holds with the limiter too. */
  lemma {:induction false} RunIsAPipelineRun(w: Pipe.World, t: Flow.Topic, x: State, run: seq<Action>)
    returns (pipeRun: seq<Pipe.Action>)
    requires Allowed(w, t, x, run)
    ensures Pipe.Allowed(w, x.pipe, pipeRun) && Pipe.Exec(w, x.pipe, pipeRun) == Exec(w, t, x, run).pipe
    decreases |run|
  {
    if run == [] {
      pipeRun := [];
    } else {
      pipeRun := RunIsAPipelineRun(w, t, Next(w, t, x, run[0]), run[1..]);
      if PipePart(x, run[0]).Some? {
        pipeRun := PipeOne(w, x.pipe, PipePart(x, run[0]).value, pipeRun);
      }
    }
  }

  /** And whatever holds in every run of FlowControl holds of the throttled pipeline. */
  lemma {:induction false} RunIsAFlowRun(w: Pipe.World, t: Flow.Topic, x: State, run: seq<Action>)
    returns (flowRun: seq<Flow.StepKind>)
    requires Allowed(w, t, x, run)
    ensures Flow.Allowed(t, x.flow, flowRun) && Flow.Exec(t, x.flow, flowRun) == Exec(w, t, x, run).flow
    ensures forall step <- flowRun :: !step.Abandon?
    decreases |run|
  {
    if run == [] {
      flowRun := [];
    } else {
      flowRun := RunIsAFlowRun(w, t, Next(w, t, x, run[0]), run[1..]);
      if FlowPart(x, run[0]).Some? {
        flowRun := Prepend(t, x.flow, FlowPart(x, run[0]).value, flowRun);
      }
    }
  }
}
