/** Runs that bring the throttled pipeline to rest, as long as no call is stalled. */
module ThrottledSettling {
  import opened KafkaProducer
  import Flow = FlowControl
  import opened FlowInvariants
  import opened CapacityReached
  import Pipe = Pipeline
  import opened Throttled
  import opened ThrottledInvariants
  import opened ThrottledMeasure
  import opened ThrottledProgress

  ghost predicate Regular(w: Pipe.World, t: Flow.Topic, x: State)
  {
    Pipe.Sound(w) && Linked(w, t, x) && Counted(x)
  }

  ghost predicate Calm(t: Flow.Topic, x: State)
  {
    forall i :: 0 <= i < |x.flow.producers| ==> !Stalled(t, x.flow.producers[i])
  }

  /** Every call has returned, every message is handled. */
  ghost predicate Settled(x: State)
  {
    && (forall i :: 0 <= i < |x.flow.producers| ==> x.flow.producers[i].Resting?)
    && (forall i :: 0 <= i < |x.pipe.tasks| ==> x.pipe.tasks[i].batch == [])
    && (forall p :: 0 <= p < |x.pipe.topic| ==> x.pipe.topic[p] == [])
    && (forall c :: 0 <= c < |x.pipe.workers| ==> x.pipe.workers[c].Idle?)
  }

  /** The tasks stand before the same blocks. */
  ghost predicate SameScans(x: State, x': State)
  {
    && |x'.pipe.tasks| == |x.pipe.tasks|
    && forall i :: 0 <= i < |x.pipe.tasks| ==>
         && x'.pipe.tasks[i].next == x.pipe.tasks[i].next && x'.pipe.tasks[i].last == x.pipe.tasks[i].last
         && x'.pipe.tasks[i].mode == x.pipe.tasks[i].mode
  }

  /** Receipts are walked as the world has it, wherever the step fetches. */
  ghost predicate Walked(w: Pipe.World, a: Action)
  {
    a.Fetch? ==> exists h :: a.order == w.walk(h)
  }

  ghost predicate AllWalked(w: Pipe.World, run: seq<Action>)
  {
    forall a <- run :: Walked(w, a)
  }

  /** A fault-free run from one state to another. */
  ghost predicate RunsTo(w: Pipe.World, t: Flow.Topic, x: State, run: seq<Action>, e: State)
  {
    Allowed(w, t, x, run) && FaultFree(run) && AllWalked(w, run) && Exec(w, t, x, run) == e
  }

  lemma One(w: Pipe.World, t: Flow.Topic, x: State, a: Action)
    requires Regular(w, t, x) && Enabled(w, t, x, a) && !IsFault(a) && Walked(w, a)
    ensures RunsTo(w, t, x, [a], Next(w, t, x, a)) && Regular(w, t, Next(w, t, x, a))
    ensures if Fruitless(t, x, a) then StillAhead(Next(w, t, x, a)) == StillAhead(x)
            else Less(StillAhead(Next(w, t, x, a)), StillAhead(x))
  {
    assert [a][1..] == [];
    LinkedStep(w, t, x, a);
    StepMakesProgress(w, t, x, a);
  }

  lemma Then(w: Pipe.World, t: Flow.Topic, x: State, first: seq<Action>, y: State, second: seq<Action>, e: State)
    requires RunsTo(w, t, x, first, y) && RunsTo(w, t, y, second, e)
    ensures RunsTo(w, t, x, first + second, e)
  {
    RunAppend(w, t, x, first, second);
  }

  /** A step of a task that leaves it calm keeps the others as they are. */
  lemma StaysCalm(w: Pipe.World, t: Flow.Topic, x: State, a: Action)
    requires Linked(w, t, x) && Calm(t, x) && Enabled(w, t, x, a)
    requires !a.Ask? && !a.Read? && !IsFault(a)
    ensures Calm(t, Next(w, t, x, a)) && SameScans(x, Next(w, t, x, a))
  {
    var x' := Next(w, t, x, a);
    OthersStay(w, t, x, a);
    if TaskOf(a) != -1 {
      TaskAfter(w, t, x, a, TaskOf(a));
    }
  }

  /** The state after a call of task `i` has moved on by itself. */
  function Moved(x: State, i: nat, q: Flow.Producer): State
    requires i < |x.flow.producers|
  {
    x.(flow := x.flow.(producers := x.flow.producers[i := q]))
  }

  lemma AskOne(w: Pipe.World, t: Flow.Topic, x: State, i: nat) returns (e: State)
    requires Regular(w, t, x) && i < |x.flow.producers| && x.flow.producers[i].Asking?
    ensures RunsTo(w, t, x, [Ask(i)], e) && Regular(w, t, e) && StillAhead(e) == StillAhead(x)
    ensures e == Moved(x, i, Flow.Told(x.flow.producers[i].len, x.flow.producers[i].stalls, TotalCount(x)))
  {
    One(w, t, x, Ask(i));
    e := Next(w, t, x, Ask(i));
  }

  lemma JudgeOne(w: Pipe.World, t: Flow.Topic, x: State, i: nat) returns (e: State)
    requires Regular(w, t, x) && i < |x.flow.producers| && x.flow.producers[i].Told?
    ensures RunsTo(w, t, x, [Judge(i)], e) && Regular(w, t, e)
    ensures e == Moved(x, i, Flow.Judgement(t, x.flow.producers[i]))
    ensures if Stalled(t, x.flow.producers[i]) then StillAhead(e) == StillAhead(x)
            else Less(StillAhead(e), StillAhead(x))
  {
    One(w, t, x, Judge(i));
    e := Next(w, t, x, Judge(i));
  }

  /** A reading that admits. */
  lemma Poll(w: Pipe.World, t: Flow.Topic, x: State, i: nat) returns (e: State)
    requires Regular(w, t, x) && i < |x.flow.producers| && x.flow.producers[i].Asking?
    requires Decide(TotalCount(x), Capacity(t.n), x.flow.producers[i].stalls).Admit?
    ensures RunsTo(w, t, x, [Ask(i)] + [Judge(i)], e)
    ensures Regular(w, t, e) && Less(StillAhead(e), StillAhead(x))
    ensures e == Moved(x, i, Flow.Admitted(x.flow.producers[i].len))
  {
    var y := AskOne(w, t, x, i);
    e := JudgeOne(w, t, y, i);
    Then(w, t, x, [Ask(i)], y, [Judge(i)], e);
  }

  /** With everything delivered, handled and counted, no more than 0 is left in the counters. */
  lemma NothingLeftToCount(w: Pipe.World, t: Flow.Topic, x: State)
    requires Regular(w, t, x)
    requires forall p :: 0 <= p < |x.pipe.topic| ==> x.pipe.topic[p] == []
    requires forall c :: 0 <= c < |x.flow.consumers| ==> !x.flow.consumers[c].Fetched?
    ensures TotalCount(x) <= 0
  {
    Flow.AllZero(x.flow.backlog);
    Flow.AllZero(Flow.FetchedByAlls(x.flow.consumers));
    Flow.AllNonNegative(Flow.DeliveredByAlls(x.flow.producers));
    Flow.AllNonNegative(x.flow.uncounted);
  }

  /** Some consumer is in the middle of a message. */
  lemma WorkOn(w: Pipe.World, t: Flow.Topic, x: State, c: nat) returns (a: Action)
    requires Regular(w, t, x) && c < |x.pipe.workers| && x.pipe.workers[c].Busy?
    ensures Enabled(w, t, x, a) && (a == Decrement(c) || a == InsertRow(c) || a == Return(c))
    ensures x.flow.consumers[c].Fetched? ==> a.Decrement?
    ensures x.flow.consumers[c].Handling? ==> !a.Decrement?
  {
    assert !x.flow.consumers[c].Listening?;
    a := if x.flow.consumers[c].Fetched? then Decrement(c)
         else if x.pipe.workers[c].todo != [] then InsertRow(c) else Return(c);
  }

  lemma FetchNext(w: Pipe.World, t: Flow.Topic, x: State, c: nat, p: nat) returns (a: Action)
    requires Regular(w, t, x) && c < |x.pipe.workers| && x.pipe.workers[c].Idle?
    requires p < |x.pipe.topic| && x.pipe.topic[p] != []
    ensures Enabled(w, t, x, a) && a.Fetch? && a.c == c && a.p == p && Walked(w, a)
  {
    assert x.flow.consumers[c].Listening?;
    a := Fetch(c, p, w.walk(x.pipe.topic[p][0].hash));
  }

  /** The next step of a call that is past the limiter, or about to be. */
  lemma CallOn(w: Pipe.World, t: Flow.Topic, x: State, i: nat) returns (a: Action)
    requires Regular(w, t, x) && i < |x.flow.producers|
    requires !x.flow.producers[i].Asking? && !Stalled(t, x.flow.producers[i])
    requires x.flow.producers[i].Resting? ==> x.pipe.tasks[i].batch != []
    ensures Enabled(w, t, x, a) && TaskOf(a) == i && !a.Ask? && !a.Read? && !Fruitless(t, x, a)
    ensures match x.flow.producers[i]
            case Resting => a.Call?
            case Told(_, _, _) => a.Judge?
            case Admitted(rest) => if rest > 0 then a.Choose? else a.Finish?
            case Bound(_, _, _) => a.Deliver?
            case Delivered(_, _, _) => a.Count?
            case _ => true
  {
    var q := x.flow.producers[i];
    assert TaskLinked(t, q, x.pipe.tasks[i]);
    assert ProducerOk(t, q);
    match q {
      case Resting => a := Call(i);
      case Told(_, _, _) => a := Judge(i);
      case Admitted(rest) =>
        if rest > 0 {
          var p := SomePick(t, x.flow);
          a := Choose(i, p);
        } else {
          a := Finish(i);
        }
      case Bound(_, _, _) => a := Deliver(i);
      case Delivered(_, _, _) => a := Count(i);
    }
  }

  /** One step of a calm pipeline that is neither a poll nor reads a block. */
  lemma CalmOne(w: Pipe.World, t: Flow.Topic, x: State, a: Action) returns (run: seq<Action>, e: State)
    requires Regular(w, t, x) && Calm(t, x) && Enabled(w, t, x, a) && !Fruitless(t, x, a) && !a.Read? && !IsFault(a)
    requires Walked(w, a)
    ensures RunsTo(w, t, x, run, e) && Regular(w, t, e) && Calm(t, e) && SameScans(x, e)
    ensures Less(StillAhead(e), StillAhead(x))
  {
    One(w, t, x, a);
    StaysCalm(w, t, x, a);
    run, e := [a], Next(w, t, x, a);
  }

  lemma CalmPoll(w: Pipe.World, t: Flow.Topic, x: State, i: nat) returns (run: seq<Action>, e: State)
    requires Regular(w, t, x) && Calm(t, x) && i < |x.flow.producers| && x.flow.producers[i].Asking?
            && TotalCount(x) <= 0
    ensures RunsTo(w, t, x, run, e) && Regular(w, t, e) && Calm(t, e) && SameScans(x, e)
    ensures Less(StillAhead(e), StillAhead(x))
  {
    assert !Stalled(t, x.flow.producers[i]);
    e := Poll(w, t, x, i);
    run := [Ask(i)] + [Judge(i)];
  }

  /** There is work besides polling the total. */
  ghost predicate Working(x: State)
    requires |x.flow.producers| == |x.pipe.tasks|
  {
    || (exists c :: 0 <= c < |x.pipe.workers| && x.pipe.workers[c].Busy?)
    || (exists p :: 0 <= p < |x.pipe.topic| && x.pipe.topic[p] != [])
    || (exists i :: 0 <= i < |x.flow.producers| && !x.flow.producers[i].Asking?
                    && (x.flow.producers[i].Resting? ==> x.pipe.tasks[i].batch != []))
  }

  lemma SomeoneAsks(w: Pipe.World, t: Flow.Topic, x: State) returns (i: nat)
    requires Regular(w, t, x) && !Settled(x) && !Working(x)
    ensures i < |x.flow.producers| && x.flow.producers[i].Asking? && TotalCount(x) <= 0
  {
    forall c | 0 <= c < |x.flow.consumers|
      ensures !x.flow.consumers[c].Fetched?
    {
      assert x.pipe.workers[c].Idle?;
    }
    NothingLeftToCount(w, t, x);
    i :| i < |x.flow.producers| && x.flow.producers[i].Asking?;
  }

  lemma NextWork(w: Pipe.World, t: Flow.Topic, x: State) returns (a: Action)
    requires Regular(w, t, x) && Calm(t, x) && Working(x)
    ensures Enabled(w, t, x, a) && !Fruitless(t, x, a) && !a.Read? && !IsFault(a) && Walked(w, a)
  {
    if c: nat :| c < |x.pipe.workers| && x.pipe.workers[c].Busy? {
      a := WorkOn(w, t, x, c);
    } else if p: nat :| p < |x.pipe.topic| && x.pipe.topic[p] != [] {
      a := FetchNext(w, t, x, 0, p);
    } else {
      var i: nat :| i < |x.flow.producers| && !x.flow.producers[i].Asking?
                    && (x.flow.producers[i].Resting? ==> x.pipe.tasks[i].batch != []);
      a := CallOn(w, t, x, i);
    }
  }

  /** Towards rest without reading a block. */
  lemma SettleStep(w: Pipe.World, t: Flow.Topic, x: State) returns (run: seq<Action>, e: State)
    requires Regular(w, t, x) && Calm(t, x) && !Settled(x)
    ensures RunsTo(w, t, x, run, e) && Regular(w, t, e) && Calm(t, e) && SameScans(x, e)
    ensures Less(StillAhead(e), StillAhead(x))
  {
    if Working(x) {
      var a := NextWork(w, t, x);
      run, e := CalmOne(w, t, x, a);
    } else {
      var j := SomeoneAsks(w, t, x);
      run, e := CalmPoll(w, t, x, j);
    }
  }

  lemma SameScansJoin(x: State, y: State, e: State)
    requires SameScans(x, y) && SameScans(y, e)
    ensures SameScans(x, e)
  {
  }

  lemma LessJoin(a: Ahead, b: Ahead, c: Ahead)
    requires (a == b || Less(a, b)) && Less(b, c)
    ensures Less(a, c)
  {
  }

  lemma {:induction false} Settle(w: Pipe.World, t: Flow.Topic, x: State) returns (run: seq<Action>, e: State)
    requires Regular(w, t, x) && Calm(t, x)
    ensures RunsTo(w, t, x, run, e) && Regular(w, t, e) && Settled(e) && SameScans(x, e)
    ensures StillAhead(e) == StillAhead(x) || Less(StillAhead(e), StillAhead(x))
    decreases StillAhead(x).blocks, StillAhead(x).unsent, StillAhead(x).stages, StillAhead(x).unfetched,
              StillAhead(x).undecremented, StillAhead(x).uninserted
  {
    if Settled(x) {
      run, e := [], x;
    } else {
      var first, y := SettleStep(w, t, x);
      var rest;
      rest, e := Settle(w, t, y);
      SameScansJoin(x, y, e);
      LessJoin(StillAhead(e), StillAhead(y), StillAhead(x));
      Then(w, t, x, first, y, rest, e);
      run := first + rest;
    }
  }

  /** The next block, once everything is at rest. */
  lemma ReadNext(w: Pipe.World, t: Flow.Topic, x: State, i: nat) returns (e: State)
    requires Regular(w, t, x) && Settled(x) && i < |x.pipe.tasks| && !Pipe.Ended(w, x.pipe.tasks[i])
    ensures Enabled(w, t, x, Read(i)) && e == Next(w, t, x, Read(i))
    ensures RunsTo(w, t, x, [Read(i)], e) && Regular(w, t, e) && Calm(t, e) && Less(StillAhead(e), StillAhead(x))
  {
    assert x.flow.producers[i].Resting? && x.pipe.tasks[i].batch == [];
    One(w, t, x, Read(i));
    e := Next(w, t, x, Read(i));
    assert e.flow == x.flow;
  }

  /** Everything comes to rest; then a task that is not at its end reads its next block, if there is one. */
  lemma SettleAndGoOn(w: Pipe.World, t: Flow.Topic, x: State) returns (run: seq<Action>, e: State)
    requires Regular(w, t, x) && Calm(t, x)
    ensures RunsTo(w, t, x, run, e)
    ensures Drained(w, e) || (Regular(w, t, e) && Calm(t, e) && Less(StillAhead(e), StillAhead(x)))
  {
    var y;
    run, y := Settle(w, t, x);
    if i: nat :| i < |y.pipe.tasks| && !Pipe.Ended(w, y.pipe.tasks[i]) {
      e := ReadNext(w, t, y, i);
      Then(w, t, x, run, y, [Read(i)], e);
      run := run + [Read(i)];
    } else {
      e := y;
    }
  }

  /** As long as no call is stalled, the pipeline can be drained. */
  lemma {:induction false} DrainCalm(w: Pipe.World, t: Flow.Topic, x: State) returns (run: seq<Action>, e: State)
    requires Regular(w, t, x) && Calm(t, x)
    ensures RunsTo(w, t, x, run, e) && Drained(w, e)
    decreases StillAhead(x).blocks, StillAhead(x).unsent, StillAhead(x).stages, StillAhead(x).unfetched,
              StillAhead(x).undecremented, StillAhead(x).uninserted
  {
    var first, y := SettleAndGoOn(w, t, x);
    if Drained(w, y) {
      run, e := first, y;
    } else {
      var rest;
      rest, e := DrainCalm(w, t, y);
      Then(w, t, x, first, y, rest, e);
      run := first + rest;
    }
  }
}
