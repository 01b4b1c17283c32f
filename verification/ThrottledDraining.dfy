/** Exactly which states of the throttled pipeline can still be drained: those that are not hung. */
module ThrottledDraining {
  import opened KafkaProducer
  import opened FlowInvariants
  import Pipe = Pipeline
  import Flow = FlowControl
  import opened Throttled
  import opened ThrottledInvariants
  import opened ThrottledMeasure
  import opened ThrottledProgress
  import opened ThrottledSettling

  /**
   * A message the counters do not agree about yet: queued, fetched and not decremented, or delivered and not counted.
   */
  ghost predicate UnderWay(x: State)
  {
    || (exists p :: 0 <= p < |x.pipe.topic| && x.pipe.topic[p] != [])
    || (exists c :: 0 <= c < |x.flow.consumers| && x.flow.consumers[c].Fetched?)
    || (exists i :: 0 <= i < |x.flow.producers| && x.flow.producers[i].Delivered?)
  }

  /** A task whose call is not stalled has messages left to send. */
  ghost predicate Speaks(w: Pipe.World, t: Flow.Topic, x: State, i: nat)
  {
    && i < |x.flow.producers| && i < |x.pipe.tasks| && !Stalled(t, x.flow.producers[i])
    && (x.pipe.tasks[i].batch != [] || MessagesAhead(w, x.pipe.tasks[i].next, x.pipe.tasks[i].last) > 0)
  }

  lemma NotHungIs(w: Pipe.World, t: Flow.Topic, x: State)
    requires Linked(w, t, x)
    ensures Hung(w, t, x) <==>
            !Calm(t, x) && TotalCount(x) == 0 && !UnderWay(x) && forall i :: !Speaks(w, t, x, i)
  {
    if Hung(w, t, x) {
      forall i | 0 <= i < |x.flow.producers|
        ensures !x.flow.producers[i].Delivered? && !Speaks(w, t, x, i)
      {
        assert Stalled(t, x.flow.producers[i]) || Silent(w, x.flow.producers[i], x.pipe.tasks[i]);
      }
    }
    if !Calm(t, x) && TotalCount(x) == 0 && !UnderWay(x) && forall i :: !Speaks(w, t, x, i) {
      forall i | 0 <= i < |x.flow.producers|
        ensures Stalled(t, x.flow.producers[i]) || Silent(w, x.flow.producers[i], x.pipe.tasks[i])
      {
        assert !Speaks(w, t, x, i);
      }
    }
  }

  // ---- one stalled call, a total that releases it ----

  /** A call that was told a total which does not admit it asks again. */
  lemma AskAgain(w: Pipe.World, t: Flow.Topic, x: State, i: nat) returns (e: State)
    requires Regular(w, t, x) && i < |x.flow.producers| && x.flow.producers[i].Told? && Stalled(t, x.flow.producers[i])
    ensures RunsTo(w, t, x, [Judge(i)], e) && Regular(w, t, e) && StillAhead(e) == StillAhead(x)
    ensures e.pipe == x.pipe && TotalCount(e) == TotalCount(x) && i < |e.flow.producers|
    ensures e.flow.producers[i].Asking? && e.flow.producers[i].stalls > 0
  {
    One(w, t, x, Judge(i));
    e := Next(w, t, x, Judge(i));
    assert e.flow.producers[i] == Flow.Judgement(t, x.flow.producers[i]);
  }

  lemma Release(w: Pipe.World, t: Flow.Topic, x: State, i: nat) returns (run: seq<Action>, e: State)
    requires Regular(w, t, x) && i < |x.flow.producers| && Stalled(t, x.flow.producers[i])
    requires TotalCount(x) != 0 && TotalCount(x) <= Capacity(t.n)
    ensures RunsTo(w, t, x, run, e) && Regular(w, t, e) && Less(StillAhead(e), StillAhead(x)) && TotalCount(e) != 0
  {
    if x.flow.producers[i].Told? {
      var y := AskAgain(w, t, x, i);
      e := Poll(w, t, y, i);
      Then(w, t, x, [Judge(i)], y, [Ask(i)] + [Judge(i)], e);
      run := [Judge(i)] + ([Ask(i)] + [Judge(i)]);
    } else {
      e := Poll(w, t, x, i);
      run := [Ask(i)] + [Judge(i)];
    }
  }

  // ---- consumers at work ----

  /** Something is queued or fetched: a consumer can take a step, and the total falls by one at most. */
  lemma ConsumeOne(w: Pipe.World, t: Flow.Topic, x: State) returns (run: seq<Action>, e: State)
    requires Regular(w, t, x)
    requires (exists p :: 0 <= p < |x.pipe.topic| && x.pipe.topic[p] != [])
             || (exists c :: 0 <= c < |x.flow.consumers| && x.flow.consumers[c].Fetched?)
    ensures RunsTo(w, t, x, run, e) && Regular(w, t, e) && Less(StillAhead(e), StillAhead(x))
    ensures TotalCount(e) == TotalCount(x) - 1 || (TotalCount(e) == TotalCount(x) && UnderWay(e))
    ensures e.flow.producers == x.flow.producers && e.pipe.tasks == x.pipe.tasks
    ensures e.flow.uncounted == x.flow.uncounted
  {
    var a := NextConsumption(w, t, x);
    run, e := ConsumerStep(w, t, x, a);
    if !a.Decrement? {
      StillUnderWay(x, a, e);
    }
  }

  /** Nothing is taken out of the queues without being fetched, and nothing is fetched without the decrement to come. */
  lemma StillUnderWay(x: State, a: Action, e: State)
    requires ConsumersMove(x, a, e)
    requires a.Fetch? || ((a.InsertRow? || a.Return?) && exists p :: 0 <= p < |x.pipe.topic| && x.pipe.topic[p] != [])
    ensures UnderWay(e)
  {
    if a.Fetch? {
      assert e.flow.consumers[a.c].Fetched?;
    }
  }

  lemma NextConsumption(w: Pipe.World, t: Flow.Topic, x: State) returns (a: Action)
    requires Regular(w, t, x)
    requires (exists p :: 0 <= p < |x.pipe.topic| && x.pipe.topic[p] != [])
             || (exists c :: 0 <= c < |x.flow.consumers| && x.flow.consumers[c].Fetched?)
    ensures Enabled(w, t, x, a) && TaskOf(a) == -1 && !IsFault(a) && Walked(w, a)
    ensures a.Decrement? || a.Fetch?
            || ((a.InsertRow? || a.Return?) && exists p :: 0 <= p < |x.pipe.topic| && x.pipe.topic[p] != [])
  {
    if c: nat :| c < |x.flow.consumers| && x.flow.consumers[c].Fetched? {
      assert x.pipe.workers[c].Busy?;
      a := WorkOn(w, t, x, c);
    } else {
      var p: nat :| p < |x.pipe.topic| && x.pipe.topic[p] != [];
      if x.pipe.workers[0].Busy? {
        a := WorkOn(w, t, x, 0);
      } else {
        a := FetchNext(w, t, x, 0, p);
      }
    }
  }

  lemma ConsumerStep(w: Pipe.World, t: Flow.Topic, x: State, a: Action) returns (run: seq<Action>, e: State)
    requires Regular(w, t, x) && Enabled(w, t, x, a) && TaskOf(a) == -1 && !IsFault(a) && Walked(w, a)
    ensures RunsTo(w, t, x, run, e) && Regular(w, t, e) && Less(StillAhead(e), StillAhead(x))
    ensures TotalCount(e) == TotalCount(x) - if a.Decrement? then 1 else 0
    ensures e.flow.producers == x.flow.producers && e.pipe.tasks == x.pipe.tasks
    ensures e.flow.uncounted == x.flow.uncounted
    ensures ConsumersMove(x, a, e)
  {
    One(w, t, x, a);
    ConsumerFacts(w, t, x, a);
    run, e := [a], Next(w, t, x, a);
  }

  lemma ConsumerFacts(w: Pipe.World, t: Flow.Topic, x: State, a: Action)
    requires Linked(w, t, x) && Enabled(w, t, x, a) && TaskOf(a) == -1 && !IsFault(a)
    ensures var e := Next(w, t, x, a);
            && TotalCount(e) == TotalCount(x) - (if a.Decrement? then 1 else 0)
            && e.flow.producers == x.flow.producers && e.pipe.tasks == x.pipe.tasks
            && e.flow.uncounted == x.flow.uncounted && ConsumersMove(x, a, e)
  {
    OthersStay(w, t, x, a);
    ConsumersAfter(w, t, x, a);
    TotalCountAfter(w, t, x, a);
    var e := Next(w, t, x, a);
    assert e.flow.producers == x.flow.producers && e.pipe.tasks == x.pipe.tasks;
  }

  /** A total above 0 means that something is queued or fetched. */
  lemma PositiveMeansQueued(w: Pipe.World, t: Flow.Topic, x: State)
    requires Regular(w, t, x) && TotalCount(x) > 0
    ensures (exists p :: 0 <= p < |x.pipe.topic| && x.pipe.topic[p] != [])
            || (exists c :: 0 <= c < |x.flow.consumers| && x.flow.consumers[c].Fetched?)
  {
    if (forall p :: 0 <= p < |x.pipe.topic| ==> x.pipe.topic[p] == [])
       && (forall c :: 0 <= c < |x.flow.consumers| ==> !x.flow.consumers[c].Fetched?) {
      NothingLeftToCount(w, t, x);
    }
  }

  // ---- another task at work ----

  /** A task that has messages left takes its next step, and does not fall silent by it. */
  lemma SpeakOn(w: Pipe.World, t: Flow.Topic, x: State, i: nat) returns (run: seq<Action>, e: State)
    requires Regular(w, t, x) && Speaks(w, t, x, i) && TotalCount(x) == 0 && !UnderWay(x)
    ensures RunsTo(w, t, x, run, e) && Regular(w, t, e) && Less(StillAhead(e), StillAhead(x))
    ensures Speaks(w, t, e, i) || UnderWay(e)
  {
    if x.flow.producers[i].Asking? {
      assert TaskLinked(t, x.flow.producers[i], x.pipe.tasks[i]);
      e := Poll(w, t, x, i);
      run := [Ask(i)] + [Judge(i)];
    } else {
      var a := SpeakStep(w, t, x, i);
      One(w, t, x, a);
      run, e := [a], Next(w, t, x, a);
      StillSpeaks(w, t, x, a, i);
    }
  }

  lemma SpeakStep(w: Pipe.World, t: Flow.Topic, x: State, i: nat) returns (a: Action)
    requires Regular(w, t, x) && Speaks(w, t, x, i) && !UnderWay(x) && !x.flow.producers[i].Asking?
    ensures Enabled(w, t, x, a) && TaskOf(a) == i && !a.Ask? && !a.Count? && !Fruitless(t, x, a) && !IsFault(a)
    ensures Walked(w, a)
  {
    if x.flow.producers[i].Resting? && x.pipe.tasks[i].batch == [] {
      a := Read(i);
    } else {
      a := CallOn(w, t, x, i);
    }
  }

  lemma StillSpeaks(w: Pipe.World, t: Flow.Topic, x: State, a: Action, i: nat)
    requires Linked(w, t, x) && Speaks(w, t, x, i) && Enabled(w, t, x, a) && TaskOf(a) == i && !a.Ask? && !a.Count?
    requires !Fruitless(t, x, a)
    ensures Speaks(w, t, Next(w, t, x, a), i) || UnderWay(Next(w, t, x, a))
  {
    var x' := Next(w, t, x, a);
    assert TaskLinked(t, x.flow.producers[i], x.pipe.tasks[i]);
    TaskAfter(w, t, x, a, i);
    if a.Deliver? {
      assert x'.flow.producers[i].Delivered?;
    }
  }

  /** A delivered batch is counted. */
  lemma CountOne(w: Pipe.World, t: Flow.Topic, x: State, i: nat) returns (run: seq<Action>, e: State)
    requires Regular(w, t, x) && i < |x.flow.producers| && x.flow.producers[i].Delivered?
    ensures RunsTo(w, t, x, run, e) && Regular(w, t, e) && Less(StillAhead(e), StillAhead(x))
    ensures TotalCount(e) > TotalCount(x)
  {
    assert TaskLinked(t, x.flow.producers[i], x.pipe.tasks[i]);
    assert ProducerOk(t, x.flow.producers[i]);
    One(w, t, x, Count(i));
    TotalCountAfter(w, t, x, Count(i));
    run, e := [Count(i)], Next(w, t, x, Count(i));
  }

  // ---- the exact condition ----

  /** While some call is stalled: a step towards the end after which the pipeline is still not hung. */
  lemma Unstall(w: Pipe.World, t: Flow.Topic, x: State) returns (run: seq<Action>, e: State)
    requires Regular(w, t, x) && !Calm(t, x) && !Hung(w, t, x)
    ensures RunsTo(w, t, x, run, e) && Regular(w, t, e) && Less(StillAhead(e), StillAhead(x)) && !Hung(w, t, e)
  {
    NotHungIs(w, t, x);
    if TotalCount(x) > Capacity(t.n) {
      PositiveMeansQueued(w, t, x);
      run, e := ConsumeOne(w, t, x);
    } else if TotalCount(x) != 0 {
      var i: nat :| i < |x.flow.producers| && Stalled(t, x.flow.producers[i]);
      run, e := Release(w, t, x, i);
    } else if i: nat :| i < |x.flow.producers| && x.flow.producers[i].Delivered? {
      run, e := CountOne(w, t, x, i);
    } else if UnderWay(x) {
      run, e := ConsumeOne(w, t, x);
    } else {
      var i :| Speaks(w, t, x, i);
      run, e := SpeakOn(w, t, x, i);
    }
    NotHungIs(w, t, e);
  }

  lemma {:induction false} Drain(w: Pipe.World, t: Flow.Topic, x: State) returns (run: seq<Action>, e: State)
    requires Regular(w, t, x) && !Hung(w, t, x)
    ensures RunsTo(w, t, x, run, e) && Drained(w, e)
    decreases StillAhead(x).blocks, StillAhead(x).unsent, StillAhead(x).stages, StillAhead(x).unfetched,
              StillAhead(x).undecremented, StillAhead(x).uninserted
  {
    if Calm(t, x) {
      run, e := DrainCalm(w, t, x);
    } else {
      var first, y := Unstall(w, t, x);
      var rest;
      rest, e := Drain(w, t, y);
      Then(w, t, x, first, y, rest, e);
      run := first + rest;
    }
  }

  /**
   * A state of the pipeline can be brought to its end without further faults if and only if it is not hung, whatever
   * faults led to it.
   */
  lemma DrainableExactlyWhenNotHung(w: Pipe.World, t: Flow.Topic, x: State)
    requires Regular(w, t, x)
    ensures (exists run :: Allowed(w, t, x, run) && FaultFree(run) && Drained(w, Exec(w, t, x, run)))
            <==> !Hung(w, t, x)
  {
    if Hung(w, t, x) {
      var i: nat :| i < |x.flow.producers| && Stalled(t, x.flow.producers[i]);
      forall run | Allowed(w, t, x, run) && FaultFree(run)
        ensures !Drained(w, Exec(w, t, x, run))
      {
        HungForever(w, t, x, run, i);
      }
    } else {
      var run, e := Drain(w, t, x);
      assert Drained(w, Exec(w, t, x, run));
    }
  }

  ghost predicate Released(t: Flow.Topic, x: State, i: nat)
  {
    i < |x.flow.producers| && !Stalled(t, x.flow.producers[i])
  }

  /** A stalled call is released by some continuation without faults if and only if the pipeline is not hung. */
  lemma StalledCallIsReleasedExactlyWhen(w: Pipe.World, t: Flow.Topic, x: State, i: nat)
    requires Regular(w, t, x) && i < |x.flow.producers| && Stalled(t, x.flow.producers[i])
    ensures (exists run :: Allowed(w, t, x, run) && FaultFree(run) && Released(t, Exec(w, t, x, run), i))
            <==> !Hung(w, t, x)
  {
    if Hung(w, t, x) {
      forall run | Allowed(w, t, x, run) && FaultFree(run)
        ensures !Released(t, Exec(w, t, x, run), i)
      {
        HungForever(w, t, x, run, i);
      }
    } else {
      var run, e := Drain(w, t, x);
      LinkedRun(w, t, x, run);
      SameNumber(w, t, x, run);
      assert e.flow.producers[i].Resting?;
      assert Released(t, Exec(w, t, x, run), i);
    }
  }

  lemma {:induction false} SameNumber(w: Pipe.World, t: Flow.Topic, x: State, run: seq<Action>)
    requires Allowed(w, t, x, run) && |x.flow.producers| == |x.pipe.tasks|
    ensures var e := Exec(w, t, x, run); |e.flow.producers| == |e.pipe.tasks| == |x.pipe.tasks|
    decreases |run|
  {
    if run != [] {
      OthersStay(w, t, x, run[0]);
      SameNumber(w, t, Next(w, t, x, run[0]), run[1..]);
    }
  }

  /**
   * For a single task: its stalled call is never released exactly when the total is 0 and nothing is queued or
   * fetched.
   */
  lemma HungAlone(w: Pipe.World, t: Flow.Topic, x: State)
    requires Linked(w, t, x) && |x.flow.producers| == 1 && Stalled(t, x.flow.producers[0])
    ensures Hung(w, t, x) <==>
            && TotalCount(x) == 0
            && (forall p :: 0 <= p < |x.pipe.topic| ==> x.pipe.topic[p] == [])
            && (forall c :: 0 <= c < |x.flow.consumers| ==> !x.flow.consumers[c].Fetched?)
  {
    assert !x.flow.producers[0].Delivered?;
  }

  /** There is always a step left but faults, until the pipeline is drained; while hung, it is a poll in the end. */
  lemma OnlyDrainedStops(w: Pipe.World, t: Flow.Topic, x: State)
    requires Regular(w, t, x)
    ensures Drained(w, x) <==> forall a :: Enabled(w, t, x, a) ==> IsFault(a)
  {
    if !Drained(w, x) {
      var a := SomeStep(w, t, x);
    }
  }

  lemma SomeStep(w: Pipe.World, t: Flow.Topic, x: State) returns (a: Action)
    requires Regular(w, t, x) && !Drained(w, x)
    ensures Enabled(w, t, x, a) && !IsFault(a)
  {
    if i: nat :| i < |x.flow.producers| && !(x.flow.producers[i].Resting? && x.pipe.tasks[i].batch == []) {
      a := SomeCallStep(w, t, x, i);
    } else if c: nat :| c < |x.pipe.workers| && x.pipe.workers[c].Busy? {
      a := WorkOn(w, t, x, c);
    } else if p: nat :| p < |x.pipe.topic| && x.pipe.topic[p] != [] {
      a := FetchNext(w, t, x, 0, p);
    } else {
      var i: nat :| i < |x.pipe.tasks| && !Pipe.Ended(w, x.pipe.tasks[i]);
      a := Read(i);
    }
  }

  lemma SomeCallStep(w: Pipe.World, t: Flow.Topic, x: State, i: nat) returns (a: Action)
    requires Regular(w, t, x) && i < |x.flow.producers|
    requires x.flow.producers[i].Resting? ==> x.pipe.tasks[i].batch != []
    ensures Enabled(w, t, x, a) && !IsFault(a)
  {
    if x.flow.producers[i].Asking? {
      a := Ask(i);
    } else if Stalled(t, x.flow.producers[i]) {
      a := Judge(i);
    } else {
      a := CallOn(w, t, x, i);
    }
  }
}
