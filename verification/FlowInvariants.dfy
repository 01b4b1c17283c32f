/** What every run of the topic keeps: counter conservation and the capacity bound. */
module FlowInvariants {
  import opened Sums
  import opened Redis
  import opened KafkaProducer
  import opened FlowControl

  ghost predicate ProducerOk(t: Topic, q: Producer)
  {
    match q
    case Resting => true
    case Asking(len, _) => len <= t.maxList
    case Told(len, _, _) => len <= t.maxList
    case Admitted(rest) => rest <= t.maxList
    case Bound(p, batch, rest) => 0 <= p < t.n && batch + rest <= t.maxList && batch <= MESSAGES_PER_BATCH
    case Delivered(p, batch, rest) => 0 <= p < t.n && batch + rest <= t.maxList && batch <= MESSAGES_PER_BATCH
  }

  ghost predicate WellFormed(t: Topic, s: State)
  {
    && t.n >= 1 && |s.backlog| == |s.uncounted| == t.n && -1 <= s.next < t.n
    && (forall p <- s.scores :: 0 <= p < t.n)
    && (forall i :: 0 <= i < |s.producers| ==> ProducerOk(t, s.producers[i]))
    && (forall c :: 0 <= c < |s.consumers| && s.consumers[c].Fetched? ==> 0 <= s.consumers[c].partition < t.n)
  }

  lemma WellFormedStep(t: Topic, s: State, a: StepKind)
    requires WellFormed(t, s) && Enabled(t, s, a)
    ensures WellFormed(t, Next(t, s, a))
  {
    OneActorMoves(t, s, a);
    var s' := Next(t, s, a);
    match ActorOf(a) {
      case Task(i) =>
        assert ProducerOk(t, s.producers[i]);
        assert ProducerOk(t, s'.producers[i]);
        forall j | 0 <= j < |s'.producers|
          ensures ProducerOk(t, s'.producers[j])
        {
          assert j != i ==> s'.producers[j] == s.producers[j];
        }
      case _ =>
    }
  }

  lemma {:induction false} WellFormedRun(t: Topic, s: State, run: seq<StepKind>)
    requires WellFormed(t, s) && Allowed(t, s, run)
    ensures WellFormed(t, Exec(t, s, run))
    decreases |run|
  {
    if run != [] {
      WellFormedStep(t, s, run[0]);
      WellFormedRun(t, Next(t, s, run[0]), run[1..]);
    }
  }

  // ---- conservation ----

  /**
   * Redis counts what the broker holds, less what was delivered and not counted, plus what was fetched and not
   * decremented.
   */
  ghost predicate Conserved(s: State, p: int)
    requires 0 <= p < |s.backlog| && |s.backlog| == |s.uncounted|
  {
    Score(s.scores, p) == s.backlog[p] - DeliveredUncounted(s, p) - s.uncounted[p] + FetchedUndecremented(s, p)
  }

  lemma ConservedStep(t: Topic, s: State, a: StepKind, p: int)
    requires WellFormed(t, s) && Enabled(t, s, a) && 0 <= p < t.n && Conserved(s, p)
    ensures |Next(t, s, a).backlog| == |Next(t, s, a).uncounted| == t.n && Conserved(Next(t, s, a), p)
  {
    SumsAfterStep(t, s, a, p);
    WellFormedStep(t, s, a);
  }

  lemma {:induction false} ConservedRun(t: Topic, s: State, run: seq<StepKind>, p: int)
    requires WellFormed(t, s) && Allowed(t, s, run) && 0 <= p < t.n && Conserved(s, p)
    ensures WellFormed(t, Exec(t, s, run)) && Conserved(Exec(t, s, run), p)
    decreases |run|
  {
    if run != [] {
      ConservedStep(t, s, run[0], p);
      WellFormedStep(t, s, run[0]);
      ConservedRun(t, Next(t, s, run[0]), run[1..], p);
    }
  }

  lemma InitialSums(t: Topic, s: State, p: int)
    requires Init(t, s)
    ensures InFlight(s, p) == DeliveredUncounted(s, p) == FetchedUndecremented(s, p) == Owed(t, s) == 0
    ensures Total(DeliveredByAlls(s.producers)) == Total(FetchedByAlls(s.consumers)) == 0
    ensures WellFormed(t, s)
  {
    AllZero(InFlightOfs(s.producers, p));
    AllZero(DeliveredOfs(s.producers, p));
    AllZero(OwedBys(t, s.producers));
    AllZero(DeliveredByAlls(s.producers));
    AllZero(FetchedOfs(s.consumers, p));
    AllZero(FetchedByAlls(s.consumers));
  }

  /** Conservation over all runs, with timeouts, missing metadata, refused appends and redelivery included. */
  lemma CountersAreConserved(t: Topic, s: State, run: seq<StepKind>, p: int)
    requires Init(t, s) && Allowed(t, s, run) && 0 <= p < t.n
    ensures WellFormed(t, Exec(t, s, run)) && Conserved(Exec(t, s, run), p)
  {
    InitialSums(t, s, p);
    ConservedRun(t, s, run, p);
  }

  ghost predicate Quiet(s: State)
  {
    && (forall i :: 0 <= i < |s.producers| ==> !s.producers[i].Delivered?)
    && (forall c :: 0 <= c < |s.consumers| ==> !s.consumers[c].Fetched?)
  }

  /** At rest a counter equals its partition's backlog exactly when nothing entered that partition uncounted. */
  lemma CountersAgreeAtRest(t: Topic, s: State, run: seq<StepKind>, p: int)
    requires Init(t, s) && Allowed(t, s, run) && 0 <= p < t.n && Quiet(Exec(t, s, run))
    ensures WellFormed(t, Exec(t, s, run))
    ensures var e := Exec(t, s, run); Score(e.scores, p) == e.backlog[p] <==> e.uncounted[p] == 0
  {
    CountersAreConserved(t, s, run, p);
    var e := Exec(t, s, run);
    AllZero(DeliveredOfs(e.producers, p));
    AllZero(FetchedOfs(e.consumers, p));
  }

  /** A counter can be negative: a consumer may be faster than the producer's own counting. */
  lemma CountersCanBeNegative(t: Topic, s: State) returns (run: seq<StepKind>)
    requires Init(t, s) && t.maxList >= 1 && |s.producers| >= 1 && |s.consumers| >= 1
    ensures Allowed(t, s, run) && Score(Exec(t, s, run).scores, 0) == -1
  {
    var s1 := Next(t, s, Call(0, 1));
    var s2 := Next(t, s1, Ask(0));
    var s3 := Next(t, s2, Judge(0));
    var s4 := Next(t, s3, Choose(0, 1, 0));
    var s5 := Next(t, s4, Deliver(0));
    var s6 := Next(t, s5, Fetch(0, 0));
    var s7 := Next(t, s6, Decrement(0));
    run := [Decrement(0)];
    assert Exec(t, s6, run) == s7 by { assert run[1..] == []; }
    run := Prepend(t, s5, Fetch(0, 0), run);
    run := Prepend(t, s4, Deliver(0), run);
    run := Prepend(t, s3, Choose(0, 1, 0), run);
    run := Prepend(t, s2, Judge(0), run);
    run := Prepend(t, s1, Ask(0), run);
    run := Prepend(t, s, Call(0, 1), run);
  }

  lemma Prepend(t: Topic, s: State, a: StepKind, run: seq<StepKind>) returns (longer: seq<StepKind>)
    requires Enabled(t, s, a) && Allowed(t, Next(t, s, a), run)
    ensures longer == [a] + run
    ensures Allowed(t, s, longer) && Exec(t, s, longer) == Exec(t, Next(t, s, a), run)
  {
    longer := [a] + run;
    assert longer[1..] == run;
  }

  /** At a total within capacity the limiter admits a call at its first reading. */
  lemma AdmitCall(t: Topic, s: State, i: nat, len: nat) returns (run: seq<StepKind>)
    requires i < |s.producers| && s.producers[i].Resting? && len <= t.maxList
    requires SumValues(s.scores) <= Capacity(t.n) && |s.backlog| == |s.uncounted| == t.n
    ensures run == [Call(i, len), Ask(i), Judge(i)]
    ensures Allowed(t, s, run) && Exec(t, s, run) == s.(producers := s.producers[i := Admitted(len)])
  {
    var s1 := Next(t, s, Call(i, len));
    var s2 := Next(t, s1, Ask(i));
    var s3 := Next(t, s2, Judge(i));
    run := Prepend(t, s2, Judge(i), []);
    run := Prepend(t, s1, Ask(i), run);
    run := Prepend(t, s, Call(i, len), run);
    assert s3.producers == s.producers[i := Admitted(len)];
  }

  // ---- capacity ----

  function Ceiling(t: Topic, s: State): int
  {
    Capacity(t.n) + |s.producers| * t.maxList
  }

  /** Every admitted message that will still be counted is already paid for. */
  ghost predicate WithinCapacity(t: Topic, s: State)
  {
    SumValues(s.scores) + Owed(t, s) <= Ceiling(t, s)
  }

  lemma ScoresAfterStep(t: Topic, s: State, a: StepKind)
    requires WellFormed(t, s) && Enabled(t, s, a)
    ensures SumValues(Next(t, s, a).scores) == SumValues(s.scores) +
                                               match a
                                               case Count(i) => s.producers[i].batch
                                               case Decrement(_) => -1
                                               case _ => 0
  {
    match a {
      case Count(i) =>
        var q := s.producers[i];
        SumValuesUpdate(s.scores, q.partition, Score(s.scores, q.partition) + q.batch);
      case Decrement(c) =>
        var p := s.consumers[c].partition;
        SumValuesUpdate(s.scores, p, Score(s.scores, p) - 1);
      case _ =>
    }
  }

  lemma BacklogAfterStep(t: Topic, s: State, a: StepKind)
    requires WellFormed(t, s) && Enabled(t, s, a)
    ensures Total(Next(t, s, a).backlog) == Total(s.backlog) +
                                            match a
                                            case Deliver(i) => s.producers[i].batch
                                            case Fetch(_, _) => -1
                                            case Redeliver(_) => 1
                                            case Stop(_, _) => 1
                                            case _ => 0
    ensures Total(Next(t, s, a).uncounted) == Total(s.uncounted) +
                                              match a
                                              case Abandon(i, _) => DeliveredByAll(s.producers[i])
                                              case Redeliver(_) => 1
                                              case Stop(c, _) => if s.consumers[c].Handling? then 1 else 0
                                              case _ => 0
  {
    match a {
      case Deliver(i) =>
        var q := s.producers[i];
        TotalUpdate(s.backlog, q.partition, s.backlog[q.partition] + q.batch);
      case Abandon(i, _) =>
        var q := s.producers[i];
        TotalUpdate(s.uncounted, q.partition, s.uncounted[q.partition] + q.batch);
      case Fetch(c, p) =>
        TotalUpdate(s.backlog, p, s.backlog[p] - 1);
      case Redeliver(p) =>
        TotalUpdate(s.backlog, p, s.backlog[p] + 1);
        TotalUpdate(s.uncounted, p, s.uncounted[p] + 1);
      case Stop(_, p) =>
        TotalUpdate(s.backlog, p, s.backlog[p] + 1);
        TotalUpdate(s.uncounted, p, s.uncounted[p] + 1);
      case _ =>
    }
  }

  lemma OwedAtMost(t: Topic, s: State)
    requires WellFormed(t, s)
    ensures Owed(t, s) <= |s.producers| * t.maxList
  {
    forall j | 0 <= j < |s.producers|
      ensures OwedBys(t, s.producers)[j] <= t.maxList
    {
      assert ProducerOk(t, s.producers[j]);
    }
    TotalAtMost(OwedBys(t, s.producers), t.maxList);
  }

  lemma WithinCapacityStep(t: Topic, s: State, a: StepKind)
    requires WellFormed(t, s) && Enabled(t, s, a) && WithinCapacity(t, s)
    ensures WithinCapacity(t, Next(t, s, a))
  {
    SumsAfterStep(t, s, a, 0);
    ScoresAfterStep(t, s, a);
    if a.Ask? {
      WellFormedStep(t, s, a);
      OwedAtMost(t, Next(t, s, a));
    }
  }

  ghost predicate TotalsConserved(s: State)
  {
    SumValues(s.scores) ==
    Total(s.backlog) - Total(DeliveredByAlls(s.producers)) - Total(s.uncounted) + Total(FetchedByAlls(s.consumers))
  }

  lemma TotalsConservedStep(t: Topic, s: State, a: StepKind)
    requires WellFormed(t, s) && Enabled(t, s, a) && TotalsConserved(s)
    ensures TotalsConserved(Next(t, s, a))
  {
    SumsAfterStep(t, s, a, 0);
    ScoresAfterStep(t, s, a);
    BacklogAfterStep(t, s, a);
  }

  lemma {:induction false} CapacityRun(t: Topic, s: State, run: seq<StepKind>)
    requires WellFormed(t, s) && WithinCapacity(t, s) && TotalsConserved(s) && Allowed(t, s, run)
    ensures var e := Exec(t, s, run);
            WellFormed(t, e) && WithinCapacity(t, e) && TotalsConserved(e) && |e.producers| == |s.producers|
    decreases |run|
  {
    if run != [] {
      WellFormedStep(t, s, run[0]);
      WithinCapacityStep(t, s, run[0]);
      TotalsConservedStep(t, s, run[0]);
      SumsAfterStep(t, s, run[0], 0);
      CapacityRun(t, Next(t, s, run[0]), run[1..]);
    }
  }

  /**
   * With k calls at a time of at most L messages, the Redis total and what the admitted calls still owe it never
   * exceed 1000*n + k*L, although the limiter compares a total that may be out of date. The messages the broker
   * really holds obey the same bound, apart from those that entered uncounted.
   */
  lemma CapacityInEveryRun(t: Topic, s: State, run: seq<StepKind>)
    requires Init(t, s) && Allowed(t, s, run)
    ensures var e := Exec(t, s, run);
            && SumValues(e.scores) + Owed(t, e) <= 1000 * t.n + |s.producers| * t.maxList
            && Owed(t, e) >= 0
            && Total(e.backlog) <= 1000 * t.n + |s.producers| * t.maxList + Total(e.uncounted)
  {
    InitialTotals(t, s);
    CapacityRun(t, s, run);
    OwedBoundsDelivered(t, Exec(t, s, run));
  }

  lemma InitialTotals(t: Topic, s: State)
    requires Init(t, s)
    ensures WellFormed(t, s) && WithinCapacity(t, s) && TotalsConserved(s)
  {
    InitialSums(t, s, 0);
    AllZero(s.backlog);
    AllZero(s.uncounted);
    SumValuesZero(s.scores);
  }

  lemma OwedBoundsDelivered(t: Topic, s: State)
    ensures Owed(t, s) >= 0 && Total(DeliveredByAlls(s.producers)) <= Owed(t, s)
    ensures Total(FetchedByAlls(s.consumers)) >= 0
  {
    AllNonNegative(OwedBys(t, s.producers));
    TotalMonotone(DeliveredByAlls(s.producers), OwedBys(t, s.producers));
    AllNonNegative(FetchedByAlls(s.consumers));
  }
}
