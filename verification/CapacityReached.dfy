/** The capacity bound is the best possible: some run reaches it exactly. */
module CapacityReached {
  import opened Sums
  import opened Redis
  import opened KafkaProducer
  import opened FlowControl
  import opened FlowInvariants

  ghost predicate AllResting(t: Topic, s: State, total: int)
  {
    && WellFormed(t, s) && SumValues(s.scores) == total
    && forall i :: 0 <= i < |s.producers| ==> s.producers[i].Resting?
  }

  /** `_choose_partition` always has an answer. */
  lemma SomePick(t: Topic, s: State) returns (p: int)
    requires WellFormed(t, s)
    ensures 0 <= p < t.n && Picks(s.next, s.scores, p)
  {
    if s.next != -1 {
      p := s.next;
    } else if s.scores == map[] {
      p := 0;
    } else {
      p := MinimumExists(s.scores);
    }
  }

  /** A delivered batch is counted, and the call ends with it. */
  lemma CountAndFinish(t: Topic, s: State, p: int) returns (run: seq<StepKind>)
    requires WellFormed(t, s) && s.producers != [] && s.producers[0] == Producer.Delivered(p, 1, 0)
    ensures Allowed(t, s, run)
    ensures var e := Exec(t, s, run);
            e.producers == s.producers[0 := Resting] && SumValues(e.scores) == SumValues(s.scores) + 1
  {
    var s1 := Next(t, s, Count(0));
    SumValuesUpdate(s.scores, p, Score(s.scores, p) + 1);
    run := Prepend(t, s1, Finish(0), []);
    run := Prepend(t, s, Count(0), run);
  }

  /** A call of one message runs to its end. */
  lemma CarryOut(t: Topic, s: State) returns (run: seq<StepKind>)
    requires WellFormed(t, s) && s.producers != [] && s.producers[0] == Admitted(1)
    ensures Allowed(t, s, run)
    ensures var e := Exec(t, s, run);
            e.producers == s.producers[0 := Resting] && SumValues(e.scores) == SumValues(s.scores) + 1
  {
    var p := SomePick(t, s);
    var s1 := Next(t, s, Choose(0, 1, p));
    var s2 := Next(t, s1, Deliver(0));
    WellFormedStep(t, s, Choose(0, 1, p));
    WellFormedStep(t, s1, Deliver(0));
    run := CountAndFinish(t, s2, p);
    run := Prepend(t, s1, Deliver(0), run);
    run := Prepend(t, s, Choose(0, 1, p), run);
  }

  lemma SendOne(t: Topic, s: State, total: int) returns (run: seq<StepKind>)
    requires AllResting(t, s, total) && total <= Capacity(t.n) && s.producers != [] && t.maxList >= 1
    ensures Allowed(t, s, run)
    ensures AllResting(t, Exec(t, s, run), total + 1) && |Exec(t, s, run).producers| == |s.producers|
  {
    var admit := AdmitCall(t, s, 0, 1);
    var admitted := Exec(t, s, admit);
    WellFormedRun(t, s, admit);
    var send := CarryOut(t, admitted);
    WellFormedRun(t, admitted, send);
    ExecAppend(t, s, admit, send);
    run := admit + send;
  }

  lemma {:induction false} FillTo(t: Topic, s: State, total: int) returns (run: seq<StepKind>)
    requires AllResting(t, s, total) && total <= Capacity(t.n) && s.producers != [] && t.maxList >= 1
    ensures Allowed(t, s, run)
    ensures AllResting(t, Exec(t, s, run), Capacity(t.n)) && |Exec(t, s, run).producers| == |s.producers|
    decreases Capacity(t.n) - total
  {
    if total == Capacity(t.n) {
      run := [];
    } else {
      var one := SendOne(t, s, total);
      var rest := FillTo(t, Exec(t, s, one), total + 1);
      ExecAppend(t, s, one, rest);
      run := one + rest;
    }
  }

  /** The first `i` tasks are admitted with a full list each. */
  ghost predicate AdmittedUpTo(t: Topic, s: State, i: nat)
  {
    && i <= |s.producers| && |s.backlog| == |s.uncounted| == t.n
    && forall j :: 0 <= j < |s.producers| ==> s.producers[j] == if j < i then Admitted(t.maxList) else Resting
  }

  lemma {:induction false} AdmitTheRest(t: Topic, s: State, i: nat) returns (run: seq<StepKind>)
    requires AdmittedUpTo(t, s, i) && SumValues(s.scores) <= Capacity(t.n)
    ensures Allowed(t, s, run)
    ensures var e := Exec(t, s, run);
            |e.producers| == |s.producers| && AdmittedUpTo(t, e, |e.producers|) && e.scores == s.scores
    decreases |s.producers| - i
  {
    if i == |s.producers| {
      run := [];
    } else {
      var one := AdmitCall(t, s, i, t.maxList);
      var rest := AdmitTheRest(t, Exec(t, s, one), i + 1);
      ExecAppend(t, s, one, rest);
      run := one + rest;
    }
  }

  lemma {:induction false} TotalOfEquals(xs: seq<int>, v: int)
    requires forall i :: 0 <= i < |xs| ==> xs[i] == v
    ensures Total(xs) == |xs| * v
  {
    if xs != [] {
      TotalOfEquals(xs[1..], v);
      assert |xs| * v == v + |xs[1..]| * v;
    }
  }

  /**
   * From the empty topic the bound of CapacityInEveryRun is met with equality: the topic is filled to capacity, then
   * every task reads that total before any of them adds to it.
   */
  lemma CapacityIsReached(t: Topic, s: State) returns (run: seq<StepKind>)
    requires Init(t, s) && s.producers != [] && t.maxList >= 1
    ensures Allowed(t, s, run)
    ensures var e := Exec(t, s, run);
            SumValues(e.scores) + Owed(t, e) == Capacity(t.n) + |s.producers| * t.maxList
  {
    InitialSums(t, s, 0);
    SumValuesZero(s.scores);
    var fill := FillTo(t, s, 0);
    var full := Exec(t, s, fill);
    var admit := AdmitTheRest(t, full, 0);
    ExecAppend(t, s, fill, admit);
    run := fill + admit;
    TotalOfEquals(OwedBys(t, Exec(t, full, admit).producers), t.maxList);
  }
}
