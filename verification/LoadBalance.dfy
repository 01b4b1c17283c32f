/** How evenly the least-loaded choice spreads messages over the partitions. */
module LoadBalance {
  import opened Sums
  import opened Redis
  import opened KafkaProducer
  import opened FlowControl
  import opened FlowInvariants

  /** No partition is ahead of another by more than one batch per producer, plus what consumers took away. */
  ghost predicate Balanced(t: Topic, s: State)
  {
    forall p, q {:trigger InFlight(s, p), Score(s.scores, q)} :: 0 <= p < t.n && 0 <= q < t.n ==>
      Score(s.scores, p) + InFlight(s, p) <= Score(s.scores, q) + |s.producers| * MESSAGES_PER_BATCH + s.decrements
  }

  /** Every partition has a counter, and the round robin is over. */
  ghost predicate AllCounted(t: Topic, s: State)
  {
    s.next == -1 && forall p :: 0 <= p < t.n ==> p in s.scores
  }

  lemma InFlightAtMost(t: Topic, s: State, p: int)
    requires WellFormed(t, s)
    ensures 0 <= InFlight(s, p) <= |s.producers| * MESSAGES_PER_BATCH
  {
    forall i | 0 <= i < |s.producers|
      ensures 0 <= InFlightOfs(s.producers, p)[i] <= MESSAGES_PER_BATCH
    {
      assert ProducerOk(t, s.producers[i]);
    }
    TotalAtMost(InFlightOfs(s.producers, p), MESSAGES_PER_BATCH);
    AllNonNegative(InFlightOfs(s.producers, p));
  }

  lemma ScoresMove(t: Topic, s: State, a: StepKind, p: int)
    requires WellFormed(t, s) && Enabled(t, s, a)
    ensures var s' := Next(t, s, a);
            && |s'.producers| == |s.producers|
            && s'.decrements == s.decrements + (if a.Decrement? then 1 else 0)
            && (!a.Decrement? ==> Score(s'.scores, p) >= Score(s.scores, p))
            && (a.Decrement? ==> Score(s.scores, p) - 1 <= Score(s'.scores, p) <= Score(s.scores, p))
            && (!a.Choose? || p != a.p ==>
                  Score(s'.scores, p) + InFlight(s', p) <= Score(s.scores, p) + InFlight(s, p))
            && (a.Choose? ==> s'.scores == s.scores)
  {
    SumsAfterStep(t, s, a, p);
  }

  lemma BalancedStep(t: Topic, s: State, a: StepKind)
    requires WellFormed(t, s) && Enabled(t, s, a) && AllCounted(t, s) && Balanced(t, s)
    ensures AllCounted(t, Next(t, s, a)) && Balanced(t, Next(t, s, a))
  {
    var s' := Next(t, s, a);
    WellFormedStep(t, s, a);
    forall p, q | 0 <= p < t.n && 0 <= q < t.n
      ensures Score(s'.scores, p) + InFlight(s', p)
              <= Score(s'.scores, q) + |s'.producers| * MESSAGES_PER_BATCH + s'.decrements
    {
      ScoresMove(t, s, a, p);
      ScoresMove(t, s, a, q);
      if a.Choose? && p == a.p {
        InFlightAtMost(t, s', p);
        assert IsLowest(s.scores, p);
        assert q in s.scores;
      }
    }
  }

  lemma {:induction false} BalancedRun(t: Topic, s: State, run: seq<StepKind>)
    requires WellFormed(t, s) && AllCounted(t, s) && Balanced(t, s) && Allowed(t, s, run)
    ensures var e := Exec(t, s, run); WellFormed(t, e) && AllCounted(t, e) && Balanced(t, e)
    decreases |run|
  {
    if run != [] {
      WellFormedStep(t, s, run[0]);
      BalancedStep(t, s, run[0]);
      BalancedRun(t, Next(t, s, run[0]), run[1..]);
    }
  }

  ghost predicate ConsumersQuiet(run: seq<StepKind>)
  {
    forall a <- run :: !a.Fetch? && !a.Decrement?
  }

  lemma {:induction false} NoDecrements(t: Topic, s: State, run: seq<StepKind>)
    requires Allowed(t, s, run) && ConsumersQuiet(run)
    ensures Exec(t, s, run).decrements == s.decrements && |Exec(t, s, run).producers| == |s.producers|
    decreases |run|
  {
    if run != [] {
      OneActorMoves(t, s, run[0]);
      assert run[0] in run;
      NoDecrements(t, Next(t, s, run[0]), run[1..]);
    }
  }

  /**
   * k producer tasks, quiet consumers, every partition counted: from any state with a spread of at most k batches,
   * counted and in-flight messages of any partition exceed the minimum score by at most k*1024 in every later
   * state, sends that fail included.
   */
  lemma SpreadStaysWithinKBatches(t: Topic, s: State, run: seq<StepKind>, p: int, q: int)
    requires WellFormed(t, s) && AllCounted(t, s) && Allowed(t, s, run) && ConsumersQuiet(run)
    requires s.decrements == 0 && Balanced(t, s)
    requires 0 <= p < t.n && 0 <= q < t.n
    ensures var e := Exec(t, s, run);
            Score(e.scores, p) + InFlight(e, p) <= Score(e.scores, q) + |s.producers| * MESSAGES_PER_BATCH
  {
    BalancedRun(t, s, run);
    NoDecrements(t, s, run);
  }

  // ---- one producer from the empty topic ----

  ghost predicate NeverAbandons(run: seq<StepKind>)
  {
    forall a <- run :: !a.Abandon?
  }

  /** The first lap of the round robin: partitions before `next` have had one batch, the others none. */
  ghost predicate FirstLap(t: Topic, s: State)
  {
    s.next >= 0 ==>
      forall p {:trigger InFlight(s, p)} :: 0 <= p < t.n ==>
        && Score(s.scores, p) + InFlight(s, p) <= (if p < s.next then MESSAGES_PER_BATCH else 0)
        && Score(s.scores, p) >= -(s.decrements as int)
  }

  /** Partitions the round robin has passed are counted, or the only producer is still busy with their batch. */
  ghost predicate PassedAreCounted(t: Topic, s: State)
    requires |s.producers| == 1
  {
    forall p :: 0 <= p < (if s.next == -1 then t.n else s.next) ==>
      p in s.scores || ((s.producers[0].Bound? || s.producers[0].Delivered?) && s.producers[0].partition == p)
  }

  ghost predicate Single(t: Topic, s: State)
  {
    && |s.producers| == 1 && WellFormed(t, s) && FirstLap(t, s) && PassedAreCounted(t, s)
    && (s.next == -1 ==> Balanced(t, s))
  }

  /** The only producer takes a batch: none was in flight, now at most one is, for the chosen partition. */
  lemma ChosenInFlight(t: Topic, s: State, a: StepKind, p: int)
    requires WellFormed(t, s) && |s.producers| == 1 && Enabled(t, s, a) && a.Choose? && 0 <= p < t.n
    ensures var s' := Next(t, s, a);
            && s'.scores == s.scores && s'.decrements == s.decrements && |s'.producers| == 1
            && InFlight(s, p) == 0
            && 0 <= InFlight(s', p) <= if p == a.p then MESSAGES_PER_BATCH else 0
  {
    WellFormedStep(t, s, a);
    ScoresMove(t, s, a, p);
    InFlightAtMost(t, Next(t, s, a), p);
    assert s.producers[0].Admitted?;
    AllZero(InFlightOfs(s.producers, p));
  }

  lemma LapGoesOn(t: Topic, s: State, a: StepKind)
    requires Single(t, s) && Enabled(t, s, a) && a.Choose? && s.next != -1
    ensures var s' := Next(t, s, a); FirstLap(t, s') && (s'.next == -1 ==> Balanced(t, s'))
  {
    var s' := Next(t, s, a);
    forall p | 0 <= p < t.n
      ensures InFlight(s, p) == 0 && 0 <= InFlight(s', p)
      ensures Score(s'.scores, p) + InFlight(s', p) <= if p <= s.next then MESSAGES_PER_BATCH else 0
      ensures Score(s'.scores, p) >= -(s'.decrements as int)
    {
      ChosenInFlight(t, s, a, p);
    }
    assert |s'.producers| == 1;
  }

  lemma SingleChoose(t: Topic, s: State, a: StepKind)
    requires Single(t, s) && Enabled(t, s, a) && a.Choose?
    ensures Single(t, Next(t, s, a))
  {
    WellFormedStep(t, s, a);
    if s.next == -1 {
      assert s.producers[0].Admitted?;
      assert AllCounted(t, s);
      BalancedStep(t, s, a);
    } else {
      LapGoesOn(t, s, a);
    }
  }

  lemma SingleOther(t: Topic, s: State, a: StepKind)
    requires Single(t, s) && Enabled(t, s, a) && !a.Choose? && !a.Abandon?
    ensures Single(t, Next(t, s, a))
  {
    var s' := Next(t, s, a);
    WellFormedStep(t, s, a);
    forall p | 0 <= p < t.n
      ensures && Score(s'.scores, p) + InFlight(s', p) <= Score(s.scores, p) + InFlight(s, p)
              && Score(s'.scores, p) + s'.decrements >= Score(s.scores, p) + s.decrements
              && s'.decrements >= s.decrements
    {
      ScoresMove(t, s, a, p);
    }
    OneActorMoves(t, s, a);
    assert |s'.producers| == 1 && s'.next == s.next;
    assert s.scores.Keys <= s'.scores.Keys;
    if s.next == -1 {
      forall p, q | 0 <= p < t.n && 0 <= q < t.n
        ensures Score(s'.scores, p) + InFlight(s', p)
                <= Score(s'.scores, q) + |s'.producers| * MESSAGES_PER_BATCH + s'.decrements
      {
        assert Score(s.scores, p) + InFlight(s, p)
               <= Score(s.scores, q) + |s.producers| * MESSAGES_PER_BATCH + s.decrements;
      }
    }
  }

  lemma {:induction false} SingleRun(t: Topic, s: State, run: seq<StepKind>)
    requires Single(t, s) && Allowed(t, s, run) && NeverAbandons(run)
    ensures Single(t, Exec(t, s, run))
    decreases |run|
  {
    if run != [] {
      assert run[0] in run;
      if run[0].Choose? {
        SingleChoose(t, s, run[0]);
      } else {
        SingleOther(t, s, run[0]);
      }
      SingleRun(t, Next(t, s, run[0]), run[1..]);
    }
  }

  lemma SingleAtFirst(t: Topic, s: State)
    requires Init(t, s) && |s.producers| == 1
    ensures Single(t, s)
  {
    InitialSums(t, s, 0);
    forall p | 0 <= p < t.n
      ensures InFlight(s, p) == 0 && Score(s.scores, p) == 0
    {
      InitialSums(t, s, p);
    }
  }

  /**
   * One producer task starting on an empty topic, no send failing: the spread never exceeds one batch plus the
   * number of decrements, from the first batch on, with absent counters read as 0.
   */
  lemma SpreadFromAnEmptyTopic(t: Topic, s: State, run: seq<StepKind>, p: int, q: int)
    requires Init(t, s) && |s.producers| == 1 && Allowed(t, s, run) && NeverAbandons(run)
    requires 0 <= p < t.n && 0 <= q < t.n
    ensures var e := Exec(t, s, run);
            Score(e.scores, p) + InFlight(e, p) <= Score(e.scores, q) + MESSAGES_PER_BATCH + e.decrements
  {
    SingleAtFirst(t, s);
    SingleRun(t, s, run);
    var e := Exec(t, s, run);
    if e.next >= 0 {
      InFlightAtMost(t, e, q);
    }
  }

  /**
   * Failed sends matter only until every partition has been counted: from then on one task keeps the same bound
   * whatever fails.
   */
  lemma SpreadOnceCounted(t: Topic, s: State, lap: seq<StepKind>, run: seq<StepKind>, p: int, q: int)
    requires Init(t, s) && |s.producers| == 1 && Allowed(t, s, lap) && NeverAbandons(lap)
    requires AllCounted(t, Exec(t, s, lap)) && Allowed(t, Exec(t, s, lap), run)
    requires 0 <= p < t.n && 0 <= q < t.n
    ensures var e := Exec(t, Exec(t, s, lap), run);
            && |e.producers| == 1
            && Score(e.scores, p) + InFlight(e, p) <= Score(e.scores, q) + MESSAGES_PER_BATCH + e.decrements
  {
    SingleAtFirst(t, s);
    SingleRun(t, s, lap);
    var y := Exec(t, s, lap);
    BalancedRun(t, y, run);
    OneProducer(t, y, run);
  }

  lemma {:induction false} OneProducer(t: Topic, s: State, run: seq<StepKind>)
    requires Allowed(t, s, run)
    ensures |Exec(t, s, run).producers| == |s.producers|
    decreases |run|
  {
    if run != [] {
      OneActorMoves(t, s, run[0]);
      OneProducer(t, Next(t, s, run[0]), run[1..]);
    }
  }

  // ---- why the counters must all be present ----

  /** The messages of `rounds` batches for each partition but the last. */
  function Lists(n: nat, rounds: nat): nat
    requires n >= 1
  {
    if rounds == 0 then 0 else Lists(n, rounds - 1) + Lap(n - 1)
  }

  /** The messages of one batch for each of `partitions`. */
  function Lap(partitions: nat): nat
  {
    partitions * MESSAGES_PER_BATCH
  }

  /** Producer 0 has `rest` messages to go. */
  ghost predicate Sends(t: Topic, s: State, rest: nat)
  {
    t.n >= 2 && |s.backlog| == |s.uncounted| == t.n && s.producers != [] && s.producers[0] == Admitted(rest)
  }

  /** Producer 0 sends a batch to a partition it may choose. */
  lemma OneBatch(t: Topic, s: State, rest: nat, p: int) returns (run: seq<StepKind>)
    requires Sends(t, s, MESSAGES_PER_BATCH + rest) && 0 <= p < t.n && Picks(s.next, s.scores, p)
    ensures Allowed(t, s, run) && ConsumersQuiet(run) && NeverAbandons(run)
    ensures var e := Exec(t, s, run);
            && Sends(t, e, rest) && e.producers == s.producers[0 := Admitted(rest)]
            && e.next == NextIndex(s.next, t.n) && e.scores == Credit(s.scores, p, MESSAGES_PER_BATCH)
  {
    var s1 := Next(t, s, Choose(0, MESSAGES_PER_BATCH, p));
    var s2 := Next(t, s1, Deliver(0));
    run := Prepend(t, s2, Count(0), []);
    run := Prepend(t, s1, Deliver(0), run);
    run := Prepend(t, s, Choose(0, MESSAGES_PER_BATCH, p), run);
  }

  lemma Quietly(first: seq<StepKind>, second: seq<StepKind>)
    requires ConsumersQuiet(first) && ConsumersQuiet(second)
    ensures ConsumersQuiet(first + second)
    ensures NeverAbandons(first) && NeverAbandons(second) ==> NeverAbandons(first + second)
  {
  }

  /** The partitions below `j` are counted, with one batch each. */
  ghost predicate LapSoFar(scores: map<int, int>, j: int)
  {
    (forall p :: p in scores <==> 0 <= p < j) && forall p <- scores :: scores[p] == MESSAGES_PER_BATCH
  }

  /** On its first lap producer 0 serves every partition but the last. */
  lemma {:induction false} FirstLapButOne(t: Topic, s: State, rest: nat, j: nat) returns (run: seq<StepKind>)
    requires j <= t.n - 1 && Sends(t, s, Lap(t.n - 1 - j) + rest) && s.next == j && LapSoFar(s.scores, j)
    ensures Allowed(t, s, run) && ConsumersQuiet(run) && NeverAbandons(run)
    ensures var e := Exec(t, s, run);
            && Sends(t, e, rest) && e.producers == s.producers[0 := Admitted(rest)]
            && e.next == t.n - 1 && LapSoFar(e.scores, t.n - 1)
    decreases t.n - 1 - j
  {
    if j == t.n - 1 {
      run := [];
      assert s.producers[0 := Admitted(rest)] == s.producers;
    } else {
      var first := OneBatch(t, s, Lap(t.n - 2 - j) + rest, j);
      var y := Exec(t, s, first);
      var second := FirstLapButOne(t, y, rest, j + 1);
      ExecAppend(t, s, first, second);
      Quietly(first, second);
      run := first + second;
    }
  }

  /** All partitions but the last have had `r` batches counted, those below `j` one more; the last has no counter. */
  ghost predicate Level(t: Topic, scores: map<int, int>, r: nat, j: int)
  {
    && (forall p :: p in scores <==> 0 <= p < t.n - 1)
    && forall p <- scores :: scores[p] == r * MESSAGES_PER_BATCH + if p < j then MESSAGES_PER_BATCH else 0
  }

  /** While the last partition is not counted, the least loaded one is always among the others. */
  lemma {:induction false} Round(t: Topic, s: State, rest: nat, r: nat, j: nat) returns (run: seq<StepKind>)
    requires j <= t.n - 1 && Sends(t, s, Lap(t.n - 1 - j) + rest) && s.next == -1 && Level(t, s.scores, r, j)
    ensures Allowed(t, s, run) && ConsumersQuiet(run) && NeverAbandons(run)
    ensures var e := Exec(t, s, run); Sends(t, e, rest) && e.next == -1 && Level(t, e.scores, r + 1, 0)
    decreases t.n - 1 - j
  {
    if j == t.n - 1 {
      run := [];
    } else {
      assert j in s.scores && IsLowest(s.scores, j);
      var first := OneBatch(t, s, Lap(t.n - 2 - j) + rest, j);
      var y := Exec(t, s, first);
      var second := Round(t, y, rest, r, j + 1);
      ExecAppend(t, s, first, second);
      Quietly(first, second);
      run := first + second;
    }
  }

  lemma {:induction false} Rounds(t: Topic, s: State, rest: nat, r: nat, more: nat) returns (run: seq<StepKind>)
    requires t.n >= 2 && Sends(t, s, Lists(t.n, more) + rest) && s.next == -1 && Level(t, s.scores, r, 0)
    ensures Allowed(t, s, run) && ConsumersQuiet(run) && NeverAbandons(run)
    ensures Level(t, Exec(t, s, run).scores, r + more, 0)
    decreases more
  {
    if more == 0 {
      run := [];
    } else {
      var first := Round(t, s, Lists(t.n, more - 1) + rest, r, 0);
      var y := Exec(t, s, first);
      var second := Rounds(t, y, rest, r + 1, more - 1);
      ExecAppend(t, s, first, second);
      Quietly(first, second);
      run := first + second;
    }
  }

  lemma OpenAndLap(t: Topic, s: State, rest: nat) returns (run: seq<StepKind>)
    requires Init(t, s) && t.n >= 2 && s.producers != [] && t.maxList >= Lap(t.n - 1) + rest
    ensures Allowed(t, s, run) && ConsumersQuiet(run) && NeverAbandons(run)
    ensures var e := Exec(t, s, run);
            && Sends(t, e, rest) && e.producers == s.producers[0 := Admitted(rest)]
            && e.next == t.n - 1 && LapSoFar(e.scores, t.n - 1)
  {
    SumValuesZero(s.scores);
    var first := AdmitCall(t, s, 0, Lap(t.n - 1) + rest);
    var y := Exec(t, s, first);
    var second := FirstLapButOne(t, y, rest, 0);
    ExecAppend(t, s, first, second);
    Quietly(first, second);
    run := first + second;
  }

  /**
   * From an empty topic, with n >= 2 partitions and k >= 2 tasks, the spread grows without limit although no send
   * fails and no consumer runs: while task 1 is busy with the last partition of the first lap, that one is not counted
   * and task 0 never chooses it.
   */
  lemma MissingCounterBreaksBalance(t: Topic, s: State, m: nat) returns (run: seq<StepKind>)
    requires Init(t, s) && t.n >= 2 && |s.producers| >= 2 && m >= 1 && t.maxList >= Lists(t.n, m) + 1
    ensures Allowed(t, s, run) && ConsumersQuiet(run) && NeverAbandons(run)
    ensures Level(t, Exec(t, s, run).scores, m, 0)
  {
    SumValuesZero(s.scores);
    var other := AdmitCall(t, s, 1, 1);
    var s1 := Exec(t, s, other);
    var first := AdmitCall(t, s1, 0, Lists(t.n, m));
    var s2 := Exec(t, s1, first);
    var lap := FirstLapButOne(t, s2, Lists(t.n, m - 1), 0);
    var s3 := Exec(t, s2, lap);
    var taken := Prepend(t, s3, Choose(1, 1, t.n - 1), []);
    var s4 := Exec(t, s3, taken);
    var rest := Rounds(t, s4, 0, 1, m - 1);
    run := InTurn(t, s, other, first, lap, taken, rest);
  }

  lemma InTurn(t: Topic, s: State, a: seq<StepKind>, b: seq<StepKind>, c: seq<StepKind>, d: seq<StepKind>,
               e: seq<StepKind>)
    returns (run: seq<StepKind>)
    requires Allowed(t, s, a) && Allowed(t, Exec(t, s, a), b) && Allowed(t, Exec(t, Exec(t, s, a), b), c)
    requires Allowed(t, Exec(t, Exec(t, Exec(t, s, a), b), c), d)
    requires Allowed(t, Exec(t, Exec(t, Exec(t, Exec(t, s, a), b), c), d), e)
    requires ConsumersQuiet(a) && ConsumersQuiet(b) && ConsumersQuiet(c) && ConsumersQuiet(d) && ConsumersQuiet(e)
    ensures Allowed(t, s, run) && ConsumersQuiet(run)
    ensures Exec(t, s, run) == Exec(t, Exec(t, Exec(t, Exec(t, Exec(t, s, a), b), c), d), e)
    ensures NeverAbandons(a) && NeverAbandons(b) && NeverAbandons(c) && NeverAbandons(d) && NeverAbandons(e) ==>
              NeverAbandons(run)
  {
    ExecAppend(t, s, a, b);
    Quietly(a, b);
    ExecAppend(t, s, a + b, c);
    Quietly(a + b, c);
    ExecAppend(t, s, a + b + c, d);
    Quietly(a + b + c, d);
    ExecAppend(t, s, a + b + c + d, e);
    Quietly(a + b + c + d, e);
    run := a + b + c + d + e;
  }

  /**
   * With a single task it takes one failed send: the last batch of the first lap gets no metadata, and its partition,
   * not counted, is never chosen again.
   */
  lemma FailedSendBreaksBalance(t: Topic, s: State, m: nat) returns (run: seq<StepKind>)
    requires Init(t, s) && t.n >= 2 && |s.producers| == 1 && m >= 1
    requires t.maxList >= Lists(t.n, m) + MESSAGES_PER_BATCH
    ensures Allowed(t, s, run) && ConsumersQuiet(run)
    ensures Level(t, Exec(t, s, run).scores, m, 0)
  {
    var left := Lists(t.n, m - 1);
    var lap := OpenAndLap(t, s, MESSAGES_PER_BATCH + left);
    var s1 := Exec(t, s, lap);
    var s2 := Next(t, s1, Choose(0, MESSAGES_PER_BATCH, t.n - 1));
    var failed := Prepend(t, s2, Abandon(0, true), []);
    failed := Prepend(t, s1, Choose(0, MESSAGES_PER_BATCH, t.n - 1), failed);
    var s3 := Exec(t, s1, failed);
    var rest := Rounds(t, s3, 0, 1, m - 1);
    ExecAppend(t, s, lap, failed);
    Quietly(lap, failed);
    ExecAppend(t, s, lap + failed, rest);
    Quietly(lap + failed, rest);
    run := lap + failed + rest;
  }

  // ---- exactly when an empty topic stays balanced ----

  /**
   * From the empty topic, with quiet consumers and no failed send, the spread stays within k batches for every list.
   */
  ghost predicate SpreadHolds(n: nat, k: nat)
  {
    forall maxList: nat, s, run, p, q ::
      && Init(Topic(n, maxList), s) && |s.producers| == k && Allowed(Topic(n, maxList), s, run)
      && ConsumersQuiet(run) && NeverAbandons(run) && 0 <= p < n && 0 <= q < n ==>
        WithinSpread(Exec(Topic(n, maxList), s, run), k, p, q)
  }

  ghost predicate WithinSpread(s: State, k: nat, p: int, q: int)
  {
    Score(s.scores, p) + InFlight(s, p) <= Score(s.scores, q) + k * MESSAGES_PER_BATCH
  }

  lemma SpreadHoldsFor(t: Topic, s: State, run: seq<StepKind>, p: int, q: int)
    requires Init(t, s) && Allowed(t, s, run) && ConsumersQuiet(run) && NeverAbandons(run)
    requires 0 <= p < t.n && 0 <= q < t.n && (t.n == 1 || |s.producers| == 1)
    ensures WithinSpread(Exec(t, s, run), |s.producers|, p, q)
  {
    if t.n == 1 {
      OnePartitionOnly(t, s, run);
    } else {
      NoDecrements(t, s, run);
      SpreadFromAnEmptyTopic(t, s, run, p, q);
    }
  }

  lemma OnePartitionOnly(t: Topic, s: State, run: seq<StepKind>)
    requires Init(t, s) && Allowed(t, s, run) && ConsumersQuiet(run) && t.n == 1
    ensures WithinSpread(Exec(t, s, run), |s.producers|, 0, 0)
  {
    NoDecrements(t, s, run);
    InitialSums(t, s, 0);
    WellFormedRun(t, s, run);
    InFlightAtMost(t, Exec(t, s, run), 0);
  }

  lemma SpreadFailsFor(n: nat, k: nat)
    requires n >= 2 && k >= 2
    ensures !SpreadHolds(n, k)
  {
    var t := Topic(n, Lists(n, k + 1) + 1);
    var s := State(seq(k, _ => Producer.Resting), [], 0, map[], seq(n, _ => 0), seq(n, _ => 0), 0);
    var run := MissingCounterBreaksBalance(t, s, k + 1);
    var e := Exec(t, s, run);
    NoDecrements(t, s, run);
    SpreadTooWide(t, e, k);
    assert !WithinSpread(e, k, 0, n - 1);
  }

  lemma SpreadTooWide(t: Topic, e: State, k: nat)
    requires t.n >= 2 && Level(t, e.scores, k + 1, 0)
    ensures !WithinSpread(e, k, 0, t.n - 1)
  {
    AllNonNegative(InFlightOfs(e.producers, 0));
    assert 0 in e.scores && t.n - 1 !in e.scores;
    assert (k + 1) * MESSAGES_PER_BATCH == k * MESSAGES_PER_BATCH + MESSAGES_PER_BATCH;
  }

  /** The spread stays within k batches from an empty topic if and only if there is one partition or one task. */
  lemma SpreadHoldsExactlyWhen(n: nat, k: nat)
    requires n >= 1 && k >= 1
    ensures SpreadHolds(n, k) <==> n == 1 || k == 1
  {
    if n == 1 || k == 1 {
      forall maxList: nat, s, run, p, q |
        && Init(Topic(n, maxList), s) && |s.producers| == k && Allowed(Topic(n, maxList), s, run)
        && ConsumersQuiet(run) && NeverAbandons(run) && 0 <= p < n && 0 <= q < n
        ensures WithinSpread(Exec(Topic(n, maxList), s, run), k, p, q)
      {
        SpreadHoldsFor(Topic(n, maxList), s, run, p, q);
      }
    } else {
      SpreadFailsFor(n, k);
    }
  }
}
