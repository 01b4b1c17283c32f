/**
 * The handshake between the listening task and the timeout task of a consumer, over two asyncio events
 * (kafka/manager.py, _event_timeout_task and _start_listening_on_topic_task).
 */
module Watchdog {

  /** Where the timeout task is: in one of its two waits, or ended by raising KafkaConsumerPartitionsEmptyError. */
  datatype Dog = AwaitsMessage | AwaitsFinish | Raised

  /** Where the listening task is: waiting for the next message, or between the two `set()` calls. */
  datatype Listener = Idle | Busy

  datatype State = State(
    timeoutSet: bool,      // kafka_timeout_event
    consumingSet: bool,    // kafka_consuming_event
    dog: Dog,
    listener: Listener
  )

  datatype Move =
      /** A message arrives: kafka_timeout_event.set(), then the handler starts. */
    | Receive
      /** The handler returned: kafka_consuming_event.set(). */
    | Finish
      /** The timeout task runs: its wait is over, it clears the event and enters its other wait. */
    | Wake
      /** event_retrieval_timeout seconds pass with kafka_timeout_event unset. */
    | Expire

  const Start := State(false, false, AwaitsMessage, Idle)

  predicate Blocked(s: State)
  {
    match s.dog
    case AwaitsMessage => !s.timeoutSet
    case AwaitsFinish => !s.consumingSet
    case Raised => true
  }

  predicate Enabled(s: State, m: Move)
  {
    match m
    case Receive => s.listener.Idle?
    case Finish => s.listener.Busy?
    case Wake => !Blocked(s)
    case Expire => s.dog.AwaitsMessage? && !s.timeoutSet
  }

  function Next(s: State, m: Move): State
    requires Enabled(s, m)
  {
    match m
    case Receive => s.(timeoutSet := true, listener := Busy)
    case Finish => s.(consumingSet := true, listener := Idle)
    case Wake =>
      if s.dog.AwaitsMessage? then s.(timeoutSet := false, dog := AwaitsFinish)
      else s.(consumingSet := false, dog := AwaitsMessage)
    case Expire => s.(dog := Raised)
  }

  /** A `set()` on an event that is still set: two notifications become one. */
  predicate Coalesces(s: State, m: Move)
  {
    (m.Receive? && s.timeoutSet) || (m.Finish? && s.consumingSet)
  }

  predicate Allowed(s: State, run: seq<Move>)
    decreases |run|
  {
    run == [] || (Enabled(s, run[0]) && Allowed(Next(s, run[0]), run[1..]))
  }

  function Exec(s: State, run: seq<Move>): State
    requires Allowed(s, run)
    decreases |run|
  {
    if run == [] then s else Exec(Next(s, run[0]), run[1..])
  }

  /** No notification of this run is lost. */
  predicate NoneLost(s: State, run: seq<Move>)
    requires Allowed(s, run)
    decreases |run|
  {
    run == [] || (!Coalesces(s, run[0]) && NoneLost(Next(s, run[0]), run[1..]))
  }

  /** The timeout task reaches its next wait before the listening task continues. */
  predicate RunsToBlock(s: State, run: seq<Move>)
    requires Allowed(s, run)
    decreases |run|
  {
    run == [] ||
    (((run[0].Receive? || run[0].Finish?) ==> Blocked(s)) && RunsToBlock(Next(s, run[0]), run[1..]))
  }

  /** The watchdog is armed exactly when no message is being handled. */
  predicate InStep(s: State)
  {
    s.dog.AwaitsMessage? <==> s.listener.Idle?
  }

  /** Pending notifications account for how far the timeout task lags behind the listening task. */
  predicate Sync(s: State)
  {
    match s.dog
    case AwaitsMessage =>
      if s.listener.Busy? then s.timeoutSet && !s.consumingSet
      else s.timeoutSet == s.consumingSet
    case AwaitsFinish =>
      if s.listener.Idle? then s.consumingSet && !s.timeoutSet
      else s.timeoutSet == s.consumingSet
    case Raised => true
  }

  lemma SyncStep(s: State, m: Move)
    requires Sync(s) && Enabled(s, m) && !Coalesces(s, m)
    ensures Sync(Next(s, m))
  {
  }

  lemma {:induction false} SyncRun(s: State, run: seq<Move>)
    requires Sync(s) && Allowed(s, run) && NoneLost(s, run)
    ensures Sync(Exec(s, run))
    decreases |run|
  {
    if run != [] {
      SyncStep(s, run[0]);
      SyncRun(Next(s, run[0]), run[1..]);
    }
  }

  /**
   * As long as no notification is lost: whenever the timeout task is blocked, it is in the wait that matches the
   * listening task, so the timeout can only fire while no message is being handled, and it can fire when idle.
   */
  lemma HandshakeHolds(run: seq<Move>)
    requires Allowed(Start, run) && NoneLost(Start, run)
    ensures var s := Exec(Start, run);
            && (Blocked(s) && !s.dog.Raised? ==> InStep(s))
            && (Enabled(s, Expire) ==> s.listener.Idle?)
            && (Blocked(s) && !s.dog.Raised? && s.listener.Idle? ==> Enabled(s, Expire))
  {
    SyncRun(Start, run);
  }

  /** Letting the timeout task run until it blocks, as the event loop may between two steps of the listener. */
  function Settle(s: State): State
    decreases (if s.timeoutSet then 1 else 0) + (if s.consumingSet then 1 else 0)
  {
    if Blocked(s) then s else Settle(Next(s, Wake))
  }

  lemma {:induction false} SettleIsARun(s: State) returns (run: seq<Move>)
    ensures Allowed(s, run) && (forall m <- run :: m.Wake?) && Exec(s, run) == Settle(s) && Blocked(Settle(s))
    decreases (if s.timeoutSet then 1 else 0) + (if s.consumingSet then 1 else 0)
  {
    if Blocked(s) {
      run := [];
    } else {
      var rest := SettleIsARun(Next(s, Wake));
      run := [Wake] + rest;
      assert run[1..] == rest;
    }
  }

  /**
   * After a run that lost nothing, the next `set()` leaves a watchdog that comes to rest in step with the listener if
   * and only if that `set()` did not hit an event that was still set.
   */
  lemma LosingANotificationIsWhatBreaksIt(run: seq<Move>, m: Move)
    requires Allowed(Start, run) && NoneLost(Start, run) && !Exec(Start, run).dog.Raised?
    requires (m.Receive? || m.Finish?) && Enabled(Exec(Start, run), m)
    ensures InStep(Settle(Next(Exec(Start, run), m))) <==> !Coalesces(Exec(Start, run), m)
  {
    SyncRun(Start, run);
  }

  lemma {:induction false} BlockingLosesNothing(s: State, run: seq<Move>)
    requires Sync(s) && Allowed(s, run) && RunsToBlock(s, run) && (forall m <- run :: !m.Expire?) && !s.dog.Raised?
    ensures NoneLost(s, run)
    decreases |run|
  {
    if run != [] {
      assert run[0] in run;
      SyncStep(s, run[0]);
      BlockingLosesNothing(Next(s, run[0]), run[1..]);
    }
  }

  /**
   * If the timeout task always runs until it blocks, no notification is lost before the timeout fires, so the
   * timeout never fires during a handler.
   */
  lemma PromptWatchdogNeverFiresDuringAHandler(run: seq<Move>)
    requires Allowed(Start, run) && RunsToBlock(Start, run) && forall m <- run :: !m.Expire?
    ensures var s := Exec(Start, run);
            && (Blocked(s) ==> InStep(s))
            && (Enabled(s, Expire) ==> s.listener.Idle?)
  {
    BlockingLosesNothing(Start, run);
    NotRaised(Start, run);
    HandshakeHolds(run);
  }

  lemma {:induction false} NotRaised(s: State, run: seq<Move>)
    requires Allowed(s, run) && (forall m <- run :: !m.Expire?) && !s.dog.Raised?
    ensures !Exec(s, run).dog.Raised?
    decreases |run|
  {
    if run != [] {
      assert run[0] in run;
      NotRaised(Next(s, run[0]), run[1..]);
    }
  }

  /** Under another schedule it fails: two messages handled before the timeout task runs, and it fires mid-handler. */
  lemma LaggingWatchdogCanFireDuringAHandler() returns (run: seq<Move>)
    ensures Allowed(Start, run) && !NoneLost(Start, run)
    ensures Exec(Start, run).dog.Raised? && Exec(Start, run).listener.Busy?
  {
    run := [Receive, Finish, Receive, Wake, Wake, Expire];
    var s1 := Next(Start, Receive);
    var s2 := Next(s1, Finish);
    var s3 := Next(s2, Receive);
    var s4 := Next(s3, Wake);
    var s5 := Next(s4, Wake);
    assert run[1..] == [Finish, Receive, Wake, Wake, Expire];
    assert run[1..][1..] == [Receive, Wake, Wake, Expire];
    assert run[1..][1..][1..] == [Wake, Wake, Expire];
    assert run[1..][1..][1..][1..] == [Wake, Expire];
    assert run[1..][1..][1..][1..][1..] == [Expire];
    assert run[1..][1..][1..][1..][1..][1..] == [];
    assert Allowed(s5, [Expire]) && Exec(s5, [Expire]).dog.Raised? by { assert [Expire][1..] == []; }
  }
}
