/**
 * The whole topic as a step system: k producer calls and any number of consumers, interleaved at every await
 * (kafka/manager.py, db/redis.py, producer.py start_producing_data).
 */
module FlowControl {
  import opened Sums
  import opened Redis
  import opened KafkaProducer

  // ---- states ----

  datatype Producer =
    | Resting
      /** About to ask Redis for the total, on behalf of a call with `len` messages. */
    | Asking(len: nat, stalls: nat)
      /** Redis answered `total`; the number of partitions is still awaited. */
    | Told(len: nat, stalls: nat, total: int)
      /** Admitted; `rest` messages are not batched yet. */
    | Admitted(rest: nat)
      /** A batch is bound for `partition`; the broker does not have it. */
    | Bound(partition: int, batch: nat, rest: nat)
      /** The broker has the batch; Redis has not been told. */
    | Delivered(partition: int, batch: nat, rest: nat)

  datatype Consumer =
    | Listening
      /** Took a message; Redis has not been told. */
    | Fetched(partition: int)
    | Handling

  datatype State = State(
    producers: seq<Producer>,
    consumers: seq<Consumer>,
    next: int,                 // the shared _i_partition
    scores: map<int, int>,
    backlog: seq<int>,         // messages in each partition not yet fetched
    uncounted: seq<int>,       // messages that entered each partition without ever being counted
    decrements: nat            // number of decrements so far
  )

  /** Enough to know about the surroundings: number of partitions and the longest list any call sends. */
  datatype Topic = Topic(n: nat, maxList: nat)

  datatype StepKind =
    | Call(i: nat, len: nat)
    | Ask(i: nat)
    | Judge(i: nat)
    | Choose(i: nat, appended: nat, p: int)
    | Deliver(i: nat)
    | Count(i: nat)
    | Finish(i: nat)
      /** No metadata (`goOn`) or a Kafka timeout, before or after the broker got the batch. */
    | Abandon(i: nat, goOn: bool)
    | Fetch(c: nat, p: int)
    | Decrement(c: nat)
    | Handled(c: nat)
      /** An uncommitted message of partition `p` becomes fetchable again. */
    | Redeliver(p: int)
      /** The consumer stops; the message it took is in partition `p` again. */
    | Stop(c: nat, p: int)

  ghost predicate Init(t: Topic, s: State)
  {
    && t.n >= 1
    && (forall i :: 0 <= i < |s.producers| ==> s.producers[i].Resting?)
    && (forall c :: 0 <= c < |s.consumers| ==> s.consumers[c].Listening?)
    && s.next == 0 && s.scores == map[] && s.decrements == 0
    && s.backlog == seq(t.n, _ => 0) && s.uncounted == seq(t.n, _ => 0)
  }

  function BatchLimit(rest: nat): nat
  {
    if rest <= MESSAGES_PER_BATCH then rest else MESSAGES_PER_BATCH
  }

  ghost predicate Enabled(t: Topic, s: State, a: StepKind)
  {
    |s.backlog| == |s.uncounted| == t.n &&
    match a
    case Call(i, len) => i < |s.producers| && s.producers[i].Resting? && len <= t.maxList
    case Ask(i) => i < |s.producers| && s.producers[i].Asking?
    case Judge(i) => i < |s.producers| && s.producers[i].Told?
    case Choose(i, appended, p) =>
      && i < |s.producers| && s.producers[i].Admitted? && s.producers[i].rest > 0
      && appended <= BatchLimit(s.producers[i].rest)
      && 0 <= p < t.n && Picks(s.next, s.scores, p)
    case Deliver(i) => i < |s.producers| && s.producers[i].Bound? && 0 <= s.producers[i].partition < t.n
    case Count(i) => i < |s.producers| && s.producers[i].Delivered?
    case Finish(i) => i < |s.producers| && s.producers[i].Admitted? && s.producers[i].rest == 0
    case Abandon(i, _) =>
      && i < |s.producers| && (s.producers[i].Bound? || s.producers[i].Delivered?)
      && 0 <= s.producers[i].partition < t.n
    case Fetch(c, p) => c < |s.consumers| && s.consumers[c].Listening? && 0 <= p < t.n && s.backlog[p] > 0
    case Decrement(c) => c < |s.consumers| && s.consumers[c].Fetched?
    case Handled(c) => c < |s.consumers| && s.consumers[c].Handling?
    case Redeliver(p) => 0 <= p < t.n
    case Stop(c, p) =>
      && c < |s.consumers| && 0 <= p < t.n
      && (s.consumers[c] == Fetched(p) || s.consumers[c].Handling?)
  }

  function Judgement(t: Topic, q: Producer): Producer
    requires q.Told?
  {
    match Decide(q.total, Capacity(t.n), q.stalls)
    case Admit => Admitted(q.len)
    case Sleep => Asking(q.len, q.stalls + 1)
    case Spin => Asking(q.len, q.stalls)
  }

  ghost function Next(t: Topic, s: State, a: StepKind): State
    requires Enabled(t, s, a)
  {
    match a
    case Call(i, len) => s.(producers := s.producers[i := Asking(len, 0)])
    case Ask(i) =>
      s.(producers := s.producers[i := Told(s.producers[i].len, s.producers[i].stalls, SumValues(s.scores))])
    case Judge(i) => s.(producers := s.producers[i := Judgement(t, s.producers[i])])
    case Choose(i, appended, p) =>
      var rest := s.producers[i].rest;
      s.(producers := s.producers[i := Bound(p, appended, rest - BatchLimit(rest))], next := NextIndex(s.next, t.n))
    case Deliver(i) =>
      var q := s.producers[i];
      s.(producers := s.producers[i := Delivered(q.partition, q.batch, q.rest)],
         backlog := s.backlog[q.partition := s.backlog[q.partition] + q.batch])
    case Count(i) =>
      var q := s.producers[i];
      s.(producers := s.producers[i := Admitted(q.rest)], scores := Credit(s.scores, q.partition, q.batch))
    case Finish(i) => s.(producers := s.producers[i := Resting])
    case Abandon(i, goOn) =>
      var q := s.producers[i];
      s.(producers := s.producers[i := if goOn then Admitted(q.rest) else Resting],
         uncounted := if q.Delivered? then s.uncounted[q.partition := s.uncounted[q.partition] + q.batch]
                      else s.uncounted)
    case Fetch(c, p) =>
      s.(consumers := s.consumers[c := Fetched(p)], backlog := s.backlog[p := s.backlog[p] - 1])
    case Decrement(c) =>
      s.(consumers := s.consumers[c := Handling], scores := Credit(s.scores, s.consumers[c].partition, -1),
         decrements := s.decrements + 1)
    case Handled(c) => s.(consumers := s.consumers[c := Listening])
    case Redeliver(p) =>
      s.(backlog := s.backlog[p := s.backlog[p] + 1], uncounted := s.uncounted[p := s.uncounted[p] + 1])
    case Stop(c, p) =>
      s.(consumers := s.consumers[c := Listening], backlog := s.backlog[p := s.backlog[p] + 1],
         uncounted := if s.consumers[c].Handling? then s.uncounted[p := s.uncounted[p] + 1] else s.uncounted)
  }

  // ---- runs ----

  ghost predicate Allowed(t: Topic, s: State, run: seq<StepKind>)
    decreases |run|
  {
    run == [] || (Enabled(t, s, run[0]) && Allowed(t, Next(t, s, run[0]), run[1..]))
  }

  ghost function Exec(t: Topic, s: State, run: seq<StepKind>): State
    requires Allowed(t, s, run)
    decreases |run|
  {
    if run == [] then s else Exec(t, Next(t, s, run[0]), run[1..])
  }

  lemma {:induction false} ExecAppend(t: Topic, s: State, run: seq<StepKind>, more: seq<StepKind>)
    requires Allowed(t, s, run) && Allowed(t, Exec(t, s, run), more)
    ensures Allowed(t, s, run + more) && Exec(t, s, run + more) == Exec(t, Exec(t, s, run), more)
    decreases |run|
  {
    if run == [] {
      assert run + more == more;
    } else {
      assert (run + more)[1..] == run[1..] + more;
      ExecAppend(t, Next(t, s, run[0]), run[1..], more);
    }
  }

  // ---- per-process weights and their sums ----

  /** Messages of this producer on their way to partition `p`, counted in Redis by nobody. */
  function InFlightOf(q: Producer, p: int): int
  {
    if (q.Bound? || q.Delivered?) && q.partition == p then q.batch else 0
  }

  function DeliveredOf(q: Producer, p: int): int
  {
    if q.Delivered? && q.partition == p then q.batch else 0
  }

  function DeliveredByAll(q: Producer): int
  {
    if q.Delivered? then q.batch else 0
  }

  /** Messages an admitted call may still add to the Redis total; a call counts from its releasing reading on. */
  function OwedBy(t: Topic, q: Producer): int
  {
    match q
    case Told(len, stalls, total) => if Decide(total, Capacity(t.n), stalls).Admit? then len else 0
    case Admitted(rest) => rest
    case Bound(_, batch, rest) => batch + rest
    case Delivered(_, batch, rest) => batch + rest
    case _ => 0
  }

  function FetchedOf(c: Consumer, p: int): int
  {
    if c == Fetched(p) then 1 else 0
  }

  function FetchedByAll(c: Consumer): int
  {
    if c.Fetched? then 1 else 0
  }

  function InFlightOfs(qs: seq<Producer>, p: int): (xs: seq<int>)
    ensures |xs| == |qs| && forall i :: 0 <= i < |qs| ==> xs[i] == InFlightOf(qs[i], p)
  {
    seq(|qs|, i requires 0 <= i < |qs| => InFlightOf(qs[i], p))
  }

  function DeliveredOfs(qs: seq<Producer>, p: int): (xs: seq<int>)
    ensures |xs| == |qs| && forall i :: 0 <= i < |qs| ==> xs[i] == DeliveredOf(qs[i], p)
  {
    seq(|qs|, i requires 0 <= i < |qs| => DeliveredOf(qs[i], p))
  }

  function DeliveredByAlls(qs: seq<Producer>): (xs: seq<int>)
    ensures |xs| == |qs| && forall i :: 0 <= i < |qs| ==> xs[i] == DeliveredByAll(qs[i])
  {
    seq(|qs|, i requires 0 <= i < |qs| => DeliveredByAll(qs[i]))
  }

  function OwedBys(t: Topic, qs: seq<Producer>): (xs: seq<int>)
    ensures |xs| == |qs| && forall i :: 0 <= i < |qs| ==> xs[i] == OwedBy(t, qs[i])
  {
    seq(|qs|, i requires 0 <= i < |qs| => OwedBy(t, qs[i]))
  }

  function FetchedOfs(cs: seq<Consumer>, p: int): (xs: seq<int>)
    ensures |xs| == |cs| && forall i :: 0 <= i < |cs| ==> xs[i] == FetchedOf(cs[i], p)
  {
    seq(|cs|, i requires 0 <= i < |cs| => FetchedOf(cs[i], p))
  }

  function FetchedByAlls(cs: seq<Consumer>): (xs: seq<int>)
    ensures |xs| == |cs| && forall i :: 0 <= i < |cs| ==> xs[i] == FetchedByAll(cs[i])
  {
    seq(|cs|, i requires 0 <= i < |cs| => FetchedByAll(cs[i]))
  }

  /** Messages on their way to partition `p`. */
  function InFlight(s: State, p: int): int { Total(InFlightOfs(s.producers, p)) }

  /** Messages the broker has in partition `p` that a running call has still to count. */
  function DeliveredUncounted(s: State, p: int): int { Total(DeliveredOfs(s.producers, p)) }

  /** Messages taken from partition `p` for which Redis was not decremented yet. */
  function FetchedUndecremented(s: State, p: int): int { Total(FetchedOfs(s.consumers, p)) }

  function Owed(t: Topic, s: State): int { Total(OwedBys(t, s.producers)) }

  lemma ProducerUpdate(t: Topic, qs: seq<Producer>, i: nat, q: Producer, p: int)
    requires i < |qs|
    ensures Total(InFlightOfs(qs[i := q], p)) == Total(InFlightOfs(qs, p)) + InFlightOf(q, p) - InFlightOf(qs[i], p)
    ensures Total(DeliveredOfs(qs[i := q], p)) == Total(DeliveredOfs(qs, p)) + DeliveredOf(q, p) - DeliveredOf(qs[i], p)
    ensures Total(OwedBys(t, qs[i := q])) == Total(OwedBys(t, qs)) + OwedBy(t, q) - OwedBy(t, qs[i])
    ensures Total(DeliveredByAlls(qs[i := q])) == Total(DeliveredByAlls(qs)) + DeliveredByAll(q) - DeliveredByAll(qs[i])
  {
    TotalUpdate(InFlightOfs(qs, p), i, InFlightOf(q, p));
    assert InFlightOfs(qs[i := q], p) == InFlightOfs(qs, p)[i := InFlightOf(q, p)];
    TotalUpdate(DeliveredOfs(qs, p), i, DeliveredOf(q, p));
    assert DeliveredOfs(qs[i := q], p) == DeliveredOfs(qs, p)[i := DeliveredOf(q, p)];
    TotalUpdate(OwedBys(t, qs), i, OwedBy(t, q));
    assert OwedBys(t, qs[i := q]) == OwedBys(t, qs)[i := OwedBy(t, q)];
    TotalUpdate(DeliveredByAlls(qs), i, DeliveredByAll(q));
    assert DeliveredByAlls(qs[i := q]) == DeliveredByAlls(qs)[i := DeliveredByAll(q)];
  }

  lemma ConsumerUpdate(cs: seq<Consumer>, i: nat, c: Consumer, p: int)
    requires i < |cs|
    ensures Total(FetchedOfs(cs[i := c], p)) == Total(FetchedOfs(cs, p)) + FetchedOf(c, p) - FetchedOf(cs[i], p)
    ensures Total(FetchedByAlls(cs[i := c])) == Total(FetchedByAlls(cs)) + FetchedByAll(c) - FetchedByAll(cs[i])
  {
    TotalUpdate(FetchedOfs(cs, p), i, FetchedOf(c, p));
    assert FetchedOfs(cs[i := c], p) == FetchedOfs(cs, p)[i := FetchedOf(c, p)];
    TotalUpdate(FetchedByAlls(cs), i, FetchedByAll(c));
    assert FetchedByAlls(cs[i := c]) == FetchedByAlls(cs)[i := FetchedByAll(c)];
  }

  lemma {:induction false} AllZero(xs: seq<int>)
    requires forall i :: 0 <= i < |xs| ==> xs[i] == 0
    ensures Total(xs) == 0
  {
    if xs != [] {
      AllZero(xs[1..]);
    }
  }

  lemma {:induction false} AllNonNegative(xs: seq<int>)
    requires forall i :: 0 <= i < |xs| ==> xs[i] >= 0
    ensures Total(xs) >= 0
  {
    if xs != [] {
      AllNonNegative(xs[1..]);
    }
  }

  datatype Actor = Task(i: nat) | Worker(c: nat) | Broker

  function ActorOf(a: StepKind): Actor
  {
    match a
    case Call(i, _) => Task(i)
    case Ask(i) => Task(i)
    case Judge(i) => Task(i)
    case Choose(i, _, _) => Task(i)
    case Deliver(i) => Task(i)
    case Count(i) => Task(i)
    case Finish(i) => Task(i)
    case Abandon(i, _) => Task(i)
    case Fetch(c, _) => Worker(c)
    case Decrement(c) => Worker(c)
    case Handled(c) => Worker(c)
    case Stop(c, _) => Worker(c)
    case Redeliver(_) => Broker
  }

  lemma OneActorMoves(t: Topic, s: State, a: StepKind)
    requires Enabled(t, s, a)
    ensures match ActorOf(a)
            case Task(i) =>
              && i < |s.producers| && |Next(t, s, a).producers| == |s.producers|
              && Next(t, s, a).producers == s.producers[i := Next(t, s, a).producers[i]]
              && Next(t, s, a).consumers == s.consumers
            case Worker(c) =>
              && c < |s.consumers| && |Next(t, s, a).consumers| == |s.consumers|
              && Next(t, s, a).consumers == s.consumers[c := Next(t, s, a).consumers[c]]
              && Next(t, s, a).producers == s.producers
            case Broker => Next(t, s, a).producers == s.producers && Next(t, s, a).consumers == s.consumers
  {
  }

  /** How one step moves the sums for partition `p` and the totals: only the moving process changes its share. */
  lemma SumsAfterStep(t: Topic, s: State, a: StepKind, p: int)
    requires Enabled(t, s, a)
    ensures var s' := Next(t, s, a);
            match ActorOf(a)
            case Task(i) =>
              && i < |s.producers| && |s'.producers| == |s.producers| && s'.consumers == s.consumers
              && InFlight(s', p) == InFlight(s, p) + InFlightOf(s'.producers[i], p) - InFlightOf(s.producers[i], p)
              && DeliveredUncounted(s', p)
                 == DeliveredUncounted(s, p) + DeliveredOf(s'.producers[i], p) - DeliveredOf(s.producers[i], p)
              && Owed(t, s') == Owed(t, s) + OwedBy(t, s'.producers[i]) - OwedBy(t, s.producers[i])
              && Total(DeliveredByAlls(s'.producers))
                 == Total(DeliveredByAlls(s.producers)) + DeliveredByAll(s'.producers[i])
                    - DeliveredByAll(s.producers[i])
            case Worker(c) =>
              && c < |s.consumers| && |s'.consumers| == |s.consumers| && s'.producers == s.producers
              && FetchedUndecremented(s', p)
                 == FetchedUndecremented(s, p) + FetchedOf(s'.consumers[c], p) - FetchedOf(s.consumers[c], p)
              && Total(FetchedByAlls(s'.consumers))
                 == Total(FetchedByAlls(s.consumers)) + FetchedByAll(s'.consumers[c]) - FetchedByAll(s.consumers[c])
            case Broker => s'.producers == s.producers && s'.consumers == s.consumers
  {
    OneActorMoves(t, s, a);
    var s' := Next(t, s, a);
    match ActorOf(a) {
      case Task(i) => ProducerUpdate(t, s.producers, i, s'.producers[i], p);
      case Worker(c) => ConsumerUpdate(s.consumers, c, s'.consumers[c], p);
      case Broker =>
    }
  }
}
