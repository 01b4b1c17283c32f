/**
 * The whole collection as a step system: producer tasks, the partitions of the topic, consumers that insert one
 * row at a time, and the tables. Messages may be redelivered and consumers may stop in the middle of a handler.
 */
module Pipeline {
  import opened EventCodec
  import opened TransactionEvents
  import opened Database
  import opened TxProcessor
  import opened Confluence
  import opened KafkaProducer
  import opened Producer

  /** A Kafka event; encoding it as a string loses nothing (EventCodec.RoundTrip). */
  datatype Message = Message(mode: Mode, hash: Hash)

  /** Node, configuration, and one way of walking each receipt's address set (the one of the sequential run). */
  datatype World = World(chain: Chain, rewards: int -> int, node: Node, config: Config, walk: Hash -> seq<Address>)

  ghost predicate Sound(w: World)
  {
    && DistinctIndices(w.node)
    && (forall h :: Walks(w.walk(h), w.node(h).receipt.logs))
    && (forall n {:trigger w.chain(n)} :: w.chain(n).Some? ==> w.chain(n).value.number == n)
  }

  /** A producer task: `batch` is what remains to be sent of the last block read; blocks next..last are to come. */
  datatype Task = Task(mode: Mode, next: int, last: int, batch: seq<Message>)

  datatype Worker = Idle | Busy(message: Message, todo: seq<Write>)

  datatype State = State(
    tasks: seq<Task>,
    topic: seq<seq<Message>>,
    workers: seq<Worker>,
    store: Store,
    sent: set<Message>,         // every message that ever reached the topic
    lost: set<Message>          // every message refused by its batch, or given up after a timeout
  )

  datatype Action =
      /** Read the next block and insert its row. */
    | Produce(i: nat)
      /** Send a batch with the next `k` messages to a partition. */
    | Send(i: nat, p: nat, k: nat)
      /** Message `j` of what is still to be sent never reaches the broker. */
    | Lose(i: nat, j: nat)
    | Fetch(c: nat, p: nat, order: seq<Address>)
      /** One INSERT of a handler. */
    | InsertRow(c: nat)
    | Return(c: nat)
      /** A message that was sent and not committed comes before the others of a partition again. */
    | Redeliver(p: nat, message: Message)
      /** A consumer stops; its message is the next one of a partition again. */
    | Crash(c: nat, p: nat)

  /** What a scan of the blocks first..last starts with. */
  function ScanTask(mode: Mode, first: int, last: int): Task { Task(mode, first, last, []) }

  ghost predicate Initial(w: World, tasks: seq<Task>, base: Store, s: State)
  {
    && s.tasks == tasks && s.store == base && s.sent == {} && s.lost == {}
    && (forall i :: 0 <= i < |tasks| ==>
          || ((tasks[i].mode.Full? || tasks[i].mode.Partial?) && tasks[i].batch == [])
          || (tasks[i].mode.GetLogs? && tasks[i].last < tasks[i].next && forall m <- tasks[i].batch :: m.mode.GetLogs?))
    && (forall p :: 0 <= p < |s.topic| ==> s.topic[p] == [])
    && (forall c :: 0 <= c < |s.workers| ==> s.workers[c].Idle?)
    && |s.topic| >= 1 && |s.workers| >= 1
  }

  function BlockMessages(mode: Mode, hashes: seq<Hash>): (ms: seq<Message>)
    ensures |ms| == |hashes| && forall i :: 0 <= i < |hashes| ==> ms[i] == Message(mode, hashes[i])
  {
    seq(|hashes|, i requires 0 <= i < |hashes| => Message(mode, hashes[i]))
  }

  /** FULL tasks ask for the block reward, PARTIAL tasks insert 0. */
  function BlockRowWrite(w: World, mode: Mode, n: int): Write
    requires w.chain(n).Some?
  {
    BlockWrite(w.chain(n).value, Reward(w.rewards, mode.Full?, n))
  }

  function HandlerWrites(w: World, m: Message, order: seq<Address>): seq<Write>
  {
    WritesOf(w.config, w.node, Delivery(m.mode, m.hash, order))
  }

  predicate Ended(w: World, t: Task)
  {
    t.batch == [] && (t.next > t.last || w.chain(t.next).None?)
  }

  function BatchSize(batch: seq<Message>): nat
  {
    if |batch| <= MESSAGES_PER_BATCH then |batch| else MESSAGES_PER_BATCH
  }

  ghost predicate Enabled(w: World, s: State, a: Action)
  {
    match a
    case Produce(i) =>
      i < |s.tasks| && s.tasks[i].batch == [] && s.tasks[i].next <= s.tasks[i].last && w.chain(s.tasks[i].next).Some?
    case Send(i, p, k) => i < |s.tasks| && 0 < k <= BatchSize(s.tasks[i].batch) && p < |s.topic|
    case Lose(i, j) => i < |s.tasks| && j < |s.tasks[i].batch|
    case Fetch(c, p, order) =>
      && c < |s.workers| && s.workers[c].Idle? && p < |s.topic| && s.topic[p] != []
      && Walks(order, w.node(s.topic[p][0].hash).receipt.logs)
    case InsertRow(c) => c < |s.workers| && s.workers[c].Busy? && s.workers[c].todo != []
    case Return(c) => c < |s.workers| && s.workers[c].Busy? && s.workers[c].todo == []
    case Redeliver(p, m) => p < |s.topic| && m in s.sent
    case Crash(c, p) => c < |s.workers| && s.workers[c].Busy? && p < |s.topic|
  }

  function AfterProduce(w: World, t: Task): Task
    requires w.chain(t.next).Some?
  {
    t.(batch := BlockMessages(t.mode, w.chain(t.next).value.transactions), next := t.next + 1)
  }

  ghost function Next(w: World, s: State, a: Action): State
    requires Enabled(w, s, a)
  {
    match a
    case Produce(i) =>
      var t := s.tasks[i];
      s.(tasks := s.tasks[i := AfterProduce(w, t)], store := Insert(s.store, BlockRowWrite(w, t.mode, t.next)))
    case Send(i, p, k) =>
      var t := s.tasks[i];
      s.(tasks := s.tasks[i := t.(batch := t.batch[k..])],
         topic := s.topic[p := s.topic[p] + t.batch[..k]],
         sent := s.sent + set m | m in t.batch[..k])
    case Lose(i, j) =>
      var t := s.tasks[i];
      s.(tasks := s.tasks[i := t.(batch := t.batch[..j] + t.batch[j + 1..])], lost := s.lost + {t.batch[j]})
    case Fetch(c, p, order) =>
      var m := s.topic[p][0];
      s.(workers := s.workers[c := Busy(m, HandlerWrites(w, m, order))], topic := s.topic[p := s.topic[p][1..]])
    case InsertRow(c) =>
      var b := s.workers[c];
      s.(workers := s.workers[c := Busy(b.message, b.todo[1..])], store := Insert(s.store, b.todo[0]))
    case Return(c) => s.(workers := s.workers[c := Idle])
    case Redeliver(p, m) => s.(topic := s.topic[p := [m] + s.topic[p]])
    case Crash(c, p) =>
      s.(workers := s.workers[c := Idle], topic := s.topic[p := [s.workers[c].message] + s.topic[p]])
  }

  ghost predicate Allowed(w: World, s: State, run: seq<Action>)
    decreases |run|
  {
    run == [] || (Enabled(w, s, run[0]) && Allowed(w, Next(w, s, run[0]), run[1..]))
  }

  ghost function Exec(w: World, s: State, run: seq<Action>): State
    requires Allowed(w, s, run)
    decreases |run|
  {
    if run == [] then s else Exec(w, Next(w, s, run[0]), run[1..])
  }

  /** Nothing left to do: all tasks ended, the topic drained, no handler running. */
  ghost predicate Drained(w: World, s: State)
  {
    && (forall i :: 0 <= i < |s.tasks| ==> Ended(w, s.tasks[i]))
    && (forall p :: 0 <= p < |s.topic| ==> s.topic[p] == [])
    && (forall c :: 0 <= c < |s.workers| ==> s.workers[c].Idle?)
  }

  // ---- the plain sequential loop ----

  function MessageWrites(w: World, m: Message): seq<Write>
  {
    HandlerWrites(w, m, w.walk(m.hash))
  }

  function ListWrites(w: World, ms: seq<Message>): seq<Write>
  {
    if ms == [] then [] else MessageWrites(w, ms[0]) + ListWrites(w, ms[1..])
  }

  /** Block by block: the block's row, then everything its transactions lead to. */
  function ScanWrites(w: World, mode: Mode, next: int, last: int): seq<Write>
    decreases last - next
  {
    if next > last || w.chain(next).None? then []
    else
      [BlockRowWrite(w, mode, next)]
      + ListWrites(w, BlockMessages(mode, w.chain(next).value.transactions))
      + ScanWrites(w, mode, next + 1, last)
  }

  function TaskWrites(w: World, t: Task): seq<Write>
  {
    ListWrites(w, t.batch) + ScanWrites(w, t.mode, t.next, t.last)
  }

  function TasksWrites(w: World, tasks: seq<Task>): seq<Write>
  {
    if tasks == [] then [] else TaskWrites(w, tasks[0]) + TasksWrites(w, tasks[1..])
  }

  /** One task after the other, each message handled at once. */
  function Sequential(w: World, base: Store, tasks: seq<Task>): Store
  {
    InsertAll(base, TasksWrites(w, tasks))
  }
}
