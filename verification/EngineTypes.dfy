/**
  The values the lease engine works with: databases, leases, queued replies,
  inbox messages, and the events the engine emits to the outside world.
 */
module EngineTypes {

  const U16_MAX: nat := 65535
  const U64_MAX: nat := 0xFFFF_FFFF_FFFF_FFFF

  datatype Option<+T> = None | Some(value: T)

  type LeaseId = string

  datatype Database = Database(id: nat, name: string)

  /** A reply channel. It is answered at most once, so whether its receiver is
      still there at that moment is a fixed, arbitrary property of the channel. */
  datatype Consumer = Consumer(id: nat, reachable: bool)

  /** An attach reply waiting for a database, with the time it was asked for. */
  datatype Queued = Queued(consumer: Consumer, at: nat)

  /** The instant at which the engine looks at each queued reply while it
      handles one message. */
  type Clock = Consumer -> nat

  datatype Config = Config(
    initialSlots: nat,
    starvationThreshold: nat,
    growBatch: nat,
    claimTimeout: nat,
    maxRecords: nat)

  datatype Status = Open | Closed

  datatype Entry = Entry(database: Database, conns: nat, generation: nat)

  datatype Counters = Counters(
    expiredLeases: nat,
    waiterTimeouts: nat,
    createFailures: nat,
    detachOnZero: nat,
    unstartedSlots: nat)

  /** A batch of creations: the first reserved id and how many follow it. */
  datatype CreateDatabases = CreateDatabases(first: nat, amount: nat) {

    function DatabaseId(index: nat): (id: nat)
      requires index < amount
      ensures id in Ids()
    {
      first + index
    }

    /** The reserved ids. */
    function Ids(): (ids: set<nat>)
      ensures forall id :: id in ids <==> first <= id < first + amount
      ensures |ids| == amount
    {
      Interval(first, amount)
    }
  }

  /** The indices of a batch number its reserved ids, each exactly once. */
  lemma IndexedIds(batch: CreateDatabases, id: nat)
    ensures id in batch.Ids() <==> exists index: nat | index < batch.amount :: batch.DatabaseId(index) == id
    ensures forall i: nat, j: nat | i < batch.amount && j < batch.amount && batch.DatabaseId(i) == batch.DatabaseId(j) ::
              i == j
  {
    if id in batch.Ids() {
      assert batch.DatabaseId(id - batch.first) == id;
    }
  }

  function Interval(first: nat, amount: nat): (ids: set<nat>)
    ensures forall id :: id in ids <==> first <= id < first + amount
    ensures |ids| == amount
  {
    if amount == 0 then {} else
      var rest := Interval(first, amount - 1);
      assert first + amount - 1 !in rest;
      rest + {first + amount - 1}
  }

  datatype AttachError = LeaseClosed | LeaseRecordLimitReached

  datatype AttachReply =
    | Attached(database: Database, generation: nat)
    | FailedToAttach
    | Rejected(error: AttachError)

  /** What the engine does to the outside world. Submissions record whether the
      worker's queue accepted them. */
  datatype Event =
    | AttachReplied(consumer: Consumer, lease: LeaseId, reply: AttachReply)
    | ReleaseReplied(consumer: Consumer, accepted: bool)
    | ReplyExpired(consumer: Consumer)
    | CreationRequested(batch: CreateDatabases, accepted: bool)
    | CleanupRequested(database: Database, accepted: bool)
    | TimerArmed(lease: LeaseId, generation: nat)

  /** A connection has been handed a database. */
  predicate Delivered(e: Event) {
    e.AttachReplied? && e.reply.Attached? && e.consumer.reachable
  }

  datatype Inventory = Inventory(
    nextId: nat,
    creating: set<nat>,
    ready: seq<Database>,
    retiring: map<nat, string>)

  datatype State = State(
    leases: map<LeaseId, Entry>,
    records: map<LeaseId, Status>,
    nextGeneration: nat,
    waiters: seq<LeaseId>,
    groups: map<LeaseId, seq<Queued>>,
    inventory: Inventory,
    counters: Counters,
    cancelled: set<nat>,
    shutdown: bool,
    out: seq<Event>)

  datatype Message =
    | AttachOrJoin(lease: LeaseId, consumer: Consumer, at: nat)
    | ReleaseLease(lease: LeaseId, consumer: Consumer)
    | Detach(lease: LeaseId, generation: nat)
    | LeaseMaxTimeReached(lease: LeaseId, generation: nat)
    | CreationFinished(id: nat, result: Option<string>)
    | CleanupFinished(id: nat, ok: bool)
    | Shutdown

  /** One iteration of the message loop: the message, plus everything the
      environment decides while it is handled. */
  datatype Input = Input(msg: Message, clock: Clock, createOk: bool, cleanupOk: bool)
}
