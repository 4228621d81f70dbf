/**
  What one message does to the engine, as functions of values. A group of
  queued replies is served in one go here; the class in WorkerEngine.dfy takes,
  assigns, replies and restores step by step and is proved to agree.
 */
module EngineSpec {
  import opened EngineTypes

  // ------------------------------------------------------------------ time

  function Elapsed(now: nat, since: nat): nat {
    if now > since then now - since else 0
  }

  predicate Expired(cfg: Config, clock: Clock, q: Queued) {
    cfg.claimTimeout > 0 && Elapsed(clock(q.consumer), q.at) > cfg.claimTimeout
  }

  // ------------------------------------------------------- serving a group

  /** A queued reply together with the decision that it came too late. */
  datatype Verdict = Verdict(consumer: Consumer, expired: bool)

  function Judge(cfg: Config, clock: Clock, replies: seq<Queued>): seq<Verdict> {
    seq(|replies|, i requires 0 <= i < |replies| =>
      Verdict(replies[i].consumer, Expired(cfg, clock, replies[i])))
  }

  function Cap(n: nat): nat {
    if n > U16_MAX then U16_MAX else n
  }

  predicate AnyLive(vs: seq<Verdict>) {
    if vs == [] then false else AnyLive(vs[..|vs| - 1]) || !vs[|vs| - 1].expired
  }

  /** How many live replies still have a receiver. */
  function Reached(vs: seq<Verdict>): nat {
    if vs == [] then 0 else
      Reached(vs[..|vs| - 1]) + if !vs[|vs| - 1].expired && vs[|vs| - 1].consumer.reachable then 1 else 0
  }

  function Timeouts(vs: seq<Verdict>): nat {
    if vs == [] then 0 else
      Timeouts(vs[..|vs| - 1]) + if vs[|vs| - 1].expired then 1 else 0
  }

  /** What the last reply of `before + [v]` emits, when the group shares database
      `db` under generation `gen`; `conns` were attached before the group and
      `held` says the database was assigned before the group. */
  function ReplyEvents(cfg: Config, lease: LeaseId, db: Database, gen: nat, conns: nat, held: bool,
                       before: seq<Verdict>, v: Verdict): seq<Event>
  {
    if v.expired then
      [ReplyExpired(v.consumer)]
    else
      (if held || AnyLive(before) || cfg.claimTimeout == 0 then [] else [TimerArmed(lease, gen)])
      + [AttachReplied(v.consumer, lease,
                       if Cap(conns + Reached(before)) == U16_MAX then FailedToAttach else Attached(db, gen))]
  }

  function ServeEvents(cfg: Config, lease: LeaseId, db: Database, gen: nat, conns: nat, held: bool,
                       vs: seq<Verdict>): seq<Event>
  {
    if vs == [] then [] else
      ServeEvents(cfg, lease, db, gen, conns, held, vs[..|vs| - 1])
      + ReplyEvents(cfg, lease, db, gen, conns, held, vs[..|vs| - 1], vs[|vs| - 1])
  }

  /** Answer a group. An unassigned lease takes the oldest ready database when
      some reply is live, and keeps it only when some reply was delivered. */
  function Serve(cfg: Config, s: State, lease: LeaseId, vs: seq<Verdict>): State
    requires lease in s.leases || s.inventory.ready != []
  {
    var late := s.counters.(waiterTimeouts := s.counters.waiterTimeouts + Timeouts(vs));
    if lease in s.leases then
      var e := s.leases[lease];
      s.(leases := s.leases[lease := e.(conns := Cap(e.conns + Reached(vs)))],
         counters := late,
         out := s.out + ServeEvents(cfg, lease, e.database, e.generation, e.conns, true, vs))
    else
      var db := s.inventory.ready[0];
      var gen := s.nextGeneration + 1;
      var said := s.(counters := late, out := s.out + ServeEvents(cfg, lease, db, gen, 0, false, vs));
      if !AnyLive(vs) then
        said
      else if Reached(vs) == 0 then
        said.(nextGeneration := gen, cancelled := s.cancelled + {gen})
      else
        said.(nextGeneration := gen,
              leases := s.leases[lease := Entry(db, Cap(Reached(vs)), gen)],
              inventory := s.inventory.(ready := s.inventory.ready[1..]))
  }

  function RejectEvents(lease: LeaseId, replies: seq<Queued>): seq<Event> {
    seq(|replies|, i requires 0 <= i < |replies| =>
      AttachReplied(replies[i].consumer, lease, Rejected(LeaseClosed)))
  }

  function Dispatch(cfg: Config, clock: Clock, s: State): State
    decreases |s.waiters|
  {
    if s.inventory.ready == [] || s.waiters == [] then s else
      var lease := s.waiters[0];
      var popped := s.(waiters := s.waiters[1..]);
      if lease !in s.groups then Dispatch(cfg, clock, popped) else
        var replies := s.groups[lease];
        var taken := popped.(groups := s.groups - {lease});
        if lease in s.records && s.records[lease] == Closed then
          Dispatch(cfg, clock, taken.(out := s.out + RejectEvents(lease, replies)))
        else
          Dispatch(cfg, clock, Serve(cfg, taken, lease, Judge(cfg, clock, replies)))
  }

  // ---------------------------------------------------------------- growth

  predicate LiveGroup(cfg: Config, clock: Clock, replies: seq<Queued>) {
    exists i | 0 <= i < |replies| :: !Expired(cfg, clock, replies[i])
  }

  /** The unassigned leases that some live reply is waiting for. */
  function Waiting(cfg: Config, clock: Clock, s: State): set<LeaseId> {
    set lease | lease in s.groups && lease !in s.leases && LiveGroup(cfg, clock, s.groups[lease])
  }

  function Supply(inv: Inventory): nat {
    |inv.ready| + |inv.creating|
  }

  function Required(cfg: Config, clock: Clock, s: State): nat {
    |Waiting(cfg, clock, s)| + cfg.starvationThreshold + 1
  }

  /** The least multiple of the batch size that covers the deficit. */
  function RoundUp(deficit: nat, batch: nat): (count: nat)
    requires batch > 0
    ensures deficit <= count < deficit + batch
  {
    if deficit == 0 then 0 else if deficit <= batch then batch else batch + RoundUp(deficit - batch, batch)
  }

  function Deficit(cfg: Config, clock: Clock, s: State): nat {
    var required := Required(cfg, clock, s);
    if required > Supply(s.inventory) then required - Supply(s.inventory) else 0
  }

  /** The deficit in whole batches; nothing when growth is disabled. */
  function GrowCount(cfg: Config, clock: Clock, s: State): nat {
    if cfg.growBatch == 0 then 0 else RoundUp(Deficit(cfg, clock, s), cfg.growBatch)
  }

  /** The batch `Reserve` asks for. */
  function NextBatch(inv: Inventory, amount: nat): CreateDatabases {
    CreateDatabases(inv.nextId + 1, amount)
  }

  /** The inventory after submitting a batch; a rejected submission cancels each
      of its ids again. */
  function Reserved(inv: Inventory, batch: CreateDatabases, accepted: bool): Inventory {
    var reserved := inv.(nextId := inv.nextId + batch.amount, creating := inv.creating + batch.Ids());
    if accepted then reserved else reserved.(creating := reserved.creating - batch.Ids())
  }

  /** Reserve a batch and submit it. */
  function Reserve(s: State, amount: nat, accepted: bool): State {
    var batch := NextBatch(s.inventory, amount);
    s.(out := s.out + [CreationRequested(batch, accepted)],
       inventory := Reserved(s.inventory, batch, accepted),
       counters := if accepted then s.counters
                   else s.counters.(unstartedSlots := s.counters.unstartedSlots + amount))
  }

  function Grow(cfg: Config, clock: Clock, createOk: bool, s: State): State {
    if GrowCount(cfg, clock, s) == 0 then s
    else Reserve(s, GrowCount(cfg, clock, s), createOk)
  }

  // -------------------------------------------------------------- messages

  /** The lease's record after asking for it, or None at the record limit. */
  function Admit(cfg: Config, s: State, lease: LeaseId): (State, Option<Status>) {
    if lease in s.records then (s, Some(s.records[lease]))
    else if |s.records| >= cfg.maxRecords then (s, None)
    else (s.(records := s.records[lease := Open]), Some(Open))
  }

  function Say(s: State, e: Event): State {
    s.(out := s.out + [e])
  }

  function Enqueue(s: State, lease: LeaseId, q: Queued): State {
    s.(waiters := if lease in s.groups then s.waiters else s.waiters + [lease],
       groups := s.groups[lease := (if lease in s.groups then s.groups[lease] else []) + [q]])
  }

  function Attach(cfg: Config, clock: Clock, createOk: bool, s: State,
                  lease: LeaseId, consumer: Consumer, at: nat): State
  {
    var (s1, status) := Admit(cfg, s, lease);
    match status
    case None => Say(s, AttachReplied(consumer, lease, Rejected(LeaseRecordLimitReached)))
    case Some(Closed) => Say(s, AttachReplied(consumer, lease, Rejected(LeaseClosed)))
    case Some(Open) =>
      if lease in s1.leases then
        Serve(cfg, s1, lease, [Verdict(consumer, false)])
      else if s1.inventory.ready == [] then
        Grow(cfg, clock, createOk, Enqueue(s1, lease, Queued(consumer, at)))
      else
        var s2 := Serve(cfg, s1, lease, [Verdict(consumer, false)]);
        Grow(cfg, clock, createOk, if lease in s2.leases then s2 else Dispatch(cfg, clock, s2))
  }

  /** Move a leased database to the retiring set and submit its cleanup. */
  function RetireOne(s: State, lease: LeaseId, cleanupOk: bool): State
    requires lease in s.leases
  {
    var e := s.leases[lease];
    s.(leases := s.leases - {lease},
       cancelled := s.cancelled + {e.generation},
       inventory := s.inventory.(retiring := s.inventory.retiring[e.database.id := e.database.name]),
       out := s.out + [CleanupRequested(e.database, cleanupOk)])
  }

  function Retire(cfg: Config, input: Input, s: State, lease: LeaseId): State {
    if lease in s.leases then
      Grow(cfg, input.clock, input.createOk, RetireOne(s, lease, input.cleanupOk))
    else s
  }

  function Without(waiters: seq<LeaseId>, lease: LeaseId): (rest: seq<LeaseId>) {
    if waiters == [] then [] else
      var last := waiters[|waiters| - 1];
      Without(waiters[..|waiters| - 1], lease) + if last == lease then [] else [last]
  }

  /** Record the closure, reject the lease's queued replies and forget them. */
  function Close(s: State, lease: LeaseId): State {
    s.(records := s.records[lease := Closed],
       groups := s.groups - {lease},
       waiters := Without(s.waiters, lease),
       out := s.out + if lease in s.groups then RejectEvents(lease, s.groups[lease]) else [])
  }

  function Release(cfg: Config, input: Input, s: State, lease: LeaseId, consumer: Consumer): State {
    var (s1, status) := Admit(cfg, s, lease);
    match status
    case None => Say(s, ReleaseReplied(consumer, false))
    case Some(Closed) => Say(s, ReleaseReplied(consumer, true))
    case Some(Open) => Say(Retire(cfg, input, Close(s1, lease), lease), ReleaseReplied(consumer, true))
  }

  /** The lease is assigned under exactly this generation. */
  predicate Current(s: State, lease: LeaseId, generation: nat) {
    lease in s.leases && s.leases[lease].generation == generation
  }

  function Disconnect(s: State, lease: LeaseId): State
    requires lease in s.leases
  {
    var e := s.leases[lease];
    if e.conns == 0 then
      s.(counters := s.counters.(detachOnZero := s.counters.detachOnZero + 1))
    else
      s.(leases := s.leases[lease := e.(conns := e.conns - 1)])
  }

  function Expire(s: State): State {
    s.(counters := s.counters.(expiredLeases := s.counters.expiredLeases + 1))
  }

  function CompleteCreation(s: State, id: nat, result: Option<string>): State
    requires id in s.inventory.creating
  {
    var settled := s.inventory.(creating := s.inventory.creating - {id});
    match result
    case Some(name) => s.(inventory := settled.(ready := settled.ready + [Database(id, name)]))
    case None => s.(inventory := settled,
                    counters := s.counters.(createFailures := s.counters.createFailures + 1))
  }

  function ForgetRetired(s: State, id: nat): State {
    s.(inventory := s.inventory.(retiring := s.inventory.retiring - {id}))
  }

  /** One iteration of the message loop. A stopped engine reads no messages. */
  function Process(cfg: Config, s: State, input: Input): State {
    if s.shutdown then s else
      match input.msg
      case AttachOrJoin(lease, consumer, at) =>
        Attach(cfg, input.clock, input.createOk, s, lease, consumer, at)
      case ReleaseLease(lease, consumer) => Release(cfg, input, s, lease, consumer)
      case Detach(lease, generation) =>
        if Current(s, lease, generation) then Disconnect(s, lease) else s
      case LeaseMaxTimeReached(lease, generation) =>
        if Current(s, lease, generation) then Retire(cfg, input, Expire(s), lease) else s
      case CreationFinished(id, result) =>
        if id in s.inventory.creating then
          Grow(cfg, input.clock, input.createOk, Dispatch(cfg, input.clock, CompleteCreation(s, id, result)))
        else s
      case CleanupFinished(id, ok) =>
        if id in s.inventory.retiring && ok then ForgetRetired(s, id) else s
      case Shutdown => s.(shutdown := true)
  }

  function Run(cfg: Config, s: State, inputs: seq<Input>): State {
    if inputs == [] then s else
      Process(cfg, Run(cfg, s, inputs[..|inputs| - 1]), inputs[|inputs| - 1])
  }

  // ----------------------------------------------------------------- start

  function Empty(): State {
    State(map[], map[], 0, [], map[], Inventory(0, {}, [], map[]), Counters(0, 0, 0, 0, 0), {}, false, [])
  }

  /** The engine as it starts reading messages: every initial reservation has
      been settled, and nothing has been handed out. */
  predicate Started(s: State) {
    && s == Empty().(inventory := Inventory(s.inventory.nextId, {}, s.inventory.ready, map[]))
    && (forall i | 0 <= i < |s.inventory.ready| :: 1 <= s.inventory.ready[i].id <= s.inventory.nextId)
    && (forall i, j | 0 <= i < j < |s.inventory.ready| :: s.inventory.ready[i].id != s.inventory.ready[j].id)
  }

  ghost predicate Reachable(cfg: Config, s: State) {
    exists start, inputs :: Started(start) && s == Run(cfg, start, inputs)
  }
}
