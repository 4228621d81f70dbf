/**
  The engine as a machine of atomic actions. Every message is a short plan of
  actions (see Plans.dfy); what must hold of the engine at all times is stated
  here once and proved one action at a time.
 */
module Ledger {
  import opened EngineTypes
  import opened EngineSpec

  // ------------------------------------------------------------ invariants

  type Leases = map<LeaseId, Entry>

  ghost predicate IsReady(ready: seq<Database>, id: nat) {
    exists i | 0 <= i < |ready| :: ready[i].id == id
  }

  predicate Issued(inv: Inventory, id: nat) {
    1 <= id <= inv.nextId
  }

  /** No database id is in two places, and none was made up. */
  ghost predicate Places(leases: Leases, inv: Inventory) {
    && (forall id | id in inv.creating :: Issued(inv, id) && id !in inv.retiring)
    && (forall id | id in inv.retiring :: Issued(inv, id))
    && (forall i | 0 <= i < |inv.ready| ::
          Issued(inv, inv.ready[i].id) && inv.ready[i].id !in inv.creating && inv.ready[i].id !in inv.retiring)
    && (forall i, j | 0 <= i < j < |inv.ready| :: inv.ready[i].id != inv.ready[j].id)
    && (forall lease | lease in leases ::
          var id := leases[lease].database.id;
          Issued(inv, id) && id !in inv.creating && id !in inv.retiring && !IsReady(inv.ready, id))
    && (forall a, b | a in leases && b in leases && a != b ::
          leases[a].database.id != leases[b].database.id)
  }

  /** Some lease is assigned under this generation. */
  ghost predicate IsLive(leases: Leases, g: nat) {
    exists lease | lease in leases :: leases[lease].generation == g
  }

  /** A generation's token is uncancelled exactly while that assignment lives. */
  ghost predicate Generations(leases: Leases, next: nat, cancelled: set<nat>) {
    && (forall lease | lease in leases ::
          1 <= leases[lease].generation <= next && leases[lease].generation !in cancelled)
    && (forall a, b | a in leases && b in leases && a != b :: leases[a].generation != leases[b].generation)
    && (forall g | g in cancelled :: 1 <= g <= next)
    && (forall g: nat | 1 <= g <= next :: g in cancelled || IsLive(leases, g))
  }

  predicate IsOpen(records: map<LeaseId, Status>, lease: LeaseId) {
    lease in records && records[lease] == Open
  }

  /** Nobody is in the queue twice. */
  ghost predicate Distinct(waiters: seq<LeaseId>) {
    forall i, j | 0 <= i < j < |waiters| :: waiters[i] != waiters[j]
  }

  /** The waiting queue and the groups of replies describe the same leases. */
  ghost predicate Queues(leases: Leases, records: map<LeaseId, Status>, waiters: seq<LeaseId>,
                         groups: map<LeaseId, seq<Queued>>)
  {
    && Distinct(waiters)
    && (forall lease :: lease in waiters <==> lease in groups)
    && (forall lease | lease in groups :: groups[lease] != [] && lease !in leases && IsOpen(records, lease))
    && (forall lease | lease in leases :: IsOpen(records, lease))
  }

  ghost predicate Bounds(cfg: Config, leases: Leases, records: map<LeaseId, Status>) {
    && |records| <= cfg.maxRecords
    && (forall lease | lease in leases :: leases[lease].conns <= U16_MAX)
  }

  /** A delivered database has one lease and one generation for ever: it is still
      leased to them, or it has been retired. */
  ghost predicate Deliveries(out: seq<Event>, leases: Leases, inv: Inventory, nextGeneration: nat) {
    && (forall e | e in out && Delivered(e) ::
          && Issued(inv, e.reply.database.id) && e.reply.database.id !in inv.creating
          && !IsReady(inv.ready, e.reply.database.id)
          && 1 <= e.reply.generation <= nextGeneration)
    && (forall e, lease | e in out && Delivered(e) && lease in leases ::
          (leases[lease].database.id == e.reply.database.id || leases[lease].generation == e.reply.generation)
          ==> lease == e.lease && e.reply == Attached(leases[lease].database, leases[lease].generation))
    && (forall e, f | e in out && f in out && Delivered(e) && Delivered(f)
                      && e.reply.database.id == f.reply.database.id ::
          e.lease == f.lease && e.reply == f.reply)
  }

  ghost predicate CleanupSent(out: seq<Event>, id: nat) {
    exists i | 0 <= i < |out| :: out[i].CleanupRequested? && out[i].database.id == id
  }

  /** Each database is sent for cleanup at most once, and only when retired. */
  ghost predicate Cleanups(out: seq<Event>, leases: Leases, inv: Inventory) {
    && (forall e | e in out && e.CleanupRequested? ::
          && Issued(inv, e.database.id) && e.database.id !in inv.creating && !IsReady(inv.ready, e.database.id)
          && (forall lease | lease in leases :: leases[lease].database.id != e.database.id)
          && (e.database.id in inv.retiring ==> inv.retiring[e.database.id] == e.database.name))
    && (forall i, j | 0 <= i < j < |out| && out[i].CleanupRequested? && out[j].CleanupRequested? ::
          out[i].database.id != out[j].database.id)
    && (forall id | id in inv.retiring :: CleanupSent(out, id))
  }

  /** Batches are issued in order and never overlap. */
  ghost predicate Batches(out: seq<Event>, nextId: nat) {
    && (forall e | e in out && e.CreationRequested? ::
          1 <= e.batch.first && e.batch.first + e.batch.amount <= nextId + 1)
    && (forall i, j | 0 <= i < j < |out| && out[i].CreationRequested? && out[j].CreationRequested? ::
          out[i].batch.first + out[i].batch.amount <= out[j].batch.first)
  }

  /** What holds between any two actions. */
  ghost predicate Sound(cfg: Config, s: State) {
    && Places(s.leases, s.inventory)
    && Generations(s.leases, s.nextGeneration, s.cancelled)
    && Queues(s.leases, s.records, s.waiters, s.groups)
    && Bounds(cfg, s.leases, s.records)
    && Deliveries(s.out, s.leases, s.inventory, s.nextGeneration)
    && Cleanups(s.out, s.leases, s.inventory)
    && Batches(s.out, s.inventory.nextId)
  }

  /** What holds between any two messages: nobody waits beside a ready database. */
  ghost predicate Valid(cfg: Config, s: State) {
    Sound(cfg, s) && (s.waiters != [] ==> s.inventory.ready == [])
  }

  // --------------------------------------------------------------- actions

  datatype Action =
    | AdmitLease(lease: LeaseId)
    | Answer(event: Event)
    | Wait(lease: LeaseId, queued: Queued)
    | Join(lease: LeaseId, consumer: Consumer)
    | ServeFresh(lease: LeaseId, consumer: Consumer)
    | ServeNext(verdicts: seq<Verdict>)
    | RetireLease(lease: LeaseId, cleanupOk: bool)
    | CloseLease(lease: LeaseId)
    | ReserveBatch(amount: nat, accepted: bool)
    | SettleCreation(id: nat, result: Option<string>)
    | SettleCleanup(id: nat)
    | DropConnection(lease: LeaseId)
    | CountExpiry
    | Halt

  function Consumers(replies: seq<Queued>): seq<Consumer> {
    seq(|replies|, i requires 0 <= i < |replies| => replies[i].consumer)
  }

  function Judged(vs: seq<Verdict>): seq<Consumer> {
    seq(|vs|, i requires 0 <= i < |vs| => vs[i].consumer)
  }

  predicate Enabled(cfg: Config, s: State, a: Action) {
    match a
    case AdmitLease(lease) => lease !in s.records && |s.records| < cfg.maxRecords
    case Answer(e) => (e.AttachReplied? && e.reply.Rejected?) || e.ReleaseReplied?
    case Wait(lease, q) => IsOpen(s.records, lease) && lease !in s.leases && s.inventory.ready == []
    case Join(lease, c) => lease in s.leases
    case ServeFresh(lease, c) =>
      IsOpen(s.records, lease) && lease !in s.leases && s.waiters == [] && s.inventory.ready != []
    case ServeNext(vs) =>
      && s.waiters != [] && s.inventory.ready != [] && s.waiters[0] in s.groups
      && Judged(vs) == Consumers(s.groups[s.waiters[0]])
    case RetireLease(lease, ok) => lease in s.leases
    case CloseLease(lease) => IsOpen(s.records, lease) && lease !in s.leases
    case ReserveBatch(amount, accepted) => amount > 0
    case SettleCreation(id, result) => id in s.inventory.creating
    case SettleCleanup(id) => id in s.inventory.retiring
    case DropConnection(lease) => lease in s.leases
    case CountExpiry => true
    case Halt => true
  }

  function PopNext(s: State): State
    requires s.waiters != []
  {
    s.(waiters := s.waiters[1..], groups := s.groups - {s.waiters[0]})
  }

  function Apply(cfg: Config, s: State, a: Action): State
    requires Enabled(cfg, s, a)
  {
    match a
    case AdmitLease(lease) => s.(records := s.records[lease := Open])
    case Answer(e) => Say(s, e)
    case Wait(lease, q) => Enqueue(s, lease, q)
    case Join(lease, c) => Serve(cfg, s, lease, [Verdict(c, false)])
    case ServeFresh(lease, c) => Serve(cfg, s, lease, [Verdict(c, false)])
    case ServeNext(vs) => Serve(cfg, PopNext(s), s.waiters[0], vs)
    case RetireLease(lease, ok) => RetireOne(s, lease, ok)
    case CloseLease(lease) => Close(s, lease)
    case ReserveBatch(amount, accepted) => Reserve(s, amount, accepted)
    case SettleCreation(id, result) => CompleteCreation(s, id, result)
    case SettleCleanup(id) => ForgetRetired(s, id)
    case DropConnection(lease) => Disconnect(s, lease)
    case CountExpiry => Expire(s)
    case Halt => s.(shutdown := true)
  }

  // ------------------------------------------- what serving a group emits

  /** Every event of a served group: an expiry, its one timer, or a reply that
      can only hand out the group's database under its generation. */
  ghost predicate GroupEvent(lease: LeaseId, db: Database, gen: nat, e: Event) {
    || e.ReplyExpired?
    || e == TimerArmed(lease, gen)
    || (e.AttachReplied? && e.lease == lease && (e.reply == Attached(db, gen) || e.reply == FailedToAttach))
  }

  lemma {:induction false} ServeEventsShape(cfg: Config, lease: LeaseId, db: Database, gen: nat, conns: nat,
                                            held: bool, vs: seq<Verdict>)
    ensures forall e | e in ServeEvents(cfg, lease, db, gen, conns, held, vs) :: GroupEvent(lease, db, gen, e)
  {
    if vs != [] {
      ServeEventsShape(cfg, lease, db, gen, conns, held, vs[..|vs| - 1]);
    }
  }

  lemma {:induction false} NothingDelivered(cfg: Config, lease: LeaseId, db: Database, gen: nat, conns: nat,
                                            held: bool, vs: seq<Verdict>)
    requires Reached(vs) == 0
    ensures forall e | e in ServeEvents(cfg, lease, db, gen, conns, held, vs) :: !Delivered(e)
  {
    if vs != [] {
      NothingDelivered(cfg, lease, db, gen, conns, held, vs[..|vs| - 1]);
    }
  }

  lemma {:induction false} LiveWhenReached(vs: seq<Verdict>)
    requires Reached(vs) > 0
    ensures AnyLive(vs)
  {
    if vs[|vs| - 1].expired || !vs[|vs| - 1].consumer.reachable {
      LiveWhenReached(vs[..|vs| - 1]);
    }
  }

  /** Serving an unassigned lease has three outcomes: nobody was there in time,
      nobody received the reply, or the lease holds the oldest ready database
      under a new generation. Only the last one delivers it. */
  ghost predicate Served(s: State, s': State, lease: LeaseId, reached: nat, live: bool, news: seq<Event>)
    requires s.inventory.ready != []
  {
    var db := s.inventory.ready[0];
    var gen := s.nextGeneration + 1;
    && s'.out == s.out + news
    && (forall e | e in news :: GroupEvent(lease, db, gen, e))
    && s'.records == s.records && s'.waiters == s.waiters && s'.groups == s.groups && s'.shutdown == s.shutdown
    && if reached > 0 then
         && s'.leases == s.leases[lease := Entry(db, Cap(reached), gen)]
         && s'.inventory == s.inventory.(ready := s.inventory.ready[1..])
         && s'.nextGeneration == gen && s'.cancelled == s.cancelled
       else
         && s'.leases == s.leases && s'.inventory == s.inventory
         && (forall e | e in news :: !Delivered(e))
         && if live then s'.nextGeneration == gen && s'.cancelled == s.cancelled + {gen}
            else s'.nextGeneration == s.nextGeneration && s'.cancelled == s.cancelled
  }

  lemma ServeOutcome(cfg: Config, s: State, lease: LeaseId, vs: seq<Verdict>) returns (news: seq<Event>)
    requires lease !in s.leases && s.inventory.ready != []
    ensures news == ServeEvents(cfg, lease, s.inventory.ready[0], s.nextGeneration + 1, 0, false, vs)
    ensures Served(s, Serve(cfg, s, lease, vs), lease, Reached(vs), AnyLive(vs), news)
  {
    var db, gen := s.inventory.ready[0], s.nextGeneration + 1;
    news := ServeEvents(cfg, lease, db, gen, 0, false, vs);
    ServeEventsShape(cfg, lease, db, gen, 0, false, vs);
    if Reached(vs) == 0 {
      NothingDelivered(cfg, lease, db, gen, 0, false, vs);
    } else {
      LiveWhenReached(vs);
    }
  }

  /** Joining an assigned lease only adds connections to its entry. */
  ghost predicate Joined(s: State, s': State, lease: LeaseId, reached: nat, news: seq<Event>)
    requires lease in s.leases
  {
    var e := s.leases[lease];
    && s'.out == s.out + news
    && (forall x | x in news :: GroupEvent(lease, e.database, e.generation, x))
    && s'.records == s.records && s'.waiters == s.waiters && s'.groups == s.groups && s'.shutdown == s.shutdown
    && s'.leases == s.leases[lease := e.(conns := Cap(e.conns + reached))]
    && s'.inventory == s.inventory && s'.nextGeneration == s.nextGeneration && s'.cancelled == s.cancelled
  }

  lemma JoinOutcome(cfg: Config, s: State, lease: LeaseId, vs: seq<Verdict>) returns (news: seq<Event>)
    requires lease in s.leases
    ensures var e := s.leases[lease];
            news == ServeEvents(cfg, lease, e.database, e.generation, e.conns, true, vs)
    ensures Joined(s, Serve(cfg, s, lease, vs), lease, Reached(vs), news)
  {
    var e := s.leases[lease];
    news := ServeEvents(cfg, lease, e.database, e.generation, e.conns, true, vs);
    ServeEventsShape(cfg, lease, e.database, e.generation, e.conns, true, vs);
  }

  // ----------------------------------------------------- the queue's shape

  lemma {:induction false} WithoutFacts(waiters: seq<LeaseId>, lease: LeaseId)
    requires Distinct(waiters)
    ensures var rest := Without(waiters, lease);
            (forall x :: x in rest <==> x in waiters && x != lease) && Distinct(rest)
  {
    if waiters != [] {
      var init, last := waiters[..|waiters| - 1], waiters[|waiters| - 1];
      WithoutFacts(init, lease);
      assert waiters == init + [last];
      assert last !in init;
    }
  }
}
