/**
  Every action keeps every invariant, so the invariants hold in every state any
  plan passes through.
 */
module Soundness {
  import opened EngineTypes
  import opened EngineSpec
  import opened Ledger

  // ----------------------------------------------------------- generations

  lemma LiveKept(leases: Leases, leases': Leases)
    requires forall l | l in leases :: l in leases' && leases'[l].generation == leases[l].generation
    ensures forall g | IsLive(leases, g) :: IsLive(leases', g)
  {
    forall g | IsLive(leases, g) ensures IsLive(leases', g) {
      var l :| l in leases && leases[l].generation == g;
      assert leases'[l].generation == g;
    }
  }

  /** A new assignment takes the next generation. */
  lemma GrantKeepsGenerations(leases: Leases, next: nat, cancelled: set<nat>, lease: LeaseId, e: Entry)
    requires Generations(leases, next, cancelled) && lease !in leases && e.generation == next + 1
    ensures Generations(leases[lease := e], next + 1, cancelled)
  {
    var leases' := leases[lease := e];
    assert leases'[lease] == e && IsLive(leases', next + 1);
    LiveKept(leases, leases');
  }

  /** Retiring a lease cancels its generation and no other. */
  lemma RetireKeepsGenerations(leases: Leases, next: nat, cancelled: set<nat>, lease: LeaseId)
    requires Generations(leases, next, cancelled) && lease in leases
    ensures Generations(leases - {lease}, next, cancelled + {leases[lease].generation})
  {
    forall g | IsLive(leases, g) && g != leases[lease].generation ensures IsLive(leases - {lease}, g) {
      var l :| l in leases && leases[l].generation == g;
      assert (leases - {lease})[l].generation == g;
    }
  }

  lemma EntryKeepsGenerations(leases: Leases, next: nat, cancelled: set<nat>, lease: LeaseId, conns: nat)
    requires Generations(leases, next, cancelled) && lease in leases
    ensures Generations(leases[lease := leases[lease].(conns := conns)], next, cancelled)
  {
    LiveKept(leases, leases[lease := leases[lease].(conns := conns)]);
  }

  // ---------------------------------------------------------------- places

  lemma ReadyTail(ready: seq<Database>)
    requires ready != []
    ensures IsReady(ready, ready[0].id)
    ensures forall id | IsReady(ready[1..], id) :: IsReady(ready, id)
    ensures (forall i, j | 0 <= i < j < |ready| :: ready[i].id != ready[j].id) ==> !IsReady(ready[1..], ready[0].id)
  {
    assert ready[0].id == ready[0].id;
    forall id | IsReady(ready[1..], id) ensures IsReady(ready, id) {
      var i :| 0 <= i < |ready[1..]| && ready[1..][i].id == id;
      assert ready[i + 1].id == id;
    }
  }

  lemma GrantKeepsPlaces(leases: Leases, inv: Inventory, lease: LeaseId, e: Entry)
    requires Places(leases, inv) && lease !in leases && inv.ready != [] && e.database == inv.ready[0]
    ensures Places(leases[lease := e], inv.(ready := inv.ready[1..]))
  {
    ReadyTail(inv.ready);
  }

  lemma EntryKeepsPlaces(leases: Leases, inv: Inventory, lease: LeaseId, conns: nat)
    requires Places(leases, inv) && lease in leases
    ensures Places(leases[lease := leases[lease].(conns := conns)], inv)
  {
  }

  lemma RetireKeepsPlaces(leases: Leases, inv: Inventory, lease: LeaseId)
    requires Places(leases, inv) && lease in leases
    ensures var db := leases[lease].database;
            Places(leases - {lease}, inv.(retiring := inv.retiring[db.id := db.name]))
  {
    var db := leases[lease].database;
    var retiring := inv.retiring[db.id := db.name];
    forall i | 0 <= i < |inv.ready| ensures inv.ready[i].id !in retiring {
      assert IsReady(inv.ready, inv.ready[i].id);
    }
  }

  lemma ReserveKeepsPlaces(leases: Leases, inv: Inventory, amount: nat, ids: set<nat>)
    requires Places(leases, inv)
    requires forall id | id in ids :: inv.nextId < id <= inv.nextId + amount
    ensures Places(leases, inv.(nextId := inv.nextId + amount, creating := inv.creating + ids))
  {
  }

  lemma ReadyPush(ready: seq<Database>, db: Database)
    ensures forall id :: IsReady(ready + [db], id) <==> IsReady(ready, id) || id == db.id
  {
    var ready' := ready + [db];
    assert ready'[|ready|] == db;
    forall id | IsReady(ready, id) ensures IsReady(ready', id) {
      var i :| 0 <= i < |ready| && ready[i].id == id;
      assert ready'[i].id == id;
    }
    forall id | IsReady(ready', id) ensures IsReady(ready, id) || id == db.id {
      var i :| 0 <= i < |ready'| && ready'[i].id == id;
      assert i < |ready| ==> ready[i].id == id;
    }
  }

  lemma SettleKeepsPlaces(leases: Leases, inv: Inventory, db: Database)
    requires Places(leases, inv) && db.id in inv.creating
    ensures Places(leases, inv.(creating := inv.creating - {db.id}))
    ensures Places(leases, inv.(creating := inv.creating - {db.id}, ready := inv.ready + [db]))
  {
    ReadyPush(inv.ready, db);
  }

  // --------------------------------------------------------------- history

  /** Databases move only forwards: what is ready was ready or being created,
      and what is being created is new or was. */
  ghost predicate Forward(inv: Inventory, inv': Inventory) {
    && (forall id | IsReady(inv'.ready, id) :: IsReady(inv.ready, id) || id in inv.creating)
    && (forall id | id in inv'.creating :: id in inv.creating || id > inv.nextId)
    && inv.nextId <= inv'.nextId
  }

  ghost predicate LeasesKept(leases: Leases, leases': Leases) {
    forall l | l in leases' ::
      l in leases && leases'[l].database == leases[l].database && leases'[l].generation == leases[l].generation
  }

  /** Without a delivery nothing about past deliveries can go wrong. */
  lemma QuietDeliveries(s: State, s': State, news: seq<Event>)
    requires Deliveries(s.out, s.leases, s.inventory, s.nextGeneration) && s'.out == s.out + news
    requires Forward(s.inventory, s'.inventory) && LeasesKept(s.leases, s'.leases)
    requires s.nextGeneration <= s'.nextGeneration && forall e | e in news :: !Delivered(e)
    ensures Deliveries(s'.out, s'.leases, s'.inventory, s'.nextGeneration)
  {
  }

  /** Joining hands out only what the lease already holds. */
  lemma JoinKeepsDeliveries(out: seq<Event>, leases: Leases, inv: Inventory, cancelled: set<nat>, next: nat,
                            lease: LeaseId, conns: nat, news: seq<Event>)
    requires Deliveries(out, leases, inv, next) && Places(leases, inv) && Generations(leases, next, cancelled)
    requires lease in leases
    requires forall e | e in news :: GroupEvent(lease, leases[lease].database, leases[lease].generation, e)
    ensures Deliveries(out + news, leases[lease := leases[lease].(conns := conns)], inv, next)
  {
  }

  /** A grant hands out a database nobody has seen, under a new generation. */
  lemma GrantKeepsDeliveries(out: seq<Event>, leases: Leases, inv: Inventory, cancelled: set<nat>, next: nat,
                             lease: LeaseId, e: Entry, news: seq<Event>)
    requires Deliveries(out, leases, inv, next) && Places(leases, inv) && Generations(leases, next, cancelled)
    requires lease !in leases && inv.ready != [] && e.database == inv.ready[0] && e.generation == next + 1
    requires forall x | x in news :: GroupEvent(lease, e.database, e.generation, x)
    ensures Deliveries(out + news, leases[lease := e], inv.(ready := inv.ready[1..]), next + 1)
  {
    ReadyTail(inv.ready);
    forall x | x in out && Delivered(x) ensures x.reply.database.id != e.database.id {}
  }

  lemma SaidKeepsSent(out: seq<Event>, news: seq<Event>)
    ensures forall id | CleanupSent(out, id) :: CleanupSent(out + news, id)
    ensures forall i | 0 <= i < |out + news| ::
              if i < |out| then (out + news)[i] == out[i] && out[i] in out else (out + news)[i] in news
  {
    forall id | CleanupSent(out, id) ensures CleanupSent(out + news, id) {
      var i :| 0 <= i < |out| && out[i].CleanupRequested? && out[i].database.id == id;
      assert (out + news)[i] == out[i];
    }
    forall i | |out| <= i < |out + news| ensures (out + news)[i] in news {
      assert (out + news)[i] == news[i - |out|];
    }
  }

  /** Leased ids come from leased or ready ids. */
  ghost predicate LeasedFrom(leases: Leases, leases': Leases, ready: seq<Database>) {
    forall l | l in leases' ::
      || (l in leases && leases'[l].database.id == leases[l].database.id)
      || IsReady(ready, leases'[l].database.id)
  }

  lemma QuietCleanups(s: State, s': State, news: seq<Event>)
    requires Cleanups(s.out, s.leases, s.inventory) && s'.out == s.out + news
    requires Forward(s.inventory, s'.inventory) && LeasedFrom(s.leases, s'.leases, s.inventory.ready)
    requires forall id | id in s'.inventory.retiring ::
               id in s.inventory.retiring && s'.inventory.retiring[id] == s.inventory.retiring[id]
    requires forall e | e in news :: !e.CleanupRequested?
    ensures Cleanups(s'.out, s'.leases, s'.inventory)
  {
    SaidKeepsSent(s.out, news);
  }

  /** The first and only cleanup of a database is the one its lease's end sends. */
  lemma RetireKeepsCleanups(out: seq<Event>, leases: Leases, inv: Inventory, lease: LeaseId, ok: bool)
    requires Places(leases, inv) && Cleanups(out, leases, inv) && lease in leases
    ensures var db := leases[lease].database;
            Cleanups(out + [CleanupRequested(db, ok)], leases - {lease}, inv.(retiring := inv.retiring[db.id := db.name]))
  {
    var db := leases[lease].database;
    SaidKeepsSent(out, [CleanupRequested(db, ok)]);
    assert (out + [CleanupRequested(db, ok)])[|out|] == CleanupRequested(db, ok);
    assert CleanupSent(out + [CleanupRequested(db, ok)], db.id);
    assert forall i | 0 <= i < |out| && out[i].CleanupRequested? :: out[i] in out && out[i].database.id != db.id;
  }

  lemma QuietBatches(out: seq<Event>, nextId: nat, news: seq<Event>)
    requires Batches(out, nextId)
    requires forall e | e in news :: !e.CreationRequested?
    ensures Batches(out + news, nextId)
  {
    SaidKeepsSent(out, news);
  }

  lemma ReserveKeepsBatches(out: seq<Event>, nextId: nat, amount: nat, ok: bool)
    requires Batches(out, nextId)
    ensures Batches(out + [CreationRequested(CreateDatabases(nextId + 1, amount), ok)], nextId + amount)
  {
    SaidKeepsSent(out, [CreationRequested(CreateDatabases(nextId + 1, amount), ok)]);
  }

  // ---------------------------------------------------- actions, one by one

  lemma ServedKeepsQueues(cfg: Config, s: State, lease: LeaseId, e: Entry)
    requires Queues(s.leases, s.records, s.waiters, s.groups) && Bounds(cfg, s.leases, s.records)
    requires lease !in s.groups && IsOpen(s.records, lease) && e.conns <= U16_MAX
    ensures Queues(s.leases[lease := e], s.records, s.waiters, s.groups)
    ensures Bounds(cfg, s.leases[lease := e], s.records)
  {
  }

  lemma GrantedKeepsSound(cfg: Config, s: State, s': State, lease: LeaseId, n: nat, live: bool, news: seq<Event>)
    requires Sound(cfg, s) && lease !in s.leases && lease !in s.groups && IsOpen(s.records, lease)
    requires s.inventory.ready != [] && Served(s, s', lease, n, live, news) && n > 0
    ensures var t := s'; Sound(cfg, t)
  {
    var next, e := s.nextGeneration, s'.leases[lease];
    ServedKeepsJobs(s, s', lease, n, live, news);
    GrantKeepsGenerations(s.leases, next, s.cancelled, lease, e);
    GrantKeepsPlaces(s.leases, s.inventory, lease, e);
    GrantKeepsDeliveries(s.out, s.leases, s.inventory, s.cancelled, next, lease, e, news);
    ServedKeepsQueues(cfg, s, lease, e);
  }

  lemma ServedKeepsSound(cfg: Config, s: State, s': State, lease: LeaseId, n: nat, live: bool, news: seq<Event>)
    requires Sound(cfg, s) && lease !in s.leases && lease !in s.groups && IsOpen(s.records, lease)
    requires s.inventory.ready != [] && Served(s, s', lease, n, live, news)
    ensures var t := s'; Sound(cfg, t)
  {
    if n > 0 {
      GrantedKeepsSound(cfg, s, s', lease, n, live, news);
    } else {
      ServedKeepsJobs(s, s', lease, n, live, news);
      QuietDeliveries(s, s', news);
    }
  }

  lemma ServedKeepsJobs(s: State, s': State, lease: LeaseId, n: nat, live: bool, news: seq<Event>)
    requires Cleanups(s.out, s.leases, s.inventory) && Batches(s.out, s.inventory.nextId)
    requires s.inventory.ready != [] && Served(s, s', lease, n, live, news)
    ensures Cleanups(s'.out, s'.leases, s'.inventory) && Batches(s'.out, s'.inventory.nextId)
  {
    ReadyTail(s.inventory.ready);
    QuietBatches(s.out, s.inventory.nextId, news);
    QuietCleanups(s, s', news);
  }

  /** Nothing that the invariants speak of changes, except what is said. */
  lemma TalkKeepsSound(cfg: Config, s: State, s': State, news: seq<Event>)
    requires Sound(cfg, s)
    requires s' == s.(out := s.out + news, counters := s'.counters, shutdown := s'.shutdown)
    requires forall e | e in news :: !Delivered(e) && !e.CleanupRequested? && !e.CreationRequested?
    ensures Sound(cfg, s')
  {
    QuietDeliveries(s, s', news);
    QuietCleanups(s, s', news);
    QuietBatches(s.out, s.inventory.nextId, news);
  }

  lemma EntryKeepsSound(cfg: Config, s: State, s': State, lease: LeaseId, conns: nat, news: seq<Event>)
    requires Sound(cfg, s) && lease in s.leases && conns <= U16_MAX
    requires s' == s.(out := s.out + news, counters := s'.counters,
                      leases := s.leases[lease := s.leases[lease].(conns := conns)])
    requires forall e | e in news :: GroupEvent(lease, s.leases[lease].database, s.leases[lease].generation, e)
    ensures var t := s'; Sound(cfg, t)
  {
    EntryKeepsGenerations(s.leases, s.nextGeneration, s.cancelled, lease, conns);
    EntryKeepsPlaces(s.leases, s.inventory, lease, conns);
    JoinKeepsDeliveries(s.out, s.leases, s.inventory, s.cancelled, s.nextGeneration, lease, conns, news);
    EntryKeepsJobs(s, s', lease, conns, news);
    EntryKeepsQueues(cfg, s, lease, conns);
  }

  lemma EntryKeepsQueues(cfg: Config, s: State, lease: LeaseId, conns: nat)
    requires Queues(s.leases, s.records, s.waiters, s.groups) && Bounds(cfg, s.leases, s.records)
    requires lease in s.leases && conns <= U16_MAX
    ensures var leases := s.leases[lease := s.leases[lease].(conns := conns)];
            Queues(leases, s.records, s.waiters, s.groups) && Bounds(cfg, leases, s.records)
  {
    ServedKeepsQueues(cfg, s, lease, s.leases[lease].(conns := conns));
  }

  lemma EntryKeepsJobs(s: State, s': State, lease: LeaseId, conns: nat, news: seq<Event>)
    requires Cleanups(s.out, s.leases, s.inventory) && Batches(s.out, s.inventory.nextId) && lease in s.leases
    requires s'.out == s.out + news && s'.inventory == s.inventory
    requires s'.leases == s.leases[lease := s.leases[lease].(conns := conns)]
    requires forall e | e in news :: GroupEvent(lease, s.leases[lease].database, s.leases[lease].generation, e)
    ensures Cleanups(s'.out, s'.leases, s'.inventory) && Batches(s'.out, s'.inventory.nextId)
  {
    GroupKeepsJobs(s, s', lease, s.leases[lease].database, s.leases[lease].generation, news);
  }

  /** A group's events ask for no job. */
  lemma GroupKeepsJobs(s: State, s': State, lease: LeaseId, db: Database, gen: nat, news: seq<Event>)
    requires Cleanups(s.out, s.leases, s.inventory) && Batches(s.out, s.inventory.nextId)
    requires s'.out == s.out + news && s'.inventory == s.inventory
    requires LeasedFrom(s.leases, s'.leases, s.inventory.ready)
    requires forall e | e in news :: GroupEvent(lease, db, gen, e)
    ensures Cleanups(s'.out, s'.leases, s'.inventory) && Batches(s'.out, s'.inventory.nextId)
  {
    QuietCleanups(s, s', news);
    QuietBatches(s.out, s.inventory.nextId, news);
  }

  lemma RetireKeepsSound(cfg: Config, s: State, lease: LeaseId, ok: bool)
    requires Sound(cfg, s) && lease in s.leases
    ensures Sound(cfg, RetireOne(s, lease, ok))
  {
    var s' := RetireOne(s, lease, ok);
    var news := [CleanupRequested(s.leases[lease].database, ok)];
    RetireKeepsGenerations(s.leases, s.nextGeneration, s.cancelled, lease);
    RetireKeepsPlaces(s.leases, s.inventory, lease);
    QuietDeliveries(s, s', news);
    RetireKeepsCleanups(s.out, s.leases, s.inventory, lease, ok);
    QuietBatches(s.out, s.inventory.nextId, news);
  }

  lemma ForwardBatch(inv: Inventory, amount: nat, ids: set<nat>)
    requires forall id | id in ids :: inv.nextId < id <= inv.nextId + amount
    ensures Forward(inv, inv.(nextId := inv.nextId + amount, creating := inv.creating + ids))
  {
  }

  /** A rejected submission leaves `creating` exactly as it was. */
  lemma ReservedExactly(leases: Leases, inv: Inventory, batch: CreateDatabases, ok: bool) returns (ids: set<nat>)
    requires Places(leases, inv) && batch.first == inv.nextId + 1
    ensures ids == if ok then batch.Ids() else {}
    ensures Reserved(inv, batch, ok) == inv.(nextId := inv.nextId + batch.amount, creating := inv.creating + ids)
    ensures forall id | id in ids :: inv.nextId < id <= inv.nextId + batch.amount
  {
    ids := if ok then batch.Ids() else {};
    forall id | id in inv.creating ensures id !in batch.Ids() {
      assert Issued(inv, id);
    }
    assert inv.creating + batch.Ids() - batch.Ids() == inv.creating == inv.creating + {};
  }

  lemma ReservedInventory(leases: Leases, inv: Inventory, batch: CreateDatabases, ok: bool)
    requires Places(leases, inv) && batch.first == inv.nextId + 1
    ensures var inv' := Reserved(inv, batch, ok); Places(leases, inv') && Forward(inv, inv')
  {
    var ids := ReservedExactly(leases, inv, batch, ok);
    ReservedOf(leases, inv, Reserved(inv, batch, ok), batch.amount, ids);
  }

  lemma ReservedOf(leases: Leases, inv: Inventory, inv': Inventory, amount: nat, ids: set<nat>)
    requires Places(leases, inv) && forall id | id in ids :: inv.nextId < id <= inv.nextId + amount
    requires inv' == inv.(nextId := inv.nextId + amount, creating := inv.creating + ids)
    ensures Places(leases, inv') && Forward(inv, inv')
  {
    ReserveKeepsPlaces(leases, inv, amount, ids);
    ForwardBatch(inv, amount, ids);
  }

  lemma ReserveKeepsSound(cfg: Config, s: State, amount: nat, ok: bool)
    requires Sound(cfg, s)
    ensures var s' := Reserve(s, amount, ok); Sound(cfg, s')
  {
    var s' := Reserve(s, amount, ok);
    var batch := NextBatch(s.inventory, amount);
    ReservedInventory(s.leases, s.inventory, batch, ok);
    QuietDeliveries(s, s', [CreationRequested(batch, ok)]);
    QuietCleanups(s, s', [CreationRequested(batch, ok)]);
    ReserveKeepsBatches(s.out, s.inventory.nextId, amount, ok);
  }

  lemma SettleKeepsSound(cfg: Config, s: State, id: nat, result: Option<string>)
    requires Sound(cfg, s) && id in s.inventory.creating
    ensures Sound(cfg, CompleteCreation(s, id, result))
  {
    var s' := CompleteCreation(s, id, result);
    var db := Database(id, if result.Some? then result.value else "");
    SettleKeepsPlaces(s.leases, s.inventory, db);
    ReadyPush(s.inventory.ready, db);
    assert s'.out == s.out + [];
    QuietDeliveries(s, s', []);
    QuietCleanups(s, s', []);
  }

  lemma ForgetKeepsPlaces(leases: Leases, inv: Inventory, id: nat)
    requires Places(leases, inv)
    ensures Places(leases, inv.(retiring := inv.retiring - {id}))
  {
  }

  lemma ForgetKeepsSound(cfg: Config, s: State, id: nat)
    requires Sound(cfg, s)
    ensures Sound(cfg, ForgetRetired(s, id))
  {
    var s' := ForgetRetired(s, id);
    assert s'.out == s.out + [];
    ForgetKeepsPlaces(s.leases, s.inventory, id);
    QuietDeliveries(s, s', []);
    QuietCleanups(s, s', []);
  }

  lemma AdmitKeepsSound(cfg: Config, s: State, lease: LeaseId)
    requires Sound(cfg, s) && Enabled(cfg, s, AdmitLease(lease))
    ensures Sound(cfg, Apply(cfg, s, AdmitLease(lease)))
  {
    AdmitKeepsQueues(s.leases, s.records, s.waiters, s.groups, lease);
  }

  lemma AdmitKeepsQueues(leases: Leases, records: map<LeaseId, Status>, waiters: seq<LeaseId>,
                         groups: map<LeaseId, seq<Queued>>, lease: LeaseId)
    requires Queues(leases, records, waiters, groups) && lease !in records
    ensures Queues(leases, records[lease := Open], waiters, groups)
  {
  }

  lemma DropKeepsSound(cfg: Config, s: State, lease: LeaseId)
    requires Sound(cfg, s) && lease in s.leases
    ensures Sound(cfg, Disconnect(s, lease))
  {
    var e := s.leases[lease];
    assert s.out == s.out + [];
    if e.conns > 0 {
      EntryKeepsSound(cfg, s, Disconnect(s, lease), lease, e.conns - 1, []);
    }
  }

  lemma JoinKeepsSound(cfg: Config, s: State, lease: LeaseId, vs: seq<Verdict>)
    requires Sound(cfg, s) && lease in s.leases
    ensures Sound(cfg, Serve(cfg, s, lease, vs))
  {
    var news := JoinOutcome(cfg, s, lease, vs);
    var s' := Serve(cfg, s, lease, vs);
    EntryKeepsSound(cfg, s, s', lease, s'.leases[lease].conns, news);
  }

  lemma FreshKeepsSound(cfg: Config, s: State, lease: LeaseId, c: Consumer)
    requires Sound(cfg, s) && Enabled(cfg, s, ServeFresh(lease, c))
    ensures Sound(cfg, Apply(cfg, s, ServeFresh(lease, c)))
  {
    var vs := [Verdict(c, false)];
    var news := ServeOutcome(cfg, s, lease, vs);
    ServedKeepsSound(cfg, s, Serve(cfg, s, lease, vs), lease, Reached(vs), AnyLive(vs), news);
  }

  lemma WaitKeepsSound(cfg: Config, s: State, lease: LeaseId, q: Queued)
    requires Sound(cfg, s) && Enabled(cfg, s, Wait(lease, q))
    ensures Sound(cfg, Apply(cfg, s, Wait(lease, q)))
  {
    WaitKeepsQueues(s.leases, s.records, s.waiters, s.groups, lease, Enqueue(s, lease, q).groups[lease]);
  }

  lemma CloseKeepsQueues(cfg: Config, s: State, lease: LeaseId)
    requires Queues(s.leases, s.records, s.waiters, s.groups) && Bounds(cfg, s.leases, s.records)
    requires IsOpen(s.records, lease) && lease !in s.leases
    ensures var s' := Close(s, lease);
            Queues(s'.leases, s'.records, s'.waiters, s'.groups) && Bounds(cfg, s'.leases, s'.records)
  {
    WithoutFacts(s.waiters, lease);
    assert Close(s, lease).records.Keys == s.records.Keys;
    assert |Close(s, lease).records| == |s.records.Keys|;
  }

  lemma CloseKeepsSound(cfg: Config, s: State, lease: LeaseId)
    requires Sound(cfg, s) && IsOpen(s.records, lease) && lease !in s.leases
    ensures Sound(cfg, Close(s, lease))
  {
    var s' := Close(s, lease);
    var news := if lease in s.groups then RejectEvents(lease, s.groups[lease]) else [];
    CloseKeepsQueues(cfg, s, lease);
    TalkKeepsSound(cfg, s, s.(out := s.out + news), news);
  }

  lemma WaitKeepsQueues(leases: Leases, records: map<LeaseId, Status>, waiters: seq<LeaseId>,
                        groups: map<LeaseId, seq<Queued>>, lease: LeaseId, replies: seq<Queued>)
    requires Queues(leases, records, waiters, groups) && IsOpen(records, lease) && lease !in leases && replies != []
    ensures Queues(leases, records, if lease in groups then waiters else waiters + [lease], groups[lease := replies])
  {
  }

  lemma PopKeepsQueues(leases: Leases, records: map<LeaseId, Status>, waiters: seq<LeaseId>,
                       groups: map<LeaseId, seq<Queued>>)
    requires Queues(leases, records, waiters, groups) && waiters != []
    ensures Queues(leases, records, waiters[1..], groups - {waiters[0]})
  {
    var rest := waiters[1..];
    assert waiters == [waiters[0]] + rest;
    forall i | 0 <= i < |rest| ensures rest[i] != waiters[0] {
      assert rest[i] == waiters[i + 1];
    }
    assert waiters[0] !in rest;
  }

  // ------------------------------------------------------------ the result

  lemma ServeNextSound(cfg: Config, s: State, vs: seq<Verdict>)
    requires Sound(cfg, s) && Enabled(cfg, s, ServeNext(vs))
    ensures Sound(cfg, Apply(cfg, s, ServeNext(vs)))
  {
    var p := PopNext(s);
    PopKeepsQueues(s.leases, s.records, s.waiters, s.groups);
    var news := ServeOutcome(cfg, p, s.waiters[0], vs);
    ServedKeepsSound(cfg, p, Apply(cfg, s, ServeNext(vs)), s.waiters[0], Reached(vs), AnyLive(vs), news);
  }

  lemma AnswerKeepsSound(cfg: Config, s: State, e: Event)
    requires Sound(cfg, s) && Enabled(cfg, s, Answer(e))
    ensures var t := Say(s, e); Sound(cfg, t)
  {
    TalkKeepsSound(cfg, s, Say(s, e), [e]);
  }

  /** Each action keeps all invariants. */
  lemma StepSound(cfg: Config, s: State, a: Action)
    requires Sound(cfg, s) && Enabled(cfg, s, a)
    ensures var s' := Apply(cfg, s, a); Sound(cfg, s')
  {
    match a
    case AdmitLease(lease) => AdmitKeepsSound(cfg, s, lease);
    case Answer(e) => AnswerKeepsSound(cfg, s, e);
    case Wait(lease, q) => WaitKeepsSound(cfg, s, lease, q);
    case Join(lease, c) => JoinKeepsSound(cfg, s, lease, [Verdict(c, false)]);
    case ServeFresh(lease, c) => FreshKeepsSound(cfg, s, lease, c);
    case ServeNext(vs) => ServeNextSound(cfg, s, vs);
    case RetireLease(lease, ok) => RetireKeepsSound(cfg, s, lease, ok);
    case CloseLease(lease) => CloseKeepsSound(cfg, s, lease);
    case ReserveBatch(amount, ok) => ReserveKeepsSound(cfg, s, amount, ok);
    case SettleCreation(id, result) => SettleKeepsSound(cfg, s, id, result);
    case SettleCleanup(id) => ForgetKeepsSound(cfg, s, id);
    case DropConnection(lease) => DropKeepsSound(cfg, s, lease);
    case CountExpiry =>
    case Halt =>
  }
}
