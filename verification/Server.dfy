/**
  The databases that really exist: in every interleaving the server has exactly those
  the engine believes it has, whatever the creation and cleanup workers report.
 */
module Server {
  import opened EngineTypes
  import opened EngineSpec
  import opened Ledger
  import opened Soundness
  import opened Plans
  import opened Lifecycle
  import opened Effects
  import opened Protocol
  import opened SystemRuns
  import Fifo

  // ----------------------------------------------- what the engine has

  ghost predicate LeasedOut(leases: Leases, db: Database) {
    exists lease | lease in leases :: leases[lease].database == db
  }

  /** The engine holds this database: it is ready, leased or retiring under its name. */
  ghost predicate Has(s: State, db: Database) {
    || db in s.inventory.ready
    || LeasedOut(s.leases, db)
    || (db.id in s.inventory.retiring && s.inventory.retiring[db.id] == db.name)
  }

  ghost predicate SameHoldings(s: State, t: State) {
    forall db :: Has(t, db) <==> Has(s, db)
  }

  /** The oldest ready database becomes a lease's. */
  lemma GrantHoldings(s: State, t: State, lease: LeaseId, e: Entry)
    requires lease !in s.leases && s.inventory.ready != [] && e.database == s.inventory.ready[0]
    requires t.leases == s.leases[lease := e]
    requires t.inventory == s.inventory.(ready := s.inventory.ready[1..])
    ensures SameHoldings(s, t)
  {
    forall db ensures Has(t, db) <==> Has(s, db) {
      assert s.inventory.ready == [s.inventory.ready[0]] + t.inventory.ready;
      if LeasedOut(s.leases, db) {
        var l :| l in s.leases && s.leases[l].database == db;
        assert t.leases[l].database == db;
      }
      if db == e.database {
        assert t.leases[lease].database == db;
      }
    }
  }

  lemma ServedHoldings(s: State, t: State, lease: LeaseId, n: nat, live: bool, news: seq<Event>)
    requires lease !in s.leases && s.inventory.ready != [] && Served(s, t, lease, n, live, news)
    ensures SameHoldings(s, t)
  {
    if n > 0 {
      GrantHoldings(s, t, lease, t.leases[lease]);
    }
  }

  lemma KeptHoldings(s: State, t: State)
    requires t.inventory.ready == s.inventory.ready && t.inventory.retiring == s.inventory.retiring
    requires forall lease | lease in s.leases :: lease in t.leases && t.leases[lease].database == s.leases[lease].database
    requires forall lease | lease in t.leases :: lease in s.leases
    ensures SameHoldings(s, t)
  {
    forall db ensures LeasedOut(t.leases, db) <==> LeasedOut(s.leases, db) {
      if LeasedOut(s.leases, db) {
        var l :| l in s.leases && s.leases[l].database == db;
        assert t.leases[l].database == db;
      }
      if LeasedOut(t.leases, db) {
        var l :| l in t.leases && t.leases[l].database == db;
        assert s.leases[l].database == db;
      }
    }
  }

  lemma RetireHoldings(s: State, lease: LeaseId, ok: bool)
    requires Places(s.leases, s.inventory) && lease in s.leases
    ensures var t := RetireOne(s, lease, ok); SameHoldings(s, t)
  {
    var t := RetireOne(s, lease, ok);
    var gone := s.leases[lease].database;
    forall db ensures Has(t, db) <==> Has(s, db) {
      if LeasedOut(s.leases, db) {
        var l :| l in s.leases && s.leases[l].database == db;
        if l != lease {
          assert t.leases[l].database == db;
        }
      }
      if LeasedOut(t.leases, db) {
        var l :| l in t.leases && t.leases[l].database == db;
        assert s.leases[l].database == db;
      }
      if db == gone {
        assert s.leases[lease].database == db;
      }
    }
  }

  /** Only a report of a creation or a drop changes what the engine holds. */
  lemma StepHoldings(cfg: Config, s: State, a: Action)
    requires Sound(cfg, s) && Additive(a) && Enabled(cfg, s, a)
    ensures var t := Apply(cfg, s, a); SameHoldings(s, t)
  {
    match a
    case ServeFresh(lease, c) => FreshHoldings(cfg, s, lease, c);
    case ServeNext(vs) => NextHoldings(cfg, s, vs);
    case RetireLease(lease, ok) => RetireHoldings(s, lease, ok);
    case Join(lease, c) =>
      var news := JoinOutcome(cfg, s, lease, [Verdict(c, false)]);
      KeptHoldings(s, Apply(cfg, s, a));
    case ReserveBatch(_, _) => KeptHoldings(s, Apply(cfg, s, a));
    case Answer(_) => KeptHoldings(s, Apply(cfg, s, a));
    case CloseLease(_) => KeptHoldings(s, Apply(cfg, s, a));
    case AdmitLease(_) => KeptHoldings(s, Apply(cfg, s, a));
    case Wait(_, _) => KeptHoldings(s, Apply(cfg, s, a));
    case CountExpiry => KeptHoldings(s, Apply(cfg, s, a));
  }

  lemma FreshHoldings(cfg: Config, s: State, lease: LeaseId, c: Consumer)
    requires Enabled(cfg, s, ServeFresh(lease, c))
    ensures var t := Apply(cfg, s, ServeFresh(lease, c)); SameHoldings(s, t)
  {
    var vs := [Verdict(c, false)];
    var news := ServeOutcome(cfg, s, lease, vs);
    ServedHoldings(s, Serve(cfg, s, lease, vs), lease, Reached(vs), AnyLive(vs), news);
  }

  lemma NextHoldings(cfg: Config, s: State, vs: seq<Verdict>)
    requires Coherent(s) && Enabled(cfg, s, ServeNext(vs))
    ensures var t := Apply(cfg, s, ServeNext(vs)); SameHoldings(s, t)
  {
    var lease, p := s.waiters[0], PopNext(s);
    assert lease in s.waiters;
    var news := ServeOutcome(cfg, p, lease, vs);
    KeptHoldings(s, p);
    ServedHoldings(p, Serve(cfg, p, lease, vs), lease, Reached(vs), AnyLive(vs), news);
  }

  lemma {:induction false} RunsHoldings(cfg: Config, s: State, plan: seq<Action>, t: State)
    requires Sound(cfg, s) && Runs(cfg, s, plan, t) && forall a | a in plan :: Additive(a)
    ensures SameHoldings(s, t)
    decreases |plan|
  {
    if plan != [] {
      assert plan[0] in plan && forall a | a in plan[1..] :: a in plan;
      StepHoldings(cfg, s, plan[0]);
      StepSound(cfg, s, plan[0]);
      RunsHoldings(cfg, Apply(cfg, s, plan[0]), plan[1..], t);
    }
  }

  /** Beyond settling its job, a message changes nothing the engine holds. */
  lemma MessageHoldings(cfg: Config, s: State, input: Input)
    requires Valid(cfg, s)
    ensures var m, t := Settled(s, input.msg), Process(cfg, s, input); SameHoldings(m, t)
  {
    match input.msg
    case AttachOrJoin(_, _, _) => AskedHoldings(cfg, s, input);
    case ReleaseLease(_, _) => AskedHoldings(cfg, s, input);
    case LeaseMaxTimeReached(_, _) => AskedHoldings(cfg, s, input);
    case CreationFinished(_, _) => FinishedHoldings(cfg, s, input);
    case _ =>
  }

  /** Attaches, releases and expiries are plans of actions that settle nothing. */
  lemma AskedHoldings(cfg: Config, s: State, input: Input)
    requires Valid(cfg, s)
    requires input.msg.AttachOrJoin? || input.msg.ReleaseLease? || input.msg.LeaseMaxTimeReached?
    ensures var t := Process(cfg, s, input); SameHoldings(s, t)
  {
    AskedAdditive(cfg, s, input);
    MessageRuns(cfg, s, input);
    RunsHoldings(cfg, s, Plan(cfg, s, input), Process(cfg, s, input));
  }

  lemma AskedAdditive(cfg: Config, s: State, input: Input)
    requires Valid(cfg, s)
    requires input.msg.AttachOrJoin? || input.msg.ReleaseLease? || input.msg.LeaseMaxTimeReached?
    ensures forall a | a in Plan(cfg, s, input) :: Additive(a)
  {
    match input.msg
    case AttachOrJoin(lease, consumer, at) => AttachAdditive(cfg, input, s, lease, consumer, at);
    case ReleaseLease(lease, consumer) => ReleaseAdditive(cfg, input, s, lease, consumer);
    case LeaseMaxTimeReached(_, _) => ExpiryAdditive(cfg, s, input);
  }

  lemma FinishedHoldings(cfg: Config, s: State, input: Input)
    requires Valid(cfg, s) && input.msg.CreationFinished?
    ensures var m, t := Settled(s, input.msg), Process(cfg, s, input); SameHoldings(m, t)
  {
    var CreationFinished(id, result) := input.msg;
    if !s.shutdown && id in s.inventory.creating {
      SettleKeepsSound(cfg, s, id, result);
      CreationHoldings(cfg, input.clock, input.createOk, CompleteCreation(s, id, result));
    }
  }

  lemma CreationHoldings(cfg: Config, clock: Clock, createOk: bool, s: State)
    requires Sound(cfg, s)
    ensures var t := Grow(cfg, clock, createOk, Dispatch(cfg, clock, s)); SameHoldings(s, t)
  {
    var d := Dispatch(cfg, clock, s);
    var plan := DispatchPlan(cfg, clock, s);
    DispatchRuns(cfg, clock, s);
    Fifo.DispatchOneWay(cfg, clock, s);
    ThenGrow(cfg, clock, createOk, s, plan, d);
    RunsHoldings(cfg, s, plan + GrowPlan(cfg, clock, createOk, d), Grow(cfg, clock, createOk, d));
  }

  /** A settled creation adds its database, a settled cleanup takes one away. */
  lemma SettledHoldings(cfg: Config, s: State, msg: Message, db: Database)
    requires Sound(cfg, s) && !s.shutdown
    ensures var m := Settled(s, msg);
            Has(m, db) <==>
              if msg.CreationFinished? && msg.id in s.inventory.creating && msg.result == Some(db.name) && msg.id == db.id
              then true
              else Has(s, db) && !(msg.CleanupFinished? && msg.ok && msg.id in s.inventory.retiring && msg.id == db.id)
  {
    match msg
    case CreationFinished(id, result) =>
      if id in s.inventory.creating { CreatedHoldings(s, id, result, db); }
    case CleanupFinished(id, ok) =>
      if id in s.inventory.retiring && ok { ForgottenHoldings(s, id, db); }
    case Detach(lease, g) =>
      if Current(s, lease, g) { KeptHoldings(s, Disconnect(s, lease)); }
    case _ =>
  }

  lemma CreatedHoldings(s: State, id: nat, result: Option<string>, db: Database)
    requires id in s.inventory.creating
    ensures Has(CompleteCreation(s, id, result), db) <==> Has(s, db) || (result == Some(db.name) && id == db.id)
  {
  }

  lemma ForgottenHoldings(s: State, id: nat, db: Database)
    requires Places(s.leases, s.inventory) && id in s.inventory.retiring
    ensures Has(ForgetRetired(s, id), db) <==> Has(s, db) && id != db.id
  {
    if id == db.id {
      RetiringOnly(s, db);
    }
  }

  /** A retiring database is neither ready nor leased. */
  lemma RetiringOnly(s: State, db: Database)
    requires Places(s.leases, s.inventory) && db.id in s.inventory.retiring
    ensures db !in s.inventory.ready && !LeasedOut(s.leases, db)
  {
  }

  // ---------------------------------------------------- the server agrees

  /** The server has the database under this name, created for this id. */
  predicate Exists(server: map<string, nat>, db: Database) {
    db.name in server && server[db.name] == db.id
  }

  /** The server has some database that was created for the id. */
  ghost predicate Lives(server: map<string, nat>, id: nat) {
    exists name | name in server :: server[name] == id
  }

  /** A database was created for the id at some time. */
  ghost predicate WasMade(made: set<Database>, id: nat) {
    exists db | db in made :: db.id == id
  }

  /** The id has been through retirement. */
  ghost predicate Gone(s: State, id: nat) {
    CleanupSent(s.out, id) && id !in s.inventory.retiring
  }

  predicate CreatedReported(inbox: seq<Message>, db: Database) {
    CreationFinished(db.id, Some(db.name)) in inbox
  }

  /** What the engine holds exists, until its successful drop is on its way back. */
  ghost predicate HeldExists(s: State, inbox: seq<Message>, server: map<string, nat>) {
    forall db | Has(s, db) ::
      if CleanupFinished(db.id, true) in inbox then !Lives(server, db.id) else Exists(server, db)
  }

  /** Reports of creations say what happened. */
  ghost predicate ReportsTrue(inbox: seq<Message>, server: map<string, nat>, made: set<Database>) {
    && (forall id, name | CreationFinished(id, Some(name)) in inbox ::
          Exists(server, Database(id, name)) && Database(id, name) in made)
    && (forall id | CreationFinished(id, None) in inbox :: !WasMade(made, id))
  }

  /** Everything ever created is held by the engine, reported to it, or retired and
      gone; and each id got one database. */
  ghost predicate MadeKnown(s: State, inbox: seq<Message>, pending: multiset<nat>, made: set<Database>) {
    && (forall id | id in pending :: !WasMade(made, id))
    && (forall db | db in made ::
          Issued(s.inventory, db.id) && (Has(s, db) || CreatedReported(inbox, db) || Gone(s, db.id)))
    && (forall a, b | a in made && b in made && a.id == b.id :: a == b)
  }

  /** Whatever exists on the server was created for the pool, and is held or reported. */
  ghost predicate ServerKnown(s: State, inbox: seq<Message>, server: map<string, nat>, made: set<Database>) {
    forall name | name in server ::
      var db := Database(server[name], name);
      db in made && (CreatedReported(inbox, db) || (Has(s, db) && CleanupFinished(db.id, true) !in inbox))
  }

  ghost predicate Real(s: State, inbox: seq<Message>, pending: multiset<nat>, server: map<string, nat>, made: set<Database>) {
    && HeldExists(s, inbox, server)
    && ReportsTrue(inbox, server, made)
    && MadeKnown(s, inbox, pending, made)
    && ServerKnown(s, inbox, server, made)
  }

  /** Ids whose creation is queued or running. */
  function Coming(y: System): multiset<nat> {
    IdsOf(y.createQueue) + y.creating
  }

  ghost predicate Matches(cfg: Config, y: System) {
    Consistent(cfg, y) && Real(y.engine, y.inbox, Coming(y), y.server, y.made)
  }

  // ------------------------------------------------------------ reports

  lemma {:induction false} ReportedIds(inbox: seq<Message>, msg: Message)
    requires msg in inbox
    ensures msg.CreationFinished? ==> msg.id in CreationReports(inbox)
    ensures msg.CleanupFinished? ==> msg.id in DropReports(inbox)
  {
    var n := |inbox| - 1;
    assert inbox == inbox[..n] + [inbox[n]];
    if msg != inbox[n] {
      ReportedIds(inbox[..n], msg);
    }
  }

  /** A reported creation is still reserved, and its id has no other job. */
  lemma ReportedCreating(inv: Inventory, inbox: seq<Message>, queue: seq<CreateDatabases>, running: multiset<nat>, id: nat)
    requires CreateJobsMatch(inv, inbox, queue, running)
    ensures id in IdsOf(queue) + running + CreationReports(inbox) ==> id in inv.creating
    ensures (IdsOf(queue) + running)[id] + CreationReports(inbox)[id] <= 1
  {
    assert multiset(inv.creating)[id] <= 1;
    assert id in multiset(inv.creating) <==> id in inv.creating;
  }

  /** What is reported dropped is retiring, and reported once. */
  lemma ReportedRetiring(inv: Inventory, inbox: seq<Message>, jobs: multiset<Database>, msg: Message)
    requires DropJobsMatch(inv, inbox, jobs) && msg in inbox && msg.CleanupFinished?
    ensures msg.id in inv.retiring && DropReports(inbox)[msg.id] == 1
  {
    ReportedIds(inbox, msg);
  }

  // --------------------------------------------- the engine reads a message

  lemma HeadLeft(inbox: seq<Message>, msg: Message)
    requires inbox != []
    ensures msg in inbox <==> msg == inbox[0] || msg in inbox[1..]
  {
    assert inbox == [inbox[0]] + inbox[1..];
  }

  /** The drop report that is read is the only one of its id. */
  lemma OneDropReport(inv: Inventory, inbox: seq<Message>, jobs: multiset<Database>, ok: bool)
    requires inbox != [] && inbox[0].CleanupFinished? && DropJobsMatch(inv, inbox, jobs)
    ensures CleanupFinished(inbox[0].id, ok) !in inbox[1..] && inbox[0].id in inv.retiring
  {
    ReportsHead(inbox);
    assert inbox[0] in inbox;
    ReportedRetiring(inv, inbox, jobs, inbox[0]);
    if CleanupFinished(inbox[0].id, ok) in inbox[1..] {
      ReportedIds(inbox[1..], CleanupFinished(inbox[0].id, ok));
    }
  }

  lemma SettledHeldExists(cfg: Config, s: State, inbox: seq<Message>, jobs: multiset<Database>, server: map<string, nat>,
                          made: set<Database>)
    requires Sound(cfg, s) && !s.shutdown && inbox != [] && DropJobsMatch(s.inventory, inbox, jobs)
    requires HeldExists(s, inbox, server) && ReportsTrue(inbox, server, made)
    ensures var m := Settled(s, inbox[0]); HeldExists(m, inbox[1..], server)
  {
    var msg, m := inbox[0], Settled(s, inbox[0]);
    forall db | Has(m, db)
      ensures if CleanupFinished(db.id, true) in inbox[1..] then !Lives(server, db.id) else Exists(server, db)
    {
      SettledHoldings(cfg, s, msg, db);
      HeadLeft(inbox, CleanupFinished(db.id, true));
      if !Has(s, db) {
        assert msg == CreationFinished(db.id, Some(db.name)) && msg in inbox;
        if CleanupFinished(db.id, true) in inbox[1..] {
          ReportedRetiring(s.inventory, inbox, jobs, CleanupFinished(db.id, true));
        }
      } else if msg == CleanupFinished(db.id, true) {
        OneDropReport(s.inventory, inbox, jobs, true);
      }
    }
  }

  lemma SettledReportsTrue(inbox: seq<Message>, server: map<string, nat>, made: set<Database>)
    requires inbox != [] && ReportsTrue(inbox, server, made)
    ensures ReportsTrue(inbox[1..], server, made)
  {
    assert forall msg | msg in inbox[1..] :: msg in inbox;
  }

  lemma SettledMadeKnown(cfg: Config, s: State, inbox: seq<Message>, queue: seq<CreateDatabases>, running: multiset<nat>,
                         pending: multiset<nat>, made: set<Database>)
    requires Sound(cfg, s) && !s.shutdown && inbox != [] && CreateJobsMatch(s.inventory, inbox, queue, running)
    requires MadeKnown(s, inbox, pending, made)
    ensures var m := Settled(s, inbox[0]); MadeKnown(m, inbox[1..], pending, made)
  {
    var msg, m := inbox[0], Settled(s, inbox[0]);
    SettledSound(cfg, s, msg);
    forall db | db in made
      ensures Issued(m.inventory, db.id) && (Has(m, db) || CreatedReported(inbox[1..], db) || Gone(m, db.id))
    {
      SettledHoldings(cfg, s, msg, db);
      HeadLeft(inbox, CreationFinished(db.id, Some(db.name)));
      SettledGone(cfg, s, msg, db.id);
      if msg == CreationFinished(db.id, Some(db.name)) {
        ReportedIds(inbox, msg);
        ReportedCreating(s.inventory, inbox, queue, running, db.id);
      }
    }
  }

  /** Settling a cleanup is what makes a retiring id gone, and a gone one stays so. */
  lemma SettledGone(cfg: Config, s: State, msg: Message, id: nat)
    requires Sound(cfg, s) && !s.shutdown
    ensures var m := Settled(s, msg);
            && m.inventory.nextId == s.inventory.nextId
            && (Gone(s, id) ==> Gone(m, id))
            && (msg == CleanupFinished(id, true) && id in s.inventory.retiring ==> Gone(m, id))
  {
    SettledRecords(s, msg);
    assert id in s.inventory.retiring ==> CleanupSent(s.out, id);
  }

  lemma SettledRecords(s: State, msg: Message)
    requires !s.shutdown
    ensures var m := Settled(s, msg);
            && m.out == s.out && m.inventory.nextId == s.inventory.nextId
            && m.inventory.retiring == if msg.CleanupFinished? && msg.ok then s.inventory.retiring - {msg.id}
                                       else s.inventory.retiring
  {
    if msg.CleanupFinished? && msg.id !in s.inventory.retiring {
      assert s.inventory.retiring - {msg.id} == s.inventory.retiring;
    }
  }

  lemma SettledServerKnown(cfg: Config, s: State, inbox: seq<Message>, queue: seq<CreateDatabases>, running: multiset<nat>,
                           jobs: multiset<Database>, server: map<string, nat>, made: set<Database>)
    requires Sound(cfg, s) && !s.shutdown && inbox != [] && CreateJobsMatch(s.inventory, inbox, queue, running)
    requires DropJobsMatch(s.inventory, inbox, jobs) && ServerKnown(s, inbox, server, made)
    ensures var m := Settled(s, inbox[0]); ServerKnown(m, inbox[1..], server, made)
  {
    var msg, m := inbox[0], Settled(s, inbox[0]);
    forall name | name in server
      ensures var db := Database(server[name], name);
              db in made && (CreatedReported(inbox[1..], db) || (Has(m, db) && CleanupFinished(db.id, true) !in inbox[1..]))
    {
      var db := Database(server[name], name);
      SettledHoldings(cfg, s, msg, db);
      HeadLeft(inbox, CreationFinished(db.id, Some(db.name)));
      HeadLeft(inbox, CleanupFinished(db.id, true));
      if msg == CreationFinished(db.id, Some(db.name)) {
        ReportedIds(inbox, msg);
        ReportedCreating(s.inventory, inbox, queue, running, db.id);
        if CleanupFinished(db.id, true) in inbox {
          ReportedRetiring(s.inventory, inbox, jobs, CleanupFinished(db.id, true));
        }
      }
    }
  }

  /** Reading a message settles its report and nothing else about existing databases. */
  lemma SettledReal(cfg: Config, y: System)
    requires Matches(cfg, y) && y.inbox != []
    ensures var m := Settled(y.engine, y.inbox[0]); Real(m, y.inbox[1..], Coming(y), y.server, y.made)
  {
    SettledHeldExists(cfg, y.engine, y.inbox, Jobs(y), y.server, y.made);
    SettledReportsTrue(y.inbox, y.server, y.made);
    SettledMadeKnown(cfg, y.engine, y.inbox, y.createQueue, y.creating, Coming(y), y.made);
    SettledServerKnown(cfg, y.engine, y.inbox, y.createQueue, y.creating, Jobs(y), y.server, y.made);
  }

  /** Nobody has forgotten a retirement that was already over. */
  lemma GoneStays(s: State, t: State, id: nat)
    requires Gone(s, id) && s.out <= t.out && RetiringAdds(s, t, News(s, t))
    requires Cleanups(t.out, t.leases, t.inventory)
    ensures Gone(t, id)
  {
    var i :| 0 <= i < |s.out| && s.out[i].CleanupRequested? && s.out[i].database.id == id;
    assert t.out[i] == s.out[i];
    forall e | e in News(s, t) && e.CleanupRequested? ensures e.database.id != id {
      var j :| 0 <= j < |News(s, t)| && News(s, t)[j] == e;
      assert t.out[|s.out| + j] == e;
    }
  }

  /** A reserved id has never had a database, unless its creation has been reported. */
  lemma ReservedUnmade(s: State, inbox: seq<Message>, made: set<Database>, pending: multiset<nat>, id: nat)
    requires Placed(s) && id in s.inventory.creating && MadeKnown(s, inbox, pending, made)
    requires forall name :: CreationFinished(id, Some(name)) !in inbox
    ensures !WasMade(made, id)
  {
    forall db | db in made ensures db.id != id {
      if db.id == id {
        CreatingNotHeld(s, db);
      }
    }
  }

  lemma CreatingNotHeld(s: State, db: Database)
    requires Placed(s) && db.id in s.inventory.creating
    ensures !Has(s, db) && !Gone(s, db.id)
  {
    CreatingOnly(s, db.id);
    assert forall l | l in s.leases && s.leases[l].database == db :: Holds(s.leases, l, db.id);
  }

  /** The ids of new batches were not reserved before. */
  lemma NewIds(s: State, t: State, news: seq<Event>, id: nat)
    requires CreatingAdds(s, t, news) && id in IdsOf(CreateJobs(news))
    ensures id in t.inventory.creating && id !in s.inventory.creating
  {
    assert multiset(t.inventory.creating)[id] <= 1;
    assert multiset(t.inventory.creating)[id] == multiset(s.inventory.creating)[id] + IdsOf(CreateJobs(news))[id];
  }

  /** What a message hands out beyond its report leaves all existing databases alone. */
  lemma AddedMadeKnown(cfg: Config, s: State, t: State, inbox: seq<Message>, queue: seq<CreateDatabases>,
                       running: multiset<nat>, pending: multiset<nat>, made: set<Database>)
    requires Sound(cfg, t) && Adds(cfg, s, t) && SameHoldings(s, t) && s.inventory.nextId <= t.inventory.nextId
    requires CreateJobsMatch(s.inventory, inbox, queue, running) && MadeKnown(s, inbox, pending, made)
    ensures MadeKnown(t, inbox, pending + IdsOf(CreateJobs(News(s, t))), made)
  {
    var news := News(s, t);
    forall db | db in made && Gone(s, db.id) ensures Gone(t, db.id) {
      GoneStays(s, t, db.id);
    }
    assert MadeKnown(t, inbox, pending, made);
    forall id | id in IdsOf(CreateJobs(news)) ensures !WasMade(made, id) {
      NewIds(s, t, news, id);
      forall name ensures CreationFinished(id, Some(name)) !in inbox {
        if CreationFinished(id, Some(name)) in inbox {
          ReportedIds(inbox, CreationFinished(id, Some(name)));
          ReportedCreating(s.inventory, inbox, queue, running, id);
        }
      }
      ReservedUnmade(t, inbox, made, pending, id);
    }
  }

  lemma AddedReal(cfg: Config, s: State, t: State, inbox: seq<Message>, queue: seq<CreateDatabases>, running: multiset<nat>,
                  pending: multiset<nat>, server: map<string, nat>, made: set<Database>)
    requires Sound(cfg, t) && Adds(cfg, s, t) && SameHoldings(s, t) && s.inventory.nextId <= t.inventory.nextId
    requires CreateJobsMatch(s.inventory, inbox, queue, running)
    requires var inv := s; Real(inv, inbox, pending, server, made)
    ensures var u := t; Real(u, inbox, pending + IdsOf(CreateJobs(News(s, t))), server, made)
  {
    AddedMadeKnown(cfg, s, t, inbox, queue, running, pending, made);
  }

  lemma NextIdGrows(cfg: Config, s: State, input: Input)
    requires Valid(cfg, s)
    ensures Settled(s, input.msg).inventory.nextId <= Process(cfg, s, input).inventory.nextId
  {
    MessageEvolves(cfg, s, input);
  }

  lemma HandledReal(cfg: Config, y: System, input: Input)
    requires y.inbox != [] && input.msg == y.inbox[0] && Matches(cfg, y)
    ensures var z := Handled(cfg, y, input); Real(z.engine, z.inbox, Coming(z), z.server, z.made)
  {
    SettledReal(cfg, y);
    ReadReal(cfg, y.engine, input, y.inbox, y.createQueue, y.creating, y.server, y.made);
  }

  lemma ReadReal(cfg: Config, s: State, input: Input, inbox: seq<Message>, queue: seq<CreateDatabases>,
                 running: multiset<nat>, server: map<string, nat>, made: set<Database>)
    requires Valid(cfg, s) && !s.shutdown && inbox != [] && input.msg == inbox[0]
    requires CreateJobsMatch(s.inventory, inbox, queue, running)
    requires var m := Settled(s, input.msg); Real(m, inbox[1..], IdsOf(queue) + running, server, made)
    ensures var t := Process(cfg, s, input);
            Real(t, inbox[1..], IdsOf(queue + CreateJobs(News(s, t))) + running, server, made)
  {
    var m, t := Settled(s, input.msg), Process(cfg, s, input);
    SettledSound(cfg, s, input.msg);
    MessageAdds(cfg, s, input);
    MessageHoldings(cfg, s, input);
    MessageValid(cfg, s, input);
    NextIdGrows(cfg, s, input);
    SettledCreates(s, inbox, queue, running);
    AddedReal(cfg, m, t, inbox[1..], queue, running, IdsOf(queue) + running, server, made);
    SameNews(s, m, t);
    QueuedMore(queue, CreateJobs(News(s, t)), running);
  }

  lemma SameNews(s: State, m: State, t: State)
    requires m.out == s.out
    ensures News(m, t) == News(s, t)
  {
  }

  lemma QueuedMore(queue: seq<CreateDatabases>, more: seq<CreateDatabases>, running: multiset<nat>)
    ensures IdsOf(queue + more) + running == IdsOf(queue) + running + IdsOf(more)
  {
    IdsSum(queue, more);
  }

  // ------------------------------------------------ the neighbours move

  lemma PostedIn(inbox: seq<Message>, msg: Message, x: Message)
    ensures x in inbox + [msg] <==> x in inbox || x == msg
  {
  }

  /** A message that reports nothing leaves the server's account alone. */
  lemma PostReal(s: State, inbox: seq<Message>, pending: multiset<nat>, server: map<string, nat>, made: set<Database>,
                 msg: Message)
    requires Real(s, inbox, pending, server, made)
    requires !msg.CreationFinished? && (msg.CleanupFinished? ==> !msg.ok)
    ensures Real(s, inbox + [msg], pending, server, made)
  {
    forall id ensures CleanupFinished(id, true) in inbox + [msg] <==> CleanupFinished(id, true) in inbox {
      PostedIn(inbox, msg, CleanupFinished(id, true));
    }
    forall id, result ensures CreationFinished(id, result) in inbox + [msg] <==> CreationFinished(id, result) in inbox {
      PostedIn(inbox, msg, CreationFinished(id, result));
    }
  }

  /** A creation that finishes leaves its database, or nothing, and says so. */
  lemma CreateReal(s: State, inbox: seq<Message>, pending: multiset<nat>, server: map<string, nat>, made: set<Database>,
                   id: nat, name: string)
    requires Real(s, inbox, pending, server, made) && Placed(s)
    requires pending[id] == 1 && id in s.inventory.creating && name !in server
    requires forall result :: CreationFinished(id, result) !in inbox
    ensures var inbox' := inbox + [CreationFinished(id, Some(name))];
            Real(s, inbox', pending - multiset{id}, server[name := id], made + {Database(id, name)})
  {
    var inbox' := inbox + [CreationFinished(id, Some(name))];
    forall x ensures CleanupFinished(x, true) in inbox' <==> CleanupFinished(x, true) in inbox {
      PostedIn(inbox, CreationFinished(id, Some(name)), CleanupFinished(x, true));
    }
    forall x, r
      ensures CreationFinished(x, r) in inbox' <==> CreationFinished(x, r) in inbox || (x == id && r == Some(name))
    {
      PostedIn(inbox, CreationFinished(id, Some(name)), CreationFinished(x, r));
    }
    forall db: Database | db.id == id ensures !Has(s, db) {
      CreatingNotHeld(s, db);
    }
    CreatedHeldExists(s, inbox, inbox', server, id, name);
    CreatedMadeKnown(s, inbox, inbox', pending, made, id, name);
  }

  lemma CreatedHeldExists(s: State, inbox: seq<Message>, inbox': seq<Message>, server: map<string, nat>, id: nat, name: string)
    requires HeldExists(s, inbox, server) && name !in server && forall db: Database | db.id == id :: !Has(s, db)
    requires forall x :: CleanupFinished(x, true) in inbox' <==> CleanupFinished(x, true) in inbox
    ensures HeldExists(s, inbox', server[name := id])
  {
    forall db | Has(s, db)
      ensures if CleanupFinished(db.id, true) in inbox' then !Lives(server[name := id], db.id)
              else Exists(server[name := id], db)
    {
      assert db.id != id;
    }
  }

  lemma CreatedMadeKnown(s: State, inbox: seq<Message>, inbox': seq<Message>, pending: multiset<nat>, made: set<Database>,
                         id: nat, name: string)
    requires MadeKnown(s, inbox, pending, made) && pending[id] == 1 && Issued(s.inventory, id)
    requires forall x, r :: CreationFinished(x, r) in inbox' <==> CreationFinished(x, r) in inbox || (x == id && r == Some(name))
    ensures MadeKnown(s, inbox', pending - multiset{id}, made + {Database(id, name)})
  {
    assert id in pending;
    forall x | x in pending - multiset{id} ensures !WasMade(made + {Database(id, name)}, x) {
      assert x in pending && x != id;
    }
  }

  lemma FailReal(s: State, inbox: seq<Message>, pending: multiset<nat>, server: map<string, nat>, made: set<Database>, id: nat)
    requires Real(s, inbox, pending, server, made) && id in pending
    ensures Real(s, inbox + [CreationFinished(id, None)], pending - multiset{id}, server, made)
  {
    var inbox' := inbox + [CreationFinished(id, None)];
    forall x ensures CleanupFinished(x, true) in inbox' <==> CleanupFinished(x, true) in inbox {
      PostedIn(inbox, CreationFinished(id, None), CleanupFinished(x, true));
    }
    forall x, r ensures CreationFinished(x, r) in inbox' <==> CreationFinished(x, r) in inbox || (x == id && r == None) {
      PostedIn(inbox, CreationFinished(id, None), CreationFinished(x, r));
    }
  }

  /** A drop that succeeds removes exactly its own database, and says so. */
  lemma DropReal(s: State, inbox: seq<Message>, pending: multiset<nat>, server: map<string, nat>, made: set<Database>,
                 db: Database)
    requires Real(s, inbox, pending, server, made) && Placed(s)
    requires db.id in s.inventory.retiring && s.inventory.retiring[db.id] == db.name
    requires CleanupFinished(db.id, true) !in inbox
    requires forall id, r | CreationFinished(id, r) in inbox :: id in s.inventory.creating
    ensures var inbox' := inbox + [CleanupFinished(db.id, true)]; Real(s, inbox', pending, server - {db.name}, made)
  {
    var inbox' := inbox + [CleanupFinished(db.id, true)];
    forall x ensures CleanupFinished(x, true) in inbox' <==> CleanupFinished(x, true) in inbox || x == db.id {
      PostedIn(inbox, CleanupFinished(db.id, true), CleanupFinished(x, true));
    }
    forall x, r ensures CreationFinished(x, r) in inbox' <==> CreationFinished(x, r) in inbox {
      PostedIn(inbox, CleanupFinished(db.id, true), CreationFinished(x, r));
    }
    assert Has(s, db) && Exists(server, db);
    DropsOwn(s, inbox, pending, server, made, db);
    DroppedHeldExists(s, inbox, inbox', server, db);
    DroppedServerKnown(s, inbox, inbox', server, made, db);
  }

  /** No other name on the server belongs to the id. */
  lemma DropsOwn(s: State, inbox: seq<Message>, pending: multiset<nat>, server: map<string, nat>, made: set<Database>,
                 db: Database)
    requires MadeKnown(s, inbox, pending, made) && ServerKnown(s, inbox, server, made) && Exists(server, db)
    ensures !Lives(server - {db.name}, db.id)
  {
    assert Database(server[db.name], db.name) in made;
    forall name | name in server - {db.name} ensures server[name] != db.id {
      assert Database(server[name], name) in made;
    }
  }

  lemma DroppedHeldExists(s: State, inbox: seq<Message>, inbox': seq<Message>, server: map<string, nat>, db: Database)
    requires HeldExists(s, inbox, server) && !Lives(server - {db.name}, db.id) && Exists(server, db)
    requires forall x :: CleanupFinished(x, true) in inbox' <==> CleanupFinished(x, true) in inbox || x == db.id
    ensures HeldExists(s, inbox', server - {db.name})
  {
    forall x | Has(s, x)
      ensures if CleanupFinished(x.id, true) in inbox' then !Lives(server - {db.name}, x.id)
              else Exists(server - {db.name}, x)
    {
    }
  }

  lemma DroppedServerKnown(s: State, inbox: seq<Message>, inbox': seq<Message>, server: map<string, nat>,
                           made: set<Database>, db: Database)
    requires ServerKnown(s, inbox, server, made) && !Lives(server - {db.name}, db.id)
    requires forall x :: CleanupFinished(x, true) in inbox' <==> CleanupFinished(x, true) in inbox || x == db.id
    requires forall x, r :: CreationFinished(x, r) in inbox' <==> CreationFinished(x, r) in inbox
    ensures ServerKnown(s, inbox', server - {db.name}, made)
  {
    forall name | name in server - {db.name} ensures server[name] != db.id {
      assert (server - {db.name})[name] == server[name];
    }
  }

  // ---------------------------------------------------------- every step

  lemma RequestMatches(cfg: Config, y: System, msg: Message)
    requires Matches(cfg, y) && !msg.CreationFinished? && (msg.CleanupFinished? ==> !msg.ok)
    ensures Real(y.engine, y.inbox + [msg], Coming(y), y.server, y.made)
  {
    PostReal(y.engine, y.inbox, Coming(y), y.server, y.made, msg);
  }

  lemma StartMatchesServer(cfg: Config, y: System)
    requires Matches(cfg, y) && Can(cfg, y, StartCreates)
    ensures var z := Next(cfg, y, StartCreates); Real(z.engine, z.inbox, Coming(z), z.server, z.made)
  {
    HeadIds(y.createQueue);
    assert Coming(Next(cfg, y, StartCreates)) == Coming(y);
  }

  lemma FinishMatches(cfg: Config, y: System, id: nat, result: Option<string>)
    requires Matches(cfg, y) && Can(cfg, y, FinishCreate(id, result))
    ensures var z := Next(cfg, y, FinishCreate(id, result)); Real(z.engine, z.inbox, Coming(z), z.server, z.made)
  {
    ReportedCreating(y.engine.inventory, y.inbox, y.createQueue, y.creating, id);
    assert id in Coming(y) && Coming(y)[id] == 1;
    forall r ensures CreationFinished(id, r) !in y.inbox {
      if CreationFinished(id, r) in y.inbox {
        ReportedIds(y.inbox, CreationFinished(id, r));
      }
    }
    assert IdsOf(y.createQueue) + (y.creating - multiset{id}) == Coming(y) - multiset{id};
    match result
    case Some(name) => CreateReal(y.engine, y.inbox, Coming(y), y.server, y.made, id, name);
    case None => FailReal(y.engine, y.inbox, Coming(y), y.server, y.made, id);
  }

  lemma DropMatches(cfg: Config, y: System, db: Database, ok: bool)
    requires Matches(cfg, y) && Can(cfg, y, FinishDrop(db, ok))
    ensures var z := Next(cfg, y, FinishDrop(db, ok)); Real(z.engine, z.inbox, Coming(z), z.server, z.made)
  {
    if ok {
      DropFacts(y, db);
      DropReal(y.engine, y.inbox, Coming(y), y.server, y.made, db);
    } else {
      RequestMatches(cfg, y, CleanupFinished(db.id, false));
    }
  }

  /** A running drop is of a retired database that has not been reported. */
  lemma DropFacts(y: System, db: Database)
    requires db in y.dropping && DropJobsMatch(y.engine.inventory, y.inbox, Jobs(y))
    requires CreateJobsMatch(y.engine.inventory, y.inbox, y.createQueue, y.creating)
    ensures db.id in y.engine.inventory.retiring && y.engine.inventory.retiring[db.id] == db.name
    ensures forall ok :: CleanupFinished(db.id, ok) !in y.inbox
    ensures forall id, r | CreationFinished(id, r) in y.inbox :: id in y.engine.inventory.creating
  {
    assert db in Jobs(y);
    forall ok ensures CleanupFinished(db.id, ok) !in y.inbox {
      if CleanupFinished(db.id, ok) in y.inbox {
        ReportedIds(y.inbox, CleanupFinished(db.id, ok));
      }
    }
    forall id, r | CreationFinished(id, r) in y.inbox ensures id in y.engine.inventory.creating {
      ReportedIds(y.inbox, CreationFinished(id, r));
      ReportedCreating(y.engine.inventory, y.inbox, y.createQueue, y.creating, id);
    }
  }

  lemma StepMatches(cfg: Config, y: System, step: Step)
    requires Matches(cfg, y) && Can(cfg, y, step)
    ensures var z := Next(cfg, y, step); Real(z.engine, z.inbox, Coming(z), z.server, z.made)
  {
    match step
    case Request(msg) => RequestMatches(cfg, y, msg);
    case DropSession(x) => RequestMatches(cfg, y, Detach(x.lease, x.generation));
    case FireTimer(t) => RequestMatches(cfg, y, LeaseMaxTimeReached(t.lease, t.generation));
    case StopTimer(_) =>
    case StartCreates => StartMatchesServer(cfg, y);
    case FinishCreate(id, result) => FinishMatches(cfg, y, id, result);
    case StartDrop =>
    case FinishDrop(db, ok) => DropMatches(cfg, y, db, ok);
    case Handle(input) => HandledReal(cfg, y, input);
  }

  lemma {:induction false} LeadsMatches(cfg: Config, y: System, steps: seq<Step>, z: System)
    requires Matches(cfg, y) && Leads(cfg, y, steps, z)
    ensures Matches(cfg, z)
    decreases |steps|
  {
    if steps != [] {
      StepConsistent(cfg, y, steps[0]);
      StepMatches(cfg, y, steps[0]);
      LeadsMatches(cfg, Next(cfg, y, steps[0]), steps[1..], z);
    }
  }

  /** At the start every ready database is there, and nothing else. */
  lemma InitialReal(y: System)
    requires Initial(y) && Placed(y.engine)
    ensures var s := y.engine; Real(s, y.inbox, Coming(y), y.server, y.made)
  {
    forall db | db in y.made ensures Issued(y.engine.inventory, db.id) && Has(y.engine, db) {
      var i :| 0 <= i < |y.engine.inventory.ready| && y.engine.inventory.ready[i] == db;
    }
  }

  lemma InitialMatches(cfg: Config, y: System)
    requires Initial(y)
    ensures Matches(cfg, y)
  {
    StartValid(cfg, y.engine);
    InitialReal(y);
  }

  lemma ObservableMatches(cfg: Config, z: System)
    requires Observable(cfg, z)
    ensures Matches(cfg, z)
  {
    var y, steps :| Initial(y) && Leads(cfg, y, steps, z);
    InitialMatches(cfg, y);
    LeadsMatches(cfg, y, steps, z);
  }

  // ------------------------------------------------------- what it means

  /** What is ready or leased is not being dropped. */
  lemma UsedNotDropped(s: State, inbox: seq<Message>, jobs: multiset<Database>, db: Database)
    requires Placed(s) && DropJobsMatch(s.inventory, inbox, jobs) && (db in s.inventory.ready || LeasedOut(s.leases, db))
    ensures Has(s, db) && CleanupFinished(db.id, true) !in inbox && db.id !in s.inventory.retiring
  {
    if CleanupFinished(db.id, true) in inbox {
      ReportedRetiring(s.inventory, inbox, jobs, CleanupFinished(db.id, true));
    }
    if db.id in s.inventory.retiring {
      RetiringOnly(s, db);
    }
  }

  lemma ReadyExists(z: System, i: nat)
    requires Placed(z.engine) && DropJobsMatch(z.engine.inventory, z.inbox, Jobs(z))
    requires HeldExists(z.engine, z.inbox, z.server) && i < |z.engine.inventory.ready|
    ensures Exists(z.server, z.engine.inventory.ready[i]) && z.engine.inventory.ready[i].id !in z.engine.inventory.retiring
  {
    UsedNotDropped(z.engine, z.inbox, Jobs(z), z.engine.inventory.ready[i]);
  }

  lemma LeasedExists(z: System, lease: LeaseId)
    requires Placed(z.engine) && DropJobsMatch(z.engine.inventory, z.inbox, Jobs(z))
    requires HeldExists(z.engine, z.inbox, z.server) && lease in z.engine.leases
    ensures Exists(z.server, z.engine.leases[lease].database)
    ensures z.engine.leases[lease].database.id !in z.engine.inventory.retiring
  {
    UsedNotDropped(z.engine, z.inbox, Jobs(z), z.engine.leases[lease].database);
  }

  /** In every interleaving: what is ready or leased exists on the server under its own
      name and id; so does what is retiring, until its successful drop is on its way
      back, and from then on nothing does; and what exists was created for the pool
      and is held by the engine or about to be reported to it. */
  lemma ExistingIsHeld(cfg: Config, z: System)
    requires Observable(cfg, z)
    ensures forall i | 0 <= i < |z.engine.inventory.ready| :: Exists(z.server, z.engine.inventory.ready[i])
    ensures forall lease | lease in z.engine.leases :: Exists(z.server, z.engine.leases[lease].database)
    ensures forall id | id in z.engine.inventory.retiring ::
              if CleanupFinished(id, true) in z.inbox then !Lives(z.server, id)
              else Exists(z.server, Database(id, z.engine.inventory.retiring[id]))
    ensures forall name | name in z.server ::
              var db := Database(z.server[name], name);
              CreatedReported(z.inbox, db) || (Has(z.engine, db) && CleanupFinished(db.id, true) !in z.inbox)
  {
    ObservableMatches(cfg, z);
    forall i | 0 <= i < |z.engine.inventory.ready| ensures Exists(z.server, z.engine.inventory.ready[i]) {
      ReadyExists(z, i);
    }
    forall lease | lease in z.engine.leases ensures Exists(z.server, z.engine.leases[lease].database) {
      LeasedExists(z, lease);
    }
    forall id | id in z.engine.inventory.retiring
      ensures if CleanupFinished(id, true) in z.inbox then !Lives(z.server, id)
              else Exists(z.server, Database(id, z.engine.inventory.retiring[id]))
    {
      assert Has(z.engine, Database(id, z.engine.inventory.retiring[id]));
    }
  }

  /** What was made or exists for an id, by its phase. */
  ghost predicate ServerAt(z: System, id: nat, p: Phase) {
    match p
    case Unissued => !WasMade(z.made, id)
    case Failed => !WasMade(z.made, id)
    case Creating => WasMade(z.made, id) <==> exists name :: CreationFinished(id, Some(name)) in z.inbox
    case Ready => Lives(z.server, id)
    case Leased(_, _) => Lives(z.server, id)
    case Retiring => Lives(z.server, id) <==> CleanupFinished(id, true) !in z.inbox
    case Cleaned => !Lives(z.server, id)
  }

  lemma UnissuedServer(z: System, id: nat)
    requires MadeKnown(z.engine, z.inbox, Coming(z), z.made) && !Issued(z.engine.inventory, id)
    ensures !WasMade(z.made, id)
  {
  }

  /** An id that is nowhere has no database. */
  lemma NowhereNotHeld(s: State, db: Database)
    requires !IsReady(s.inventory.ready, db.id) && !IsLeased(s.leases, db.id) && db.id !in s.inventory.retiring
    ensures !Has(s, db)
  {
    assert forall l | l in s.leases && s.leases[l].database == db :: Holds(s.leases, l, db.id);
  }

  /** A creation is only reported for a reserved id. */
  lemma OnlyReservedReported(y: System, db: Database)
    requires CreateJobsMatch(y.engine.inventory, y.inbox, y.createQueue, y.creating) && CreatedReported(y.inbox, db)
    ensures db.id in y.engine.inventory.creating
  {
    ReportedIds(y.inbox, CreationFinished(db.id, Some(db.name)));
    ReportedCreating(y.engine.inventory, y.inbox, y.createQueue, y.creating, db.id);
  }

  lemma FailedServer(z: System, id: nat)
    requires MadeKnown(z.engine, z.inbox, Coming(z), z.made) && InPhase(z.engine, id, Failed)
    requires CreateJobsMatch(z.engine.inventory, z.inbox, z.createQueue, z.creating)
    ensures !WasMade(z.made, id)
  {
    forall db | db in z.made ensures db.id != id {
      if db.id == id {
        NowhereNotHeld(z.engine, db);
        if CreatedReported(z.inbox, db) { OnlyReservedReported(z, db); }
      }
    }
  }

  lemma CreatingServer(z: System, id: nat)
    requires MadeKnown(z.engine, z.inbox, Coming(z), z.made) && Placed(z.engine) && id in z.engine.inventory.creating
    requires ReportsTrue(z.inbox, z.server, z.made)
    ensures WasMade(z.made, id) <==> exists name :: CreationFinished(id, Some(name)) in z.inbox
  {
    if name :| CreationFinished(id, Some(name)) in z.inbox {
      assert Database(id, name) in z.made;
    }
    forall db | db in z.made && db.id == id ensures CreationFinished(id, Some(db.name)) in z.inbox {
      CreatingNotHeld(z.engine, db);
    }
  }

  lemma RetiringServer(z: System, id: nat)
    requires HeldExists(z.engine, z.inbox, z.server) && id in z.engine.inventory.retiring
    ensures Lives(z.server, id) <==> CleanupFinished(id, true) !in z.inbox
  {
    assert Has(z.engine, Database(id, z.engine.inventory.retiring[id]));
  }

  lemma CleanedServer(z: System, id: nat)
    requires ServerKnown(z.engine, z.inbox, z.server, z.made) && Placed(z.engine) && InPhase(z.engine, id, Cleaned)
    requires CreateJobsMatch(z.engine.inventory, z.inbox, z.createQueue, z.creating)
    ensures !Lives(z.server, id)
  {
    PlacedOnce(z.engine.leases, z.engine.inventory, id);
    ExactlyOnePhase(z.engine, id, Cleaned);
    forall name | name in z.server ensures z.server[name] != id {
      var db := Database(z.server[name], name);
      if db.id == id {
        NowhereNotHeld(z.engine, db);
        OnlyReservedReported(z, db);
      }
    }
  }

  lemma PhaseServer(z: System, id: nat, p: Phase)
    requires Placed(z.engine) && InPhase(z.engine, id, p) && p == PhaseOf(z.engine, id)
    requires CreateJobsMatch(z.engine.inventory, z.inbox, z.createQueue, z.creating)
    requires DropJobsMatch(z.engine.inventory, z.inbox, Jobs(z))
    requires var s := z.engine; Real(s, z.inbox, Coming(z), z.server, z.made)
    ensures ServerAt(z, id, p)
  {
    match p
    case Unissued => UnissuedServer(z, id);
    case Failed => FailedServer(z, id);
    case Creating => CreatingServer(z, id);
    case Ready =>
      var i :| 0 <= i < |z.engine.inventory.ready| && z.engine.inventory.ready[i].id == id;
      ReadyExists(z, i);
    case Leased(lease, _) => LeasedExists(z, lease);
    case Retiring => RetiringServer(z, id);
    case Cleaned => CleanedServer(z, id);
  }

  /** And id by id: one that was never issued, or whose creation failed, never had a
      database; a reserved one has one exactly when that has been reported; a cleaned
      one has none any more; and no id ever had two. */
  lemma ServerByPhase(cfg: Config, z: System, id: nat)
    requires Observable(cfg, z)
    ensures var p := PhaseOf(z.engine, id); ServerAt(z, id, p)
    ensures forall a, b | a in z.made && b in z.made && a.id == id && b.id == id :: a == b
  {
    ObservableMatches(cfg, z);
    ExactlyOnePhase(z.engine, id, PhaseOf(z.engine, id));
    PhaseServer(z, id, PhaseOf(z.engine, id));
  }

  /** A drop that has not been reported is of an existing retired database. */
  lemma JobExists(z: System, db: Database)
    requires db in Jobs(z) && DropJobsMatch(z.engine.inventory, z.inbox, Jobs(z)) && HeldExists(z.engine, z.inbox, z.server)
    ensures Exists(z.server, db) && db.id in z.engine.inventory.retiring
  {
    if CleanupFinished(db.id, true) in z.inbox {
      ReportedIds(z.inbox, CleanupFinished(db.id, true));
    }
    assert Has(z.engine, db);
  }

  /** A drop goes by name, and can only hit the retired database it was issued for. */
  lemma DropHitsOwn(cfg: Config, z: System, db: Database)
    requires Observable(cfg, z) && db in Jobs(z)
    ensures Exists(z.server, db) && db.id in z.engine.inventory.retiring
    ensures forall i | 0 <= i < |z.engine.inventory.ready| :: z.engine.inventory.ready[i].name != db.name
    ensures forall lease | lease in z.engine.leases :: z.engine.leases[lease].database.name != db.name
  {
    ObservableMatches(cfg, z);
    JobExists(z, db);
    forall i | 0 <= i < |z.engine.inventory.ready| ensures z.engine.inventory.ready[i].name != db.name {
      ReadyExists(z, i);
    }
    forall lease | lease in z.engine.leases ensures z.engine.leases[lease].database.name != db.name {
      LeasedExists(z, lease);
    }
  }
}
