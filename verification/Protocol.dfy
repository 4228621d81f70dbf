/**
  The engine among its neighbours, up to shutdown: its inbox, the sessions whose
  drop guards send detaches, the creation and cleanup queues with their tasks, and
  the expiry timers. Every interleaving of their steps is a run of this system.
 */
module Protocol {
  import opened EngineTypes
  import opened EngineSpec
  import opened Ledger
  import opened Soundness
  import opened Plans
  import opened Effects

  /** `server` says which databases the PostgreSQL server has, by name, and which id each
      was created for; `made` are all it ever created for the pool. */
  datatype System = System(
    engine: State,
    inbox: seq<Message>,
    sessions: multiset<Session>,
    createQueue: seq<CreateDatabases>,
    creating: multiset<nat>,
    dropQueue: seq<Database>,
    dropping: multiset<Database>,
    timers: multiset<Timer>,
    server: map<string, nat>,
    made: set<Database>)

  datatype Step =
    | Request(msg: Message)
    | DropSession(session: Session)
    | FireTimer(timer: Timer)
    | StopTimer(timer: Timer)
    | StartCreates
    | FinishCreate(id: nat, result: Option<string>)
    | StartDrop
    | FinishDrop(database: Database, ok: bool)
    | Handle(input: Input)

  /** What may happen next. The server refuses to create a database whose name is taken. */
  predicate Can(cfg: Config, y: System, step: Step) {
    match step
    case Request(msg) => msg.AttachOrJoin? || msg.ReleaseLease?
    case DropSession(x) => x in y.sessions
    case FireTimer(t) => t in y.timers
    case StopTimer(t) => t in y.timers && t.generation in y.engine.cancelled
    case StartCreates => y.createQueue != []
    case FinishCreate(id, result) => id in y.creating && (result.Some? ==> result.value !in y.server)
    case StartDrop => y.dropQueue != []
    case FinishDrop(db, _) => db in y.dropping
    case Handle(input) => y.inbox != [] && input.msg == y.inbox[0]
  }

  function Post(y: System, msg: Message): System {
    y.(inbox := y.inbox + [msg])
  }

  /** The engine reads a message; what it hands out goes to the neighbours. */
  function Handled(cfg: Config, y: System, input: Input): System
    requires y.inbox != []
  {
    var t := Process(cfg, y.engine, input);
    var news := News(y.engine, t);
    y.(engine := t,
       inbox := y.inbox[1..],
       sessions := y.sessions + Sessions(news),
       createQueue := y.createQueue + CreateJobs(news),
       dropQueue := y.dropQueue + DropJobs(news),
       timers := y.timers + Timers(news))
  }

  /** A creation that succeeds leaves a database under its name. */
  function Created(y: System, id: nat, result: Option<string>): System {
    match result
    case Some(name) => y.(server := y.server[name := id], made := y.made + {Database(id, name)})
    case None => y
  }

  /** A drop that succeeds removes the database of that name. */
  function Dropped(y: System, db: Database, ok: bool): System {
    if ok then y.(server := y.server - {db.name}) else y
  }

  function Next(cfg: Config, y: System, step: Step): System
    requires Can(cfg, y, step)
  {
    match step
    case Request(msg) => Post(y, msg)
    case DropSession(x) => Post(y.(sessions := y.sessions - multiset{x}), Detach(x.lease, x.generation))
    case FireTimer(t) => Post(y.(timers := y.timers - multiset{t}), LeaseMaxTimeReached(t.lease, t.generation))
    case StopTimer(t) => y.(timers := y.timers - multiset{t})
    case StartCreates =>
      y.(createQueue := y.createQueue[1..], creating := y.creating + multiset(y.createQueue[0].Ids()))
    case FinishCreate(id, result) =>
      Post(Created(y.(creating := y.creating - multiset{id}), id, result), CreationFinished(id, result))
    case StartDrop =>
      y.(dropQueue := y.dropQueue[1..], dropping := y.dropping + multiset{y.dropQueue[0]})
    case FinishDrop(db, ok) =>
      Post(Dropped(y.(dropping := y.dropping - multiset{db}), db, ok), CleanupFinished(db.id, ok))
    case Handle(input) => Handled(cfg, y, input)
  }

  ghost predicate Initial(y: System) {
    && Started(y.engine)
    && y == System(y.engine, [], multiset{}, [], multiset{}, [], multiset{}, multiset{}, y.server, y.made)
    && (forall db :: db in y.made <==> db in y.engine.inventory.ready)
    && (forall db | db in y.made :: db.name in y.server && y.server[db.name] == db.id)
    && (forall name | name in y.server :: Database(y.server[name], name) in y.made)
  }

  // ------------------------------------------------------------ accounting

  function CreationReports(inbox: seq<Message>): multiset<nat> {
    if inbox == [] then multiset{} else
      var m := inbox[|inbox| - 1];
      CreationReports(inbox[..|inbox| - 1]) + if m.CreationFinished? then multiset{m.id} else multiset{}
  }

  function DropReports(inbox: seq<Message>): multiset<nat> {
    if inbox == [] then multiset{} else
      var m := inbox[|inbox| - 1];
      DropReports(inbox[..|inbox| - 1]) + if m.CleanupFinished? then multiset{m.id} else multiset{}
  }

  lemma {:induction false} ReportsSum(p: seq<Message>, q: seq<Message>)
    ensures CreationReports(p + q) == CreationReports(p) + CreationReports(q)
    ensures DropReports(p + q) == DropReports(p) + DropReports(q)
  {
    if q == [] {
      assert p + q == p;
    } else {
      var all := p + q;
      assert all[..|all| - 1] == p + q[..|q| - 1];
      ReportsSum(p, q[..|q| - 1]);
    }
  }

  lemma OneReport(m: Message)
    ensures CreationReports([m]) == if m.CreationFinished? then multiset{m.id} else multiset{}
    ensures DropReports([m]) == if m.CleanupFinished? then multiset{m.id} else multiset{}
  {
    assert [m][..0] == [];
  }

  lemma ReportsHead(inbox: seq<Message>)
    requires inbox != []
    ensures CreationReports(inbox)
         == (if inbox[0].CreationFinished? then multiset{inbox[0].id} else multiset{}) + CreationReports(inbox[1..])
    ensures DropReports(inbox)
         == (if inbox[0].CleanupFinished? then multiset{inbox[0].id} else multiset{}) + DropReports(inbox[1..])
    ensures multiset(inbox) == multiset{inbox[0]} + multiset(inbox[1..])
  {
    assert inbox == [inbox[0]] + inbox[1..];
    ReportsSum([inbox[0]], inbox[1..]);
    OneReport(inbox[0]);
  }

  lemma ReportsPost(inbox: seq<Message>, m: Message)
    ensures CreationReports(inbox + [m])
         == CreationReports(inbox) + if m.CreationFinished? then multiset{m.id} else multiset{}
    ensures DropReports(inbox + [m])
         == DropReports(inbox) + if m.CleanupFinished? then multiset{m.id} else multiset{}
  {
    ReportsSum(inbox, [m]);
    OneReport(m);
  }

  // ------------------------------------------------------------- invariant

  ghost predicate Known(out: seq<Event>, x: Session) {
    exists e | e in out :: Delivered(e) && e.lease == x.lease && e.reply == Attached(x.database, x.generation)
  }

  /** Connection accounting: the connections of a live assignment are its undropped
      sessions and the detaches on their way. */
  ghost predicate Connections(s: State, inbox: seq<Message>, sessions: multiset<Session>) {
    && (forall x | x in sessions :: Known(s.out, x))
    && (forall m | m in inbox && m.Detach? :: m.generation <= s.nextGeneration)
    && (forall lease | lease in s.leases ::
          var e := s.leases[lease];
          e.conns == sessions[Session(lease, e.generation, e.database)]
                     + multiset(inbox)[Detach(lease, e.generation)])
    && s.counters.detachOnZero == 0
  }

  /** `creating` is the disjoint union of the queued, running and reported ids. */
  ghost predicate CreateJobsMatch(inv: Inventory, inbox: seq<Message>, queue: seq<CreateDatabases>,
                                  running: multiset<nat>)
  {
    multiset(inv.creating) == IdsOf(queue) + running + CreationReports(inbox)
  }

  /** Every drop that is queued or running is of a retired database under its own
      name, and no database has two drops. */
  ghost predicate DropJobsMatch(inv: Inventory, inbox: seq<Message>, jobs: multiset<Database>) {
    && (forall db | db in jobs ::
          && db.id in inv.retiring && inv.retiring[db.id] == db.name && jobs[db] == 1
          && DropReports(inbox)[db.id] == 0)
    && (forall id | id in DropReports(inbox) :: DropReports(inbox)[id] == 1 && id in inv.retiring)
  }

  predicate Pending(lease: LeaseId, generation: nat, inbox: seq<Message>, timers: multiset<Timer>) {
    Timer(lease, generation) in timers || LeaseMaxTimeReached(lease, generation) in inbox
  }

  /** Every live assignment has its expiry pending. */
  ghost predicate TimersPending(cfg: Config, s: State, inbox: seq<Message>, timers: multiset<Timer>) {
    cfg.claimTimeout > 0 ==>
      forall lease | lease in s.leases ::
        Pending(lease, s.leases[lease].generation, inbox, timers)
  }

  function Jobs(y: System): multiset<Database> {
    multiset(y.dropQueue) + y.dropping
  }

  ghost predicate Consistent(cfg: Config, y: System) {
    && Valid(cfg, y.engine)
    && !y.engine.shutdown && Shutdown !in y.inbox
    && Connections(y.engine, y.inbox, y.sessions)
    && CreateJobsMatch(y.engine.inventory, y.inbox, y.createQueue, y.creating)
    && DropJobsMatch(y.engine.inventory, y.inbox, Jobs(y))
    && TimersPending(cfg, y.engine, y.inbox, y.timers)
  }

  // -------------------------------------------- the engine reads a message

  lemma {:induction false} DropJobsRequested(news: seq<Event>)
    ensures forall db | db in multiset(DropJobs(news)) :: CleanupRequested(db, true) in news
  {
    if news != [] {
      var n := |news| - 1;
      DropJobsRequested(news[..n]);
      assert news == news[..n] + [news[n]];
      assert DropJobs(news) == DropJobs(news[..n]) + DropOf(news[n]);
    }
  }

  /** No database is handed to cleanup twice. */
  lemma {:induction false} DropJobsOnce(news: seq<Event>, db: Database)
    requires forall i, j | 0 <= i < j < |news| && news[i].CleanupRequested? && news[j].CleanupRequested? ::
               news[i].database.id != news[j].database.id
    ensures multiset(DropJobs(news))[db] <= 1
  {
    if news != [] {
      var n := |news| - 1;
      DropJobsOnce(news[..n], db);
      DropJobsRequested(news[..n]);
      assert forall i | 0 <= i < n :: news[..n][i] == news[i];
    }
  }

  /** Reading a detach takes one connection off, and there is one to take. */
  lemma SettledConnections(s: State, inbox: seq<Message>, sessions: multiset<Session>)
    requires inbox != [] && Connections(s, inbox, sessions) && !s.shutdown
    ensures var m := Settled(s, inbox[0]); Connections(m, inbox[1..], sessions)
  {
    ReportsHead(inbox);
    if inbox[0].Detach? && Current(s, inbox[0].lease, inbox[0].generation) {
      DetachConnections(s, inbox, sessions);
    } else {
      SettledFrame(s, inbox[0]);
      SameConnections(s, Settled(s, inbox[0]), inbox, sessions);
    }
  }

  lemma SettledFrame(s: State, msg: Message)
    requires msg.Detach? ==> !Current(s, msg.lease, msg.generation)
    ensures var m := Settled(s, msg);
            && m.leases == s.leases && m.out == s.out && m.nextGeneration == s.nextGeneration
            && m.counters.detachOnZero == s.counters.detachOnZero
  {
  }

  lemma SameConnections(s: State, m: State, inbox: seq<Message>, sessions: multiset<Session>)
    requires inbox != [] && Connections(s, inbox, sessions) && multiset(inbox) == multiset{inbox[0]} + multiset(inbox[1..])
    requires m.leases == s.leases && m.out == s.out && m.nextGeneration == s.nextGeneration
    requires m.counters.detachOnZero == s.counters.detachOnZero
    requires inbox[0].Detach? ==> !Current(s, inbox[0].lease, inbox[0].generation)
    ensures Connections(m, inbox[1..], sessions)
  {
    forall lease | lease in s.leases
      ensures multiset(inbox)[Detach(lease, s.leases[lease].generation)]
           == multiset(inbox[1..])[Detach(lease, s.leases[lease].generation)] {}
    assert forall x | x in inbox[1..] :: x in inbox;
  }

  lemma DetachConnections(s: State, inbox: seq<Message>, sessions: multiset<Session>)
    requires inbox != [] && Connections(s, inbox, sessions) && multiset(inbox) == multiset{inbox[0]} + multiset(inbox[1..])
    requires inbox[0].Detach? && Current(s, inbox[0].lease, inbox[0].generation)
    ensures var m := Disconnect(s, inbox[0].lease); Connections(m, inbox[1..], sessions)
  {
    var lease := inbox[0].lease;
    assert multiset(inbox)[inbox[0]] >= 1;
    assert s.leases[lease].conns > 0;
    assert forall x | x in inbox[1..] :: x in inbox;
    forall other | other in s.leases && other != lease
      ensures multiset(inbox)[Detach(other, s.leases[other].generation)]
           == multiset(inbox[1..])[Detach(other, s.leases[other].generation)] {}
  }

  /** Nothing refers to a generation that has not been issued. */
  lemma NothingYet(cfg: Config, s: State, inbox: seq<Message>, sessions: multiset<Session>, x: Session)
    requires Sound(cfg, s) && Connections(s, inbox, sessions) && x.generation > s.nextGeneration
    ensures sessions[x] == 0 && multiset(inbox)[Detach(x.lease, x.generation)] == 0
  {
    assert Detach(x.lease, x.generation) !in inbox;
  }

  lemma AddsConnections(cfg: Config, s: State, t: State, inbox: seq<Message>, sessions: multiset<Session>)
    requires Sound(cfg, s) && Connections(s, inbox, sessions) && Adds(cfg, s, t)
    ensures Connections(t, inbox, sessions + Sessions(News(s, t)))
  {
    var news := News(s, t);
    forall x | x in sessions + Sessions(news) ensures Known(t.out, x) {
      if x in sessions {
        KnownLater(s.out, t.out, x);
      } else {
        SessionsDelivered(news, x);
        var e :| e in news && Delivered(e) && e.lease == x.lease && e.reply == Attached(x.database, x.generation);
        assert e in t.out;
      }
    }
    forall lease | lease in t.leases
      ensures var x := Session(lease, t.leases[lease].generation, t.leases[lease].database);
              t.leases[lease].conns == (sessions + Sessions(news))[x] + multiset(inbox)[Detach(lease, x.generation)]
    {
      var x := Session(lease, t.leases[lease].generation, t.leases[lease].database);
      if x.generation > s.nextGeneration && !Current(s, lease, x.generation) {
        NothingYet(cfg, s, inbox, sessions, x);
      }
    }
  }

  lemma KnownLater(out: seq<Event>, out': seq<Event>, x: Session)
    requires Known(out, x) && out <= out'
    ensures Known(out', x)
  {
    var e :| e in out && Delivered(e) && e.lease == x.lease && e.reply == Attached(x.database, x.generation);
    assert e in out';
  }

  lemma TakeReport(creating: set<nat>, id: nat, others: multiset<nat>)
    requires multiset(creating) == multiset{id} + others
    ensures id in creating && multiset(creating - {id}) == others
  {
    assert id in multiset(creating);
    assert multiset(creating - {id}) == multiset(creating) - multiset{id};
  }

  lemma SettledCreating(s: State, msg: Message)
    requires !s.shutdown
    ensures Settled(s, msg).inventory.creating
         == if msg.CreationFinished? then s.inventory.creating - {msg.id} else s.inventory.creating
  {
  }

  lemma SettledRetiring(s: State, msg: Message)
    requires !s.shutdown
    ensures var retiring := Settled(s, msg).inventory.retiring;
            retiring == s.inventory.retiring || (msg.CleanupFinished? && retiring == s.inventory.retiring - {msg.id})
  {
  }

  /** Every report is of a running reservation: the engine never sees an unknown
      or repeated completion. */
  lemma ReportedCreates(inv: Inventory, inv': Inventory, inbox: seq<Message>, queue: seq<CreateDatabases>,
                        running: multiset<nat>)
    requires inbox != [] && CreateJobsMatch(inv, inbox, queue, running)
    requires inv'.creating == if inbox[0].CreationFinished? then inv.creating - {inbox[0].id} else inv.creating
    ensures CreateJobsMatch(inv', inbox[1..], queue, running)
    ensures inbox[0].CreationFinished? ==> inbox[0].id in inv.creating
  {
    ReportsHead(inbox);
    var others := IdsOf(queue) + running + CreationReports(inbox[1..]);
    if inbox[0].CreationFinished? {
      var id := inbox[0].id;
      assert IdsOf(queue) + running + CreationReports(inbox) == multiset{id} + others;
      TakeReport(inv.creating, id, others);
    }
  }

  lemma SettledCreates(s: State, inbox: seq<Message>, queue: seq<CreateDatabases>, running: multiset<nat>)
    requires inbox != [] && !s.shutdown && CreateJobsMatch(s.inventory, inbox, queue, running)
    ensures var m := Settled(s, inbox[0]); CreateJobsMatch(m.inventory, inbox[1..], queue, running)
  {
    SettledCreating(s, inbox[0]);
    ReportedCreates(s.inventory, Settled(s, inbox[0]).inventory, inbox, queue, running);
  }

  lemma AddsCreates(cfg: Config, s: State, t: State, inbox: seq<Message>, queue: seq<CreateDatabases>, running: multiset<nat>)
    requires CreateJobsMatch(s.inventory, inbox, queue, running) && Adds(cfg, s, t)
    ensures CreateJobsMatch(t.inventory, inbox, queue + CreateJobs(News(s, t)), running)
  {
    IdsSum(queue, CreateJobs(News(s, t)));
  }

  lemma SettledDrops(s: State, inbox: seq<Message>, jobs: multiset<Database>)
    requires inbox != [] && !s.shutdown && DropJobsMatch(s.inventory, inbox, jobs)
    ensures var m := Settled(s, inbox[0]); DropJobsMatch(m.inventory, inbox[1..], jobs)
  {
    var inv' := Settled(s, inbox[0]).inventory;
    SettledRetiring(s, inbox[0]);
    ReportsHead(inbox);
    if inbox[0].CleanupFinished? {
      DropSettles(s.inventory, inv', inbox, jobs);
    } else {
      SameDrops(s.inventory, inv', inbox, jobs);
    }
  }

  lemma SameDrops(inv: Inventory, inv': Inventory, inbox: seq<Message>, jobs: multiset<Database>)
    requires inbox != [] && DropJobsMatch(inv, inbox, jobs) && inv'.retiring == inv.retiring
    requires DropReports(inbox) == DropReports(inbox[1..])
    ensures DropJobsMatch(inv', inbox[1..], jobs)
  {
  }

  lemma DropSettles(inv: Inventory, inv': Inventory, inbox: seq<Message>, jobs: multiset<Database>)
    requires inbox != [] && inbox[0].CleanupFinished? && DropJobsMatch(inv, inbox, jobs)
    requires DropReports(inbox) == multiset{inbox[0].id} + DropReports(inbox[1..])
    requires inv'.retiring == inv.retiring || inv'.retiring == inv.retiring - {inbox[0].id}
    ensures DropJobsMatch(inv', inbox[1..], jobs)
  {
    var id, left := inbox[0].id, DropReports(inbox[1..]);
    assert DropReports(inbox)[id] == 1 + left[id];
    assert id in DropReports(inbox);
    forall x | x in left ensures x in DropReports(inbox) && x != id && left[x] == DropReports(inbox)[x] {}
    forall db | db in jobs ensures db.id != id && left[db.id] == 0 {}
  }

  lemma AddsDrops(cfg: Config, s: State, t: State, inbox: seq<Message>, jobs: multiset<Database>)
    requires DropJobsMatch(s.inventory, inbox, jobs) && Adds(cfg, s, t) && Cleanups(t.out, t.leases, t.inventory)
    ensures DropJobsMatch(t.inventory, inbox, jobs + multiset(DropJobs(News(s, t))))
  {
    var news := News(s, t);
    assert forall i | 0 <= i < |news| :: news[i] == t.out[|s.out| + i];
    DropJobsRequested(news);
    forall db ensures multiset(DropJobs(news))[db] <= 1 {
      DropJobsOnce(news, db);
    }
    NewDrops(s.inventory, t.inventory, inbox, jobs, multiset(DropJobs(news)));
  }

  lemma NewDrops(inv: Inventory, inv': Inventory, inbox: seq<Message>, jobs: multiset<Database>, more: multiset<Database>)
    requires DropJobsMatch(inv, inbox, jobs) && forall db :: more[db] <= 1
    requires forall id | id in inv.retiring :: id in inv'.retiring && inv'.retiring[id] == inv.retiring[id]
    requires forall db | db in more ::
               db.id !in inv.retiring && db.id in inv'.retiring && inv'.retiring[db.id] == db.name
    ensures DropJobsMatch(inv', inbox, jobs + more)
  {
    forall db | db in more ensures db !in jobs && DropReports(inbox)[db.id] == 0 {}
    forall db | db in jobs ensures db !in more {}
  }

  lemma SettledCurrent(s: State, msg: Message, lease: LeaseId, generation: nat)
    requires Current(Settled(s, msg), lease, generation)
    ensures Current(s, lease, generation)
  {
  }

  lemma HandleTimers(cfg: Config, s: State, input: Input, inbox: seq<Message>, timers: multiset<Timer>)
    requires inbox != [] && input.msg == inbox[0] && !s.shutdown && TimersPending(cfg, s, inbox, timers)
    requires var m := Settled(s, input.msg); m.out == s.out && Adds(cfg, m, Process(cfg, s, input))
    ensures var t := Process(cfg, s, input); TimersPending(cfg, t, inbox[1..], timers + Timers(News(s, t)))
  {
    var t := Process(cfg, s, input);
    if cfg.claimTimeout > 0 {
      forall lease | lease in t.leases
        ensures Pending(lease, t.leases[lease].generation, inbox[1..], timers + Timers(News(s, t)))
      {
        TimerKept(cfg, s, input, inbox, timers, lease);
      }
    }
  }

  lemma TimerKept(cfg: Config, s: State, input: Input, inbox: seq<Message>, timers: multiset<Timer>, lease: LeaseId)
    requires inbox != [] && input.msg == inbox[0] && !s.shutdown && TimersPending(cfg, s, inbox, timers)
    requires cfg.claimTimeout > 0 && lease in Process(cfg, s, input).leases
    requires var m := Settled(s, input.msg); m.out == s.out && Adds(cfg, m, Process(cfg, s, input))
    ensures var t := Process(cfg, s, input); var g := t.leases[lease].generation;
            Pending(lease, g, inbox[1..], timers + Timers(News(s, t)))
  {
    var m, t := Settled(s, input.msg), Process(cfg, s, input);
    var g := t.leases[lease].generation;
    ArmedTimers(News(s, t), lease, g);
    if TimerArmed(lease, g) !in News(s, t) {
      assert Current(m, lease, g);
      SettledCurrent(s, input.msg, lease, g);
      if inbox[0] == LeaseMaxTimeReached(lease, g) {
        ExpiredIsGone(cfg, s, input);
      }
      StillPending(lease, g, inbox, timers, Timers(News(s, t)));
    }
  }

  lemma StillPending(lease: LeaseId, g: nat, inbox: seq<Message>, timers: multiset<Timer>, more: multiset<Timer>)
    requires inbox != [] && Pending(lease, g, inbox, timers) && inbox[0] != LeaseMaxTimeReached(lease, g)
    ensures Pending(lease, g, inbox[1..], timers + more)
  {
    assert inbox == [inbox[0]] + inbox[1..];
  }

  /** An expiry of a live assignment ends it. */
  lemma ExpiredIsGone(cfg: Config, s: State, input: Input)
    requires !s.shutdown && input.msg.LeaseMaxTimeReached? && Current(s, input.msg.lease, input.msg.generation)
    ensures input.msg.lease !in Process(cfg, s, input).leases
  {
    GrowFrame(cfg, input.clock, input.createOk, RetireOne(Expire(s), input.msg.lease, input.cleanupOk));
  }
}
