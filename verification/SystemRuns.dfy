/**
  Every run of the composed system keeps the accounts of Protocol.dfy, and what
  this means for connections, jobs and timers.
 */
module SystemRuns {
  import opened EngineTypes
  import opened EngineSpec
  import opened Ledger
  import opened Plans
  import opened Effects
  import opened Protocol

  // ------------------------------------------------------- a message is read

  lemma StillRunning(cfg: Config, s: State, input: Input)
    requires !s.shutdown && !input.msg.Shutdown? && Adds(cfg, Settled(s, input.msg), Process(cfg, s, input))
    ensures !Process(cfg, s, input).shutdown
  {
  }

  lemma ConnectionsHandled(cfg: Config, s: State, input: Input, inbox: seq<Message>, sessions: multiset<Session>)
    requires Valid(cfg, s) && !s.shutdown && inbox != [] && input.msg == inbox[0] && Connections(s, inbox, sessions)
    ensures var t := Process(cfg, s, input); Connections(t, inbox[1..], sessions + Sessions(News(s, t)))
  {
    SettledSound(cfg, s, input.msg);
    MessageAdds(cfg, s, input);
    SettledConnections(s, inbox, sessions);
    AddsConnections(cfg, Settled(s, input.msg), Process(cfg, s, input), inbox[1..], sessions);
  }

  lemma HandleConnections(cfg: Config, y: System, input: Input)
    requires Consistent(cfg, y) && Can(cfg, y, Handle(input))
    ensures var z := Handled(cfg, y, input); Connections(z.engine, z.inbox, z.sessions)
  {
    ConnectionsHandled(cfg, y.engine, input, y.inbox, y.sessions);
  }

  lemma CreatesHandled(cfg: Config, s: State, input: Input, inbox: seq<Message>, queue: seq<CreateDatabases>,
                       running: multiset<nat>)
    requires Valid(cfg, s) && !s.shutdown && inbox != [] && input.msg == inbox[0]
    requires CreateJobsMatch(s.inventory, inbox, queue, running)
    ensures var t := Process(cfg, s, input);
            CreateJobsMatch(t.inventory, inbox[1..], queue + CreateJobs(News(s, t)), running)
  {
    SettledSays(cfg, s, input.msg);
    MessageAdds(cfg, s, input);
    SettledCreates(s, inbox, queue, running);
    AddsCreates(cfg, Settled(s, input.msg), Process(cfg, s, input), inbox[1..], queue, running);
  }

  lemma HandleCreates(cfg: Config, y: System, input: Input)
    requires Consistent(cfg, y) && Can(cfg, y, Handle(input))
    ensures var z := Handled(cfg, y, input); CreateJobsMatch(z.engine.inventory, z.inbox, z.createQueue, z.creating)
  {
    CreatesHandled(cfg, y.engine, input, y.inbox, y.createQueue, y.creating);
  }

  lemma SettledSays(cfg: Config, s: State, msg: Message)
    requires Sound(cfg, s)
    ensures Settled(s, msg).out == s.out
  {
    SettledSound(cfg, s, msg);
  }

  lemma HandleCleanups(cfg: Config, s: State, input: Input)
    requires Valid(cfg, s)
    ensures var t := Process(cfg, s, input); Cleanups(t.out, t.leases, t.inventory)
  {
    MessageValid(cfg, s, input);
  }

  lemma DropsHandled(cfg: Config, s: State, input: Input, inbox: seq<Message>, jobs: multiset<Database>)
    requires Valid(cfg, s) && !s.shutdown && inbox != [] && input.msg == inbox[0] && DropJobsMatch(s.inventory, inbox, jobs)
    ensures var t := Process(cfg, s, input);
            DropJobsMatch(t.inventory, inbox[1..], jobs + multiset(DropJobs(News(s, t))))
  {
    SettledSays(cfg, s, input.msg);
    MessageAdds(cfg, s, input);
    HandleCleanups(cfg, s, input);
    SettledDrops(s, inbox, jobs);
    AddsDrops(cfg, Settled(s, input.msg), Process(cfg, s, input), inbox[1..], jobs);
  }

  lemma HandleDrops(cfg: Config, y: System, input: Input)
    requires Consistent(cfg, y) && Can(cfg, y, Handle(input))
    ensures var z := Handled(cfg, y, input); DropJobsMatch(z.engine.inventory, z.inbox, Jobs(z))
  {
    DropsHandled(cfg, y.engine, input, y.inbox, Jobs(y));
    QueueJobs(y.dropQueue, DropJobs(News(y.engine, Process(cfg, y.engine, input))), y.dropping);
  }

  lemma HandleConsistent(cfg: Config, y: System, input: Input)
    requires Consistent(cfg, y) && Can(cfg, y, Handle(input))
    ensures var z := Handled(cfg, y, input); Consistent(cfg, z)
  {
    HandleConnections(cfg, y, input);
    HandleCreates(cfg, y, input);
    HandleDrops(cfg, y, input);
    MessageValid(cfg, y.engine, input);
    SettledSound(cfg, y.engine, input.msg);
    MessageAdds(cfg, y.engine, input);
    HandleTimers(cfg, y.engine, input, y.inbox, y.timers);
    StillRunning(cfg, y.engine, input);
    assert forall x | x in y.inbox[1..] :: x in y.inbox;
  }

  // ------------------------------------------------- the neighbours move

  lemma PostCounts(inbox: seq<Message>, msg: Message)
    ensures multiset(inbox + [msg]) == multiset(inbox) + multiset{msg}
    ensures forall x :: x in inbox + [msg] <==> x in inbox || x == msg
  {
  }

  lemma PostTimers(cfg: Config, s: State, inbox: seq<Message>, timers: multiset<Timer>, msg: Message)
    requires TimersPending(cfg, s, inbox, timers)
    ensures TimersPending(cfg, s, inbox + [msg], timers)
  {
  }

  lemma PostCreates(inv: Inventory, inbox: seq<Message>, queue: seq<CreateDatabases>, running: multiset<nat>, msg: Message)
    requires CreateJobsMatch(inv, inbox, queue, running) && !msg.CreationFinished?
    ensures CreateJobsMatch(inv, inbox + [msg], queue, running)
  {
    ReportsPost(inbox, msg);
  }

  lemma PostDrops(inv: Inventory, inbox: seq<Message>, jobs: multiset<Database>, msg: Message)
    requires DropJobsMatch(inv, inbox, jobs) && !msg.CleanupFinished?
    ensures DropJobsMatch(inv, inbox + [msg], jobs)
  {
    ReportsPost(inbox, msg);
    assert DropReports(inbox + [msg]) == DropReports(inbox);
  }

  lemma PostConnections(s: State, inbox: seq<Message>, sessions: multiset<Session>, msg: Message)
    requires Connections(s, inbox, sessions) && !msg.Detach?
    ensures Connections(s, inbox + [msg], sessions)
  {
    PostCounts(inbox, msg);
  }

  /** A request reports no job and detaches no session: it disturbs no account. */
  lemma PostConsistent(cfg: Config, y: System, msg: Message)
    requires Consistent(cfg, y) && (msg.AttachOrJoin? || msg.ReleaseLease?)
    ensures var z := Post(y, msg); Consistent(cfg, z)
  {
    PostConnections(y.engine, y.inbox, y.sessions, msg);
    PostCreates(y.engine.inventory, y.inbox, y.createQueue, y.creating, msg);
    PostDrops(y.engine.inventory, y.inbox, Jobs(y), msg);
    PostTimers(cfg, y.engine, y.inbox, y.timers, msg);
  }

  /** Dropping a session turns it into its detach. */
  lemma DropSessionConnections(cfg: Config, s: State, inbox: seq<Message>, sessions: multiset<Session>, x: Session)
    requires Sound(cfg, s) && Connections(s, inbox, sessions) && x in sessions
    ensures Connections(s, inbox + [Detach(x.lease, x.generation)], sessions - multiset{x})
  {
    var msg := Detach(x.lease, x.generation);
    PostCounts(inbox, msg);
    var e :| e in s.out && Delivered(e) && e.lease == x.lease && e.reply == Attached(x.database, x.generation);
    forall lease | lease in s.leases
      ensures var e := s.leases[lease];
              e.conns == (sessions - multiset{x})[Session(lease, e.generation, e.database)]
                         + multiset(inbox + [msg])[Detach(lease, e.generation)]
    {
    }
  }

  lemma DropSessionConsistent(cfg: Config, y: System, x: Session)
    requires Consistent(cfg, y) && Can(cfg, y, DropSession(x))
    ensures var z := Next(cfg, y, DropSession(x)); Consistent(cfg, z)
  {
    var msg := Detach(x.lease, x.generation);
    DropSessionConnections(cfg, y.engine, y.inbox, y.sessions, x);
    PostCreates(y.engine.inventory, y.inbox, y.createQueue, y.creating, msg);
    PostDrops(y.engine.inventory, y.inbox, Jobs(y), msg);
    PostTimers(cfg, y.engine, y.inbox, y.timers, msg);
  }

  /** A timer that fires becomes the expiry in the inbox. */
  lemma FireTimers(cfg: Config, s: State, inbox: seq<Message>, timers: multiset<Timer>, t: Timer)
    requires TimersPending(cfg, s, inbox, timers) && t in timers
    ensures TimersPending(cfg, s, inbox + [LeaseMaxTimeReached(t.lease, t.generation)], timers - multiset{t})
  {
    PostCounts(inbox, LeaseMaxTimeReached(t.lease, t.generation));
    forall x: Timer | x in timers && x != t ensures x in timers - multiset{t} {}
  }

  /** A timer stops only when its assignment is gone. */
  lemma StopTimers(cfg: Config, s: State, inbox: seq<Message>, timers: multiset<Timer>, t: Timer)
    requires TimersPending(cfg, s, inbox, timers) && t in timers && t.generation in s.cancelled
    requires Generations(s.leases, s.nextGeneration, s.cancelled)
    ensures TimersPending(cfg, s, inbox, timers - multiset{t})
  {
    forall x: Timer | x in timers && x != t ensures x in timers - multiset{t} {}
  }

  lemma TimerConsistent(cfg: Config, y: System, step: Step)
    requires Consistent(cfg, y) && Can(cfg, y, step) && (step.FireTimer? || step.StopTimer?)
    ensures var z := Next(cfg, y, step); Consistent(cfg, z)
  {
    if step.FireTimer? {
      var msg := LeaseMaxTimeReached(step.timer.lease, step.timer.generation);
      FireTimers(cfg, y.engine, y.inbox, y.timers, step.timer);
      PostConnections(y.engine, y.inbox, y.sessions, msg);
      PostCreates(y.engine.inventory, y.inbox, y.createQueue, y.creating, msg);
      PostDrops(y.engine.inventory, y.inbox, Jobs(y), msg);
    } else {
      StopTimers(cfg, y.engine, y.inbox, y.timers, step.timer);
    }
  }

  lemma HeadIds(queue: seq<CreateDatabases>)
    requires queue != []
    ensures IdsOf(queue) == multiset(queue[0].Ids()) + IdsOf(queue[1..])
  {
    assert queue == [queue[0]] + queue[1..];
    IdsSum([queue[0]], queue[1..]);
    assert [queue[0]][..0] == [];
  }

  /** A batch leaves the queue and its creations run. */
  lemma StartMatches(inv: Inventory, inbox: seq<Message>, queue: seq<CreateDatabases>, running: multiset<nat>)
    requires queue != [] && CreateJobsMatch(inv, inbox, queue, running)
    ensures CreateJobsMatch(inv, inbox, queue[1..], running + multiset(queue[0].Ids()))
  {
    HeadIds(queue);
  }

  /** A finished creation becomes its report. */
  lemma ReportCreation(inv: Inventory, inbox: seq<Message>, queue: seq<CreateDatabases>, running: multiset<nat>,
                       id: nat, result: Option<string>)
    requires CreateJobsMatch(inv, inbox, queue, running) && id in running
    ensures CreateJobsMatch(inv, inbox + [CreationFinished(id, result)], queue, running - multiset{id})
  {
    ReportsPost(inbox, CreationFinished(id, result));
    assert running == (running - multiset{id}) + multiset{id};
  }

  lemma CreateConsistent(cfg: Config, y: System, step: Step)
    requires Consistent(cfg, y) && Can(cfg, y, step) && (step.StartCreates? || step.FinishCreate?)
    ensures var z := Next(cfg, y, step); Consistent(cfg, z)
  {
    if step.StartCreates? {
      StartMatches(y.engine.inventory, y.inbox, y.createQueue, y.creating);
    } else {
      var msg := CreationFinished(step.id, step.result);
      ReportCreation(y.engine.inventory, y.inbox, y.createQueue, y.creating, step.id, step.result);
      PostConnections(y.engine, y.inbox, y.sessions, msg);
      PostDrops(y.engine.inventory, y.inbox, Jobs(y), msg);
      PostTimers(cfg, y.engine, y.inbox, y.timers, msg);
    }
  }

  /** A finished drop becomes its report. */
  lemma ReportDrop(inv: Inventory, inbox: seq<Message>, jobs: multiset<Database>, db: Database, ok: bool)
    requires DropJobsMatch(inv, inbox, jobs) && db in jobs
    ensures DropJobsMatch(inv, inbox + [CleanupFinished(db.id, ok)], jobs - multiset{db})
  {
    var msg := CleanupFinished(db.id, ok);
    ReportsPost(inbox, msg);
    forall x | x in jobs - multiset{db} ensures x in jobs && x.id != db.id && (jobs - multiset{db})[x] == 1 {}
  }

  lemma StartJobs(queue: seq<Database>, running: multiset<Database>)
    requires queue != []
    ensures multiset(queue[1..]) + (running + multiset{queue[0]}) == multiset(queue) + running
  {
    assert queue == [queue[0]] + queue[1..];
  }

  lemma FinishJobs(queued: multiset<Database>, running: multiset<Database>, db: Database)
    requires db in running
    ensures queued + (running - multiset{db}) == queued + running - multiset{db}
  {
  }

  lemma QueueJobs(queue: seq<Database>, more: seq<Database>, running: multiset<Database>)
    ensures multiset(queue + more) + running == multiset(queue) + running + multiset(more)
  {
  }

  lemma DropConsistent(cfg: Config, y: System, step: Step)
    requires Consistent(cfg, y) && Can(cfg, y, step) && (step.StartDrop? || step.FinishDrop?)
    ensures var z := Next(cfg, y, step); Consistent(cfg, z)
  {
    if step.StartDrop? {
      StartJobs(y.dropQueue, y.dropping);
    } else {
      var msg := CleanupFinished(step.database.id, step.ok);
      assert step.database in Jobs(y);
      ReportDrop(y.engine.inventory, y.inbox, Jobs(y), step.database, step.ok);
      FinishJobs(multiset(y.dropQueue), y.dropping, step.database);
      PostConnections(y.engine, y.inbox, y.sessions, msg);
      PostCreates(y.engine.inventory, y.inbox, y.createQueue, y.creating, msg);
      PostTimers(cfg, y.engine, y.inbox, y.timers, msg);
    }
  }

  // ------------------------------------------------------------------ runs

  lemma StepConsistent(cfg: Config, y: System, step: Step)
    requires Consistent(cfg, y) && Can(cfg, y, step)
    ensures var z := Next(cfg, y, step); Consistent(cfg, z)
  {
    match step
    case Request(msg) => PostConsistent(cfg, y, msg);
    case DropSession(x) => DropSessionConsistent(cfg, y, x);
    case FireTimer(_) => TimerConsistent(cfg, y, step);
    case StopTimer(_) => TimerConsistent(cfg, y, step);
    case StartCreates => CreateConsistent(cfg, y, step);
    case FinishCreate(_, _) => CreateConsistent(cfg, y, step);
    case StartDrop => DropConsistent(cfg, y, step);
    case FinishDrop(_, _) => DropConsistent(cfg, y, step);
    case Handle(input) => HandleConsistent(cfg, y, input);
  }

  /** The steps can be taken one after the other from `y`, ending in `z`. */
  predicate Leads(cfg: Config, y: System, steps: seq<Step>, z: System)
    decreases |steps|
  {
    if steps == [] then y == z else
      Can(cfg, y, steps[0]) && Leads(cfg, Next(cfg, y, steps[0]), steps[1..], z)
  }

  ghost predicate Observable(cfg: Config, z: System) {
    exists y, steps :: Initial(y) && Leads(cfg, y, steps, z)
  }

  lemma {:induction false} LeadsConsistent(cfg: Config, y: System, steps: seq<Step>, z: System)
    requires Consistent(cfg, y) && Leads(cfg, y, steps, z)
    ensures Consistent(cfg, z)
    decreases |steps|
  {
    if steps != [] {
      StepConsistent(cfg, y, steps[0]);
      LeadsConsistent(cfg, Next(cfg, y, steps[0]), steps[1..], z);
    }
  }

  /** The accounts balance in every state of every interleaving. */
  lemma ObservableConsistent(cfg: Config, z: System)
    requires Observable(cfg, z)
    ensures Consistent(cfg, z)
  {
    var y, steps :| Initial(y) && Leads(cfg, y, steps, z);
    StartValid(cfg, y.engine);
    LeadsConsistent(cfg, y, steps, z);
  }

  lemma ReachableNext(cfg: Config, s: State, input: Input)
    requires Reachable(cfg, s)
    ensures Reachable(cfg, Process(cfg, s, input))
  {
    var start, inputs :| Started(start) && s == Run(cfg, start, inputs);
    var all := inputs + [input];
    assert all[..|all| - 1] == inputs;
    assert Process(cfg, s, input) == Run(cfg, start, all);
  }

  lemma {:induction false} LeadsReachable(cfg: Config, y: System, steps: seq<Step>, z: System)
    requires Reachable(cfg, y.engine) && Leads(cfg, y, steps, z)
    ensures Reachable(cfg, z.engine)
    decreases |steps|
  {
    if steps != [] {
      if steps[0].Handle? {
        ReachableNext(cfg, y.engine, steps[0].input);
      }
      LeadsReachable(cfg, Next(cfg, y, steps[0]), steps[1..], z);
    }
  }

  /** In any interleaving the engine is in a state of one of its own runs, so what
      holds of those holds in the whole system. */
  lemma ObservableReachable(cfg: Config, z: System)
    requires Observable(cfg, z)
    ensures Reachable(cfg, z.engine)
  {
    var y, steps :| Initial(y) && Leads(cfg, y, steps, z);
    assert y.engine == Run(cfg, y.engine, []);
    LeadsReachable(cfg, y, steps, z);
  }

  // ------------------------------------------------------- what it means

  /** Connection accounting: each live assignment counts exactly its undropped
      sessions and the detaches still in the inbox, no detach ever finds the count
      at zero, and no session refers to a database in the pool. */
  lemma ConnectionAccounting(cfg: Config, z: System)
    requires Observable(cfg, z)
    ensures forall lease | lease in z.engine.leases ::
              var e := z.engine.leases[lease];
              e.conns == z.sessions[Session(lease, e.generation, e.database)]
                         + multiset(z.inbox)[Detach(lease, e.generation)]
    ensures z.engine.counters.detachOnZero == 0
    ensures forall x | x in z.sessions :: !IsReady(z.engine.inventory.ready, x.database.id)
  {
    ObservableConsistent(cfg, z);
    forall x | x in z.sessions ensures !IsReady(z.engine.inventory.ready, x.database.id) {
      var e :| e in z.engine.out && Delivered(e) && e.lease == x.lease && e.reply == Attached(x.database, x.generation);
    }
  }

  /** Creation jobs: the reservations are the disjoint union of the queued, running
      and reported ids, so the next report is always of a pending reservation. */
  lemma CreationSafety(cfg: Config, z: System)
    requires Observable(cfg, z)
    ensures multiset(z.engine.inventory.creating) == IdsOf(z.createQueue) + z.creating + CreationReports(z.inbox)
    ensures z.inbox != [] && z.inbox[0].CreationFinished? ==> z.inbox[0].id in z.engine.inventory.creating
  {
    ObservableConsistent(cfg, z);
    if z.inbox != [] && z.inbox[0].CreationFinished? {
      var inv := z.engine.inventory;
      ReportedCreates(inv, inv.(creating := inv.creating - {z.inbox[0].id}), z.inbox, z.createQueue, z.creating);
    }
  }

  /** Drop jobs: whatever is queued or running for a drop is retired under that very
      name, is neither reserved, ready nor leased, and has no other job, now or
      ever. */
  lemma DropSafety(cfg: Config, z: System, db: Database)
    requires Observable(cfg, z) && db in Jobs(z)
    ensures var inv := z.engine.inventory;
            && db.id in inv.retiring && inv.retiring[db.id] == db.name
            && db.id !in inv.creating && !IsReady(inv.ready, db.id)
            && forall lease | lease in z.engine.leases :: z.engine.leases[lease].database.id != db.id
    ensures Jobs(z)[db] == 1 && forall other | other in Jobs(z) && other.id == db.id :: other == db
    ensures forall i, j | 0 <= i < j < |z.engine.out| && z.engine.out[i].CleanupRequested?
                          && z.engine.out[j].CleanupRequested? ::
              z.engine.out[i].database.id != z.engine.out[j].database.id
  {
    ObservableConsistent(cfg, z);
    assert IsReady(z.engine.inventory.ready, db.id) ==> db.id !in z.engine.inventory.retiring;
  }

  /** Every live assignment with a claim timeout has its expiry armed or queued. */
  lemma ExpiryPending(cfg: Config, z: System, lease: LeaseId)
    requires Observable(cfg, z) && cfg.claimTimeout > 0 && lease in z.engine.leases
    ensures Pending(lease, z.engine.leases[lease].generation, z.inbox, z.timers)
  {
    ObservableConsistent(cfg, z);
  }
}
