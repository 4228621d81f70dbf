/**
  What a message hands to the world around the engine: sessions, creation
  batches, drop jobs and timers, and how they match the change in the engine.
 */
module Effects {
  import opened EngineTypes
  import opened EngineSpec
  import opened Ledger
  import opened Soundness
  import opened Plans
  import Fifo

  /** A delivered attachment that has not been dropped yet. */
  datatype Session = Session(lease: LeaseId, generation: nat, database: Database)

  datatype Timer = Timer(lease: LeaseId, generation: nat)

  function SessionOf(e: Event): multiset<Session> {
    if Delivered(e) then multiset{Session(e.lease, e.reply.generation, e.reply.database)} else multiset{}
  }

  function Sessions(news: seq<Event>): multiset<Session> {
    if news == [] then multiset{} else Sessions(news[..|news| - 1]) + SessionOf(news[|news| - 1])
  }

  function BatchOf(e: Event): seq<CreateDatabases> {
    if e.CreationRequested? && e.accepted then [e.batch] else []
  }

  function CreateJobs(news: seq<Event>): seq<CreateDatabases> {
    if news == [] then [] else CreateJobs(news[..|news| - 1]) + BatchOf(news[|news| - 1])
  }

  function DropOf(e: Event): seq<Database> {
    if e.CleanupRequested? && e.accepted then [e.database] else []
  }

  function DropJobs(news: seq<Event>): seq<Database> {
    if news == [] then [] else DropJobs(news[..|news| - 1]) + DropOf(news[|news| - 1])
  }

  function TimerOf(e: Event): multiset<Timer> {
    if e.TimerArmed? then multiset{Timer(e.lease, e.generation)} else multiset{}
  }

  function Timers(news: seq<Event>): multiset<Timer> {
    if news == [] then multiset{} else Timers(news[..|news| - 1]) + TimerOf(news[|news| - 1])
  }

  function IdsOf(batches: seq<CreateDatabases>): multiset<nat> {
    if batches == [] then multiset{} else
      IdsOf(batches[..|batches| - 1]) + multiset(batches[|batches| - 1].Ids())
  }

  lemma {:induction false} IdsSum(p: seq<CreateDatabases>, q: seq<CreateDatabases>)
    ensures IdsOf(p + q) == IdsOf(p) + IdsOf(q)
  {
    if q == [] {
      assert p + q == p;
    } else {
      var init, last := q[..|q| - 1], q[|q| - 1];
      IdsSum(p, init);
      LastBatch(p, q);
      IdsStep(p, init, last);
    }
  }

  lemma LastBatch(p: seq<CreateDatabases>, q: seq<CreateDatabases>)
    requires q != []
    ensures p + q == p + q[..|q| - 1] + [q[|q| - 1]] && q == q[..|q| - 1] + [q[|q| - 1]]
  {
  }

  lemma IdsStep(p: seq<CreateDatabases>, init: seq<CreateDatabases>, last: CreateDatabases)
    requires IdsOf(p + init) == IdsOf(p) + IdsOf(init)
    ensures IdsOf(p + init + [last]) == IdsOf(p) + IdsOf(init + [last])
  {
    IdsMore(p + init, last);
    IdsMore(init, last);
    Regroup(IdsOf(p), IdsOf(init), multiset(last.Ids()));
  }

  lemma Regroup(a: multiset<nat>, b: multiset<nat>, c: multiset<nat>)
    ensures a + b + c == a + (b + c)
  {
  }

  lemma IdsMore(batches: seq<CreateDatabases>, batch: CreateDatabases)
    ensures IdsOf(batches + [batch]) == IdsOf(batches) + multiset(batch.Ids())
  {
    assert (batches + [batch])[..|batches|] == batches;
  }

  lemma {:induction false} SessionsSum(p: seq<Event>, q: seq<Event>)
    ensures Sessions(p + q) == Sessions(p) + Sessions(q)
  {
    if q == [] {
      assert p + q == p;
    } else {
      var all := p + q;
      assert all[..|all| - 1] == p + q[..|q| - 1];
      SessionsSum(p, q[..|q| - 1]);
    }
  }

  lemma {:induction false} CreateJobsSum(p: seq<Event>, q: seq<Event>)
    ensures CreateJobs(p + q) == CreateJobs(p) + CreateJobs(q)
  {
    if q == [] {
      assert p + q == p;
    } else {
      var all := p + q;
      assert all[..|all| - 1] == p + q[..|q| - 1];
      CreateJobsSum(p, q[..|q| - 1]);
    }
  }

  lemma NewsSum(p: seq<Event>, q: seq<Event>)
    ensures Sessions(p + q) == Sessions(p) + Sessions(q)
    ensures CreateJobs(p + q) == CreateJobs(p) + CreateJobs(q)
  {
    SessionsSum(p, q);
    CreateJobsSum(p, q);
  }

  lemma {:induction false} SessionsDelivered(news: seq<Event>, x: Session)
    requires x in Sessions(news)
    ensures exists e | e in news :: Delivered(e) && e.lease == x.lease && e.reply == Attached(x.database, x.generation)
  {
    var n := |news| - 1;
    if x in SessionOf(news[n]) {
      assert news[n] in news;
    } else {
      SessionsDelivered(news[..n], x);
      var e :| e in news[..n] && Delivered(e) && e.lease == x.lease && e.reply == Attached(x.database, x.generation);
      assert e in news;
    }
  }

  lemma {:induction false} ArmedTimers(news: seq<Event>, lease: LeaseId, generation: nat)
    ensures TimerArmed(lease, generation) in news <==> Timer(lease, generation) in Timers(news)
  {
    if news != [] {
      ArmedTimers(news[..|news| - 1], lease, generation);
      assert news == news[..|news| - 1] + [news[|news| - 1]];
    }
  }

  // -------------------------------------------------------- additive steps

  /** What was said since `s`. */
  function News(s: State, t: State): seq<Event> {
    if |s.out| <= |t.out| then t.out[|s.out|..] else []
  }

  lemma NewsThen(s: State, t: State, u: State)
    requires s.out <= t.out && t.out <= u.out
    ensures s.out <= u.out && News(s, u) == News(s, t) + News(t, u)
  {
  }

  /** The connections of a live assignment grew by the sessions handed out for it;
      a new assignment has exactly its sessions. */
  ghost predicate ConnsAdd(s: State, t: State, news: seq<Event>) {
    forall lease | lease in t.leases ::
      var e := t.leases[lease];
      var handed := Sessions(news)[Session(lease, e.generation, e.database)];
      || (Current(s, lease, e.generation) && s.leases[lease].database == e.database
          && e.conns == s.leases[lease].conns + handed)
      || (e.generation > s.nextGeneration && e.conns == handed)
  }

  /** The reservations grew by the batches handed out. */
  ghost predicate CreatingAdds(s: State, t: State, news: seq<Event>) {
    multiset(t.inventory.creating) == multiset(s.inventory.creating) + IdsOf(CreateJobs(news))
  }

  ghost predicate SentFor(news: seq<Event>, id: nat) {
    exists e | e in news :: e.CleanupRequested? && e.database.id == id
  }

  /** Retirement records are kept, and the new ones are exactly those sent for cleanup. */
  ghost predicate RetiringAdds(s: State, t: State, news: seq<Event>) {
    && (forall id | id in s.inventory.retiring ::
          id in t.inventory.retiring && t.inventory.retiring[id] == s.inventory.retiring[id])
    && (forall e | e in news && e.CleanupRequested? ::
          && e.database.id !in s.inventory.retiring
          && e.database.id in t.inventory.retiring && t.inventory.retiring[e.database.id] == e.database.name)
    && (forall id | id in t.inventory.retiring && id !in s.inventory.retiring :: SentFor(news, id))
  }

  /** Every assignment that was not there before has armed its timer. */
  ghost predicate TimersAdd(cfg: Config, s: State, t: State, news: seq<Event>) {
    cfg.claimTimeout > 0 ==>
      forall lease | lease in t.leases ::
        Current(s, lease, t.leases[lease].generation) || TimerArmed(lease, t.leases[lease].generation) in news
  }

  ghost predicate Adds(cfg: Config, s: State, t: State) {
    && s.out <= t.out
    && s.nextGeneration <= t.nextGeneration
    && t.counters.detachOnZero == s.counters.detachOnZero && t.shutdown == s.shutdown
    && ConnsAdd(s, t, News(s, t))
    && CreatingAdds(s, t, News(s, t))
    && RetiringAdds(s, t, News(s, t))
    && TimersAdd(cfg, s, t, News(s, t))
  }

  /** No session is handed out under a generation beyond the last one. */
  lemma NoFutureSessions(cfg: Config, s: State, news: seq<Event>, x: Session)
    requires Sound(cfg, s) && x.generation > s.nextGeneration && forall e | e in news :: e in s.out
    ensures Sessions(news)[x] == 0
  {
    if x in Sessions(news) {
      SessionsDelivered(news, x);
    }
  }

  lemma ConnsThen(cfg: Config, s: State, t: State, u: State, p: seq<Event>, q: seq<Event>)
    requires Sound(cfg, t) && s.nextGeneration <= t.nextGeneration && forall e | e in p :: e in t.out
    requires ConnsAdd(s, t, p) && ConnsAdd(t, u, q)
    ensures ConnsAdd(s, u, p + q)
  {
    NewsSum(p, q);
    forall lease | lease in u.leases && u.leases[lease].generation > t.nextGeneration
      ensures Sessions(p)[Session(lease, u.leases[lease].generation, u.leases[lease].database)] == 0
    {
      NoFutureSessions(cfg, t, p, Session(lease, u.leases[lease].generation, u.leases[lease].database));
    }
  }

  lemma CreatingThen(s: State, t: State, u: State, p: seq<Event>, q: seq<Event>)
    requires CreatingAdds(s, t, p) && CreatingAdds(t, u, q)
    ensures CreatingAdds(s, u, p + q)
  {
    NewsSum(p, q);
    IdsSum(CreateJobs(p), CreateJobs(q));
  }

  lemma RetiringThen(s: State, t: State, u: State, p: seq<Event>, q: seq<Event>)
    requires RetiringAdds(s, t, p) && RetiringAdds(t, u, q)
    ensures RetiringAdds(s, u, p + q)
  {
    forall id | id in u.inventory.retiring && id !in s.inventory.retiring ensures SentFor(p + q, id) {
      if id in t.inventory.retiring {
        SentForMore(p, q, id);
      } else {
        SentForMore(p, q, id);
      }
    }
  }

  lemma SentForMore(p: seq<Event>, q: seq<Event>, id: nat)
    requires SentFor(p, id) || SentFor(q, id)
    ensures SentFor(p + q, id)
  {
    var e :| (e in p || e in q) && e.CleanupRequested? && e.database.id == id;
    assert e in p + q;
  }

  lemma TimersThen(cfg: Config, s: State, t: State, u: State, p: seq<Event>, q: seq<Event>)
    requires TimersAdd(cfg, s, t, p) && TimersAdd(cfg, t, u, q)
    ensures TimersAdd(cfg, s, u, p + q)
  {
  }

  lemma AddsThen(cfg: Config, s: State, t: State, u: State)
    requires Sound(cfg, t) && Adds(cfg, s, t) && Adds(cfg, t, u)
    ensures Adds(cfg, s, u)
  {
    var p, q := News(s, t), News(t, u);
    NewsThen(s, t, u);
    ConnsThen(cfg, s, t, u, p, q);
    CreatingThen(s, t, u, p, q);
    RetiringThen(s, t, u, p, q);
    TimersThen(cfg, s, t, u, p, q);
  }

  // --------------------------------------------------- each action's part

  predicate HandsOut(e: Event, x: Session) {
    Delivered(e) && x == Session(e.lease, e.reply.generation, e.reply.database)
  }

  /** How often a session is handed out. */
  function Handouts(news: seq<Event>, x: Session): nat {
    if news == [] then 0 else
      Handouts(news[..|news| - 1], x) + if HandsOut(news[|news| - 1], x) then 1 else 0
  }

  lemma {:induction false} HandoutsAreSessions(news: seq<Event>, x: Session)
    ensures Sessions(news)[x] == Handouts(news, x)
  {
    if news != [] {
      HandoutsAreSessions(news[..|news| - 1], x);
    }
  }

  lemma HandoutsMore(news: seq<Event>, e: Event, x: Session)
    ensures Handouts(news + [e], x) == Handouts(news, x) + if HandsOut(e, x) then 1 else 0
  {
    assert (news + [e])[..|news|] == news;
  }

  /** The last reply hands out a session exactly when it is live, delivered and
      there is room. */
  lemma ReplyHandouts(cfg: Config, lease: LeaseId, db: Database, gen: nat, conns: nat, held: bool,
                      before: seq<Verdict>, v: Verdict, said: seq<Event>)
    ensures var q := ReplyEvents(cfg, lease, db, gen, conns, held, before, v);
            var full := Cap(conns + Reached(before)) == U16_MAX;
            Handouts(said + q, Session(lease, gen, db))
            == Handouts(said, Session(lease, gen, db)) + if !v.expired && v.consumer.reachable && !full then 1 else 0
  {
    var q := ReplyEvents(cfg, lease, db, gen, conns, held, before, v);
    var x := Session(lease, gen, db);
    if |q| == 1 {
      assert q == [q[0]];
      HandoutsMore(said, q[0], x);
    } else {
      HandoutsMore(said, q[0], x);
      HandoutsMore(said + [q[0]], q[1], x);
      assert said + q == said + [q[0]] + [q[1]];
    }
  }

  /** How many sessions a group hands out, counted over its verdicts. */
  function Handed(conns: nat, vs: seq<Verdict>): nat {
    if vs == [] then 0 else
      var init, v := vs[..|vs| - 1], vs[|vs| - 1];
      Handed(conns, init)
      + if !v.expired && v.consumer.reachable && Cap(conns + Reached(init)) != U16_MAX then 1 else 0
  }

  lemma {:induction false} HandedCaps(conns: nat, vs: seq<Verdict>)
    requires conns <= U16_MAX
    ensures conns + Handed(conns, vs) == Cap(conns + Reached(vs))
  {
    if vs != [] {
      HandedCaps(conns, vs[..|vs| - 1]);
    }
  }

  lemma {:induction false} ServeHandouts(cfg: Config, lease: LeaseId, db: Database, gen: nat, conns: nat, held: bool,
                                         vs: seq<Verdict>)
    ensures Handouts(ServeEvents(cfg, lease, db, gen, conns, held, vs), Session(lease, gen, db)) == Handed(conns, vs)
  {
    if vs != [] {
      var n := |vs| - 1;
      ServeHandouts(cfg, lease, db, gen, conns, held, vs[..n]);
      ReplyHandouts(cfg, lease, db, gen, conns, held, vs[..n], vs[n],
                    ServeEvents(cfg, lease, db, gen, conns, held, vs[..n]));
    }
  }

  /** Serving a group hands out as many sessions as connections it adds. */
  lemma ServeSessions(cfg: Config, lease: LeaseId, db: Database, gen: nat, conns: nat, held: bool, vs: seq<Verdict>)
    requires conns <= U16_MAX
    ensures var news := ServeEvents(cfg, lease, db, gen, conns, held, vs);
            conns + Sessions(news)[Session(lease, gen, db)] == Cap(conns + Reached(vs))
  {
    HandedCaps(conns, vs);
    ServeHandouts(cfg, lease, db, gen, conns, held, vs);
    HandoutsAreSessions(ServeEvents(cfg, lease, db, gen, conns, held, vs), Session(lease, gen, db));
  }

  /** A group's sessions all belong to its lease, generation and database, and it
      hands out no creation job. */
  lemma GroupSessions(lease: LeaseId, db: Database, gen: nat, news: seq<Event>)
    requires forall e | e in news :: GroupEvent(lease, db, gen, e)
    ensures forall x | x in Sessions(news) :: x == Session(lease, gen, db)
    ensures CreateJobs(news) == []
  {
    forall x | x in Sessions(news) ensures x == Session(lease, gen, db) {
      SessionsDelivered(news, x);
    }
    NoJobs(news);
  }

  lemma {:induction false} NoJobs(news: seq<Event>)
    requires forall e | e in news :: !e.CreationRequested?
    ensures CreateJobs(news) == []
  {
    if news != [] {
      NoJobs(news[..|news| - 1]);
    }
  }

  lemma OneNews(e: Event)
    ensures Sessions([e]) == SessionOf(e) && CreateJobs([e]) == BatchOf(e)
  {
    assert [e][..0] == [];
  }

  lemma {:induction false} QuietNews(news: seq<Event>)
    requires forall e | e in news :: !Delivered(e) && !e.CreationRequested?
    ensures Sessions(news) == multiset{} && CreateJobs(news) == []
  {
    if news != [] {
      QuietNews(news[..|news| - 1]);
    }
  }

  /** A group with a live reply arms the timer of a new assignment. */
  lemma {:induction false} ServeArms(cfg: Config, lease: LeaseId, db: Database, gen: nat, vs: seq<Verdict>)
    requires AnyLive(vs) && cfg.claimTimeout > 0
    ensures TimerArmed(lease, gen) in ServeEvents(cfg, lease, db, gen, 0, false, vs)
  {
    var n := |vs| - 1;
    if AnyLive(vs[..n]) {
      ServeArms(cfg, lease, db, gen, vs[..n]);
    } else {
      assert ReplyEvents(cfg, lease, db, gen, 0, false, vs[..n], vs[n])[0] == TimerArmed(lease, gen);
    }
  }

  lemma NewsOf(s: State, t: State, news: seq<Event>)
    requires t.out == s.out + news
    ensures s.out <= t.out && News(s, t) == news
  {
  }

  /** Nothing is handed out to any session, and no reservation changes. */
  lemma QuietAdds(cfg: Config, s: State, t: State, news: seq<Event>)
    requires t.out == s.out + news && forall e | e in news :: !Delivered(e) && !e.CreationRequested? && !e.CleanupRequested?
    requires forall lease | lease in t.leases :: lease in s.leases && t.leases[lease] == s.leases[lease]
    requires t.inventory.creating == s.inventory.creating && t.inventory.retiring == s.inventory.retiring
    requires s.nextGeneration <= t.nextGeneration
    requires t.counters.detachOnZero == s.counters.detachOnZero && t.shutdown == s.shutdown
    ensures Adds(cfg, s, t)
  {
    NewsOf(s, t, news);
    QuietNews(news);
  }

  /** A served group touches no reservation and no retirement record. */
  lemma GroupAdds(cfg: Config, s: State, t: State, lease: LeaseId, db: Database, gen: nat, news: seq<Event>)
    requires t.out == s.out + news && forall e | e in news :: GroupEvent(lease, db, gen, e)
    requires t.inventory.creating == s.inventory.creating && t.inventory.retiring == s.inventory.retiring
    requires s.nextGeneration <= t.nextGeneration
    requires t.counters.detachOnZero == s.counters.detachOnZero && t.shutdown == s.shutdown
    requires ConnsAdd(s, t, news) && TimersAdd(cfg, s, t, news)
    ensures Adds(cfg, s, t)
  {
    NewsOf(s, t, news);
    GroupSessions(lease, db, gen, news);
  }

  lemma GrantTimers(cfg: Config, s: State, t: State, lease: LeaseId, e: Entry, news: seq<Event>)
    requires t.leases == s.leases[lease := e] && (cfg.claimTimeout > 0 ==> TimerArmed(lease, e.generation) in news)
    ensures TimersAdd(cfg, s, t, news)
  {
  }

  lemma GrantAdds(cfg: Config, s: State, t: State, lease: LeaseId, n: nat, live: bool, news: seq<Event>)
    requires s.inventory.ready != [] && lease !in s.leases && n > 0 && Served(s, t, lease, n, live, news)
    requires Sessions(news)[Session(lease, s.nextGeneration + 1, s.inventory.ready[0])] == Cap(n)
    requires cfg.claimTimeout > 0 ==> TimerArmed(lease, s.nextGeneration + 1) in news
    requires t.counters.detachOnZero == s.counters.detachOnZero
    ensures Adds(cfg, s, t)
  {
    var db, gen := s.inventory.ready[0], s.nextGeneration + 1;
    GroupSessions(lease, db, gen, news);
    GrantConns(s, t, lease, db, gen, Cap(n), news);
    GrantTimers(cfg, s, t, lease, t.leases[lease], news);
    GroupAdds(cfg, s, t, lease, db, gen, news);
  }

  lemma GrantConns(s: State, t: State, lease: LeaseId, db: Database, gen: nat, n: nat, news: seq<Event>)
    requires lease !in s.leases && t.leases == s.leases[lease := Entry(db, n, gen)] && gen > s.nextGeneration
    requires forall x | x in Sessions(news) :: x == Session(lease, gen, db)
    requires Sessions(news)[Session(lease, gen, db)] == n
    ensures ConnsAdd(s, t, news)
  {
  }

  lemma JoinConns(s: State, t: State, lease: LeaseId, n: nat, news: seq<Event>)
    requires lease in s.leases && t.leases == s.leases[lease := s.leases[lease].(conns := n)]
    requires forall x | x in Sessions(news) :: x == Session(lease, s.leases[lease].generation, s.leases[lease].database)
    requires s.leases[lease].conns
             + Sessions(news)[Session(lease, s.leases[lease].generation, s.leases[lease].database)] == n
    ensures ConnsAdd(s, t, news)
  {
  }

  lemma GrantFacts(cfg: Config, lease: LeaseId, db: Database, gen: nat, vs: seq<Verdict>, news: seq<Event>)
    requires Reached(vs) > 0 && news == ServeEvents(cfg, lease, db, gen, 0, false, vs)
    ensures Sessions(news)[Session(lease, gen, db)] == Cap(Reached(vs))
    ensures cfg.claimTimeout > 0 ==> TimerArmed(lease, gen) in news
  {
    LiveWhenReached(vs);
    ServeSessions(cfg, lease, db, gen, 0, false, vs);
    if cfg.claimTimeout > 0 {
      ServeArms(cfg, lease, db, gen, vs);
    }
  }

  lemma ServeAdds(cfg: Config, s: State, lease: LeaseId, vs: seq<Verdict>)
    requires lease !in s.leases && s.inventory.ready != []
    ensures var t := Serve(cfg, s, lease, vs); Adds(cfg, s, t)
  {
    var t := Serve(cfg, s, lease, vs);
    var news := ServeOutcome(cfg, s, lease, vs);
    ServeDetaches(cfg, s, lease, vs);
    if Reached(vs) > 0 {
      GrantFacts(cfg, lease, s.inventory.ready[0], s.nextGeneration + 1, vs, news);
      GrantAdds(cfg, s, t, lease, Reached(vs), AnyLive(vs), news);
    } else {
      UngrantedAdds(cfg, s, t, lease, AnyLive(vs), news);
    }
  }

  lemma UngrantedAdds(cfg: Config, s: State, t: State, lease: LeaseId, live: bool, news: seq<Event>)
    requires s.inventory.ready != [] && Served(s, t, lease, 0, live, news)
    requires t.counters.detachOnZero == s.counters.detachOnZero
    ensures Adds(cfg, s, t)
  {
    QuietAdds(cfg, s, t, news);
  }

  lemma ServeDetaches(cfg: Config, s: State, lease: LeaseId, vs: seq<Verdict>)
    requires lease in s.leases || s.inventory.ready != []
    ensures Serve(cfg, s, lease, vs).counters.detachOnZero == s.counters.detachOnZero
  {
  }

  lemma JoinAdds(cfg: Config, s: State, lease: LeaseId, vs: seq<Verdict>)
    requires lease in s.leases && s.leases[lease].conns <= U16_MAX
    ensures var t := Serve(cfg, s, lease, vs); Adds(cfg, s, t)
  {
    var e := s.leases[lease];
    var t := Serve(cfg, s, lease, vs);
    var news := JoinOutcome(cfg, s, lease, vs);
    ServeDetaches(cfg, s, lease, vs);
    ServeSessions(cfg, lease, e.database, e.generation, e.conns, true, vs);
    JoinedAdds(cfg, s, t, lease, Reached(vs), news);
  }

  lemma JoinedAdds(cfg: Config, s: State, t: State, lease: LeaseId, n: nat, news: seq<Event>)
    requires lease in s.leases && Joined(s, t, lease, n, news) && t.counters.detachOnZero == s.counters.detachOnZero
    requires var e := s.leases[lease];
             e.conns + Sessions(news)[Session(lease, e.generation, e.database)] == Cap(e.conns + n)
    ensures Adds(cfg, s, t)
  {
    var e := s.leases[lease];
    GroupSessions(lease, e.database, e.generation, news);
    JoinConns(s, t, lease, Cap(e.conns + n), news);
    JoinTimers(cfg, s, t, lease, Cap(e.conns + n), news);
    GroupAdds(cfg, s, t, lease, e.database, e.generation, news);
  }

  lemma JoinTimers(cfg: Config, s: State, t: State, lease: LeaseId, n: nat, news: seq<Event>)
    requires lease in s.leases && t.leases == s.leases[lease := s.leases[lease].(conns := n)]
    ensures TimersAdd(cfg, s, t, news)
  {
  }

  lemma RetireAdds(cfg: Config, s: State, lease: LeaseId, ok: bool)
    requires Places(s.leases, s.inventory) && lease in s.leases
    ensures var t := RetireOne(s, lease, ok); Adds(cfg, s, t)
  {
    var news := [CleanupRequested(s.leases[lease].database, ok)];
    NewsOf(s, RetireOne(s, lease, ok), news);
    QuietNews(news);
  }

  lemma ReserveCreating(s: State, amount: nat, ok: bool)
    requires Places(s.leases, s.inventory)
    ensures var t := Reserve(s, amount, ok);
            CreatingAdds(s, t, [CreationRequested(NextBatch(s.inventory, amount), ok)])
  {
    var batch := NextBatch(s.inventory, amount);
    OneNews(CreationRequested(batch, ok));
    var ids := ReservedExactly(s.leases, s.inventory, batch, ok);
    DisjointUnion(s.inventory.creating, ids);
    assert [batch][..0] == [];
    assert IdsOf([batch]) == multiset(batch.Ids());
  }

  lemma ReserveAdds(cfg: Config, s: State, amount: nat, ok: bool)
    requires Places(s.leases, s.inventory)
    ensures var t := Reserve(s, amount, ok); Adds(cfg, s, t)
  {
    var e := CreationRequested(NextBatch(s.inventory, amount), ok);
    NewsOf(s, Reserve(s, amount, ok), [e]);
    OneNews(e);
    ReserveCreating(s, amount, ok);
    assert s.inventory.retiring == Reserve(s, amount, ok).inventory.retiring;
  }

  lemma DisjointUnion(a: set<nat>, b: set<nat>)
    requires a !! b
    ensures multiset(a + b) == multiset(a) + multiset(b)
  {
  }

  // ------------------------------------------------------ plans, messages

  predicate Additive(a: Action) {
    !a.DropConnection? && !a.SettleCreation? && !a.SettleCleanup? && !a.Halt?
  }

  lemma StepAdds(cfg: Config, s: State, a: Action)
    requires Sound(cfg, s) && Additive(a) && Enabled(cfg, s, a)
    ensures var t := Apply(cfg, s, a); Adds(cfg, s, t)
  {
    match a
    case Join(lease, c) => JoinAdds(cfg, s, lease, [Verdict(c, false)]);
    case ServeFresh(lease, c) => ServeAdds(cfg, s, lease, [Verdict(c, false)]);
    case ServeNext(vs) =>
      assert s.waiters[0] in s.waiters;
      NextAdds(cfg, s, vs);
    case RetireLease(lease, ok) => RetireAdds(cfg, s, lease, ok);
    case ReserveBatch(amount, ok) => ReserveAdds(cfg, s, amount, ok);
    case Answer(e) => QuietAdds(cfg, s, Say(s, e), [e]);
    case CloseLease(lease) =>
      QuietAdds(cfg, s, Close(s, lease), if lease in s.groups then RejectEvents(lease, s.groups[lease]) else []);
    case AdmitLease(_) => StaysQuiet(cfg, s, a);
    case Wait(_, _) => StaysQuiet(cfg, s, a);
    case CountExpiry => StaysQuiet(cfg, s, a);
  }

  lemma StaysQuiet(cfg: Config, s: State, a: Action)
    requires (a.AdmitLease? || a.Wait? || a.CountExpiry?) && Enabled(cfg, s, a)
    ensures var t := Apply(cfg, s, a); Adds(cfg, s, t)
  {
    assert s.out == s.out + [];
    QuietAdds(cfg, s, Apply(cfg, s, a), []);
  }

  /** Popping the queue hands nothing out, so serving its head adds what serving
      adds. */
  lemma NextAdds(cfg: Config, s: State, vs: seq<Verdict>)
    requires Enabled(cfg, s, ServeNext(vs)) && s.waiters[0] !in s.leases
    ensures var t := Apply(cfg, s, ServeNext(vs)); Adds(cfg, s, t)
  {
    var p := PopNext(s);
    var t := Serve(cfg, p, s.waiters[0], vs);
    ServeAdds(cfg, p, s.waiters[0], vs);
    assert News(s, t) == News(p, t);
  }

  lemma {:induction false} RunsAdd(cfg: Config, s: State, plan: seq<Action>, t: State)
    requires Sound(cfg, s) && Runs(cfg, s, plan, t) && forall a | a in plan :: Additive(a)
    ensures Adds(cfg, s, t)
    decreases |plan|
  {
    if plan == [] {
      assert s.out == s.out + [];
      QuietAdds(cfg, s, t, []);
    } else {
      var m := Apply(cfg, s, plan[0]);
      assert plan[0] in plan && forall a | a in plan[1..] :: a in plan;
      StepAdds(cfg, s, plan[0]);
      StepSound(cfg, s, plan[0]);
      RunsAdd(cfg, m, plan[1..], t);
      AddsThen(cfg, s, m, t);
    }
  }

  lemma AttachAdditive(cfg: Config, input: Input, s: State, lease: LeaseId, consumer: Consumer, at: nat)
    ensures forall a | a in AttachPlan(cfg, input, s, lease, consumer, at) :: Additive(a)
  {
    var (s1, status) := Admit(cfg, s, lease);
    if status == Some(Open) && lease !in s1.leases {
      if s1.inventory.ready == [] {
      } else {
      }
    }
  }

  lemma ReleaseAdditive(cfg: Config, input: Input, s: State, lease: LeaseId, consumer: Consumer)
    ensures forall a | a in ReleasePlan(cfg, input, s, lease, consumer) :: Additive(a)
  {
    ReleaseClerical(cfg, input, s, lease, consumer);
  }

  /** The engine right after the part of a message that settles a job: everything
      it does beyond that is additive. */
  function Settled(s: State, msg: Message): State {
    if s.shutdown then s else
      match msg
      case CreationFinished(id, result) => if id in s.inventory.creating then CompleteCreation(s, id, result) else s
      case CleanupFinished(id, ok) => if id in s.inventory.retiring && ok then ForgetRetired(s, id) else s
      case Detach(lease, generation) => if Current(s, lease, generation) then Disconnect(s, lease) else s
      case Shutdown => s.(shutdown := true)
      case _ => s
  }

  lemma SettledSound(cfg: Config, s: State, msg: Message)
    requires Sound(cfg, s)
    ensures var m := Settled(s, msg); Sound(cfg, m) && m.out == s.out
  {
    match msg
    case CreationFinished(id, result) =>
      if id in s.inventory.creating { SettleKeepsSound(cfg, s, id, result); }
    case CleanupFinished(id, ok) => ForgetKeepsSound(cfg, s, id);
    case Detach(lease, generation) =>
      if Current(s, lease, generation) { DropKeepsSound(cfg, s, lease); }
    case _ =>
  }

  lemma DispatchAdds(cfg: Config, clock: Clock, createOk: bool, s: State)
    requires Sound(cfg, s)
    ensures var t := Grow(cfg, clock, createOk, Dispatch(cfg, clock, s)); Adds(cfg, s, t)
  {
    var d := Dispatch(cfg, clock, s);
    var plan := DispatchPlan(cfg, clock, s);
    DispatchRuns(cfg, clock, s);
    Fifo.DispatchOneWay(cfg, clock, s);
    ThenGrow(cfg, clock, createOk, s, plan, d);
    RunsAdd(cfg, s, plan + GrowPlan(cfg, clock, createOk, d), Grow(cfg, clock, createOk, d));
  }

  lemma CreationAdds(cfg: Config, s: State, input: Input)
    requires Sound(cfg, s) && input.msg.CreationFinished?
    ensures var m, t := Settled(s, input.msg), Process(cfg, s, input); Adds(cfg, m, t)
  {
    if !s.shutdown && input.msg.id in s.inventory.creating {
      SettleKeepsSound(cfg, s, input.msg.id, input.msg.result);
      DispatchAdds(cfg, input.clock, input.createOk, CompleteCreation(s, input.msg.id, input.msg.result));
    } else {
      RunsAdd(cfg, s, [], s);
    }
  }

  lemma PlanAdds(cfg: Config, s: State, input: Input)
    requires Valid(cfg, s) && forall a | a in Plan(cfg, s, input) :: Additive(a)
    ensures var t := Process(cfg, s, input); Adds(cfg, s, t)
  {
    MessageRuns(cfg, s, input);
    RunsAdd(cfg, s, Plan(cfg, s, input), Process(cfg, s, input));
  }

  lemma RequestAdds(cfg: Config, s: State, input: Input)
    requires Valid(cfg, s) && (input.msg.AttachOrJoin? || input.msg.ReleaseLease?)
    ensures var t := Process(cfg, s, input); Adds(cfg, s, t)
  {
    match input.msg
    case AttachOrJoin(lease, consumer, at) =>
      AttachAdditive(cfg, input, s, lease, consumer, at);
      PlanAdds(cfg, s, input);
    case ReleaseLease(lease, consumer) =>
      ReleaseAdditive(cfg, input, s, lease, consumer);
      PlanAdds(cfg, s, input);
  }

  lemma ExpiryAdditive(cfg: Config, s: State, input: Input)
    requires input.msg.LeaseMaxTimeReached?
    ensures forall a | a in Plan(cfg, s, input) :: Additive(a)
  {
  }

  lemma ExpiryAdds(cfg: Config, s: State, input: Input)
    requires Valid(cfg, s) && input.msg.LeaseMaxTimeReached?
    ensures var t := Process(cfg, s, input); Adds(cfg, s, t)
  {
    ExpiryAdditive(cfg, s, input);
    PlanAdds(cfg, s, input);
  }

  /** Each message hands out exactly what it adds to the engine. */
  lemma MessageAdds(cfg: Config, s: State, input: Input)
    requires Valid(cfg, s)
    ensures var m, t := Settled(s, input.msg), Process(cfg, s, input); Adds(cfg, m, t)
  {
    match input.msg
    case AttachOrJoin(_, _, _) => RequestAdds(cfg, s, input);
    case ReleaseLease(_, _) => RequestAdds(cfg, s, input);
    case LeaseMaxTimeReached(_, _) => ExpiryAdds(cfg, s, input);
    case Shutdown => NothingMore(cfg, s, input);
    case CreationFinished(_, _) => CreationAdds(cfg, s, input);
    case Detach(_, _) => NothingMore(cfg, s, input);
    case CleanupFinished(_, _) => NothingMore(cfg, s, input);
  }

  lemma NothingMore(cfg: Config, s: State, input: Input)
    requires Valid(cfg, s) && (input.msg.Detach? || input.msg.CleanupFinished? || input.msg.Shutdown?)
    ensures var m, t := Settled(s, input.msg), Process(cfg, s, input); Adds(cfg, m, t)
  {
    var m := Settled(s, input.msg);
    SettledSound(cfg, s, input.msg);
    RunsAdd(cfg, m, [], Process(cfg, s, input));
  }
}
