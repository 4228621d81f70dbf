/**
  The engine as the object that updates its fields step by step: takes, assigns,
  replies and rolls back one reply at a time, reserves and cancels one id at a
  time. Each operation is proved to do what EngineSpec.dfy says of it.
 */
module Engine {
  import opened EngineTypes
  import opened EngineSpec
  import opened Inventories
  import opened BoundedWindow
  import Pool
  import Plans

  // --------------------------------------------------- steps within a group

  function Assigned(cfg: Config, s: State, lease: LeaseId, db: Database): State {
    var gen := s.nextGeneration + 1;
    s.(nextGeneration := gen,
       leases := s.leases[lease := Entry(db, 0, gen)],
       out := s.out + if cfg.claimTimeout > 0 then [TimerArmed(lease, gen)] else [])
  }

  function Replied(s: State, lease: LeaseId, consumer: Consumer): State
    requires lease in s.leases
  {
    var e := s.leases[lease];
    if e.conns >= U16_MAX then
      Say(s, AttachReplied(consumer, lease, FailedToAttach))
    else
      Say(s.(leases := s.leases[lease := e.(conns := if consumer.reachable then e.conns + 1 else e.conns)]),
          AttachReplied(consumer, lease, Attached(e.database, e.generation)))
  }

  function Restored(s: State, lease: LeaseId): State {
    if lease in s.leases && s.leases[lease].conns == 0 then
      var e := s.leases[lease];
      s.(leases := s.leases - {lease},
         cancelled := s.cancelled + {e.generation},
         inventory := s.inventory.(ready := [e.database] + s.inventory.ready))
    else s
  }

  function Taken(s: State): State
    requires s.inventory.ready != []
  {
    s.(inventory := s.inventory.(ready := s.inventory.ready[1..]))
  }

  function Late(s: State, consumer: Consumer): State {
    Say(s.(counters := s.counters.(waiterTimeouts := s.counters.waiterTimeouts + 1)), ReplyExpired(consumer))
  }

  /** One reply of a group: skipped when late, otherwise the lease is assigned if it
      is not yet, and the reply is sent. */
  function Answered(cfg: Config, s: State, lease: LeaseId, v: Verdict): State
    requires lease in s.leases || s.inventory.ready != []
  {
    if v.expired then Late(s, v.consumer)
    else if lease in s.leases then Replied(s, lease, v.consumer)
    else Replied(Assigned(cfg, Taken(s), lease, s.inventory.ready[0]), lease, v.consumer)
  }

  /** The replies of a group one after the other, before the rollback. */
  function AnsweredAll(cfg: Config, s: State, lease: LeaseId, vs: seq<Verdict>): (t: State)
    requires lease in s.leases || s.inventory.ready != []
    ensures lease in t.leases || t.inventory.ready != []
    ensures lease in t.leases <==> lease in s.leases || AnyLive(vs)
  {
    if vs == [] then s else Answered(cfg, AnsweredAll(cfg, s, lease, vs[..|vs| - 1]), lease, vs[|vs| - 1])
  }

  /** The lease holds the oldest ready database with `n` connections. */
  function Held(s: State, lease: LeaseId, n: nat, late: nat, news: seq<Event>): State
    requires s.inventory.ready != []
  {
    Taken(s).(nextGeneration := s.nextGeneration + 1,
              leases := s.leases[lease := Entry(s.inventory.ready[0], n, s.nextGeneration + 1)],
              counters := s.counters.(waiterTimeouts := s.counters.waiterTimeouts + late),
              out := s.out + news)
  }

  /** What the group has come to after the replies `vs`, in closed form. */
  function PartServed(cfg: Config, s: State, lease: LeaseId, vs: seq<Verdict>): State
    requires lease in s.leases || s.inventory.ready != []
  {
    if lease in s.leases || !AnyLive(vs) then Serve(cfg, s, lease, vs) else
      Held(s, lease, Cap(Reached(vs)), Timeouts(vs),
           ServeEvents(cfg, lease, s.inventory.ready[0], s.nextGeneration + 1, 0, false, vs))
  }

  lemma HeldReplied(s: State, lease: LeaseId, n: nat, late: nat, news: seq<Event>, c: Consumer)
    requires s.inventory.ready != [] && n <= U16_MAX
    ensures Replied(Held(s, lease, n, late, news), lease, c)
         == Held(s, lease, if n < U16_MAX && c.reachable then n + 1 else n, late,
                 news + [AttachReplied(c, lease, if n == U16_MAX then FailedToAttach
                                                 else Attached(s.inventory.ready[0], s.nextGeneration + 1))])
  {
    assert s.out + news + [Replied(Held(s, lease, n, late, news), lease, c).out[|s.out + news|]]
        == s.out + (news + [Replied(Held(s, lease, n, late, news), lease, c).out[|s.out + news|]]);
  }

  lemma FirstHeld(cfg: Config, s: State, m: State, lease: LeaseId, late: nat, news: seq<Event>)
    requires s.inventory.ready != []
    requires m == s.(counters := s.counters.(waiterTimeouts := s.counters.waiterTimeouts + late), out := s.out + news)
    ensures Assigned(cfg, Taken(m), lease, m.inventory.ready[0])
         == Held(s, lease, 0, late,
                 news + if cfg.claimTimeout > 0 then [TimerArmed(lease, s.nextGeneration + 1)] else [])
  {
    assert s.out + news + [TimerArmed(lease, s.nextGeneration + 1)]
        == s.out + (news + [TimerArmed(lease, s.nextGeneration + 1)]);
  }

  lemma NothingReached(vs: seq<Verdict>)
    requires !AnyLive(vs)
    ensures Reached(vs) == 0
  {
    if vs != [] { NothingReached(vs[..|vs| - 1]); }
  }

  lemma MidwayLate(cfg: Config, s: State, lease: LeaseId, vs: seq<Verdict>)
    requires vs != [] && (lease in s.leases || s.inventory.ready != []) && vs[|vs| - 1].expired
    ensures PartServed(cfg, s, lease, vs) == Late(PartServed(cfg, s, lease, vs[..|vs| - 1]), vs[|vs| - 1].consumer)
  {
    var init, v := vs[..|vs| - 1], vs[|vs| - 1];
    assert Reached(vs) == Reached(init) && AnyLive(vs) == AnyLive(init) && Timeouts(vs) == Timeouts(init) + 1;
    if lease in s.leases {
    } else if AnyLive(init) {
    } else {
      NothingReached(init);
    }
  }

  lemma MidwayJoin(cfg: Config, s: State, lease: LeaseId, vs: seq<Verdict>)
    requires vs != [] && lease in s.leases && s.leases[lease].conns <= U16_MAX && !vs[|vs| - 1].expired
    ensures PartServed(cfg, s, lease, vs) == Replied(PartServed(cfg, s, lease, vs[..|vs| - 1]), lease, vs[|vs| - 1].consumer)
  {
    var init, v := vs[..|vs| - 1], vs[|vs| - 1];
    assert Timeouts(vs) == Timeouts(init);
    if Cap(s.leases[lease].conns + Reached(init)) == U16_MAX {
    } else {
    }
  }

  lemma MidwayFirst(cfg: Config, s: State, lease: LeaseId, vs: seq<Verdict>)
    requires vs != [] && lease !in s.leases && s.inventory.ready != []
    requires !vs[|vs| - 1].expired && !AnyLive(vs[..|vs| - 1])
    ensures var m := PartServed(cfg, s, lease, vs[..|vs| - 1]);
            PartServed(cfg, s, lease, vs)
            == Replied(Assigned(cfg, Taken(m), lease, m.inventory.ready[0]), lease, vs[|vs| - 1].consumer)
  {
    var init, v := vs[..|vs| - 1], vs[|vs| - 1];
    NothingReached(init);
    var db, gen := s.inventory.ready[0], s.nextGeneration + 1;
    var news := ServeEvents(cfg, lease, db, gen, 0, false, init);
    var timer := if cfg.claimTimeout > 0 then [TimerArmed(lease, gen)] else [];
    FirstHeld(cfg, s, PartServed(cfg, s, lease, init), lease, Timeouts(init), news);
    HeldReplied(s, lease, 0, Timeouts(init), news + timer, v.consumer);
    assert news + timer + [AttachReplied(v.consumer, lease, Attached(db, gen))]
        == news + (timer + [AttachReplied(v.consumer, lease, Attached(db, gen))]);
  }

  lemma MidwayMore(cfg: Config, s: State, lease: LeaseId, vs: seq<Verdict>)
    requires vs != [] && lease !in s.leases && s.inventory.ready != []
    requires !vs[|vs| - 1].expired && AnyLive(vs[..|vs| - 1])
    ensures PartServed(cfg, s, lease, vs) == Replied(PartServed(cfg, s, lease, vs[..|vs| - 1]), lease, vs[|vs| - 1].consumer)
  {
    var init, v := vs[..|vs| - 1], vs[|vs| - 1];
    var news := ServeEvents(cfg, lease, s.inventory.ready[0], s.nextGeneration + 1, 0, false, init);
    HeldReplied(s, lease, Cap(Reached(init)), Timeouts(init), news, v.consumer);
  }

  lemma MidwayNext(cfg: Config, s: State, lease: LeaseId, vs: seq<Verdict>)
    requires vs != [] && (lease in s.leases || s.inventory.ready != [])
    requires lease in s.leases ==> s.leases[lease].conns <= U16_MAX
    ensures var m := PartServed(cfg, s, lease, vs[..|vs| - 1]);
            && (lease in m.leases || m.inventory.ready != [])
            && PartServed(cfg, s, lease, vs) == Answered(cfg, m, lease, vs[|vs| - 1])
  {
    if vs[|vs| - 1].expired {
      MidwayLate(cfg, s, lease, vs);
    } else if lease in s.leases {
      MidwayJoin(cfg, s, lease, vs);
    } else if AnyLive(vs[..|vs| - 1]) {
      MidwayMore(cfg, s, lease, vs);
    } else {
      NothingReached(vs[..|vs| - 1]);
      MidwayFirst(cfg, s, lease, vs);
    }
  }

  lemma {:induction false} AnsweredMidway(cfg: Config, s: State, lease: LeaseId, vs: seq<Verdict>)
    requires lease in s.leases || s.inventory.ready != []
    requires lease in s.leases ==> s.leases[lease].conns <= U16_MAX
    ensures AnsweredAll(cfg, s, lease, vs) == PartServed(cfg, s, lease, vs)
  {
    if vs == [] {
      assert lease in s.leases ==> s.leases[lease := s.leases[lease]] == s.leases;
    } else {
      AnsweredMidway(cfg, s, lease, vs[..|vs| - 1]);
      MidwayNext(cfg, s, lease, vs);
    }
  }

  /** Taking, assigning, replying one by one and rolling back is the same as
      serving the group at once. */
  lemma StepwiseServe(cfg: Config, s: State, lease: LeaseId, vs: seq<Verdict>)
    requires lease in s.leases || s.inventory.ready != []
    requires lease in s.leases ==> s.leases[lease].conns <= U16_MAX
    ensures var t := AnsweredAll(cfg, s, lease, vs);
            Serve(cfg, s, lease, vs) == if lease in s.leases then t else Restored(t, lease)
  {
    AnsweredMidway(cfg, s, lease, vs);
    if lease !in s.leases && AnyLive(vs) {
      HeldRestored(s, lease, Cap(Reached(vs)), Timeouts(vs),
                   ServeEvents(cfg, lease, s.inventory.ready[0], s.nextGeneration + 1, 0, false, vs));
    }
  }

  /** Rolling back a database nobody received puts it where it was. */
  lemma HeldRestored(s: State, lease: LeaseId, n: nat, late: nat, news: seq<Event>)
    requires s.inventory.ready != [] && lease !in s.leases
    ensures Restored(Held(s, lease, n, late, news), lease)
         == if n > 0 then Held(s, lease, n, late, news)
            else s.(nextGeneration := s.nextGeneration + 1, cancelled := s.cancelled + {s.nextGeneration + 1},
                    counters := s.counters.(waiterTimeouts := s.counters.waiterTimeouts + late), out := s.out + news)
  {
    assert Held(s, lease, n, late, news).leases - {lease} == s.leases;
    assert [s.inventory.ready[0]] + s.inventory.ready[1..] == s.inventory.ready;
  }

  lemma {:induction false} DispatchGenerations(cfg: Config, clock: Clock, s: State)
    ensures s.nextGeneration <= Dispatch(cfg, clock, s).nextGeneration
    decreases |s.waiters|
  {
    if s.inventory.ready != [] && s.waiters != [] {
      var lease := s.waiters[0];
      var popped := s.(waiters := s.waiters[1..]);
      if lease !in s.groups {
        DispatchGenerations(cfg, clock, popped);
      } else {
        var taken := popped.(groups := s.groups - {lease});
        if lease in s.records && s.records[lease] == Closed {
          DispatchGenerations(cfg, clock, taken.(out := s.out + RejectEvents(lease, s.groups[lease])));
        } else {
          DispatchGenerations(cfg, clock, Serve(cfg, taken, lease, Judge(cfg, clock, s.groups[lease])));
        }
      }
    }
  }

  lemma {:induction false} LiveAt(vs: seq<Verdict>, i: nat)
    requires i < |vs| && !vs[i].expired
    ensures AnyLive(vs)
  {
    if i < |vs| - 1 {
      LiveAt(vs[..|vs| - 1], i);
    }
  }

  /** A database is only taken where serving the group issues a generation. */
  lemma RoomToAssign(cfg: Config, s: State, lease: LeaseId, vs: seq<Verdict>, i: nat)
    requires i < |vs| && (lease in s.leases || s.inventory.ready != [])
    requires lease in s.leases ==> s.leases[lease].conns <= U16_MAX
    requires Serve(cfg, s, lease, vs).nextGeneration <= U64_MAX
    ensures var m := AnsweredAll(cfg, s, lease, vs[..i]);
            m.nextGeneration < U64_MAX || lease in m.leases || vs[i].expired
  {
    if lease !in s.leases && !vs[i].expired && !AnyLive(vs[..i]) {
      LiveAt(vs, i);
      AnsweredMidway(cfg, s, lease, vs[..i]);
    }
  }

  /** Neither counter leaves 64 bits while this message is handled. */
  predicate Fits(s: State) {
    s.nextGeneration <= U64_MAX && s.inventory.nextId <= U64_MAX
  }

  /** A release up to its answer. */
  function Closing(cfg: Config, input: Input, s: State, lease: LeaseId): (State, bool) {
    var (s1, status) := Admit(cfg, s, lease);
    match status
    case None => (s, false)
    case Some(Closed) => (s, true)
    case Some(Open) => (Retire(cfg, input, Close(s1, lease), lease), true)
  }

  lemma ClosingSplit(cfg: Config, input: Input, s: State, lease: LeaseId)
    ensures var (s1, status) := Admit(cfg, s, lease);
            && Closing(cfg, input, s, lease).0
               == (if status == Some(Open) then Retire(cfg, input, Close(s1, lease), lease) else s1)
            && Closing(cfg, input, s, lease).1 == status.Some?
  {
  }

  lemma ReleaseAnswers(cfg: Config, input: Input, s: State, lease: LeaseId, c: Consumer)
    ensures var (t, accepted) := Closing(cfg, input, s, lease);
            Release(cfg, input, s, lease, c) == Say(t, ReleaseReplied(c, accepted))
  {
  }

  /** Serving one reply of an unassigned lease, in the steps the engine takes. */
  lemma ServeOne(cfg: Config, s: State, lease: LeaseId, c: Consumer)
    requires lease !in s.leases && s.inventory.ready != []
    ensures var t := Replied(Assigned(cfg, Taken(s), lease, s.inventory.ready[0]), lease, c);
            Serve(cfg, s, lease, [Verdict(c, false)]) == Restored(t, lease) && lease in t.leases
  {
    var vs := [Verdict(c, false)];
    assert vs[..0] == [];
    StepwiseServe(cfg, s, lease, vs);
    assert AnsweredAll(cfg, s, lease, vs) == Answered(cfg, AnsweredAll(cfg, s, lease, vs[..0]), lease, vs[0]);
  }

  lemma JoinOne(cfg: Config, s: State, lease: LeaseId, c: Consumer)
    requires lease in s.leases && s.leases[lease].conns <= U16_MAX
    ensures Serve(cfg, s, lease, [Verdict(c, false)]) == Replied(s, lease, c)
  {
    var vs := [Verdict(c, false)];
    assert vs[..0] == [];
    StepwiseServe(cfg, s, lease, vs);
    assert AnsweredAll(cfg, s, lease, vs) == Answered(cfg, AnsweredAll(cfg, s, lease, vs[..0]), lease, vs[0]);
  }

  /** The attach of an open lease that found a ready database. */
  function FreshAttach(cfg: Config, clock: Clock, createOk: bool, s: State, lease: LeaseId, c: Consumer): State
    requires s.inventory.ready != []
  {
    var s2 := Serve(cfg, s, lease, [Verdict(c, false)]);
    EngineSpec.Grow(cfg, clock, createOk, if lease in s2.leases then s2 else Dispatch(cfg, clock, s2))
  }

  /** The attach of an open lease. */
  function OpenAttach(cfg: Config, clock: Clock, createOk: bool, s: State, lease: LeaseId, c: Consumer, at: nat): State {
    if lease in s.leases then Serve(cfg, s, lease, [Verdict(c, false)])
    else if s.inventory.ready == [] then EngineSpec.Grow(cfg, clock, createOk, Enqueue(s, lease, Queued(c, at)))
    else FreshAttach(cfg, clock, createOk, s, lease, c)
  }

  lemma AttachSplit(cfg: Config, clock: Clock, createOk: bool, s: State, lease: LeaseId, c: Consumer, at: nat)
    ensures var (s1, status) := Admit(cfg, s, lease);
            Attach(cfg, clock, createOk, s, lease, c, at) ==
              match status
              case None => Say(s1, AttachReplied(c, lease, Rejected(LeaseRecordLimitReached)))
              case Some(Closed) => Say(s1, AttachReplied(c, lease, Rejected(LeaseClosed)))
              case Some(Open) => OpenAttach(cfg, clock, createOk, s1, lease, c, at)
  {
  }

  lemma FreshRoom(cfg: Config, clock: Clock, createOk: bool, s: State, lease: LeaseId, c: Consumer)
    requires lease !in s.leases && s.inventory.ready != []
    ensures s.nextGeneration < FreshAttach(cfg, clock, createOk, s, lease, c).nextGeneration
    ensures var s2 := Serve(cfg, s, lease, [Verdict(c, false)]);
            lease !in s2.leases ==>
              Dispatch(cfg, clock, s2).nextGeneration == FreshAttach(cfg, clock, createOk, s, lease, c).nextGeneration
  {
    var vs := [Verdict(c, false)];
    var s2 := Serve(cfg, s, lease, vs);
    LiveAt(vs, 0);
    assert s2.nextGeneration == s.nextGeneration + 1;
    DispatchGenerations(cfg, clock, s2);
    Plans.GrowFrame(cfg, clock, createOk, if lease in s2.leases then s2 else Dispatch(cfg, clock, s2));
  }

  // ----------------------------------------------------------------- start

  /** How the creation of a database ended, by its id: ids start at 1. */
  function Outcome(result: nat -> Option<string>, id: nat): Option<string> {
    if id == 0 then None else result(id - 1)
  }

  /** The inventory when some initial creations are settled: exactly the others are
      reserved, and exactly the successful ones are ready. */
  ghost predicate Settling(inv: Inventory, settled: set<nat>, slots: nat, result: nat -> Option<string>) {
    && inv.nextId == slots && inv.retiring == map[]
    && inv.creating == Interval(1, slots) - settled && settled <= Interval(1, slots)
    && (forall i | 0 <= i < |inv.ready| ::
          inv.ready[i].id in settled && Outcome(result, inv.ready[i].id) == Some(inv.ready[i].name))
    && (forall i, j | 0 <= i < j < |inv.ready| :: inv.ready[i].id != inv.ready[j].id)
    && (forall id | id in settled && Outcome(result, id).Some? ::
          Database(id, Outcome(result, id).value) in inv.ready)
  }

  /** A report of a creation that is not settled settles its reservation. */
  lemma SettlingNext(inv: Inventory, settled: set<nat>, slots: nat, result: nat -> Option<string>, id: nat)
    requires Settling(inv, settled, slots, result) && 1 <= id <= slots && id !in settled
    ensures id in inv.creating
    ensures var outcome := Outcome(result, id);
            var inv' := inv.(creating := inv.creating - {id},
                             ready := if outcome.Some? then inv.ready + [Database(id, outcome.value)] else inv.ready);
            Settling(inv', settled + {id}, slots, result)
  {
  }

  lemma SettlingDone(inv: Inventory, settled: set<nat>, slots: nat, result: nat -> Option<string>)
    requires Settling(inv, settled, slots, result) && |settled| == slots
    ensures inv == Inventory(slots, {}, inv.ready, map[]) && settled == Interval(1, slots)
  {
    var all := Interval(1, slots);
    assert all == settled + (all - settled);
    assert |all - settled| == 0;
  }

  /** Nothing is reserved any more, and exactly the successful databases are ready. */
  ghost predicate Stocked(inv: Inventory, slots: nat, result: nat -> Option<string>) {
    && inv.nextId == slots && inv.creating == {} && inv.retiring == map[]
    && (forall id | id in Interval(1, slots) && Outcome(result, id).Some? ::
          Database(id, Outcome(result, id).value) in inv.ready)
    && (forall i | 0 <= i < |inv.ready| ::
          inv.ready[i].id in Interval(1, slots) && Outcome(result, inv.ready[i].id) == Some(inv.ready[i].name))
    && (forall i, j | 0 <= i < j < |inv.ready| :: inv.ready[i].id != inv.ready[j].id)
  }

  ghost predicate AllCreated(slots: nat, result: nat -> Option<string>) {
    forall id | id in Interval(1, slots) :: Outcome(result, id).Some?
  }

  lemma NoneStocked(inv: Inventory, result: nat -> Option<string>)
    requires inv == Inventory(0, {}, [], map[])
    ensures Stocked(inv, 0, result) && AllCreated(0, result)
  {
  }

  lemma ReservedStart(inv: Inventory, slots: nat, result: nat -> Option<string>)
    requires inv == Reserved(Inventory(0, {}, [], map[]), CreateDatabases(1, slots), true)
    ensures Settling(inv, {}, slots, result)
  {
  }

  /** An engine whose initial reservations are all settled has started. */
  lemma SettledStart(s: State, slots: nat, result: nat -> Option<string>)
    requires s == Empty().(inventory := s.inventory) && Stocked(s.inventory, slots, result)
    ensures Started(s)
  {
  }

  class WorkerEngine {
    const config: Config
    const inventory: DatabaseInventory
    var leases: map<LeaseId, Entry>
    var records: map<LeaseId, Status>
    var nextGeneration: nat
    var waiters: seq<LeaseId>
    var groups: map<LeaseId, seq<Queued>>
    var counters: Counters
    var cancelled: set<nat>
    var shutdown: bool
    var out: seq<Event>

    /** The whole state as a value. */
    function S(): State
      reads this, inventory
    {
      State(leases, records, nextGeneration, waiters, groups, inventory.View(), counters, cancelled, shutdown, out)
    }

    /** Connection counts are 16-bit. */
    ghost predicate Valid()
      reads this
    {
      forall lease | lease in leases :: leases[lease].conns <= U16_MAX
    }

    constructor (config: Config)
      ensures this.config == config && fresh(inventory)
      ensures S() == Empty() && Valid()
    {
      this.config := config;
      inventory := new DatabaseInventory();
      leases, records, nextGeneration, waiters, groups := map[], map[], 0, [], map[];
      counters, cancelled, shutdown, out := Counters(0, 0, 0, 0, 0), {}, false, [];
    }

    /** Create the initial databases through a bounded window and settle every one of
        their reservations before the first message; report the first failure. */
    method TryInit(limit: nat, result: nat -> Option<string>) returns (error: Option<nat>)
      requires S() == Empty() && config.initialSlots <= U16_MAX && limit > 0
      modifies inventory
      ensures Started(S()) && Stocked(inventory.View(), config.initialSlots, result)
      ensures error == None <==> AllCreated(config.initialSlots, result)
      ensures error.Some? ==> error.value in Interval(1, config.initialSlots) && Outcome(result, error.value) == None
    {
      var request := inventory.ReserveCreations(config.initialSlots);
      if request == None {
        NoneStocked(inventory.View(), result);
        return None;
      }
      ReservedStart(inventory.View(), config.initialSlots, result);
      var reports, trace := RunBounded(request.value.amount, limit, result);
      error := SettleInitial(request.value, reports, result);
      SettledStart(S(), config.initialSlots, result);
    }

    /** The callback of each report: settle its reservation, which is always pending. */
    method SettleInitial(batch: CreateDatabases, reports: seq<Report<Option<string>>>, result: nat -> Option<string>)
      returns (error: Option<nat>)
      requires batch.first == 1 && Settling(inventory.View(), {}, batch.amount, result)
      requires ReportsEach(reports, batch.amount, result)
      modifies inventory
      ensures Stocked(inventory.View(), batch.amount, result)
      ensures error == None <==> AllCreated(batch.amount, result)
      ensures error.Some? ==> error.value in Interval(1, batch.amount) && Outcome(result, error.value) == None
    {
      ghost var settled: set<nat> := {};
      error := None;
      for k := 0 to |reports|
        invariant Settling(inventory.View(), settled, batch.amount, result) && |settled| == k
        invariant forall j | k <= j < |reports| :: reports[j].index + 1 !in settled
        invariant error == None <==> forall id | id in settled :: Outcome(result, id).Some?
        invariant error.Some? ==> error.value in settled && Outcome(result, error.value) == None
      {
        var id := batch.DatabaseId(reports[k].index);
        var ok := SettleOne(id, reports[k].result, settled, batch.amount, result);
        if !ok && error == None {
          error := Some(id);
        }
        settled := settled + {id};
      }
      SettlingDone(inventory.View(), settled, batch.amount, result);
    }

    method SettleOne(id: nat, outcome: Option<string>, ghost settled: set<nat>, slots: nat, result: nat -> Option<string>)
      returns (ok: bool)
      requires Settling(inventory.View(), settled, slots, result) && 1 <= id <= slots && id !in settled
      requires outcome == Outcome(result, id)
      modifies inventory
      ensures Settling(inventory.View(), settled + {id}, slots, result) && ok == outcome.Some?
    {
      SettlingNext(inventory.View(), settled, slots, result, id);
      var completed := inventory.CompleteCreation(id, outcome);
      ok := completed.value;
    }

    method AdmitLease(lease: LeaseId) returns (status: Option<Status>)
      modifies this`records
      ensures S() == Admit(config, old(S()), lease).0 && status == Admit(config, old(S()), lease).1
    {
      if lease in records {
        return Some(records[lease]);
      }
      if |records| >= config.maxRecords {
        return None;
      }
      records := records[lease := Open];
      status := Some(Open);
    }

    method AssignDatabase(lease: LeaseId, database: Database)
      requires Valid() && nextGeneration < U64_MAX
      modifies this`nextGeneration, this`leases, this`out
      ensures Valid() && S() == Assigned(config, old(S()), lease, database)
    {
      nextGeneration := nextGeneration + 1;
      leases := leases[lease := Entry(database, 0, nextGeneration)];
      if config.claimTimeout > 0 {
        out := out + [TimerArmed(lease, nextGeneration)];
      }
    }

    /** Count the connection first, and take it back when nobody receives the reply. */
    method ReplyAttached(lease: LeaseId, consumer: Consumer)
      requires Valid() && lease in leases
      modifies this`leases, this`out
      ensures Valid() && S() == Replied(old(S()), lease, consumer)
    {
      var entry := leases[lease];
      if entry.conns == U16_MAX {
        out := out + [AttachReplied(consumer, lease, FailedToAttach)];
        return;
      }
      leases := leases[lease := entry.(conns := entry.conns + 1)];
      out := out + [AttachReplied(consumer, lease, Attached(entry.database, entry.generation))];
      if !consumer.reachable {
        leases := leases[lease := entry.(conns := leases[lease].conns - 1)];
      }
    }

    method RestoreUnclaimedDatabase(lease: LeaseId) returns (restored: bool)
      requires Valid()
      modifies this`leases, this`cancelled, inventory
      ensures Valid() && S() == Restored(old(S()), lease)
      ensures restored <==> lease in old(leases) && lease !in leases
    {
      if lease !in leases || leases[lease].conns != 0 {
        return false;
      }
      var entry := leases[lease];
      leases := leases - {lease};
      cancelled := cancelled + {entry.generation};
      inventory.ReturnReady(entry.database);
      restored := true;
    }

    method RejectAll(lease: LeaseId, replies: seq<Queued>)
      modifies this`out
      ensures out == old(out) + RejectEvents(lease, replies)
    {
      for i := 0 to |replies|
        invariant out == old(out) + RejectEvents(lease, replies[..i])
      {
        out := out + [AttachReplied(replies[i].consumer, lease, Rejected(LeaseClosed))];
        assert RejectEvents(lease, replies[..i + 1])
            == RejectEvents(lease, replies[..i]) + [AttachReplied(replies[i].consumer, lease, Rejected(LeaseClosed))];
      }
      assert replies[..|replies|] == replies;
    }

    /** One queued reply of a group being dispatched. A ready database is there
        whenever the lease still needs one. */
    method AnswerQueued(lease: LeaseId, queued: Queued, clock: Clock)
      requires Valid() && (lease in leases || inventory.ready != [])
      requires nextGeneration < U64_MAX || lease in leases || Expired(config, clock, queued)
      modifies this`leases, this`nextGeneration, this`counters, this`out, inventory
      ensures Valid()
      ensures S() == Answered(config, old(S()), lease, Verdict(queued.consumer, Expired(config, clock, queued)))
    {
      if config.claimTimeout > 0 && Elapsed(clock(queued.consumer), queued.at) > config.claimTimeout {
        counters := counters.(waiterTimeouts := counters.waiterTimeouts + 1);
        out := out + [ReplyExpired(queued.consumer)];
        return;
      }
      if lease !in leases {
        var database := inventory.TakeReady();
        AssignDatabase(lease, database.value);
      }
      ReplyAttached(lease, queued.consumer);
    }

    /** A whole group, reply by reply, and the rollback when nobody was reached. */
    method ServeGroup(lease: LeaseId, replies: seq<Queued>, clock: Clock)
      requires Valid() && (lease in leases || inventory.ready != [])
      requires Serve(config, S(), lease, Judge(config, clock, replies)).nextGeneration <= U64_MAX
      modifies this, inventory
      ensures Valid() && S() == Serve(config, old(S()), lease, Judge(config, clock, replies))
    {
      ghost var s, vs := S(), Judge(config, clock, replies);
      var alreadyAssigned := lease in leases;
      for i := 0 to |replies|
        invariant Valid() && S() == AnsweredAll(config, s, lease, vs[..i])
      {
        RoomToAssign(config, s, lease, vs, i);
        assert vs[..i + 1][..i] == vs[..i];
        AnswerQueued(lease, replies[i], clock);
      }
      assert vs[..|vs|] == vs;
      StepwiseServe(config, s, lease, vs);
      if !alreadyAssigned {
        var restored := RestoreUnclaimedDatabase(lease);
      }
    }

    method DispatchWaiters(clock: Clock)
      requires Valid() && Dispatch(config, clock, S()).nextGeneration <= U64_MAX
      modifies this, inventory
      ensures Valid() && S() == Dispatch(config, clock, old(S()))
    {
      ghost var goal := Dispatch(config, clock, S());
      while inventory.ready != []
        invariant Valid() && Dispatch(config, clock, S()) == goal
        decreases |waiters|
      {
        if waiters == [] {
          break;
        }
        DispatchNext(clock);
      }
    }

    /** Pop the front of the queue and answer its group. */
    method DispatchNext(clock: Clock)
      requires Valid() && inventory.ready != [] && waiters != []
      requires Dispatch(config, clock, S()).nextGeneration <= U64_MAX
      modifies this, inventory
      ensures Valid() && Dispatch(config, clock, S()) == Dispatch(config, clock, old(S()))
      ensures |waiters| < |old(waiters)|
    {
      var lease := waiters[0];
      waiters := waiters[1..];
      if lease !in groups {
        return;
      }
      var replies := groups[lease];
      groups := groups - {lease};
      if lease in records && records[lease] == Closed {
        RejectAll(lease, replies);
        return;
      }
      DispatchGenerations(config, clock, Serve(config, S(), lease, Judge(config, clock, replies)));
      ServeGroup(lease, replies, clock);
    }

    method CancelAll(batch: CreateDatabases)
      modifies inventory`creating
      ensures inventory.creating == old(inventory.creating) - batch.Ids()
    {
      for index := 0 to batch.amount
        invariant inventory.creating == old(inventory.creating) - Interval(batch.first, index)
      {
        var removed := inventory.CancelCreation(batch.DatabaseId(index));
      }
    }

    /** Bring the supply up to the live demand plus the threshold, in whole batches;
        a batch nobody accepts is cancelled id by id. */
    method Grow(clock: Clock, createOk: bool)
      requires EngineSpec.Grow(config, clock, createOk, S()).inventory.nextId <= U64_MAX
      modifies this`out, this`counters, inventory
      ensures S() == EngineSpec.Grow(config, clock, createOk, old(S()))
    {
      var count := GrowthCount(clock);
      if count > 0 {
        Submit(count, createOk);
      }
    }

    /** The deficit against the live demand and the threshold, in whole batches. */
    method GrowthCount(clock: Clock) returns (count: nat)
      ensures count == GrowCount(config, clock, S())
    {
      if config.growBatch == 0 {
        return 0;
      }
      var waiting := set lease | lease in groups && lease !in leases
                                 && exists i | 0 <= i < |groups[lease]| :: !Expired(config, clock, groups[lease][i]);
      assert waiting == Waiting(config, clock, S());
      var required := |waiting| + config.starvationThreshold + 1;
      var supply := inventory.SupplyLen();
      var deficit := if required > supply then required - supply else 0;
      if deficit == 0 {
        return 0;
      }
      Pool.RoundUpIsCeiling(deficit, config.growBatch);
      count := (deficit + config.growBatch - 1) / config.growBatch * config.growBatch;
    }

    method Submit(count: nat, createOk: bool)
      requires count > 0 && inventory.nextDatabaseId + count <= U64_MAX
      modifies this`out, this`counters, inventory
      ensures S() == Reserve(old(S()), count, createOk)
    {
      var request := inventory.ReserveCreations(count);
      out := out + [CreationRequested(request.value, createOk)];
      if !createOk {
        CancelAll(request.value);
        counters := counters.(unstartedSlots := counters.unstartedSlots + count);
      }
    }

    method RetireLease(lease: LeaseId, input: Input)
      requires Valid() && Fits(Retire(config, input, S(), lease))
      modifies this, inventory
      ensures Valid() && S() == Retire(config, input, old(S()), lease)
    {
      if lease !in leases {
        return;
      }
      RetireEntry(lease, input.cleanupOk);
      Grow(input.clock, input.createOk);
    }

    /** Record the retirement before submitting the cleanup. */
    method RetireEntry(lease: LeaseId, cleanupOk: bool)
      requires Valid() && lease in leases
      modifies this`leases, this`cancelled, this`out, inventory
      ensures Valid() && S() == RetireOne(old(S()), lease, cleanupOk)
    {
      var entry := leases[lease];
      leases := leases - {lease};
      cancelled := cancelled + {entry.generation};
      var request := inventory.Retire(entry.database);
      out := out + [CleanupRequested(request, cleanupOk)];
    }

    /** Keep the other waiting leases, in order. */
    method ForgetWaiter(lease: LeaseId)
      modifies this`waiters
      ensures waiters == Without(old(waiters), lease)
    {
      var kept: seq<LeaseId> := [];
      for i := 0 to |waiters|
        invariant waiters == old(waiters) && kept == Without(waiters[..i], lease)
      {
        assert waiters[..i + 1][..i] == waiters[..i];
        if waiters[i] != lease {
          kept := kept + [waiters[i]];
        }
      }
      assert waiters[..|waiters|] == waiters;
      waiters := kept;
    }

    method ReleaseLease(lease: LeaseId, input: Input) returns (accepted: bool)
      requires Valid() && Fits(Closing(config, input, S(), lease).0)
      modifies this, inventory
      ensures Valid()
      ensures S() == Closing(config, input, old(S()), lease).0 && accepted == Closing(config, input, old(S()), lease).1
    {
      ClosingSplit(config, input, S(), lease);
      var status := AdmitLease(lease);
      match status
      case None => accepted := false;
      case Some(Closed) => accepted := true;
      case Some(Open) =>
        CloseLease(lease);
        RetireLease(lease, input);
        accepted := true;
    }

    method CloseLease(lease: LeaseId)
      modifies this`records, this`groups, this`out, this`waiters
      ensures S() == Close(old(S()), lease)
    {
      records := records[lease := Closed];
      if lease in groups {
        var replies := groups[lease];
        groups := groups - {lease};
        RejectAll(lease, replies);
      }
      ForgetWaiter(lease);
    }

    method AttachOrJoin(lease: LeaseId, consumer: Consumer, at: nat, input: Input)
      requires Valid() && Fits(Attach(config, input.clock, input.createOk, S(), lease, consumer, at))
      modifies this, inventory
      ensures Valid() && S() == Attach(config, input.clock, input.createOk, old(S()), lease, consumer, at)
    {
      AttachSplit(config, input.clock, input.createOk, S(), lease, consumer, at);
      var status := AdmitLease(lease);
      match status
      case None => out := out + [AttachReplied(consumer, lease, Rejected(LeaseRecordLimitReached))];
      case Some(Closed) => out := out + [AttachReplied(consumer, lease, Rejected(LeaseClosed))];
      case Some(Open) => AttachOpened(lease, consumer, at, input);
    }

    method AttachOpened(lease: LeaseId, consumer: Consumer, at: nat, input: Input)
      requires Valid() && Fits(OpenAttach(config, input.clock, input.createOk, S(), lease, consumer, at))
      modifies this, inventory
      ensures Valid() && S() == OpenAttach(config, input.clock, input.createOk, old(S()), lease, consumer, at)
    {
      if lease in leases {
        JoinOne(config, S(), lease, consumer);
        ReplyAttached(lease, consumer);
        return;
      }
      if inventory.ready == [] {
        PushWaiter(lease, Queued(consumer, at));
        Grow(input.clock, input.createOk);
        return;
      }
      AttachFresh(lease, consumer, input);
    }

    method PushWaiter(lease: LeaseId, queued: Queued)
      modifies this`waiters, this`groups
      ensures S() == Enqueue(old(S()), lease, queued)
    {
      if lease !in groups {
        waiters := waiters + [lease];
        groups := groups[lease := []];
      }
      groups := groups[lease := groups[lease] + [queued]];
    }

    /** Take the oldest ready database, give it back when nobody receives the reply,
        and let it serve the queue then. */
    method AttachFresh(lease: LeaseId, consumer: Consumer, input: Input)
      requires Valid() && lease !in leases && inventory.ready != []
      requires Fits(FreshAttach(config, input.clock, input.createOk, S(), lease, consumer))
      modifies this, inventory
      ensures Valid() && S() == FreshAttach(config, input.clock, input.createOk, old(S()), lease, consumer)
    {
      ServeOne(config, S(), lease, consumer);
      FreshRoom(config, input.clock, input.createOk, S(), lease, consumer);
      var database := inventory.TakeReady();
      AssignDatabase(lease, database.value);
      ReplyAttached(lease, consumer);
      var restored := RestoreUnclaimedDatabase(lease);
      if restored {
        DispatchWaiters(input.clock);
      }
      Grow(input.clock, input.createOk);
    }

    method HandleDatabaseWorkerMessage(input: Input)
      requires Valid() && !shutdown && Fits(Process(config, S(), input))
      requires input.msg.CreationFinished? || input.msg.CleanupFinished?
      modifies this, inventory
      ensures Valid() && S() == Process(config, old(S()), input)
    {
      match input.msg
      case CreationFinished(id, result) =>
        var outcome := inventory.CompleteCreation(id, result);
        if outcome == None {
          return;
        }
        if outcome == Some(false) {
          counters := counters.(createFailures := counters.createFailures + 1);
        }
        Plans.GrowFrame(config, input.clock, input.createOk, Dispatch(config, input.clock, S()));
        DispatchWaiters(input.clock);
        Grow(input.clock, input.createOk);
      case CleanupFinished(id, ok) =>
        var outcome := inventory.CompleteCleanup(id, ok);
    }

    method DetachConnection(lease: LeaseId, generation: nat)
      requires Valid()
      modifies this`leases, this`counters
      ensures Valid()
      ensures S() == if Current(old(S()), lease, generation) then Disconnect(old(S()), lease) else old(S())
    {
      if lease in leases && leases[lease].generation == generation {
        if leases[lease].conns == 0 {
          counters := counters.(detachOnZero := counters.detachOnZero + 1);
        } else {
          leases := leases[lease := leases[lease].(conns := leases[lease].conns - 1)];
        }
      }
    }

    method ExpireLease(lease: LeaseId, generation: nat, input: Input)
      requires Valid()
      requires Current(S(), lease, generation) ==> Fits(Retire(config, input, Expire(S()), lease))
      modifies this, inventory
      ensures Valid()
      ensures S() == if Current(old(S()), lease, generation) then Retire(config, input, Expire(old(S())), lease)
                     else old(S())
    {
      if lease in leases && leases[lease].generation == generation {
        counters := counters.(expiredLeases := counters.expiredLeases + 1);
        RetireLease(lease, input);
      }
    }

    /** One iteration of the message loop. */
    method HandleMessage(input: Input)
      requires Valid() && !shutdown && Fits(Process(config, S(), input))
      modifies this, inventory
      ensures Valid() && S() == Process(config, old(S()), input)
    {
      match input.msg
      case AttachOrJoin(lease, consumer, at) =>
        AttachOrJoin(lease, consumer, at, input);
      case ReleaseLease(lease, consumer) =>
        ReleaseAnswers(config, input, S(), lease, consumer);
        var accepted := ReleaseLease(lease, input);
        out := out + [ReleaseReplied(consumer, accepted)];
      case Detach(lease, generation) => DetachConnection(lease, generation);
      case LeaseMaxTimeReached(lease, generation) => ExpireLease(lease, generation, input);
      case CreationFinished(_, _) => HandleDatabaseWorkerMessage(input);
      case CleanupFinished(_, _) => HandleDatabaseWorkerMessage(input);
      case Shutdown => shutdown := true;
    }

    /** Read messages until a shutdown or until the inbox is closed. */
    method ProcessMessages(inputs: seq<Input>)
      requires Valid() && !shutdown
      requires forall k | 0 <= k <= |inputs| :: Fits(Run(config, S(), inputs[..k]))
      modifies this, inventory
      ensures Valid() && S() == Run(config, old(S()), inputs)
    {
      ghost var start := S();
      var i := 0;
      while i < |inputs|
        invariant 0 <= i <= |inputs|
        invariant Valid() && !shutdown && S() == Run(config, start, inputs[..i])
      {
        assert inputs[..i + 1][..i] == inputs[..i] && inputs[..i + 1][i] == inputs[i];
        assert Fits(Run(config, start, inputs[..i + 1]));
        HandleMessage(inputs[i]);
        i := i + 1;
        if shutdown {
          StoppedRun(config, start, inputs, i);
          return;
        }
      }
      assert inputs[..|inputs|] == inputs;
    }

    /** The message loop of a started engine, and the cancellation of every remaining
        token after it. */
    method RunLoop(inputs: seq<Input>)
      requires Valid() && Started(S()) && forall k | 0 <= k <= |inputs| :: Fits(Run(config, S(), inputs[..k]))
      modifies this, inventory
      ensures Valid() && S() == Run(config, old(S()), inputs).(shutdown := true)
      ensures forall k | 0 <= k <= |inputs| :: Reachable(config, Run(config, old(S()), inputs[..k]))
    {
      ghost var start := S();
      ProcessMessages(inputs);
      forall k | 0 <= k <= |inputs| ensures Reachable(config, Run(config, start, inputs[..k])) {
        RunReachable(config, start, inputs[..k]);
      }
      shutdown := true;
    }
  }

  // ------------------------------------------------------------------ stop

  lemma RunReachable(cfg: Config, start: State, inputs: seq<Input>)
    requires Started(start)
    ensures Reachable(cfg, Run(cfg, start, inputs))
  {
  }

  /** A stopped engine reads nothing more. */
  lemma {:induction false} StoppedRun(cfg: Config, s: State, inputs: seq<Input>, i: nat)
    requires i <= |inputs| && Run(cfg, s, inputs[..i]).shutdown
    ensures Run(cfg, s, inputs) == Run(cfg, s, inputs[..i])
  {
    if i < |inputs| {
      assert inputs[..|inputs| - 1][..i] == inputs[..i];
      StoppedRun(cfg, s, inputs[..|inputs| - 1], i);
    } else {
      assert inputs[..i] == inputs;
    }
  }
}
