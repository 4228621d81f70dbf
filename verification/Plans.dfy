/**
  Refinement: what a message does to the engine is exactly what a plan of
  enabled actions does, so anything kept by every action is kept by every
  message and by every run.
 */
module Plans {
  import opened EngineTypes
  import opened EngineSpec
  import opened Ledger
  import opened Soundness

  /** The plan is enabled all the way from `s` and ends in `t`. */
  predicate Runs(cfg: Config, s: State, plan: seq<Action>, t: State)
    decreases |plan|
  {
    if plan == [] then s == t else
      Enabled(cfg, s, plan[0]) && Runs(cfg, Apply(cfg, s, plan[0]), plan[1..], t)
  }

  lemma {:induction false} RunsThen(cfg: Config, s: State, p: seq<Action>, m: State, q: seq<Action>, t: State)
    requires Runs(cfg, s, p, m) && Runs(cfg, m, q, t)
    ensures Runs(cfg, s, p + q, t)
    decreases |p|
  {
    if p == [] {
      assert p + q == q;
    } else {
      RunsThen(cfg, Apply(cfg, s, p[0]), p[1..], m, q, t);
      assert (p + q)[1..] == p[1..] + q;
    }
  }

  lemma {:induction false} RunsSound(cfg: Config, s: State, plan: seq<Action>, t: State)
    requires Sound(cfg, s) && Runs(cfg, s, plan, t)
    ensures Sound(cfg, t)
    decreases |plan|
  {
    if plan != [] {
      StepSound(cfg, s, plan[0]);
      RunsSound(cfg, Apply(cfg, s, plan[0]), plan[1..], t);
    }
  }

  lemma RunsOne(cfg: Config, s: State, a: Action)
    requires Enabled(cfg, s, a)
    ensures Runs(cfg, s, [a], Apply(cfg, s, a))
  {
    assert [a][1..] == [];
  }

  lemma RunsMore(cfg: Config, s: State, plan: seq<Action>, m: State, a: Action)
    requires Runs(cfg, s, plan, m) && Enabled(cfg, m, a)
    ensures Runs(cfg, s, plan + [a], Apply(cfg, m, a))
  {
    RunsOne(cfg, m, a);
    RunsThen(cfg, s, plan, m, [a], Apply(cfg, m, a));
  }

  // ----------------------------------------------------------------- plans

  function GrowPlan(cfg: Config, clock: Clock, createOk: bool, s: State): seq<Action> {
    if GrowCount(cfg, clock, s) == 0 then []
    else [ReserveBatch(GrowCount(cfg, clock, s), createOk)]
  }

  lemma GrowRuns(cfg: Config, clock: Clock, createOk: bool, s: State)
    ensures Runs(cfg, s, GrowPlan(cfg, clock, createOk, s), Grow(cfg, clock, createOk, s))
  {
    if GrowCount(cfg, clock, s) != 0 {
      RunsOne(cfg, s, ReserveBatch(GrowCount(cfg, clock, s), createOk));
    }
  }

  /** Growth touches nothing but the supply under construction. */
  lemma GrowFrame(cfg: Config, clock: Clock, createOk: bool, s: State)
    ensures var t := Grow(cfg, clock, createOk, s);
            && t == s.(inventory := t.inventory, out := t.out, counters := t.counters)
            && t.inventory == s.inventory.(nextId := t.inventory.nextId, creating := t.inventory.creating)
  {
  }

  /** Serve the queue from the front while databases are ready. */
  function DispatchPlan(cfg: Config, clock: Clock, s: State): seq<Action>
    decreases |s.waiters|
  {
    if s.inventory.ready == [] || s.waiters == [] || s.waiters[0] !in s.groups then [] else
      var vs := Judge(cfg, clock, s.groups[s.waiters[0]]);
      [ServeNext(vs)] + DispatchPlan(cfg, clock, Serve(cfg, PopNext(s), s.waiters[0], vs))
  }

  ghost predicate Coherent(s: State) {
    Queues(s.leases, s.records, s.waiters, s.groups)
  }

  lemma NextQueued(cfg: Config, s: State, vs: seq<Verdict>)
    requires Coherent(s) && Enabled(cfg, s, ServeNext(vs))
    ensures Coherent(Apply(cfg, s, ServeNext(vs)))
  {
    PopKeepsQueues(s.leases, s.records, s.waiters, s.groups);
  }

  /** Under the invariants, dispatching is serving the front and going on. */
  lemma DispatchNext(cfg: Config, clock: Clock, s: State)
    requires Coherent(s) && s.inventory.ready != [] && s.waiters != []
    ensures s.waiters[0] in s.groups
    ensures var a := ServeNext(Judge(cfg, clock, s.groups[s.waiters[0]]));
            && Enabled(cfg, s, a)
            && Dispatch(cfg, clock, s) == Dispatch(cfg, clock, Apply(cfg, s, a))
            && DispatchPlan(cfg, clock, s) == [a] + DispatchPlan(cfg, clock, Apply(cfg, s, a))
            && |Apply(cfg, s, a).waiters| < |s.waiters|
  {
    assert s.waiters[0] in s.waiters;
    var replies := s.groups[s.waiters[0]];
    assert Judged(Judge(cfg, clock, replies)) == Consumers(replies);
  }

  lemma {:induction false} DispatchRuns(cfg: Config, clock: Clock, s: State)
    requires Coherent(s)
    ensures Runs(cfg, s, DispatchPlan(cfg, clock, s), Dispatch(cfg, clock, s))
    ensures var t := Dispatch(cfg, clock, s); t.waiters == [] || t.inventory.ready == []
    decreases |s.waiters|
  {
    if s.inventory.ready != [] && s.waiters != [] {
      DispatchNext(cfg, clock, s);
      var a := ServeNext(Judge(cfg, clock, s.groups[s.waiters[0]]));
      var t := Apply(cfg, s, a);
      NextQueued(cfg, s, a.verdicts);
      DispatchRuns(cfg, clock, t);
      RunsOne(cfg, s, a);
      RunsThen(cfg, s, [a], t, DispatchPlan(cfg, clock, t), Dispatch(cfg, clock, s));
    }
  }

  lemma DispatchSound(cfg: Config, clock: Clock, s: State)
    requires Sound(cfg, s)
    ensures var t := Dispatch(cfg, clock, s); Sound(cfg, t)
  {
    DispatchRuns(cfg, clock, s);
    RunsSound(cfg, s, DispatchPlan(cfg, clock, s), Dispatch(cfg, clock, s));
  }

  function AdmitPlan(s: State, lease: LeaseId): seq<Action> {
    if lease in s.records then [] else [AdmitLease(lease)]
  }

  function AttachPlan(cfg: Config, input: Input, s: State, lease: LeaseId, consumer: Consumer, at: nat): seq<Action> {
    var (s1, status) := Admit(cfg, s, lease);
    match status
    case None => [Answer(AttachReplied(consumer, lease, Rejected(LeaseRecordLimitReached)))]
    case Some(Closed) => [Answer(AttachReplied(consumer, lease, Rejected(LeaseClosed)))]
    case Some(Open) =>
      AdmitPlan(s, lease) +
      if lease in s1.leases then
        [Join(lease, consumer)]
      else if s1.inventory.ready == [] then
        var s2 := Enqueue(s1, lease, Queued(consumer, at));
        [Wait(lease, Queued(consumer, at))] + GrowPlan(cfg, input.clock, input.createOk, s2)
      else
        var s2 := Serve(cfg, s1, lease, [Verdict(consumer, false)]);
        [ServeFresh(lease, consumer)] + GrowPlan(cfg, input.clock, input.createOk, s2)
  }

  lemma AdmitRuns(cfg: Config, s: State, lease: LeaseId)
    requires Admit(cfg, s, lease).1.Some?
    ensures var s1 := Admit(cfg, s, lease).0;
            && Runs(cfg, s, AdmitPlan(s, lease), s1)
            && s1 == s.(records := s1.records) && lease in s1.records && s1.records[lease] == Admit(cfg, s, lease).1.value
  {
    if lease !in s.records {
      RunsOne(cfg, s, AdmitLease(lease));
    }
  }

  /** A plan followed by one action and then by growth. */
  lemma ThenGrow(cfg: Config, clock: Clock, createOk: bool, s: State, plan: seq<Action>, m: State)
    requires Runs(cfg, s, plan, m)
    ensures Runs(cfg, s, plan + GrowPlan(cfg, clock, createOk, m), Grow(cfg, clock, createOk, m))
  {
    GrowRuns(cfg, clock, createOk, m);
    RunsThen(cfg, s, plan, m, GrowPlan(cfg, clock, createOk, m), Grow(cfg, clock, createOk, m));
  }

  lemma OneThenGrow(cfg: Config, input: Input, s: State, plan: seq<Action>, m: State, a: Action, grows: bool)
    requires Runs(cfg, s, plan, m) && Enabled(cfg, m, a)
    ensures var t := Apply(cfg, m, a);
            var grow := if grows then GrowPlan(cfg, input.clock, input.createOk, t) else [];
            Runs(cfg, s, plan + ([a] + grow), if grows then Grow(cfg, input.clock, input.createOk, t) else t)
  {
    var t := Apply(cfg, m, a);
    RunsMore(cfg, s, plan, m, a);
    if grows {
      ThenGrow(cfg, input.clock, input.createOk, s, plan + [a], t);
      assert plan + ([a] + GrowPlan(cfg, input.clock, input.createOk, t))
          == plan + [a] + GrowPlan(cfg, input.clock, input.createOk, t);
    } else {
      assert [a] + [] == [a];
    }
  }

  /** What an attach of an open lease does first. */
  function AttachAction(s: State, lease: LeaseId, consumer: Consumer, at: nat): Action {
    if lease in s.leases then Join(lease, consumer)
    else if s.inventory.ready == [] then Wait(lease, Queued(consumer, at))
    else ServeFresh(lease, consumer)
  }

  /** A fresh lease is served only when nobody waits, so there is nothing to
      dispatch when its database comes back. */
  lemma NothingToDispatch(cfg: Config, clock: Clock, s: State, lease: LeaseId, vs: seq<Verdict>)
    requires s.waiters == [] && (lease in s.leases || s.inventory.ready != [])
    ensures var t := Serve(cfg, s, lease, vs); Dispatch(cfg, clock, t) == t && t.waiters == []
  {
  }

  lemma AttachOpen(cfg: Config, input: Input, s: State, lease: LeaseId, consumer: Consumer, at: nat)
    requires s.waiters != [] ==> s.inventory.ready == []
    requires Admit(cfg, s, lease).1 == Some(Open)
    ensures var s1 := Admit(cfg, s, lease).0;
            var a := AttachAction(s1, lease, consumer, at);
            && Enabled(cfg, s1, a)
            && Attach(cfg, input.clock, input.createOk, s, lease, consumer, at)
               == (if a.Join? then Apply(cfg, s1, a) else Grow(cfg, input.clock, input.createOk, Apply(cfg, s1, a)))
            && AttachPlan(cfg, input, s, lease, consumer, at)
               == AdmitPlan(s, lease) + ([a] + if a.Join? then [] else
                                                 GrowPlan(cfg, input.clock, input.createOk, Apply(cfg, s1, a)))
  {
    var s1 := Admit(cfg, s, lease).0;
    if lease !in s1.leases && s1.inventory.ready != [] {
      NothingToDispatch(cfg, input.clock, s1, lease, [Verdict(consumer, false)]);
    }
  }

  lemma AttachRuns(cfg: Config, input: Input, s: State, lease: LeaseId, consumer: Consumer, at: nat)
    requires s.waiters != [] ==> s.inventory.ready == []
    ensures var t := Attach(cfg, input.clock, input.createOk, s, lease, consumer, at);
            Runs(cfg, s, AttachPlan(cfg, input, s, lease, consumer, at), t)
  {
    var (s1, status) := Admit(cfg, s, lease);
    if status == Some(Open) {
      AdmitRuns(cfg, s, lease);
      AttachOpen(cfg, input, s, lease, consumer, at);
      var a := AttachAction(s1, lease, consumer, at);
      OneThenGrow(cfg, input, s, AdmitPlan(s, lease), s1, a, !a.Join?);
    } else {
      RunsOne(cfg, s, AttachPlan(cfg, input, s, lease, consumer, at)[0]);
    }
  }

  lemma AttachSettles(cfg: Config, input: Input, s: State, lease: LeaseId, consumer: Consumer, at: nat)
    requires s.waiters != [] ==> s.inventory.ready == []
    ensures var t := Attach(cfg, input.clock, input.createOk, s, lease, consumer, at);
            t.waiters != [] ==> t.inventory.ready == []
  {
    var (s1, status) := Admit(cfg, s, lease);
    if status == Some(Open) {
      AttachOpen(cfg, input, s, lease, consumer, at);
      var a := AttachAction(s1, lease, consumer, at);
      GrowFrame(cfg, input.clock, input.createOk, Apply(cfg, s1, a));
      match a
      case Join(_, _) => assert Apply(cfg, s1, a).inventory == s1.inventory;
      case Wait(_, _) =>
      case ServeFresh(_, _) => assert Apply(cfg, s1, a).waiters == [];
    }
  }

  function RetirePlan(cfg: Config, input: Input, s: State, lease: LeaseId): seq<Action> {
    if lease in s.leases then [RetireLease(lease, input.cleanupOk)] else []
  }

  function ReleasePlan(cfg: Config, input: Input, s: State, lease: LeaseId, consumer: Consumer): seq<Action> {
    var (s1, status) := Admit(cfg, s, lease);
    match status
    case None => [Answer(ReleaseReplied(consumer, false))]
    case Some(Closed) => [Answer(ReleaseReplied(consumer, true))]
    case Some(Open) =>
      AdmitPlan(s, lease) + RetirePlan(cfg, input, s1, lease) + [CloseLease(lease)]
      + (if lease in s1.leases then
           GrowPlan(cfg, input.clock, input.createOk, Close(RetireOne(s1, lease, input.cleanupOk), lease))
         else [])
      + [Answer(ReleaseReplied(consumer, true))]
  }

  /** What a release is made of: it brings and hands out nothing. */
  predicate Clerical(a: Action) {
    || a.AdmitLease? || a.RetireLease? || a.CloseLease? || a.ReserveBatch?
    || (a.Answer? && a.event.ReleaseReplied?)
  }

  predicate AllClerical(plan: seq<Action>) {
    forall a | a in plan :: Clerical(a)
  }

  lemma ClericalParts(a: seq<Action>, b: seq<Action>, c: seq<Action>, d: seq<Action>, e: seq<Action>)
    requires AllClerical(a) && AllClerical(b) && AllClerical(c) && AllClerical(d) && AllClerical(e)
    ensures AllClerical(a + b + c + d + e)
  {
  }

  lemma ReleaseClerical(cfg: Config, input: Input, s: State, lease: LeaseId, consumer: Consumer)
    ensures var plan := ReleasePlan(cfg, input, s, lease, consumer); AllClerical(plan)
  {
    var (s1, status) := Admit(cfg, s, lease);
    if status == Some(Open) {
      var grow := if lease in s1.leases then
          GrowPlan(cfg, input.clock, input.createOk, Close(RetireOne(s1, lease, input.cleanupOk), lease))
        else [];
      ClericalParts(AdmitPlan(s, lease), RetirePlan(cfg, input, s1, lease), [CloseLease(lease)], grow,
                    [Answer(ReleaseReplied(consumer, true))]);
    }
  }

  /** Closing and retiring commute: an assigned lease has no queued replies. */
  lemma CloseRetireCommute(s: State, lease: LeaseId, ok: bool)
    requires lease in s.leases && lease !in s.groups
    ensures Close(RetireOne(s, lease, ok), lease) == RetireOne(Close(s, lease), lease, ok)
  {
  }

  lemma ReleaseRuns(cfg: Config, input: Input, s: State, lease: LeaseId, consumer: Consumer)
    requires lease in s.leases ==> lease !in s.groups
    ensures var t := Release(cfg, input, s, lease, consumer);
            Runs(cfg, s, ReleasePlan(cfg, input, s, lease, consumer), t)
  {
    var (s1, status) := Admit(cfg, s, lease);
    if status == Some(Open) {
      AdmitRuns(cfg, s, lease);
      var retire := RetirePlan(cfg, input, s1, lease);
      var s2 := if lease in s1.leases then RetireOne(s1, lease, input.cleanupOk) else s1;
      var plan := AdmitPlan(s, lease) + retire;
      if lease in s1.leases {
        RunsMore(cfg, s, AdmitPlan(s, lease), s1, RetireLease(lease, input.cleanupOk));
        CloseRetireCommute(s1, lease, input.cleanupOk);
      } else {
        assert plan == AdmitPlan(s, lease);
      }
      RunsMore(cfg, s, plan, s2, CloseLease(lease));
      ReleaseTail(cfg, input, s, plan + [CloseLease(lease)], Close(s2, lease), lease in s1.leases, consumer);
    } else {
      RunsOne(cfg, s, ReleasePlan(cfg, input, s, lease, consumer)[0]);
    }
  }

  lemma ReleaseTail(cfg: Config, input: Input, s: State, plan: seq<Action>, m: State, held: bool, consumer: Consumer)
    requires Runs(cfg, s, plan, m)
    ensures var grow := if held then GrowPlan(cfg, input.clock, input.createOk, m) else [];
            var t := if held then Grow(cfg, input.clock, input.createOk, m) else m;
            var e := ReleaseReplied(consumer, true);
            Runs(cfg, s, plan + grow + [Answer(e)], Say(t, e))
  {
    var a := Answer(ReleaseReplied(consumer, true));
    if held {
      ThenGrow(cfg, input.clock, input.createOk, s, plan, m);
      RunsMore(cfg, s, plan + GrowPlan(cfg, input.clock, input.createOk, m), Grow(cfg, input.clock, input.createOk, m), a);
    } else {
      assert plan + [] == plan;
      RunsMore(cfg, s, plan, m, a);
    }
  }

  lemma ReleaseSettles(cfg: Config, input: Input, s: State, lease: LeaseId, consumer: Consumer)
    requires s.waiters != [] ==> s.inventory.ready == []
    ensures var t := Release(cfg, input, s, lease, consumer);
            t.waiters != [] ==> t.inventory.ready == []
  {
    WithoutNone(s.waiters, lease);
    var (s1, status) := Admit(cfg, s, lease);
    if status == Some(Open) {
      var s2 := Close(s1, lease);
      if lease in s2.leases {
        GrowFrame(cfg, input.clock, input.createOk, RetireOne(s2, lease, input.cleanupOk));
      }
    }
  }

  lemma {:induction false} WithoutNone(waiters: seq<LeaseId>, lease: LeaseId)
    ensures |Without(waiters, lease)| <= |waiters|
  {
    if waiters != [] {
      WithoutNone(waiters[..|waiters| - 1], lease);
    }
  }

  function Plan(cfg: Config, s: State, input: Input): seq<Action> {
    if s.shutdown then [] else
      match input.msg
      case AttachOrJoin(lease, consumer, at) => AttachPlan(cfg, input, s, lease, consumer, at)
      case ReleaseLease(lease, consumer) => ReleasePlan(cfg, input, s, lease, consumer)
      case Detach(lease, generation) =>
        if Current(s, lease, generation) then [DropConnection(lease)] else []
      case LeaseMaxTimeReached(lease, generation) =>
        if Current(s, lease, generation) then
          [CountExpiry, RetireLease(lease, input.cleanupOk)]
          + GrowPlan(cfg, input.clock, input.createOk, RetireOne(Expire(s), lease, input.cleanupOk))
        else []
      case CreationFinished(id, result) =>
        if id in s.inventory.creating then
          var s1 := CompleteCreation(s, id, result);
          [SettleCreation(id, result)] + DispatchPlan(cfg, input.clock, s1)
          + GrowPlan(cfg, input.clock, input.createOk, Dispatch(cfg, input.clock, s1))
        else []
      case CleanupFinished(id, ok) =>
        if id in s.inventory.retiring && ok then [SettleCleanup(id)] else []
      case Shutdown => [Halt]
  }

  /** The report of a pending creation settles it, dispatches and grows. */
  lemma CreationShape(cfg: Config, s: State, input: Input)
    requires !s.shutdown && input.msg.CreationFinished? && input.msg.id in s.inventory.creating
    ensures var s1 := CompleteCreation(s, input.msg.id, input.msg.result);
            var s2 := Dispatch(cfg, input.clock, s1);
            && Process(cfg, s, input) == Grow(cfg, input.clock, input.createOk, s2)
            && Plan(cfg, s, input) == [SettleCreation(input.msg.id, input.msg.result)] + DispatchPlan(cfg, input.clock, s1)
                                      + GrowPlan(cfg, input.clock, input.createOk, s2)
  {
  }

  lemma SettleRuns(cfg: Config, clock: Clock, createOk: bool, s: State, id: nat, result: Option<string>)
    requires Coherent(s) && id in s.inventory.creating
    ensures var s1 := CompleteCreation(s, id, result);
            var s2 := Dispatch(cfg, clock, s1);
            var plan := [SettleCreation(id, result)] + DispatchPlan(cfg, clock, s1) + GrowPlan(cfg, clock, createOk, s2);
            Runs(cfg, s, plan, Grow(cfg, clock, createOk, s2))
  {
    var a := SettleCreation(id, result);
    var s1 := CompleteCreation(s, id, result);
    var dispatch := DispatchPlan(cfg, clock, s1);
    var s2 := Dispatch(cfg, clock, s1);
    RunsOne(cfg, s, a);
    DispatchRuns(cfg, clock, s1);
    RunsThen(cfg, s, [a], s1, dispatch, s2);
    ThenGrow(cfg, clock, createOk, s, [a] + dispatch, s2);
  }

  lemma CreationRuns(cfg: Config, s: State, input: Input)
    requires Coherent(s) && !s.shutdown && input.msg.CreationFinished? && input.msg.id in s.inventory.creating
    ensures var t := Process(cfg, s, input);
            Runs(cfg, s, Plan(cfg, s, input), t) && (t.waiters != [] ==> t.inventory.ready == [])
  {
    var s1 := CompleteCreation(s, input.msg.id, input.msg.result);
    CreationShape(cfg, s, input);
    SettleRuns(cfg, input.clock, input.createOk, s, input.msg.id, input.msg.result);
    DispatchRuns(cfg, input.clock, s1);
    GrowFrame(cfg, input.clock, input.createOk, Dispatch(cfg, input.clock, s1));
  }

  lemma ExpiryRuns(cfg: Config, s: State, input: Input)
    requires !s.shutdown && input.msg.LeaseMaxTimeReached? && Current(s, input.msg.lease, input.msg.generation)
    requires s.waiters != [] ==> s.inventory.ready == []
    ensures var t := Process(cfg, s, input);
            Runs(cfg, s, Plan(cfg, s, input), t) && (t.waiters != [] ==> t.inventory.ready == [])
  {
    var lease := input.msg.lease;
    var a := RetireLease(lease, input.cleanupOk);
    assert [CountExpiry, a] == [CountExpiry] + [a];
    RunsOne(cfg, s, CountExpiry);
    RunsMore(cfg, s, [CountExpiry], Expire(s), a);
    ThenGrow(cfg, input.clock, input.createOk, s, [CountExpiry, a], RetireOne(Expire(s), lease, input.cleanupOk));
  }

  lemma AskRuns(cfg: Config, s: State, input: Input)
    requires Valid(cfg, s) && !s.shutdown && (input.msg.AttachOrJoin? || input.msg.ReleaseLease?)
    ensures var t := Process(cfg, s, input);
            Runs(cfg, s, Plan(cfg, s, input), t) && (t.waiters != [] ==> t.inventory.ready == [])
  {
    match input.msg
    case AttachOrJoin(lease, consumer, at) =>
      AttachRuns(cfg, input, s, lease, consumer, at);
      AttachSettles(cfg, input, s, lease, consumer, at);
    case ReleaseLease(lease, consumer) =>
      ReleaseRuns(cfg, input, s, lease, consumer);
      ReleaseSettles(cfg, input, s, lease, consumer);
  }

  lemma ReportRuns(cfg: Config, s: State, input: Input)
    requires Valid(cfg, s) && !s.shutdown && (input.msg.LeaseMaxTimeReached? || input.msg.CreationFinished?)
    ensures var t := Process(cfg, s, input);
            Runs(cfg, s, Plan(cfg, s, input), t) && (t.waiters != [] ==> t.inventory.ready == [])
  {
    match input.msg
    case LeaseMaxTimeReached(lease, generation) =>
      if Current(s, lease, generation) { ExpiryRuns(cfg, s, input); }
    case CreationFinished(id, result) =>
      if id in s.inventory.creating { CreationRuns(cfg, s, input); }
  }

  lemma QuietRuns(cfg: Config, s: State, input: Input)
    requires Valid(cfg, s) && !s.shutdown && (input.msg.Detach? || input.msg.CleanupFinished? || input.msg.Shutdown?)
    ensures var t := Process(cfg, s, input);
            Runs(cfg, s, Plan(cfg, s, input), t) && (t.waiters != [] ==> t.inventory.ready == [])
  {
    match input.msg
    case Detach(_, _) => DetachRuns(cfg, s, input);
    case CleanupFinished(id, ok) =>
      if id in s.inventory.retiring && ok { RunsOne(cfg, s, SettleCleanup(id)); }
    case Shutdown => RunsOne(cfg, s, Halt);
  }

  lemma DetachRuns(cfg: Config, s: State, input: Input)
    requires Valid(cfg, s) && !s.shutdown && input.msg.Detach?
    ensures var t := Process(cfg, s, input);
            Runs(cfg, s, Plan(cfg, s, input), t) && (t.waiters != [] ==> t.inventory.ready == [])
  {
    if Current(s, input.msg.lease, input.msg.generation) {
      RunsOne(cfg, s, DropConnection(input.msg.lease));
    }
  }

  /** Every message refines a plan of enabled actions. */
  lemma MessageRuns(cfg: Config, s: State, input: Input)
    requires Valid(cfg, s)
    ensures var t := Process(cfg, s, input);
            Runs(cfg, s, Plan(cfg, s, input), t) && (t.waiters != [] ==> t.inventory.ready == [])
  {
    if !s.shutdown {
      match input.msg
      case AttachOrJoin(_, _, _) => AskRuns(cfg, s, input);
      case ReleaseLease(_, _) => AskRuns(cfg, s, input);
      case LeaseMaxTimeReached(_, _) => ReportRuns(cfg, s, input);
      case CreationFinished(_, _) => ReportRuns(cfg, s, input);
      case Detach(_, _) => QuietRuns(cfg, s, input);
      case CleanupFinished(_, _) => QuietRuns(cfg, s, input);
      case Shutdown => QuietRuns(cfg, s, input);
    }
  }

  /** Every message leaves the engine valid for the next one. */
  lemma MessageValid(cfg: Config, s: State, input: Input)
    requires Valid(cfg, s)
    ensures var t := Process(cfg, s, input); Valid(cfg, t)
  {
    MessageRuns(cfg, s, input);
    RunsSound(cfg, s, Plan(cfg, s, input), Process(cfg, s, input));
  }

  lemma StartValid(cfg: Config, s: State)
    requires Started(s)
    ensures Valid(cfg, s)
  {
  }

  lemma {:induction false} RunValid(cfg: Config, s: State, inputs: seq<Input>)
    requires Valid(cfg, s)
    ensures var t := Run(cfg, s, inputs); Valid(cfg, t)
  {
    if inputs != [] {
      RunValid(cfg, s, inputs[..|inputs| - 1]);
      MessageValid(cfg, Run(cfg, s, inputs[..|inputs| - 1]), inputs[|inputs| - 1]);
    }
  }

  /** The invariants hold in every reachable state. */
  lemma ReachableValid(cfg: Config, s: State)
    requires Reachable(cfg, s)
    ensures Valid(cfg, s)
  {
    var start, inputs :| Started(start) && s == Run(cfg, start, inputs);
    StartValid(cfg, start);
    RunValid(cfg, start, inputs);
  }
}
