/**
  The engine as a labelled transition system over two maps, one phase per database id
  and one state per lease: what each message may do to them, and to nothing else.
 */
module Transitions {
  import opened EngineTypes
  import opened EngineSpec
  import opened Ledger
  import opened Soundness
  import opened Plans
  import opened Lifecycle

  // ------------------------------------------------------------- the relation

  /** The lease holds a database under this generation. */
  predicate HeldUnder(p: LeaseState, generation: nat) {
    p.Held? && p.generation == generation
  }

  /** The database of the lease state is retired; new ids may be reserved. */
  predicate RetiresHeld(held: LeaseState, accepted: bool, id: nat, p: Phase, q: Phase) {
    if held.Held? && held.id == id then q == Retiring else Reserving(accepted, p, q)
  }

  /** The message moves the database `id` from phase `p` to phase `q`. */
  ghost predicate PhaseStep(cfg: Config, s: State, input: Input, id: nat, p: Phase, q: Phase) {
    match input.msg
    case AttachOrJoin(lease, consumer, _) =>
      if !Serves(cfg, s, lease) then q == p
      else if Hands(s, consumer, id) then p == Ready && q == Leased(lease, s.nextGeneration + 1)
      else Reserving(input.createOk, p, q)
    case ReleaseLease(lease, _) =>
      if LeaseOf(s, lease).Held? then RetiresHeld(LeaseOf(s, lease), input.createOk, id, p, q) else q == p
    case LeaseMaxTimeReached(lease, generation) =>
      if HeldUnder(LeaseOf(s, lease), generation) then RetiresHeld(LeaseOf(s, lease), input.createOk, id, p, q)
      else q == p
    case CreationFinished(x, result) =>
      if PhaseOf(s, x) != Creating then q == p
      else if id != x then Reserving(input.createOk, p, q)
      else if result.None? then q == Failed
      else q == Ready || (q.Leased? && LeaseOf(s, q.lease) == InQueue && q.generation > s.nextGeneration)
    case CleanupFinished(x, ok) => if ok && id == x && p == Retiring then q == Cleaned else q == p
    case Detach(_, _) => q == p
    case Shutdown => q == p
  }

  /** What becomes of a lease without a database whose attach is read: it waits for one,
      holds the oldest one that is ready, or goes without because nobody was there. */
  function AttachedState(s: State, consumer: Consumer): LeaseState {
    if s.inventory.ready == [] then InQueue
    else if consumer.reachable then Held(s.inventory.ready[0].id, s.nextGeneration + 1)
    else Idle
  }

  /** An attach that is served hands out the oldest ready database, to a consumer that is
      there to receive it. */
  predicate Hands(s: State, consumer: Consumer, id: nat) {
    consumer.reachable && s.inventory.ready != [] && id == s.inventory.ready[0].id
  }

  /** The lease may ask for a database: it is open or admitted now, and holds none. */
  predicate Serves(cfg: Config, s: State, lease: LeaseId) {
    var p := LeaseOf(s, lease);
    p == Idle || p == InQueue || (p == Unknown && |s.records| < cfg.maxRecords)
  }

  /** The message moves the lease `l` from `p` to `q`. */
  ghost predicate LeaseStep(cfg: Config, s: State, input: Input, l: LeaseId, p: LeaseState, q: LeaseState) {
    match input.msg
    case AttachOrJoin(lease, consumer, _) =>
      q == if l != lease || !Serves(cfg, s, lease) then p else AttachedState(s, consumer)
    case ReleaseLease(lease, _) =>
      q == if l != lease || (p == Unknown && |s.records| >= cfg.maxRecords) then p else Shut
    case LeaseMaxTimeReached(lease, generation) => q == if l == lease && HeldUnder(p, generation) then Idle else p
    case CreationFinished(x, result) =>
      || q == p
      || (PhaseOf(s, x) == Creating && result.Some? && p == InQueue
          && (q == Idle || (q.Held? && q.id == x && q.generation > s.nextGeneration)))
    case CleanupFinished(_, _) => q == p
    case Detach(_, _) => q == p
    case Shutdown => q == p
  }

  /** One message takes the two maps from `s` to `t`; a stopped engine does not move. */
  ghost predicate Step(cfg: Config, s: State, input: Input, t: State) {
    && (forall id :: if s.shutdown then PhaseOf(t, id) == PhaseOf(s, id)
                     else PhaseStep(cfg, s, input, id, PhaseOf(s, id), PhaseOf(t, id)))
    && (forall l :: if s.shutdown then LeaseOf(t, l) == LeaseOf(s, l)
                    else LeaseStep(cfg, s, input, l, LeaseOf(s, l), LeaseOf(t, l)))
  }

  // ----------------------------------------------------- the maps agree

  /** The two maps describe the same assignments. */
  lemma HeldIsLeased(cfg: Config, s: State, l: LeaseId, id: nat, g: nat)
    requires Sound(cfg, s)
    ensures LeaseOf(s, l) == Held(id, g) <==> PhaseOf(s, id) == Leased(l, g)
  {
    ExactlyOnePhase(s, id, Leased(l, g));
  }

  lemma CreatingIs(cfg: Config, s: State, id: nat)
    requires Sound(cfg, s)
    ensures PhaseOf(s, id) == Creating <==> id in s.inventory.creating
  {
    ExactlyOnePhase(s, id, Creating);
  }

  lemma RetiringIs(cfg: Config, s: State, id: nat)
    requires Sound(cfg, s)
    ensures PhaseOf(s, id) == Retiring <==> id in s.inventory.retiring
  {
    ExactlyOnePhase(s, id, Retiring);
  }

  // ------------------------------------------------------------- growth

  lemma GrowPhase(cfg: Config, clock: Clock, createOk: bool, s: State, id: nat)
    requires Sound(cfg, s)
    ensures var t := Grow(cfg, clock, createOk, s); Reserving(createOk, PhaseOf(s, id), PhaseOf(t, id))
  {
    if GrowCount(cfg, clock, s) != 0 {
      ReservePhase(cfg, s, GrowCount(cfg, clock, s), createOk, id);
    }
  }

  lemma GrowLease(cfg: Config, clock: Clock, createOk: bool, s: State, l: LeaseId)
    ensures LeaseOf(Grow(cfg, clock, createOk, s), l) == LeaseOf(s, l)
  {
    GrowFrame(cfg, clock, createOk, s);
  }

  // ----------------------------------------------------------- detach, cleanup

  lemma StillStepPhase(cfg: Config, s: State, a: Action, t: State, id: nat)
    requires Sound(cfg, s) && Still(a) && Enabled(cfg, s, a) && t == Apply(cfg, s, a)
    ensures PhaseOf(t, id) == PhaseOf(s, id)
  {
    StepPhase(cfg, s, a, id);
  }

  lemma DetachPhase(cfg: Config, s: State, input: Input, id: nat)
    requires Sound(cfg, s) && (input.msg.Detach? || input.msg.Shutdown?)
    ensures var t := Process(cfg, s, input); PhaseOf(t, id) == PhaseOf(s, id)
  {
    var t := Process(cfg, s, input);
    if !s.shutdown && input.msg.Shutdown? {
      StillStepPhase(cfg, s, Halt, t, id);
    } else if !s.shutdown && Current(s, input.msg.lease, input.msg.generation) {
      StillStepPhase(cfg, s, DropConnection(input.msg.lease), t, id);
    }
  }

  lemma CleanupPhase(cfg: Config, s: State, input: Input, id: nat)
    requires Sound(cfg, s) && !s.shutdown && input.msg.CleanupFinished?
    ensures var t := Process(cfg, s, input); PhaseStep(cfg, s, input, id, PhaseOf(s, id), PhaseOf(t, id))
  {
    RetiringIs(cfg, s, id);
    if input.msg.id in s.inventory.retiring && input.msg.ok {
      ForgetPhase(cfg, s, input.msg.id, id);
    }
  }

  // ------------------------------------------------------------- retirement

  /** Retiring a held lease and growing moves its database and reserves new ids. */
  lemma RetirePhases(cfg: Config, input: Input, s: State, lease: LeaseId, id: nat)
    requires Sound(cfg, s) && lease in s.leases
    ensures var t := Grow(cfg, input.clock, input.createOk, RetireOne(s, lease, input.cleanupOk));
            RetiresHeld(LeaseOf(s, lease), input.createOk, id, PhaseOf(s, id), PhaseOf(t, id))
  {
    HeldState(s, lease);
    RetirePhase(cfg, s, lease, input.cleanupOk, id);
    RetiredGrowPhase(cfg, input, s, lease, id);
  }

  lemma HeldState(s: State, lease: LeaseId)
    requires Coherent(s) && lease in s.leases
    ensures LeaseOf(s, lease) == Held(s.leases[lease].database.id, s.leases[lease].generation)
  {
  }

  lemma RetiredGrowPhase(cfg: Config, input: Input, s: State, lease: LeaseId, id: nat)
    requires Sound(cfg, s) && lease in s.leases
    ensures var m := RetireOne(s, lease, input.cleanupOk);
            var t := Grow(cfg, input.clock, input.createOk, m);
            Reserving(input.createOk, PhaseOf(m, id), PhaseOf(t, id))
  {
    RetireKeepsSound(cfg, s, lease, input.cleanupOk);
    GrowPhase(cfg, input.clock, input.createOk, RetireOne(s, lease, input.cleanupOk), id);
  }

  lemma ExpiryPhase(cfg: Config, s: State, input: Input, id: nat)
    requires Sound(cfg, s) && !s.shutdown && input.msg.LeaseMaxTimeReached?
    ensures var t := Process(cfg, s, input); PhaseStep(cfg, s, input, id, PhaseOf(s, id), PhaseOf(t, id))
  {
    if Current(s, input.msg.lease, input.msg.generation) {
      ExpiredPhases(cfg, input, s, input.msg.lease, id);
      ExpiryShape(cfg, s, input);
      assert IsOpen(s.records, input.msg.lease);
    } else {
      assert Process(cfg, s, input) == s;
    }
  }

  lemma ExpiryShape(cfg: Config, s: State, input: Input)
    requires !s.shutdown && input.msg.LeaseMaxTimeReached? && Current(s, input.msg.lease, input.msg.generation)
    ensures Process(cfg, s, input)
         == Grow(cfg, input.clock, input.createOk, RetireOne(Expire(s), input.msg.lease, input.cleanupOk))
  {
  }

  lemma ExpiredPhases(cfg: Config, input: Input, s: State, lease: LeaseId, id: nat)
    requires Sound(cfg, s) && lease in s.leases
    ensures var t := Grow(cfg, input.clock, input.createOk, RetireOne(Expire(s), lease, input.cleanupOk));
            RetiresHeld(LeaseOf(s, lease), input.createOk, id, PhaseOf(s, id), PhaseOf(t, id))
  {
    StepSound(cfg, s, CountExpiry);
    StillStepPhase(cfg, s, CountExpiry, Expire(s), id);
    RetirePhases(cfg, input, Expire(s), lease, id);
  }

  lemma SayPhase(cfg: Config, s: State, e: Event, id: nat)
    requires Sound(cfg, s) && Enabled(cfg, s, Answer(e))
    ensures PhaseOf(Say(s, e), id) == PhaseOf(s, id)
  {
    StillStepPhase(cfg, s, Answer(e), Say(s, e), id);
  }

  /** Closing an unassigned lease moves no database. */
  lemma ClosePhase(cfg: Config, s: State, lease: LeaseId, id: nat)
    requires Sound(cfg, s) && IsOpen(s.records, lease) && lease !in s.leases
    ensures var t := Close(s, lease); Sound(cfg, t) && PhaseOf(t, id) == PhaseOf(s, id)
  {
    StepSound(cfg, s, CloseLease(lease));
    StillStepPhase(cfg, s, CloseLease(lease), Close(s, lease), id);
  }

  lemma AdmitPhase(cfg: Config, s: State, lease: LeaseId, id: nat)
    requires Sound(cfg, s)
    ensures var s1 := Admit(cfg, s, lease).0; Sound(cfg, s1) && PhaseOf(s1, id) == PhaseOf(s, id)
  {
    if Enabled(cfg, s, AdmitLease(lease)) {
      StepSound(cfg, s, AdmitLease(lease));
      StillStepPhase(cfg, s, AdmitLease(lease), Admit(cfg, s, lease).0, id);
    }
  }

  /** A release of a lease that holds nothing only closes it. */
  lemma IdleReleasePhase(cfg: Config, s: State, input: Input, id: nat)
    requires Sound(cfg, s) && !s.shutdown && input.msg.ReleaseLease? && input.msg.lease !in s.leases
    ensures var t := Process(cfg, s, input); PhaseOf(t, id) == PhaseOf(s, id)
  {
    var lease, c := input.msg.lease, input.msg.consumer;
    var (s1, status) := Admit(cfg, s, lease);
    if status == Some(Open) {
      assert Process(cfg, s, input) == Say(Close(s1, lease), ReleaseReplied(c, true));
      AdmittedClosed(cfg, s, lease, c, id);
    } else {
      assert Process(cfg, s, input) == Say(s, ReleaseReplied(c, status.Some?));
      SayPhase(cfg, s, ReleaseReplied(c, status.Some?), id);
    }
  }

  lemma AdmittedClosed(cfg: Config, s: State, lease: LeaseId, c: Consumer, id: nat)
    requires Sound(cfg, s) && lease !in s.leases && Admit(cfg, s, lease).1 == Some(Open)
    ensures PhaseOf(Say(Close(Admit(cfg, s, lease).0, lease), ReleaseReplied(c, true)), id) == PhaseOf(s, id)
  {
    AdmitPhase(cfg, s, lease, id);
    ClosedSaid(cfg, Admit(cfg, s, lease).0, lease, c, id);
  }

  lemma ClosedSaid(cfg: Config, s: State, lease: LeaseId, c: Consumer, id: nat)
    requires Sound(cfg, s) && lease !in s.leases && IsOpen(s.records, lease)
    ensures PhaseOf(Say(Close(s, lease), ReleaseReplied(c, true)), id) == PhaseOf(s, id)
  {
    ClosePhase(cfg, s, lease, id);
    SayPhase(cfg, Close(s, lease), ReleaseReplied(c, true), id);
  }

  /** The engine between retiring a released lease and growing. */
  lemma RetiredClosed(cfg: Config, s: State, lease: LeaseId, ok: bool, id: nat)
    requires Sound(cfg, s) && lease in s.leases
    ensures var m := Close(RetireOne(s, lease, ok), lease);
            Sound(cfg, m) && PhaseOf(m, id) == PhaseOf(RetireOne(s, lease, ok), id)
  {
    RetireKeepsSound(cfg, s, lease, ok);
    assert IsOpen(s.records, lease);
    ClosePhase(cfg, RetireOne(s, lease, ok), lease, id);
  }

  lemma GrownAnswered(cfg: Config, input: Input, m: State, e: Event, id: nat)
    requires Sound(cfg, m) && Enabled(cfg, m, Answer(e))
    ensures var t := Say(Grow(cfg, input.clock, input.createOk, m), e);
            Reserving(input.createOk, PhaseOf(m, id), PhaseOf(t, id))
  {
    var g := Grow(cfg, input.clock, input.createOk, m);
    GrowPhase(cfg, input.clock, input.createOk, m, id);
    GrowRuns(cfg, input.clock, input.createOk, m);
    RunsSound(cfg, m, GrowPlan(cfg, input.clock, input.createOk, m), g);
    SayPhase(cfg, g, e, id);
  }

  lemma HeldReleasePhase(cfg: Config, s: State, input: Input, id: nat)
    requires Sound(cfg, s) && !s.shutdown && input.msg.ReleaseLease? && input.msg.lease in s.leases
    ensures var t := Process(cfg, s, input);
            RetiresHeld(LeaseOf(s, input.msg.lease), input.createOk, id, PhaseOf(s, id), PhaseOf(t, id))
  {
    ReleaseShaped(cfg, s, input);
    ReleasedPhases(cfg, s, input, input.msg.lease, id);
  }

  lemma ReleasedPhases(cfg: Config, s: State, input: Input, lease: LeaseId, id: nat)
    requires Sound(cfg, s) && lease in s.leases && input.msg.ReleaseLease?
    ensures var m := Close(RetireOne(s, lease, input.cleanupOk), lease);
            var t := Say(Grow(cfg, input.clock, input.createOk, m), ReleaseReplied(input.msg.consumer, true));
            RetiresHeld(LeaseOf(s, lease), input.createOk, id, PhaseOf(s, id), PhaseOf(t, id))
  {
    HeldState(s, lease);
    RetirePhase(cfg, s, lease, input.cleanupOk, id);
    ReleasedTail(cfg, s, input, lease, id);
  }

  lemma ReleasedTail(cfg: Config, s: State, input: Input, lease: LeaseId, id: nat)
    requires Sound(cfg, s) && lease in s.leases && input.msg.ReleaseLease?
    ensures var r := RetireOne(s, lease, input.cleanupOk);
            var t := Say(Grow(cfg, input.clock, input.createOk, Close(r, lease)), ReleaseReplied(input.msg.consumer, true));
            Reserving(input.createOk, PhaseOf(r, id), PhaseOf(t, id))
  {
    RetiredClosed(cfg, s, lease, input.cleanupOk, id);
    GrownAnswered(cfg, input, Close(RetireOne(s, lease, input.cleanupOk), lease),
                  ReleaseReplied(input.msg.consumer, true), id);
  }

  lemma ReleaseShaped(cfg: Config, s: State, input: Input)
    requires Coherent(s) && !s.shutdown && input.msg.ReleaseLease? && input.msg.lease in s.leases
    ensures var m := Close(RetireOne(s, input.msg.lease, input.cleanupOk), input.msg.lease);
            Process(cfg, s, input)
            == Say(Grow(cfg, input.clock, input.createOk, m), ReleaseReplied(input.msg.consumer, true))
  {
    CloseRetireCommute(s, input.msg.lease, input.cleanupOk);
  }

  lemma ReleasePhase(cfg: Config, s: State, input: Input, id: nat)
    requires Sound(cfg, s) && !s.shutdown && input.msg.ReleaseLease?
    ensures var t := Process(cfg, s, input); PhaseStep(cfg, s, input, id, PhaseOf(s, id), PhaseOf(t, id))
  {
    if input.msg.lease in s.leases {
      HeldReleasePhase(cfg, s, input, id);
    } else {
      IdleReleasePhase(cfg, s, input, id);
    }
  }

  // ---------------------------------------------------------------- attach

  lemma ActionThenGrow(cfg: Config, input: Input, s: State, a: Action, id: nat)
    requires Sound(cfg, s) && Enabled(cfg, s, a)
    ensures var m := Apply(cfg, s, a);
            var t := Grow(cfg, input.clock, input.createOk, m);
            && Moves(cfg, s, a, id, PhaseOf(s, id), PhaseOf(m, id))
            && Reserving(input.createOk, PhaseOf(m, id), PhaseOf(t, id))
  {
    StepPhase(cfg, s, a, id);
    StepSound(cfg, s, a);
    GrowPhase(cfg, input.clock, input.createOk, Apply(cfg, s, a), id);
  }

  lemma AdmittedAction(cfg: Config, input: Input, s: State, lease: LeaseId, a: Action, id: nat)
    requires Sound(cfg, s) && Enabled(cfg, Admit(cfg, s, lease).0, a)
    ensures var s1 := Admit(cfg, s, lease).0;
            var m := Apply(cfg, s1, a);
            var t := Grow(cfg, input.clock, input.createOk, m);
            && Moves(cfg, s1, a, id, PhaseOf(s, id), PhaseOf(m, id))
            && Reserving(input.createOk, PhaseOf(m, id), PhaseOf(t, id))
  {
    AdmitPhase(cfg, s, lease, id);
    ActionThenGrow(cfg, input, Admit(cfg, s, lease).0, a, id);
  }

  lemma OpenAttachPhase(cfg: Config, s: State, input: Input, lease: LeaseId, consumer: Consumer, at: nat, id: nat)
    requires Valid(cfg, s) && Admit(cfg, s, lease).1 == Some(Open)
    ensures var t := Attach(cfg, input.clock, input.createOk, s, lease, consumer, at);
            var p, q := PhaseOf(s, id), PhaseOf(t, id);
            || q == p
            || (lease !in s.leases
                && (Reserving(input.createOk, p, q) || (p == Ready && q == Leased(lease, s.nextGeneration + 1))))
  {
    AttachOpen(cfg, input, s, lease, consumer, at);
    AdmittedAttach(cfg, input, s, lease, AttachAction(Admit(cfg, s, lease).0, lease, consumer, at), id);
  }

  lemma AdmittedAttach(cfg: Config, input: Input, s: State, lease: LeaseId, a: Action, id: nat)
    requires Sound(cfg, s) && Enabled(cfg, Admit(cfg, s, lease).0, a)
    requires (a.Join? || a.Wait? || a.ServeFresh?) && a.lease == lease
    ensures var m := Apply(cfg, Admit(cfg, s, lease).0, a);
            var p, q := PhaseOf(s, id), PhaseOf(Grow(cfg, input.clock, input.createOk, m), id);
            && (a.Join? ==> PhaseOf(m, id) == p)
            && (Reserving(input.createOk, p, q) || (p == Ready && q == Leased(lease, s.nextGeneration + 1)))
  {
    var s1 := Admit(cfg, s, lease).0;
    AdmittedAction(cfg, input, s, lease, a, id);
    AttachMoves(cfg, s1, a, input.createOk, lease, id, PhaseOf(s, id), PhaseOf(Apply(cfg, s1, a), id),
                PhaseOf(Grow(cfg, input.clock, input.createOk, Apply(cfg, s1, a)), id));
  }

  lemma AttachMoves(cfg: Config, s: State, a: Action, createOk: bool, lease: LeaseId, id: nat, p: Phase, m: Phase, q: Phase)
    requires Enabled(cfg, s, a) && (a.Join? || a.Wait? || a.ServeFresh?) && a.lease == lease
    requires Moves(cfg, s, a, id, p, m) && Reserving(createOk, m, q)
    ensures a.Join? ==> m == p
    ensures Reserving(createOk, p, q) || (p == Ready && q == Leased(lease, s.nextGeneration + 1))
  {
  }

  lemma RefusedAttachPhase(cfg: Config, s: State, input: Input, lease: LeaseId, consumer: Consumer, at: nat, id: nat)
    requires Sound(cfg, s) && Admit(cfg, s, lease).1 != Some(Open)
    ensures var t := Attach(cfg, input.clock, input.createOk, s, lease, consumer, at); PhaseOf(t, id) == PhaseOf(s, id)
  {
    var error := if Admit(cfg, s, lease).1.None? then LeaseRecordLimitReached else LeaseClosed;
    SayPhase(cfg, s, AttachReplied(consumer, lease, Rejected(error)), id);
  }

  // -------------------------------------------------------------- creation

  /** Dispatching moves ready databases to queued leases, and nothing else. */
  predicate Dispatched(s: State, p: Phase, q: Phase) {
    q == p || (p == Ready && q.Leased? && q.lease in s.waiters && q.generation > s.nextGeneration)
  }

  lemma {:induction false} DispatchPhase(cfg: Config, clock: Clock, s: State, id: nat)
    requires Sound(cfg, s)
    ensures var t := Dispatch(cfg, clock, s); Dispatched(s, PhaseOf(s, id), PhaseOf(t, id))
    decreases |s.waiters|
  {
    if s.inventory.ready != [] && s.waiters != [] {
      DispatchNext(cfg, clock, s);
      var vs := Judge(cfg, clock, s.groups[s.waiters[0]]);
      NextSound(cfg, s, vs);
      DispatchPhase(cfg, clock, Apply(cfg, s, ServeNext(vs)), id);
      NextGeneration(cfg, s, vs);
      ServeNextPhase(cfg, s, vs, id);
    }
  }

  lemma NextSound(cfg: Config, s: State, vs: seq<Verdict>)
    requires Sound(cfg, s) && Enabled(cfg, s, ServeNext(vs))
    ensures var n := Apply(cfg, s, ServeNext(vs)); Sound(cfg, n)
  {
    ServeNextSound(cfg, s, vs);
  }

  lemma NextGeneration(cfg: Config, s: State, vs: seq<Verdict>)
    requires Enabled(cfg, s, ServeNext(vs))
    ensures var n := Apply(cfg, s, ServeNext(vs));
            s.nextGeneration <= n.nextGeneration && n.waiters == s.waiters[1..]
  {
  }

  /** Nobody waits beside a ready database, so dispatching can only hand out the one
      that has just been created. */
  lemma OthersStay(cfg: Config, clock: Clock, s: State, x: nat, result: Option<string>, id: nat)
    requires Valid(cfg, s) && x in s.inventory.creating && (id != x || result.None?)
    ensures var s1 := CompleteCreation(s, x, result);
            var d := Dispatch(cfg, clock, s1);
            PhaseOf(d, id) == PhaseOf(s1, id)
  {
    var s1 := CompleteCreation(s, x, result);
    if s.waiters != [] {
      SettlePhase(cfg, s, x, result, id);
      SettleKeepsSound(cfg, s, x, result);
      DispatchPhase(cfg, clock, s1, id);
      ExactlyOnePhase(s, id, Ready);
    }
  }

  lemma CreationPhase(cfg: Config, s: State, input: Input, id: nat)
    requires Valid(cfg, s) && !s.shutdown && input.msg.CreationFinished?
    ensures var t := Process(cfg, s, input); PhaseStep(cfg, s, input, id, PhaseOf(s, id), PhaseOf(t, id))
  {
    var x, result := input.msg.id, input.msg.result;
    CreatingIs(cfg, s, x);
    if x in s.inventory.creating {
      CreationShape(cfg, s, input);
      SettlePhase(cfg, s, x, result, id);
      SettledGrowPhase(cfg, input, s, x, result, id);
      if id != x || result.None? {
        OthersStay(cfg, input.clock, s, x, result, id);
      } else {
        CreatedServed(cfg, input.clock, s, x, result);
      }
    }
  }

  lemma SettledGrowPhase(cfg: Config, input: Input, s: State, x: nat, result: Option<string>, id: nat)
    requires Sound(cfg, s) && x in s.inventory.creating
    ensures var d := Dispatch(cfg, input.clock, CompleteCreation(s, x, result));
            var t := Grow(cfg, input.clock, input.createOk, d);
            Reserving(input.createOk, PhaseOf(d, id), PhaseOf(t, id))
  {
    SettleKeepsSound(cfg, s, x, result);
    DispatchSound(cfg, input.clock, CompleteCreation(s, x, result));
    GrowPhase(cfg, input.clock, input.createOk, Dispatch(cfg, input.clock, CompleteCreation(s, x, result)), id);
  }

  lemma CreatedServed(cfg: Config, clock: Clock, s: State, x: nat, result: Option<string>)
    requires Sound(cfg, s) && x in s.inventory.creating && result.Some?
    ensures var q := PhaseOf(Dispatch(cfg, clock, CompleteCreation(s, x, result)), x);
            q == Ready || (q.Leased? && LeaseOf(s, q.lease) == InQueue && q.generation > s.nextGeneration)
  {
    SettlePhase(cfg, s, x, result, x);
    SettleKeepsSound(cfg, s, x, result);
    DispatchPhase(cfg, clock, CompleteCreation(s, x, result), x);
  }

  // -------------------------------------------------------------- the leases

  lemma {:induction false} DispatchLease(cfg: Config, clock: Clock, s: State, l: LeaseId)
    requires Coherent(s)
    ensures var p, q := LeaseOf(s, l), LeaseOf(Dispatch(cfg, clock, s), l);
            q == p || (p == InQueue && (q == Idle || (q.Held? && q.generation > s.nextGeneration)))
    decreases |s.waiters|
  {
    if s.inventory.ready != [] && s.waiters != [] {
      DispatchNext(cfg, clock, s);
      var vs := Judge(cfg, clock, s.groups[s.waiters[0]]);
      NextQueued(cfg, s, vs);
      NextGeneration(cfg, s, vs);
      NextLease(cfg, s, vs, l);
      DispatchLease(cfg, clock, Apply(cfg, s, ServeNext(vs)), l);
    }
  }

  /** Serving the front takes its lease out of the queue, to hold a database or not. */
  lemma NextLease(cfg: Config, s: State, vs: seq<Verdict>, l: LeaseId)
    requires Coherent(s) && Enabled(cfg, s, ServeNext(vs))
    ensures var p, q := LeaseOf(s, l), LeaseOf(Apply(cfg, s, ServeNext(vs)), l);
            if l == s.waiters[0] then p == InQueue && (q == Idle || HeldUnder(q, s.nextGeneration + 1)) else q == p
  {
    assert s.waiters[0] in s.waiters;
    var news := ServeOutcome(cfg, PopNext(s), s.waiters[0], vs);
  }

  lemma CreationLease(cfg: Config, s: State, input: Input, l: LeaseId)
    requires Valid(cfg, s) && !s.shutdown && input.msg.CreationFinished?
    ensures var t := Process(cfg, s, input);
            var p, q := LeaseOf(s, l), LeaseOf(t, l);
            || q == p
            || (input.msg.id in s.inventory.creating && input.msg.result.Some? && p == InQueue
                && (q == Idle || (q.Held? && q.generation > s.nextGeneration)))
  {
    var x, result := input.msg.id, input.msg.result;
    if x in s.inventory.creating {
      CreationShape(cfg, s, input);
      GrowLease(cfg, input.clock, input.createOk, Dispatch(cfg, input.clock, CompleteCreation(s, x, result)), l);
      SettledLease(cfg, input.clock, s, x, result, l);
    }
  }

  lemma SettledLease(cfg: Config, clock: Clock, s: State, x: nat, result: Option<string>, l: LeaseId)
    requires Coherent(s) && (s.waiters != [] ==> s.inventory.ready == []) && x in s.inventory.creating
    ensures var p, q := LeaseOf(s, l), LeaseOf(Dispatch(cfg, clock, CompleteCreation(s, x, result)), l);
            q == p || (result.Some? && p == InQueue && (q == Idle || (q.Held? && q.generation > s.nextGeneration)))
  {
    if result.Some? {
      DispatchLease(cfg, clock, CompleteCreation(s, x, result), l);
    }
  }

  /** A lease that is served now holds exactly the database that was created. */
  lemma ServedWithCreated(cfg: Config, s: State, input: Input, l: LeaseId)
    requires Valid(cfg, s) && !s.shutdown && input.msg.CreationFinished? && input.msg.id in s.inventory.creating
    requires LeaseOf(s, l) == InQueue && LeaseOf(Process(cfg, s, input), l).Held?
    ensures LeaseOf(Process(cfg, s, input), l).id == input.msg.id
  {
    var t := Process(cfg, s, input);
    var Held(id, g) := LeaseOf(t, l);
    MessageValid(cfg, s, input);
    HeldIsLeased(cfg, t, l, id, g);
    HeldIsLeased(cfg, s, l, id, g);
    CreatingIs(cfg, s, input.msg.id);
    CreationPhase(cfg, s, input, id);
  }

  lemma CreationLeaseStep(cfg: Config, s: State, input: Input, l: LeaseId)
    requires Valid(cfg, s) && !s.shutdown && input.msg.CreationFinished?
    ensures var t := Process(cfg, s, input); LeaseStep(cfg, s, input, l, LeaseOf(s, l), LeaseOf(t, l))
  {
    CreationLease(cfg, s, input, l);
    CreatingIs(cfg, s, input.msg.id);
    if LeaseOf(s, l) == InQueue && input.msg.id in s.inventory.creating && LeaseOf(Process(cfg, s, input), l).Held? {
      ServedWithCreated(cfg, s, input, l);
    }
  }

  lemma OpenAttachLease(cfg: Config, s: State, input: Input, lease: LeaseId, consumer: Consumer, at: nat, l: LeaseId)
    requires Coherent(s) && (s.waiters != [] ==> s.inventory.ready == []) && Admit(cfg, s, lease).1 == Some(Open)
    requires lease in s.groups ==> s.inventory.ready == []
    ensures var p, q := LeaseOf(s, l), LeaseOf(Attach(cfg, input.clock, input.createOk, s, lease, consumer, at), l);
            q == if l != lease || lease in s.leases then p else AttachedState(s, consumer)
  {
    var s1 := Admit(cfg, s, lease).0;
    OpenAttachLeaseOf(cfg, s, input, lease, consumer, at, l);
    AdmitLeaseOf(cfg, s, lease, l);
    ActionLease(cfg, s1, lease, consumer, at, l);
  }

  /** Growing after it, an attach moves the lease as its action does. */
  lemma OpenAttachLeaseOf(cfg: Config, s: State, input: Input, lease: LeaseId, consumer: Consumer, at: nat, l: LeaseId)
    requires (s.waiters != [] ==> s.inventory.ready == []) && Admit(cfg, s, lease).1 == Some(Open)
    ensures var s1 := Admit(cfg, s, lease).0;
            var a := AttachAction(s1, lease, consumer, at);
            && Enabled(cfg, s1, a)
            && LeaseOf(Attach(cfg, input.clock, input.createOk, s, lease, consumer, at), l) == LeaseOf(Apply(cfg, s1, a), l)
  {
    var s1 := Admit(cfg, s, lease).0;
    AttachOpen(cfg, input, s, lease, consumer, at);
    GrowLease(cfg, input.clock, input.createOk, Apply(cfg, s1, AttachAction(s1, lease, consumer, at)), l);
  }

  /** A lease that is admitted now is idle. */
  lemma AdmitLeaseOf(cfg: Config, s: State, lease: LeaseId, l: LeaseId)
    requires Coherent(s)
    ensures var s1 := Admit(cfg, s, lease).0;
            LeaseOf(s1, l) == if l == lease && lease !in s.records && lease in s1.records then Idle else LeaseOf(s, l)
  {
  }

  lemma OneReached(consumer: Consumer)
    ensures Reached([Verdict(consumer, false)]) == if consumer.reachable then 1 else 0
  {
    assert [Verdict(consumer, false)][..0] == [];
  }

  lemma ActionLease(cfg: Config, s: State, lease: LeaseId, consumer: Consumer, at: nat, l: LeaseId)
    requires Enabled(cfg, s, AttachAction(s, lease, consumer, at)) && IsOpen(s.records, lease)
    requires lease in s.groups ==> s.inventory.ready == []
    ensures var a := AttachAction(s, lease, consumer, at);
            var p, q := LeaseOf(s, l), LeaseOf(Apply(cfg, s, a), l);
            q == if l != lease || a.Join? then p else AttachedState(s, consumer)
  {
    var a := AttachAction(s, lease, consumer, at);
    if a.ServeFresh? {
      OneReached(consumer);
      var news := ServeOutcome(cfg, s, lease, [Verdict(consumer, false)]);
    }
  }

  lemma AttachLeaseStep(cfg: Config, s: State, input: Input, l: LeaseId)
    requires Valid(cfg, s) && !s.shutdown && input.msg.AttachOrJoin?
    ensures var t := Process(cfg, s, input); LeaseStep(cfg, s, input, l, LeaseOf(s, l), LeaseOf(t, l))
  {
    var AttachOrJoin(lease, consumer, at) := input.msg;
    if Admit(cfg, s, lease).1 == Some(Open) {
      assert lease in s.groups ==> lease in s.waiters;
      OpenAttachLease(cfg, s, input, lease, consumer, at, l);
    }
  }

  /** The lease served by an attach, and no other, holds the database handed out. */
  lemma AttachPhase(cfg: Config, s: State, input: Input, id: nat)
    requires Valid(cfg, s) && !s.shutdown && input.msg.AttachOrJoin?
    ensures var t := Process(cfg, s, input); PhaseStep(cfg, s, input, id, PhaseOf(s, id), PhaseOf(t, id))
  {
    var AttachOrJoin(lease, consumer, at) := input.msg;
    if Admit(cfg, s, lease).1 == Some(Open) {
      OpenAttachPhase(cfg, s, input, lease, consumer, at, id);
      if lease !in s.leases {
        AttachedDatabase(cfg, s, input, id);
      }
    } else {
      RefusedAttachPhase(cfg, s, input, lease, consumer, at, id);
    }
  }

  lemma AttachedDatabase(cfg: Config, s: State, input: Input, id: nat)
    requires Valid(cfg, s) && !s.shutdown && input.msg.AttachOrJoin? && Serves(cfg, s, input.msg.lease)
    ensures var lease, t := input.msg.lease, Process(cfg, s, input);
            if Hands(s, input.msg.consumer, id)
            then PhaseOf(s, id) == Ready && PhaseOf(t, id) == Leased(lease, s.nextGeneration + 1)
            else PhaseOf(t, id) != Leased(lease, s.nextGeneration + 1)
  {
    var lease, t := input.msg.lease, Process(cfg, s, input);
    MessageValid(cfg, s, input);
    AttachLeaseStep(cfg, s, input, lease);
    AttachedIsLeased(cfg, s, input, t, id);
    if Hands(s, input.msg.consumer, id) {
      HandedWasReady(s, input.msg.consumer, id);
    }
  }

  lemma AttachedIsLeased(cfg: Config, s: State, input: Input, t: State, id: nat)
    requires !s.shutdown && input.msg.AttachOrJoin? && Serves(cfg, s, input.msg.lease) && Placed(t)
    requires var l := input.msg.lease; LeaseStep(cfg, s, input, l, LeaseOf(s, l), LeaseOf(t, l))
    ensures PhaseOf(t, id) == Leased(input.msg.lease, s.nextGeneration + 1) <==> Hands(s, input.msg.consumer, id)
  {
    ExactlyOnePhase(t, id, Leased(input.msg.lease, s.nextGeneration + 1));
  }

  lemma HandedWasReady(s: State, consumer: Consumer, id: nat)
    requires Placed(s) && Hands(s, consumer, id)
    ensures PhaseOf(s, id) == Ready
  {
    assert IsReady(s.inventory.ready, id);
    ExactlyOnePhase(s, id, Ready);
  }

  lemma RetireLeaseOf(cfg: Config, input: Input, s: State, lease: LeaseId, l: LeaseId)
    ensures var t := Retire(cfg, input, s, lease);
            && t.records == s.records && t.groups == s.groups && lease !in t.leases
            && LeaseOf(t, l) == if l == lease && LeaseOf(s, l).Held? then (if l in s.groups then InQueue else Idle)
                                else LeaseOf(s, l)
  {
    RetireFrame(cfg, input, s, lease);
    WithoutLease(s, Retire(cfg, input, s, lease), lease, l);
  }

  lemma RetireFrame(cfg: Config, input: Input, s: State, lease: LeaseId)
    ensures var t := Retire(cfg, input, s, lease);
            t.records == s.records && t.groups == s.groups && t.leases == s.leases - {lease}
  {
    if lease in s.leases {
      GrowFrame(cfg, input.clock, input.createOk, RetireOne(s, lease, input.cleanupOk));
      RetireOneFrame(s, lease, input.cleanupOk);
    }
  }

  lemma WithoutLease(s: State, t: State, lease: LeaseId, l: LeaseId)
    requires t.records == s.records && t.groups == s.groups && t.leases == s.leases - {lease}
    ensures LeaseOf(t, l) == if l == lease && LeaseOf(s, l).Held? then (if l in s.groups then InQueue else Idle)
                             else LeaseOf(s, l)
  {
  }

  lemma RetireOneFrame(s: State, lease: LeaseId, ok: bool)
    requires lease in s.leases
    ensures var t := RetireOne(s, lease, ok);
            t.records == s.records && t.groups == s.groups && t.leases == s.leases - {lease}
  {
  }

  lemma ClosedLeaseOf(cfg: Config, input: Input, s: State, lease: LeaseId, l: LeaseId)
    ensures LeaseOf(Retire(cfg, input, Close(s, lease), lease), l) == if l == lease then Shut else LeaseOf(s, l)
  {
    RetireLeaseOf(cfg, input, Close(s, lease), lease, l);
  }

  /** Closing a lease that has just been admitted shuts it and no other. */
  lemma AdmittedThenClosed(cfg: Config, s: State, input: Input, lease: LeaseId, l: LeaseId)
    requires Coherent(s)
    ensures LeaseOf(Retire(cfg, input, Close(Admit(cfg, s, lease).0, lease), lease), l)
            == if l == lease then Shut else LeaseOf(s, l)
  {
    AdmitLeaseOf(cfg, s, lease, l);
    ClosedLeaseOf(cfg, input, Admit(cfg, s, lease).0, lease, l);
  }

  lemma SayLease(s: State, e: Event, l: LeaseId)
    ensures LeaseOf(Say(s, e), l) == LeaseOf(s, l)
  {
  }

  lemma OpenReleaseLease(cfg: Config, s: State, input: Input, l: LeaseId)
    requires Coherent(s) && !s.shutdown && input.msg.ReleaseLease? && Admit(cfg, s, input.msg.lease).1 == Some(Open)
    ensures LeaseOf(Process(cfg, s, input), l) == if l == input.msg.lease then Shut else LeaseOf(s, l)
  {
    var lease := input.msg.lease;
    AdmittedThenClosed(cfg, s, input, lease, l);
    OpenReleaseShape(cfg, s, input);
    var closed := Retire(cfg, input, Close(Admit(cfg, s, lease).0, lease), lease);
    SayLease(closed, ReleaseReplied(input.msg.consumer, true), l);
  }

  lemma OpenReleaseShape(cfg: Config, s: State, input: Input)
    requires !s.shutdown && input.msg.ReleaseLease? && Admit(cfg, s, input.msg.lease).1 == Some(Open)
    ensures var s1 := Admit(cfg, s, input.msg.lease).0;
            Process(cfg, s, input)
            == Say(Retire(cfg, input, Close(s1, input.msg.lease), input.msg.lease), ReleaseReplied(input.msg.consumer, true))
  {
  }

  lemma ReleaseLeaseStep(cfg: Config, s: State, input: Input, l: LeaseId)
    requires Coherent(s) && !s.shutdown && input.msg.ReleaseLease?
    ensures var t := Process(cfg, s, input); LeaseStep(cfg, s, input, l, LeaseOf(s, l), LeaseOf(t, l))
  {
    var status := Admit(cfg, s, input.msg.lease).1;
    if status == Some(Open) {
      OpenReleaseLease(cfg, s, input, l);
    } else {
      assert Process(cfg, s, input) == Say(s, ReleaseReplied(input.msg.consumer, status.Some?));
    }
  }

  lemma ExpiryLeaseStep(cfg: Config, s: State, input: Input, l: LeaseId)
    requires Coherent(s) && !s.shutdown && input.msg.LeaseMaxTimeReached?
    ensures var t := Process(cfg, s, input); LeaseStep(cfg, s, input, l, LeaseOf(s, l), LeaseOf(t, l))
  {
    if Current(s, input.msg.lease, input.msg.generation) {
      RetireLeaseOf(cfg, input, Expire(s), input.msg.lease, l);
    }
  }

  lemma QuietLeaseStep(cfg: Config, s: State, input: Input, l: LeaseId)
    requires !s.shutdown && (input.msg.Detach? || input.msg.CleanupFinished? || input.msg.Shutdown?)
    ensures LeaseOf(Process(cfg, s, input), l) == LeaseOf(s, l)
  {
  }

  // ------------------------------------------------------------ every message

  lemma MessagePhase(cfg: Config, s: State, input: Input, id: nat)
    requires Valid(cfg, s) && !s.shutdown
    ensures var t := Process(cfg, s, input); PhaseStep(cfg, s, input, id, PhaseOf(s, id), PhaseOf(t, id))
  {
    match input.msg
    case AttachOrJoin(_, _, _) => AttachPhase(cfg, s, input, id);
    case ReleaseLease(_, _) => ReleasePhase(cfg, s, input, id);
    case Detach(_, _) => DetachPhase(cfg, s, input, id);
    case LeaseMaxTimeReached(_, _) => ExpiryPhase(cfg, s, input, id);
    case CreationFinished(_, _) => CreationPhase(cfg, s, input, id);
    case CleanupFinished(_, _) => CleanupPhase(cfg, s, input, id);
    case Shutdown => DetachPhase(cfg, s, input, id);
  }

  lemma MessageLease(cfg: Config, s: State, input: Input, l: LeaseId)
    requires Valid(cfg, s) && !s.shutdown
    ensures var t := Process(cfg, s, input); LeaseStep(cfg, s, input, l, LeaseOf(s, l), LeaseOf(t, l))
  {
    match input.msg
    case AttachOrJoin(_, _, _) => AttachLeaseStep(cfg, s, input, l);
    case ReleaseLease(_, _) => ReleaseLeaseStep(cfg, s, input, l);
    case LeaseMaxTimeReached(_, _) => ExpiryLeaseStep(cfg, s, input, l);
    case CreationFinished(_, _) => CreationLeaseStep(cfg, s, input, l);
    case Detach(_, _) => QuietLeaseStep(cfg, s, input, l);
    case CleanupFinished(_, _) => QuietLeaseStep(cfg, s, input, l);
    case Shutdown => QuietLeaseStep(cfg, s, input, l);
  }

  /** Every message is a step of the labelled relation on the two maps. */
  lemma MessageSteps(cfg: Config, s: State, input: Input)
    requires Valid(cfg, s)
    ensures var t := Process(cfg, s, input); Step(cfg, s, input, t)
  {
    if !s.shutdown {
      forall id ensures PhaseStep(cfg, s, input, id, PhaseOf(s, id), PhaseOf(Process(cfg, s, input), id)) {
        MessagePhase(cfg, s, input, id);
      }
      forall l ensures LeaseStep(cfg, s, input, l, LeaseOf(s, l), LeaseOf(Process(cfg, s, input), l)) {
        MessageLease(cfg, s, input, l);
      }
    }
  }

  /** Labelled steps only move forwards. */
  lemma StepForward(cfg: Config, s: State, input: Input, t: State, id: nat, l: LeaseId)
    requires Sound(cfg, s) && Step(cfg, s, input, t)
    ensures Later(PhaseOf(s, id), PhaseOf(t, id)) && LeaseLater(LeaseOf(s, l), LeaseOf(t, l), s.nextGeneration)
  {
    var held := if input.msg.ReleaseLease? || input.msg.LeaseMaxTimeReached? then LeaseOf(s, input.msg.lease) else Unknown;
    if held.Held? {
      HeldIsLeased(cfg, s, input.msg.lease, held.id, held.generation);
    }
    assert s.shutdown || PhaseStep(cfg, s, input, id, PhaseOf(s, id), PhaseOf(t, id));
    assert s.shutdown || LeaseStep(cfg, s, input, l, LeaseOf(s, l), LeaseOf(t, l));
  }

  /** An id is given up only because its creation failed or its batch was refused. */
  lemma FailedForAReason(cfg: Config, s: State, input: Input, id: nat)
    requires Valid(cfg, s) && PhaseOf(s, id) != Failed && PhaseOf(Process(cfg, s, input), id) == Failed
    ensures || (input.msg == CreationFinished(id, None) && PhaseOf(s, id) == Creating)
            || (PhaseOf(s, id) == Unissued && !input.createOk)
  {
    if !s.shutdown {
      MessagePhase(cfg, s, input, id);
    }
  }
}
