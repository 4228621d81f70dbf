/**
  First come, first served: a lease that asks later is never handed a database
  while an earlier lease is still queued.
 */
module Fifo {
  import opened EngineTypes
  import opened EngineSpec
  import opened Ledger
  import opened Soundness
  import opened Plans
  import Lifecycle

  /** Wherever both are queued, `a` comes first. */
  ghost predicate Before(waiters: seq<LeaseId>, a: LeaseId, b: LeaseId) {
    forall i, j | 0 <= i < |waiters| && 0 <= j < |waiters| && waiters[i] == a && waiters[j] == b :: i < j
  }

  /** `a` waits, and `b` neither holds a database nor waits ahead of it. */
  ghost predicate Behind(s: State, a: LeaseId, b: LeaseId) {
    a != b && a in s.waiters && b !in s.leases && Before(s.waiters, a, b)
  }

  lemma {:induction false} WithoutKeepsOrder(waiters: seq<LeaseId>, gone: LeaseId, a: LeaseId, b: LeaseId)
    requires a != b && Before(waiters, a, b)
    ensures Before(Without(waiters, gone), a, b)
    ensures forall x | x in Without(waiters, gone) :: x in waiters
  {
    if waiters != [] {
      var init := waiters[..|waiters| - 1];
      WithoutKeepsOrder(init, gone, a, b);
      if waiters[|waiters| - 1] == a {
        forall j | 0 <= j < |init| ensures init[j] != b {
          assert init[j] == waiters[j];
        }
        assert b !in Without(init, gone);
      }
    }
  }

  lemma PopKeepsOrder(waiters: seq<LeaseId>, a: LeaseId, b: LeaseId)
    requires waiters != [] && Before(waiters, a, b) && a in waiters[1..]
    ensures Before(waiters[1..], a, b) && waiters[0] != b
  {
    var rest := waiters[1..];
    assert forall i | 0 <= i < |rest| :: rest[i] == waiters[i + 1];
    var i :| 0 <= i < |rest| && rest[i] == a;
    assert waiters[i + 1] == a;
  }

  lemma ServeNextOrder(cfg: Config, s: State, vs: seq<Verdict>, a: LeaseId, b: LeaseId)
    requires Coherent(s) && Behind(s, a, b) && Enabled(cfg, s, ServeNext(vs))
    requires a in Apply(cfg, s, ServeNext(vs)).waiters
    ensures var t := Apply(cfg, s, ServeNext(vs)); Behind(t, a, b) && Lifecycle.NothingFor(s, t, b)
  {
    var lease, p := s.waiters[0], PopNext(s);
    PopKeepsQueues(s.leases, s.records, s.waiters, s.groups);
    assert lease in s.waiters;
    var news := ServeOutcome(cfg, p, lease, vs);
    PopKeepsOrder(s.waiters, a, b);
    SaidKeepsSent(s.out, news);
  }

  lemma StepOrder(cfg: Config, s: State, x: Action, a: LeaseId, b: LeaseId)
    requires Coherent(s) && Behind(s, a, b) && Enabled(cfg, s, x) && a in Apply(cfg, s, x).waiters
    ensures var t := Apply(cfg, s, x); Behind(t, a, b) && Lifecycle.NothingFor(s, t, b)
  {
    var t := Apply(cfg, s, x);
    if Lifecycle.Still(x) {
      var news := Lifecycle.StillStep(cfg, s, x);
      SaidKeepsSent(s.out, news);
      StillOrder(cfg, s, x, a, b);
    } else {
      match x
      case ServeNext(vs) => ServeNextOrder(cfg, s, vs, a, b);
      case RetireLease(lease, ok) =>
      case ReserveBatch(amount, ok) =>
      case SettleCreation(id, result) =>
      case SettleCleanup(id) =>
      case ServeFresh(_, _) =>
    }
  }

  lemma StillOrder(cfg: Config, s: State, x: Action, a: LeaseId, b: LeaseId)
    requires Coherent(s) && Behind(s, a, b) && Lifecycle.Still(x) && Enabled(cfg, s, x)
    ensures Before(Apply(cfg, s, x).waiters, a, b)
  {
    match x
    case CloseLease(lease) => WithoutKeepsOrder(s.waiters, lease, a, b);
    case Wait(lease, q) =>
      if lease !in s.groups {
        AppendKeepsOrder(s.waiters, lease, a, b);
      }
    case Join(lease, c) =>
    case _ =>
  }

  lemma AppendKeepsOrder(waiters: seq<LeaseId>, lease: LeaseId, a: LeaseId, b: LeaseId)
    requires a != b && a in waiters && Before(waiters, a, b) && (lease == a ==> b !in waiters)
    ensures Before(waiters + [lease], a, b)
  {
  }

  // ----------------------------------------------------- plans and runs

  predicate Removes(x: Action) {
    x.ServeNext? || x.CloseLease?
  }

  /** A plan either adds to the queue or takes from it, never both. */
  ghost predicate OneWay(plan: seq<Action>) {
    (forall x | x in plan :: !x.Wait?) || (forall x | x in plan :: !Removes(x))
  }

  lemma StepQueue(cfg: Config, s: State, x: Action, a: LeaseId)
    requires Enabled(cfg, s, x)
    ensures var t := Apply(cfg, s, x);
            (!x.Wait? && a in t.waiters ==> a in s.waiters) && (!Removes(x) && a in s.waiters ==> a in t.waiters)
  {
    match x
    case CloseLease(lease) => WithoutMembers(s.waiters, lease);
    case ServeNext(vs) => ServeFrame(cfg, PopNext(s), s.waiters[0], vs);
    case ServeFresh(lease, c) => ServeFrame(cfg, s, lease, [Verdict(c, false)]);
    case Join(lease, c) => ServeFrame(cfg, s, lease, [Verdict(c, false)]);
    case _ =>
  }

  lemma ServeFrame(cfg: Config, s: State, lease: LeaseId, vs: seq<Verdict>)
    requires lease in s.leases || s.inventory.ready != []
    ensures Serve(cfg, s, lease, vs).waiters == s.waiters
  {
  }

  lemma {:induction false} WithoutMembers(waiters: seq<LeaseId>, lease: LeaseId)
    ensures forall x | x in Without(waiters, lease) :: x in waiters
  {
    if waiters != [] {
      WithoutMembers(waiters[..|waiters| - 1], lease);
    }
  }

  /** Whoever is queued before and after a one-way plan is queued throughout. */
  lemma {:induction false} QueuedThroughout(cfg: Config, s: State, plan: seq<Action>, t: State, a: LeaseId)
    requires Runs(cfg, s, plan, t) && OneWay(plan) && a in t.waiters && plan != [] && a in s.waiters
    ensures a in Apply(cfg, s, plan[0]).waiters
    decreases |plan|
  {
    if forall x | x in plan :: !Removes(x) {
      StepQueue(cfg, s, plan[0], a);
    } else {
      StillQueued(cfg, Apply(cfg, s, plan[0]), plan[1..], t, a);
    }
  }

  lemma {:induction false} StillQueued(cfg: Config, s: State, plan: seq<Action>, t: State, a: LeaseId)
    requires Runs(cfg, s, plan, t) && (forall x | x in plan :: !x.Wait?) && a in t.waiters
    ensures a in s.waiters
    decreases |plan|
  {
    if plan != [] {
      StillQueued(cfg, Apply(cfg, s, plan[0]), plan[1..], t, a);
      StepQueue(cfg, s, plan[0], a);
    }
  }

  lemma {:induction false} RunsOrder(cfg: Config, s: State, plan: seq<Action>, t: State, a: LeaseId, b: LeaseId)
    requires Sound(cfg, s) && Runs(cfg, s, plan, t) && OneWay(plan) && Behind(s, a, b) && a in t.waiters
    ensures Behind(t, a, b) && Lifecycle.NothingFor(s, t, b) && s.out <= t.out
    decreases |plan|
  {
    if plan != [] {
      var m := Apply(cfg, s, plan[0]);
      QueuedThroughout(cfg, s, plan, t, a);
      StepOrder(cfg, s, plan[0], a, b);
      StepSound(cfg, s, plan[0]);
      Lifecycle.StepEvolves(cfg, s, plan[0]);
      RunsOrder(cfg, m, plan[1..], t, a, b);
      Lifecycle.NothingForThen(s, m, t, b);
    }
  }

  lemma {:induction false} DispatchOneWay(cfg: Config, clock: Clock, s: State)
    ensures forall x | x in DispatchPlan(cfg, clock, s) :: x.ServeNext?
    decreases |s.waiters|
  {
    if s.inventory.ready != [] && s.waiters != [] && s.waiters[0] in s.groups {
      var vs := Judge(cfg, clock, s.groups[s.waiters[0]]);
      DispatchOneWay(cfg, clock, Serve(cfg, PopNext(s), s.waiters[0], vs));
    }
  }

  lemma AttachOneWay(cfg: Config, input: Input, s: State, lease: LeaseId, consumer: Consumer, at: nat)
    ensures forall x | x in AttachPlan(cfg, input, s, lease, consumer, at) :: !Removes(x)
  {
    var (s1, status) := Admit(cfg, s, lease);
    if status == Some(Open) && lease !in s1.leases {
      if s1.inventory.ready == [] {
      } else {
      }
    }
  }

  lemma ReleaseOneWay(cfg: Config, input: Input, s: State, lease: LeaseId, consumer: Consumer)
    ensures forall x | x in ReleasePlan(cfg, input, s, lease, consumer) :: !x.Wait?
  {
    ReleaseClerical(cfg, input, s, lease, consumer);
  }

  lemma CreationOneWay(cfg: Config, s: State, input: Input)
    requires !s.shutdown && input.msg.CreationFinished?
    ensures forall x | x in Plan(cfg, s, input) :: !x.Wait?
  {
    if input.msg.id in s.inventory.creating {
      DispatchOneWay(cfg, input.clock, CompleteCreation(s, input.msg.id, input.msg.result));
    }
  }

  lemma PlanOneWay(cfg: Config, s: State, input: Input)
    ensures OneWay(Plan(cfg, s, input))
  {
    if !s.shutdown {
      match input.msg
      case AttachOrJoin(lease, consumer, at) => AttachOneWay(cfg, input, s, lease, consumer, at);
      case ReleaseLease(lease, consumer) => ReleaseOneWay(cfg, input, s, lease, consumer);
      case CreationFinished(_, _) => CreationOneWay(cfg, s, input);
      case _ =>
    }
  }

  lemma MessageOrder(cfg: Config, s: State, input: Input, a: LeaseId, b: LeaseId)
    requires Valid(cfg, s) && Behind(s, a, b) && a in Process(cfg, s, input).waiters
    ensures var t := Process(cfg, s, input); Behind(t, a, b) && Lifecycle.NothingFor(s, t, b) && s.out <= t.out
  {
    MessageRuns(cfg, s, input);
    PlanOneWay(cfg, s, input);
    RunsOrder(cfg, s, Plan(cfg, s, input), Process(cfg, s, input), a, b);
  }

  /** As long as `a` stays queued, `b`, which was not ahead of it, holds no database
      and is handed none. */
  lemma {:induction false} QueuedBehind(cfg: Config, s: State, inputs: seq<Input>, a: LeaseId, b: LeaseId)
    requires Valid(cfg, s) && Behind(s, a, b)
    requires forall k | 0 <= k <= |inputs| :: a in Run(cfg, s, inputs[..k]).waiters
    ensures var t := Run(cfg, s, inputs);
            b !in t.leases && Lifecycle.NothingFor(s, t, b) && Behind(t, a, b) && s.out <= t.out
  {
    assert inputs[..|inputs|] == inputs;
    if inputs != [] {
      var n := |inputs| - 1;
      assert forall k | 0 <= k <= n :: inputs[..n][..k] == inputs[..k];
      QueuedBehind(cfg, s, inputs[..n], a, b);
      RunValid(cfg, s, inputs[..n]);
      var m := Run(cfg, s, inputs[..n]);
      MessageOrder(cfg, m, inputs[n], a, b);
      Lifecycle.NothingForThen(s, m, Run(cfg, s, inputs), b);
    }
  }
}
