/**
  Drain: the pending creations outnumber the live waiting leases, so once every
  one of them has finished successfully nobody is left waiting.
 */
module Drain {
  import opened EngineTypes
  import opened EngineSpec
  import opened Ledger
  import opened Soundness
  import opened Plans
  import Lifecycle
  import opened Pool
  import opened Timing

  lemma {:induction false} LiveVerdict(vs: seq<Verdict>)
    requires AnyLive(vs)
    ensures exists i | 0 <= i < |vs| :: !vs[i].expired
  {
    if vs[|vs| - 1].expired {
      LiveVerdict(vs[..|vs| - 1]);
      var i :| 0 <= i < |vs| - 1 && !vs[..|vs| - 1][i].expired;
      assert !vs[i].expired;
    }
  }

  /** A lease that takes a database was waiting, live, at every earlier instant. */
  lemma TakersWereWaiting(cfg: Config, clock: Clock, now: nat, s: State)
    requires Coherent(s) && s.waiters != [] && s.waiters[0] in s.groups && forall c :: now <= clock(c)
    requires AnyLive(Judge(cfg, clock, s.groups[s.waiters[0]]))
    ensures s.waiters[0] in Waiting(cfg, At(now), s)
  {
    var replies := s.groups[s.waiters[0]];
    var vs := Judge(cfg, clock, replies);
    LiveVerdict(vs);
    var i :| 0 <= i < |vs| && !vs[i].expired;
    assert !Expired(cfg, At(now), replies[i]);
  }

  lemma Remove<T>(a: set<T>, b: set<T>, x: T)
    requires a <= b - {x} && x in b
    ensures |a| + 1 <= |b|
  {
    Subset(a + {x}, b);
  }

  /** Each database that dispatching uses up takes a live waiting lease with it. */
  lemma ServeNextDrains(cfg: Config, clock: Clock, now: nat, s: State)
    requires Coherent(s) && s.waiters != [] && s.inventory.ready != [] && s.waiters[0] in s.groups
    requires forall c :: now <= clock(c)
    ensures var t := Serve(cfg, PopNext(s), s.waiters[0], Judge(cfg, clock, s.groups[s.waiters[0]]));
            && |Waiting(cfg, At(now), t)| + |s.inventory.ready| <= |Waiting(cfg, At(now), s)| + |t.inventory.ready|
  {
    var lease := s.waiters[0];
    var vs := Judge(cfg, clock, s.groups[lease]);
    var p := PopNext(s);
    PopKeepsQueues(s.leases, s.records, s.waiters, s.groups);
    assert lease in s.waiters;
    var t := Serve(cfg, p, lease, vs);
    var news := ServeOutcome(cfg, p, lease, vs);
    WaitingShrinks(cfg, At(now), At(now), s, t);
    if Reached(vs) > 0 {
      LiveWhenReached(vs);
      TakersWereWaiting(cfg, clock, now, s);
      Remove(Waiting(cfg, At(now), t), Waiting(cfg, At(now), s), lease);
    }
  }

  lemma {:induction false} DispatchDrains(cfg: Config, clock: Clock, now: nat, s: State)
    requires Coherent(s) && forall c :: now <= clock(c)
    ensures var t := Dispatch(cfg, clock, s);
            && |Waiting(cfg, At(now), t)| + |s.inventory.ready| <= |Waiting(cfg, At(now), s)| + |t.inventory.ready|
            && t.inventory.creating == s.inventory.creating && t.inventory.nextId == s.inventory.nextId
    decreases |s.waiters|
  {
    if s.inventory.ready != [] && s.waiters != [] {
      DispatchNext(cfg, clock, s);
      var a := ServeNext(Judge(cfg, clock, s.groups[s.waiters[0]]));
      NextQueued(cfg, s, a.verdicts);
      ServeNextDrains(cfg, clock, now, s);
      DispatchDrains(cfg, clock, now, Apply(cfg, s, a));
    }
  }

  /** Of the creations in `pending`, more are still running than leases wait. */
  ghost predicate Draining(cfg: Config, now: nat, pending: set<nat>, s: State) {
    s.waiters == [] || |pending * s.inventory.creating| > |Waiting(cfg, At(now), s)|
  }

  /** The message asks for no database, is handled after `now`, and does not report
      a failure of a pending creation. */
  ghost predicate Helpful(now: nat, pending: set<nat>, input: Input) {
    && !input.msg.AttachOrJoin?
    && (forall c :: now <= input.clock(c))
    && (input.msg.CreationFinished? && input.msg.id in pending ==> input.msg.result.Some?)
  }

  /** Growth reserves only new ids. */
  lemma GrowKeepsPending(cfg: Config, clock: Clock, createOk: bool, s: State, pending: set<nat>)
    requires Places(s.leases, s.inventory) && forall id | id in pending :: id <= s.inventory.nextId
    ensures var t := Grow(cfg, clock, createOk, s);
            && pending * t.inventory.creating == pending * s.inventory.creating
            && s.inventory.nextId <= t.inventory.nextId
  {
    if GrowCount(cfg, clock, s) > 0 {
      var batch := NextBatch(s.inventory, GrowCount(cfg, clock, s));
      var ids := ReservedExactly(s.leases, s.inventory, batch, createOk);
    }
  }

  /** A successful creation takes one live waiting lease away, or all of them. */
  lemma SettleDrains(cfg: Config, clock: Clock, now: nat, s: State, id: nat, result: Option<string>)
    requires Coherent(s) && id in s.inventory.creating && s.inventory.ready == [] && forall c :: now <= clock(c)
    ensures var t := Dispatch(cfg, clock, CompleteCreation(s, id, result));
            && (t.waiters == [] || |Waiting(cfg, At(now), t)| + (if result.Some? then 1 else 0)
                                   <= |Waiting(cfg, At(now), s)|)
            && t.inventory.creating == s.inventory.creating - {id} && t.inventory.nextId == s.inventory.nextId
  {
    var s1 := CompleteCreation(s, id, result);
    DispatchDrains(cfg, clock, now, s1);
    DispatchRuns(cfg, clock, s1);
    assert Waiting(cfg, At(now), s1) == Waiting(cfg, At(now), s);
  }

  lemma SettleKeepsDraining(cfg: Config, clock: Clock, now: nat, pending: set<nat>, s: State, id: nat,
                            result: Option<string>)
    requires Coherent(s) && id in s.inventory.creating && s.inventory.ready == [] && forall c :: now <= clock(c)
    requires id in pending ==> result.Some?
    requires |pending * s.inventory.creating| > |Waiting(cfg, At(now), s)|
    ensures var t := Dispatch(cfg, clock, CompleteCreation(s, id, result));
            Draining(cfg, now, pending, t) && t.inventory.nextId == s.inventory.nextId
  {
    SettleDrains(cfg, clock, now, s, id, result);
    SettledPending(pending, s.inventory.creating, id);
  }

  lemma SettlePlaces(cfg: Config, clock: Clock, s: State, id: nat, result: Option<string>)
    requires Sound(cfg, s) && id in s.inventory.creating
    ensures var t := Dispatch(cfg, clock, CompleteCreation(s, id, result)); Places(t.leases, t.inventory)
  {
    SettleKeepsSound(cfg, s, id, result);
    DispatchSound(cfg, clock, CompleteCreation(s, id, result));
  }

  lemma CreationDrains(cfg: Config, now: nat, pending: set<nat>, s: State, input: Input)
    requires Valid(cfg, s) && !s.shutdown && input.msg.CreationFinished? && input.msg.id in s.inventory.creating
    requires Helpful(now, pending, input) && forall id | id in pending :: id <= s.inventory.nextId
    requires Draining(cfg, now, pending, s) && s.waiters != []
    ensures var t := Process(cfg, s, input); Draining(cfg, now, pending, t)
  {
    var CreationFinished(id, result) := input.msg;
    var m := Dispatch(cfg, input.clock, CompleteCreation(s, id, result));
    SettlePlaces(cfg, input.clock, s, id, result);
    SettleKeepsDraining(cfg, input.clock, now, pending, s, id, result);
    GrowDrains(cfg, input, now, pending, m);
    CreationShape(cfg, s, input);
  }

  lemma GrowDrains(cfg: Config, input: Input, now: nat, pending: set<nat>, s: State)
    requires Places(s.leases, s.inventory) && forall id | id in pending :: id <= s.inventory.nextId
    requires Draining(cfg, now, pending, s)
    ensures var t := Grow(cfg, input.clock, input.createOk, s); Draining(cfg, now, pending, t)
  {
    var t := Grow(cfg, input.clock, input.createOk, s);
    GrowKeepsPending(cfg, input.clock, input.createOk, s, pending);
    GrowFrame(cfg, input.clock, input.createOk, s);
    assert Waiting(cfg, At(now), t) == Waiting(cfg, At(now), s);
  }

  lemma SettledPending(pending: set<nat>, creating: set<nat>, id: nat)
    requires id in creating
    ensures |pending * (creating - {id})| == |pending * creating| - (if id in pending then 1 else 0)
  {
    if id in pending {
      assert pending * creating == pending * (creating - {id}) + {id};
    } else {
      assert pending * creating == pending * (creating - {id});
    }
  }

  /** Fewer groups can only help. */
  lemma FewerDrains(cfg: Config, now: nat, pending: set<nat>, s: State, t: State)
    requires Draining(cfg, now, pending, s) && (t.waiters != [] ==> s.waiters != [])
    requires t.inventory.creating == s.inventory.creating
    requires forall lease | lease in t.groups :: lease in s.groups && t.groups[lease] == s.groups[lease]
    requires forall lease | lease in s.leases && lease in t.groups :: lease in t.leases
    ensures Draining(cfg, now, pending, t)
  {
    WaitingShrinks(cfg, At(now), At(now), s, t);
  }

  lemma ExpiryDrains(cfg: Config, now: nat, pending: set<nat>, s: State, input: Input)
    requires Valid(cfg, s) && !s.shutdown && input.msg.LeaseMaxTimeReached?
    requires Current(s, input.msg.lease, input.msg.generation)
    requires Draining(cfg, now, pending, s) && forall id | id in pending :: id <= s.inventory.nextId
    ensures var t := Process(cfg, s, input); Draining(cfg, now, pending, t)
  {
    var lease := input.msg.lease;
    var m := RetireOne(Expire(s), lease, input.cleanupOk);
    assert Places(m.leases, m.inventory) by {
      StepSound(cfg, s, CountExpiry);
      RetireKeepsSound(cfg, Expire(s), lease, input.cleanupOk);
    }
    FewerDrains(cfg, now, pending, s, m);
    GrowDrains(cfg, input, now, pending, m);
  }

  lemma ReleaseDrains(cfg: Config, now: nat, pending: set<nat>, s: State, input: Input)
    requires Valid(cfg, s) && !s.shutdown && input.msg.ReleaseLease? && Demands(cfg, s, input.msg)
    requires Draining(cfg, now, pending, s) && forall id | id in pending :: id <= s.inventory.nextId
    ensures var t := Process(cfg, s, input); Draining(cfg, now, pending, t)
  {
    var lease := input.msg.lease;
    var retired := RetireOne(s, lease, input.cleanupOk);
    var m := Close(retired, lease);
    ReleaseShape(cfg, s, input);
    assert Places(m.leases, m.inventory) by {
      RetireKeepsSound(cfg, s, lease, input.cleanupOk);
      CloseKeepsSound(cfg, retired, lease);
    }
    WithoutNone(s.waiters, lease);
    FewerDrains(cfg, now, pending, s, m);
    GrowDrains(cfg, input, now, pending, m);
    var g := Grow(cfg, input.clock, input.createOk, m);
    assert Waiting(cfg, At(now), Process(cfg, s, input)) == Waiting(cfg, At(now), g);
  }

  lemma StepDrains(cfg: Config, now: nat, pending: set<nat>, s: State, input: Input)
    requires Valid(cfg, s) && Helpful(now, pending, input)
    requires Draining(cfg, now, pending, s) && forall id | id in pending :: id <= s.inventory.nextId
    ensures var t := Process(cfg, s, input); Draining(cfg, now, pending, t)
  {
    if s.shutdown {
    } else if !Demands(cfg, s, input.msg) {
      OthersKeepSupply(cfg, s, input);
      NoNewWaiter(cfg, s, input);
      FewerDrains(cfg, now, pending, s, Process(cfg, s, input));
    } else {
      match input.msg
      case ReleaseLease(_, _) => ReleaseDrains(cfg, now, pending, s, input);
      case LeaseMaxTimeReached(_, _) => ExpiryDrains(cfg, now, pending, s, input);
      case CreationFinished(id, result) =>
        if s.waiters != [] {
          CreationDrains(cfg, now, pending, s, input);
        } else {
          GrowFrame(cfg, input.clock, input.createOk, CompleteCreation(s, id, result));
        }
    }
  }

  lemma {:induction false} RunDrains(cfg: Config, now: nat, pending: set<nat>, s: State, inputs: seq<Input>)
    requires Valid(cfg, s) && Draining(cfg, now, pending, s) && forall id | id in pending :: id <= s.inventory.nextId
    requires forall i | 0 <= i < |inputs| :: Helpful(now, pending, inputs[i])
    ensures var t := Run(cfg, s, inputs);
            Draining(cfg, now, pending, t) && forall id | id in pending :: id <= t.inventory.nextId
  {
    if inputs != [] {
      var n := |inputs| - 1;
      var m := Run(cfg, s, inputs[..n]);
      RunDrains(cfg, now, pending, s, inputs[..n]);
      RunValid(cfg, s, inputs[..n]);
      StepDrains(cfg, now, pending, m, inputs[n]);
      Lifecycle.MessageEvolves(cfg, m, inputs[n]);
    }
  }

  /** Drain: from a state whose floor holds, after any run without new requests in
      which every creation then pending has finished, and finished successfully,
      nobody is waiting. Expiries, releases, detaches, cleanups, further creations
      and undeliverable replies may all happen in between, in any order. */
  lemma WaitersDrain(cfg: Config, s: State, now: nat, inputs: seq<Input>)
    requires Valid(cfg, s) && Floor(cfg, now, s)
    requires forall i | 0 <= i < |inputs| :: Helpful(now, s.inventory.creating, inputs[i])
    requires s.inventory.creating !! Run(cfg, s, inputs).inventory.creating
    ensures Run(cfg, s, inputs).waiters == []
  {
    var pending := s.inventory.creating;
    assert pending * pending == pending;
    FloorIs(cfg, now, s);
    RunDrains(cfg, now, pending, s, inputs);
    assert pending * Run(cfg, s, inputs).inventory.creating == {};
  }

  /** The same from the start of the engine: with growth enabled and no submission
      rejected, in any state that a run reaches. */
  lemma ReachableWaitersDrain(cfg: Config, start: State, before: seq<Input>, times: seq<nat>, after: seq<Input>)
    requires Started(start) && cfg.growBatch > 0 && before != []
    requires Timed(before, times) && AllAccepted(before)
    requires var s := Run(cfg, start, before);
             && (forall i | 0 <= i < |after| :: Helpful(times[|times| - 1], s.inventory.creating, after[i]))
             && s.inventory.creating !! Run(cfg, s, after).inventory.creating
    ensures Run(cfg, Run(cfg, start, before), after).waiters == []
  {
    var s := Run(cfg, start, before);
    StartValid(cfg, start);
    RunValid(cfg, start, before);
    WaitersAreCovered(cfg, start, before, times);
    if s.waiters != [] {
      WaitersDrain(cfg, s, times[|times| - 1], after);
    } else {
      RunDrains(cfg, times[|times| - 1], s.inventory.creating, s, after);
      assert s.inventory.creating * Run(cfg, s, after).inventory.creating == {};
    }
  }
}
