/**
  The pool: how much growth asks for, the supply it keeps, and why every waiter
  is served once the pending creations finish.
 */
module Pool {
  import opened EngineTypes
  import opened EngineSpec
  import opened Ledger
  import opened Soundness
  import opened Plans
  import opened Timing

  // ----------------------------------------------------- growth arithmetic

  /** `deficit.div_ceil(batch) * batch` is the least covering multiple. */
  lemma RoundUpIsCeiling(deficit: nat, batch: nat)
    requires batch > 0
    ensures RoundUp(deficit, batch) == (deficit + batch - 1) / batch * batch
  {
    var k := RoundUpMultiple(deficit, batch);
    var r := deficit + batch - 1 - k * batch;
    QuotientOf(batch, k, r);
    assert batch * k + r == deficit + batch - 1;
  }

  lemma QuotientOf(d: nat, q: nat, r: nat)
    requires r < d
    ensures (d * q + r) / d == q
  {
    var k := (d * q + r) / d;
    if k < q {
      NextMultiple(d, k, q);
    } else if k > q {
      NextMultiple(d, q, k);
    }
  }

  lemma NextMultiple(d: nat, a: nat, b: nat)
    requires a < b
    ensures d * a + d <= d * b
  {
    assert d * b == d * a + d * (b - a);
    assert d * (b - a) == d + d * (b - a - 1);
  }

  lemma {:induction false} RoundUpMultiple(deficit: nat, batch: nat) returns (k: nat)
    requires batch > 0
    ensures RoundUp(deficit, batch) == k * batch && (deficit > 0 ==> k > 0)
  {
    if deficit == 0 {
      k := 0;
    } else if deficit <= batch {
      k := 1;
    } else {
      var j := RoundUpMultiple(deficit - batch, batch);
      k := j + 1;
    }
  }

  /** An accepted growth covers the unassigned leases whose replies are in time, the
      threshold and one more. If the stock already does, or growth is disabled, nothing
      happens; otherwise the next ids are requested, a positive number of whole batches,
      and less than one batch beyond the need. Asking again, then or at any later time,
      asks for nothing. */
  lemma GrowthCoversDemand(cfg: Config, clock: Clock, later: Clock, s: State) returns (batches: nat)
    requires Sound(cfg, s) && forall c :: clock(c) <= later(c)
    ensures var t := Grow(cfg, clock, true, s);
            var needed := |LiveSeen(cfg, clock, s)| + cfg.starvationThreshold + 1;
            var before := |s.inventory.ready| + |s.inventory.creating|;
            var after := |t.inventory.ready| + |t.inventory.creating|;
            if cfg.growBatch == 0 || before >= needed then batches == 0 && t == s else
              && batches > 0 && after == before + batches * cfg.growBatch
              && needed <= after < needed + cfg.growBatch
              && t.out == s.out + [CreationRequested(CreateDatabases(s.inventory.nextId + 1, batches * cfg.growBatch), true)]
    ensures forall again :: Grow(cfg, later, again, Grow(cfg, clock, true, s)) == Grow(cfg, clock, true, s)
  {
    WaitingIsLive(cfg, clock, s);
    AcceptedGrowth(cfg, clock, s);
    GrowthSettles(cfg, clock, later, s);
    batches := 0;
    if GrowCount(cfg, clock, s) > 0 {
      batches := RoundUpMultiple(Deficit(cfg, clock, s), cfg.growBatch);
    }
  }

  /** An accepted growth adds what it asks for, and nothing when it asks for nothing. */
  lemma AcceptedGrowth(cfg: Config, clock: Clock, s: State)
    requires Sound(cfg, s)
    ensures var t := Grow(cfg, clock, true, s);
            var count := GrowCount(cfg, clock, s);
            && Supply(t.inventory) == Supply(s.inventory) + count && t.groups == s.groups && t.leases == s.leases
            && (count == 0 ==> t == s)
            && (count > 0 ==> t.out == s.out + [CreationRequested(CreateDatabases(s.inventory.nextId + 1, count), true)])
  {
    AcceptedSupply(s, GrowCount(cfg, clock, s));
  }

  /** After an accepted growth there is no deficit, then or later. */
  lemma GrowthSettles(cfg: Config, clock: Clock, later: Clock, s: State)
    requires Sound(cfg, s) && forall c :: clock(c) <= later(c)
    ensures forall again :: Grow(cfg, later, again, Grow(cfg, clock, true, s)) == Grow(cfg, clock, true, s)
  {
    var t := Grow(cfg, clock, true, s);
    AcceptedGrowth(cfg, clock, s);
    WaitingShrinks(cfg, clock, later, s, t);
    if cfg.growBatch > 0 {
      assert Deficit(cfg, later, t) == 0;
    }
  }

  lemma AcceptedSupply(s: State, amount: nat)
    requires Places(s.leases, s.inventory)
    ensures var t := Reserve(s, amount, true);
            Supply(t.inventory) == Supply(s.inventory) + amount && t.groups == s.groups && t.leases == s.leases
  {
    var batch := NextBatch(s.inventory, amount);
    var ids := ReservedExactly(s.leases, s.inventory, batch, true);
    assert s.inventory.creating !! ids;
    assert |s.inventory.creating + ids| == |s.inventory.creating| + |ids|;
  }

  /** A rejected growth gives its reservations back, but not their ids, and counts as
      many databases as an accepted one would have requested. */
  lemma RejectedGrowth(cfg: Config, clock: Clock, s: State)
    requires Sound(cfg, s)
    ensures var t, accepted := Grow(cfg, clock, false, s), Grow(cfg, clock, true, s);
            var used := accepted.inventory.nextId - s.inventory.nextId;
            && used == |accepted.inventory.creating| - |s.inventory.creating|
            && t.inventory == s.inventory.(nextId := s.inventory.nextId + used)
            && t.counters == s.counters.(unstartedSlots := s.counters.unstartedSlots + used)
            && t.out == s.out + if used == 0 then []
                                else [CreationRequested(CreateDatabases(s.inventory.nextId + 1, used), false)]
  {
    var count := GrowCount(cfg, clock, s);
    var ids := ReservedExactly(s.leases, s.inventory, NextBatch(s.inventory, count), false);
    assert s.inventory.creating + {} == s.inventory.creating;
    AcceptedSupply(s, count);
    assert s.out == s.out + [];
  }

  // ----------------------------------------------------------- time passes

  /** A reply that is live later was live earlier, so waiting leases only drop out
      as time passes, as groups disappear and as leases are assigned. */
  lemma WaitingShrinks(cfg: Config, earlier: Clock, later: Clock, s: State, t: State)
    requires forall c :: earlier(c) <= later(c)
    requires forall lease | lease in t.groups :: lease in s.groups && t.groups[lease] == s.groups[lease]
    requires forall lease | lease in s.leases && lease in t.groups :: lease in t.leases
    ensures Waiting(cfg, later, t) <= Waiting(cfg, earlier, s)
    ensures |Waiting(cfg, later, t)| <= |Waiting(cfg, earlier, s)|
  {
    forall lease | lease in Waiting(cfg, later, t) ensures lease in Waiting(cfg, earlier, s) {
      var replies := t.groups[lease];
      var i :| 0 <= i < |replies| && !Expired(cfg, later, replies[i]);
      assert !Expired(cfg, earlier, replies[i]);
    }
    Subset(Waiting(cfg, later, t), Waiting(cfg, earlier, s));
  }

  lemma Subset<T>(a: set<T>, b: set<T>)
    requires a <= b
    ensures |a| <= |b|
  {
    assert b == a + (b - a);
  }

  // ------------------------------------------------------------ pool floor

  /** Ready databases and those being created outnumber the unassigned leases whose
      replies are in time by more than the starvation threshold. */
  ghost predicate Floor(cfg: Config, now: nat, s: State) {
    |s.inventory.ready| + |s.inventory.creating| >= |LiveAt(cfg, now, s)| + cfg.starvationThreshold + 1
  }

  lemma FloorIs(cfg: Config, now: nat, s: State)
    ensures Floor(cfg, now, s) <==> Supply(s.inventory) >= Required(cfg, At(now), s)
  {
    WaitingAt(cfg, now, s);
  }

  lemma GrowFloor(cfg: Config, clock: Clock, s: State, now: nat)
    requires Places(s.leases, s.inventory) && cfg.growBatch > 0 && forall c :: clock(c) <= now
    ensures var t := Grow(cfg, clock, true, s); Floor(cfg, now, t)
  {
    var t := Grow(cfg, clock, true, s);
    AcceptedSupply(s, GrowCount(cfg, clock, s));
    WaitingShrinks(cfg, clock, At(now), s, t);
    FloorIs(cfg, now, t);
  }

  /** Nothing was taken from the supply and nobody new waits. */
  lemma FloorKept(cfg: Config, s: State, t: State, now: nat, now': nat)
    requires Floor(cfg, now, s) && now <= now' && Supply(t.inventory) >= Supply(s.inventory)
    requires forall lease | lease in t.groups :: lease in s.groups && t.groups[lease] == s.groups[lease]
    requires forall lease | lease in s.leases && lease in t.groups :: lease in t.leases
    ensures Floor(cfg, now', t)
  {
    FloorIs(cfg, now, s);
    WaitingShrinks(cfg, At(now), At(now'), s, t);
    FloorIs(cfg, now', t);
  }

  /** The messages that make the engine reconsider its supply. */
  predicate Demands(cfg: Config, s: State, msg: Message) {
    match msg
    case AttachOrJoin(lease, _, _) => Admit(cfg, s, lease).1 == Some(Open) && lease !in s.leases
    case ReleaseLease(lease, _) => IsOpen(s.records, lease) && lease in s.leases
    case LeaseMaxTimeReached(lease, generation) => Current(s, lease, generation)
    case CreationFinished(id, _) => id in s.inventory.creating
    case _ => false
  }

  /** Such a message ends by growing a sound engine, and perhaps one answer. */
  ghost predicate EndsByGrowing(cfg: Config, input: Input, m: State, t: State) {
    var g := Grow(cfg, input.clock, input.createOk, m);
    t == g || exists e :: t == Say(g, e)
  }

  lemma AttachGrows(cfg: Config, s: State, input: Input) returns (m: State)
    requires Valid(cfg, s) && !s.shutdown && Demands(cfg, s, input.msg) && input.msg.AttachOrJoin?
    ensures Sound(cfg, m) && EndsByGrowing(cfg, input, m, Process(cfg, s, input))
  {
    var AttachOrJoin(lease, consumer, at) := input.msg;
    var s1 := Admit(cfg, s, lease).0;
    AttachOpen(cfg, input, s, lease, consumer, at);
    AdmitRuns(cfg, s, lease);
    RunsSound(cfg, s, AdmitPlan(s, lease), s1);
    var a := AttachAction(s1, lease, consumer, at);
    StepSound(cfg, s1, a);
    m := Apply(cfg, s1, a);
  }

  lemma ReleaseShape(cfg: Config, s: State, input: Input)
    requires !s.shutdown && input.msg.ReleaseLease? && IsOpen(s.records, input.msg.lease)
    requires input.msg.lease in s.leases && input.msg.lease !in s.groups
    ensures var m := Close(RetireOne(s, input.msg.lease, input.cleanupOk), input.msg.lease);
            Process(cfg, s, input)
            == Say(Grow(cfg, input.clock, input.createOk, m), ReleaseReplied(input.msg.consumer, true))
  {
    CloseRetireCommute(s, input.msg.lease, input.cleanupOk);
  }

  lemma ReleaseGrows(cfg: Config, s: State, input: Input) returns (m: State)
    requires Valid(cfg, s) && !s.shutdown && Demands(cfg, s, input.msg) && input.msg.ReleaseLease?
    ensures Sound(cfg, m) && EndsByGrowing(cfg, input, m, Process(cfg, s, input))
  {
    var lease := input.msg.lease;
    var retired := RetireOne(s, lease, input.cleanupOk);
    ReleaseShape(cfg, s, input);
    RetireKeepsSound(cfg, s, lease, input.cleanupOk);
    CloseKeepsSound(cfg, retired, lease);
    m := Close(retired, lease);
  }

  lemma DemandGrows(cfg: Config, s: State, input: Input) returns (m: State)
    requires Valid(cfg, s) && !s.shutdown && Demands(cfg, s, input.msg)
    ensures Sound(cfg, m) && EndsByGrowing(cfg, input, m, Process(cfg, s, input))
  {
    match input.msg
    case AttachOrJoin(_, _, _) => m := AttachGrows(cfg, s, input);
    case ReleaseLease(_, _) => m := ReleaseGrows(cfg, s, input);
    case LeaseMaxTimeReached(lease, _) =>
      m := RetireOne(Expire(s), lease, input.cleanupOk);
      StepSound(cfg, s, CountExpiry);
      RetireKeepsSound(cfg, Expire(s), lease, input.cleanupOk);
    case CreationFinished(id, result) =>
      var s1 := CompleteCreation(s, id, result);
      m := Dispatch(cfg, input.clock, s1);
      SettleKeepsSound(cfg, s, id, result);
      DispatchSound(cfg, input.clock, s1);
  }

  /** The supply is left alone and nobody new waits. */
  ghost predicate SupplyKept(s: State, t: State) {
    && t.inventory.ready == s.inventory.ready && t.inventory.creating == s.inventory.creating
    && t.leases.Keys == s.leases.Keys
    && (forall lease | lease in t.groups :: lease in s.groups && t.groups[lease] == s.groups[lease])
  }

  lemma JoinKeepsSupply(cfg: Config, s: State, lease: LeaseId, vs: seq<Verdict>)
    requires lease in s.leases
    ensures var t := Serve(cfg, s, lease, vs); SupplyKept(s, t)
  {
    var news := JoinOutcome(cfg, s, lease, vs);
  }

  lemma AttachKeepsSupply(cfg: Config, s: State, input: Input)
    requires Valid(cfg, s) && !s.shutdown && input.msg.AttachOrJoin? && !Demands(cfg, s, input.msg)
    ensures var t := Process(cfg, s, input); SupplyKept(s, t)
  {
    var AttachOrJoin(lease, consumer, _) := input.msg;
    if lease in s.leases {
      assert Admit(cfg, s, lease) == (s, Some(Open));
      assert Process(cfg, s, input) == Serve(cfg, s, lease, [Verdict(consumer, false)]);
      JoinKeepsSupply(cfg, s, lease, [Verdict(consumer, false)]);
    } else {
      assert Process(cfg, s, input) == s.(out := Process(cfg, s, input).out);
    }
  }

  lemma ReleaseKeepsSupply(cfg: Config, s: State, input: Input)
    requires Valid(cfg, s) && !s.shutdown && input.msg.ReleaseLease? && !Demands(cfg, s, input.msg)
    ensures var t := Process(cfg, s, input); SupplyKept(s, t)
  {
    var (s1, status) := Admit(cfg, s, input.msg.lease);
    if status == Some(Open) {
      assert input.msg.lease !in s1.leases;
      ClosedOnly(cfg, s1, input);
    } else {
      assert Process(cfg, s, input) == s.(out := Process(cfg, s, input).out);
    }
  }

  /** Releasing an unassigned lease only closes it. */
  lemma ClosedOnly(cfg: Config, s: State, input: Input)
    requires input.msg.ReleaseLease? && input.msg.lease !in s.leases
    ensures var t := Say(Retire(cfg, input, Close(s, input.msg.lease), input.msg.lease),
                         ReleaseReplied(input.msg.consumer, true));
            SupplyKept(s, t)
  {
  }

  /** Any other message leaves the supply alone and adds no waiter. */
  lemma OthersKeepSupply(cfg: Config, s: State, input: Input)
    requires Valid(cfg, s) && !Demands(cfg, s, input.msg)
    ensures var t := Process(cfg, s, input); SupplyKept(s, t)
  {
    if !s.shutdown {
      match input.msg
      case AttachOrJoin(_, _, _) => AttachKeepsSupply(cfg, s, input);
      case ReleaseLease(_, _) => ReleaseKeepsSupply(cfg, s, input);
      case Detach(_, _) =>
      case _ =>
    }
  }

  /** Once supply has been reconsidered with an accepted submission the floor
      holds, and every later message keeps it as long as none is rejected. */
  lemma MessageFloor(cfg: Config, s: State, input: Input, now: nat, now': nat)
    requires Valid(cfg, s) && cfg.growBatch > 0 && input.createOk
    requires now <= now' && forall c :: input.clock(c) <= now'
    requires Floor(cfg, now, s) || (Demands(cfg, s, input.msg) && !s.shutdown)
    ensures var t := Process(cfg, s, input); Floor(cfg, now', t)
  {
    if s.shutdown {
      FloorKept(cfg, s, s, now, now');
    } else if Demands(cfg, s, input.msg) {
      var m := DemandGrows(cfg, s, input);
      GrowFloor(cfg, input.clock, m, now');
      SayFloor(cfg, now', Grow(cfg, input.clock, true, m), Process(cfg, s, input));
    } else {
      OthersKeepSupply(cfg, s, input);
      FloorKept(cfg, s, Process(cfg, s, input), now, now');
    }
  }

  lemma SayFloor(cfg: Config, now: nat, g: State, t: State)
    requires Floor(cfg, now, g) && (t == g || exists e :: t == Say(g, e))
    ensures Floor(cfg, now, t)
  {
    assert LiveAt(cfg, now, t) == LiveAt(cfg, now, g);
  }

  /** Input `i` is handled before `times[i]`, and time does not run backwards. */
  ghost predicate Timed(inputs: seq<Input>, times: seq<nat>) {
    && |times| == |inputs|
    && (forall i, j | 0 <= i <= j < |times| :: times[i] <= times[j])
    && (forall i, c | 0 <= i < |inputs| :: inputs[i].clock(c) <= times[i])
  }

  ghost predicate AllAccepted(inputs: seq<Input>) {
    forall i | 0 <= i < |inputs| :: inputs[i].createOk
  }

  /** The pool floor over any run without a rejected submission. */
  lemma {:induction false} PoolFloor(cfg: Config, s: State, now: nat, inputs: seq<Input>, times: seq<nat>)
    requires Valid(cfg, s) && cfg.growBatch > 0 && Floor(cfg, now, s)
    requires Timed(inputs, times) && AllAccepted(inputs) && (inputs != [] ==> now <= times[0])
    ensures var t := Run(cfg, s, inputs); Floor(cfg, if inputs == [] then now else times[|times| - 1], t)
  {
    if inputs != [] {
      var n := |inputs| - 1;
      PoolFloor(cfg, s, now, inputs[..n], times[..n]);
      RunValid(cfg, s, inputs[..n]);
      var before := if n == 0 then now else times[n - 1];
      MessageFloor(cfg, Run(cfg, s, inputs[..n]), inputs[n], before, times[n]);
    }
  }

  lemma FloorAfterDemand(cfg: Config, m: State, input: Input, now: nat)
    requires Valid(cfg, m) && cfg.growBatch > 0 && input.createOk && forall c :: input.clock(c) <= now
    requires !m.shutdown && Demands(cfg, m, input.msg)
    ensures var t := Process(cfg, m, input); Floor(cfg, now, t)
  {
    MessageFloor(cfg, m, input, 0, now);
  }

  /** Once a message has made the engine reconsider its supply with an accepted
      submission, the floor holds after it and after every later message, until a
      submission is rejected. */
  lemma FloorOnceGrown(cfg: Config, m: State, input: Input, now: nat, inputs: seq<Input>, times: seq<nat>)
    requires Valid(cfg, m) && cfg.growBatch > 0 && input.createOk && forall c :: input.clock(c) <= now
    requires !m.shutdown && Demands(cfg, m, input.msg)
    requires Timed(inputs, times) && AllAccepted(inputs) && (inputs != [] ==> now <= times[0])
    ensures var t := Run(cfg, Process(cfg, m, input), inputs);
            Floor(cfg, if inputs == [] then now else times[|times| - 1], t)
  {
    FloorAfterDemand(cfg, m, input, now);
    MessageValid(cfg, m, input);
    PoolFloor(cfg, Process(cfg, m, input), now, inputs, times);
  }

  /** Without rejected submissions, somebody waits only when the floor holds. */
  lemma {:induction false} WaitersAreCovered(cfg: Config, s: State, inputs: seq<Input>, times: seq<nat>)
    requires Started(s) && cfg.growBatch > 0 && Timed(inputs, times) && AllAccepted(inputs) && inputs != []
    ensures var t := Run(cfg, s, inputs); t.waiters != [] ==> Floor(cfg, times[|times| - 1], t)
  {
    var n := |inputs| - 1;
    var m := Run(cfg, s, inputs[..n]);
    StartValid(cfg, s);
    RunValid(cfg, s, inputs[..n]);
    if n > 0 {
      WaitersAreCovered(cfg, s, inputs[..n], times[..n]);
    }
    var before := if n == 0 then 0 else times[n - 1];
    if m.shutdown || !Demands(cfg, m, inputs[n].msg) {
      NoNewWaiter(cfg, m, inputs[n]);
    }
    if Floor(cfg, before, m) || (Demands(cfg, m, inputs[n].msg) && !m.shutdown) {
      MessageFloor(cfg, m, inputs[n], before, times[n]);
    }
  }

  lemma NoNewWaiter(cfg: Config, s: State, input: Input)
    requires Valid(cfg, s) && (s.shutdown || !Demands(cfg, s, input.msg))
    ensures var t := Process(cfg, s, input); t.waiters != [] ==> s.waiters != []
  {
    if !s.shutdown {
      OthersKeepSupply(cfg, s, input);
      MessageValid(cfg, s, input);
      var t := Process(cfg, s, input);
      if t.waiters != [] {
        assert t.waiters[0] in t.waiters;
        assert t.waiters[0] in s.groups;
        assert t.waiters[0] in s.waiters;
      }
    }
  }
}
