/**
  The exact answers: what an attach, a release and an expiry say and do, message by
  message, and that stale messages and everything after a shutdown do nothing.
 */
module Answers {
  import opened EngineTypes
  import opened EngineSpec
  import opened Ledger
  import opened Soundness
  import opened Plans
  import opened Lifecycle
  import opened Timing
  import opened Transitions

  // ------------------------------------------------------------- the attach

  /** No counter moves but the one of refused creations. */
  predicate SameCounts(s: State, t: State) {
    t.counters == s.counters.(unstartedSlots := t.counters.unstartedSlots)
  }

  /** Apart from what is listed, an attach leaves the engine as it was: it may request
      creations, and keeps a record of the lease. */
  ghost predicate OnlyGrows(s: State, t: State, lease: LeaseId, createOk: bool, said: seq<Event>) {
    && t.records == s.records[lease := Open] && t.shutdown == s.shutdown && SameCounts(s, t)
    && t.inventory.retiring == s.inventory.retiring
    && (t.out == s.out + said || exists batch :: t.out == s.out + said + [CreationRequested(batch, createOk)])
  }

  /** The lease holds a database: the consumer is told it, up to 65535 connections. */
  predicate JoinAnswer(s: State, t: State, lease: LeaseId, c: Consumer)
    requires lease in s.leases
  {
    var e := s.leases[lease];
    if e.conns < 65535 then
      t == s.(leases := s.leases[lease := e.(conns := if c.reachable then e.conns + 1 else e.conns)],
              out := s.out + [AttachReplied(c, lease, Attached(e.database, e.generation))])
    else
      t == s.(out := s.out + [AttachReplied(c, lease, FailedToAttach)])
  }

  /** Nothing is ready: the reply waits last in its group, unanswered. */
  ghost predicate WaitAnswer(s: State, t: State, lease: LeaseId, c: Consumer, at: nat, createOk: bool) {
    && OnlyGrows(s, t, lease, createOk, [])
    && t.groups == s.groups[lease := (if lease in s.groups then s.groups[lease] else []) + [Queued(c, at)]]
    && t.waiters == (if lease in s.groups then s.waiters else s.waiters + [lease])
    && t.leases == s.leases && t.inventory.ready == s.inventory.ready
    && t.nextGeneration == s.nextGeneration && t.cancelled == s.cancelled
  }

  /** A database is ready: the oldest one is offered under a new generation. If nobody
      receives the offer, the generation is dead and the database stays where it was. */
  ghost predicate OfferAnswer(cfg: Config, s: State, t: State, lease: LeaseId, c: Consumer, createOk: bool)
    requires s.inventory.ready != []
  {
    var db, g := s.inventory.ready[0], s.nextGeneration + 1;
    && OnlyGrows(s, t, lease, createOk, (if cfg.claimTimeout > 0 then [TimerArmed(lease, g)] else [])
                                        + [AttachReplied(c, lease, Attached(db, g))])
    && t.groups == s.groups && t.waiters == s.waiters && t.nextGeneration == g
    && if c.reachable then
         && t.leases == s.leases[lease := Entry(db, 1, g)]
         && t.inventory.ready == s.inventory.ready[1..] && t.cancelled == s.cancelled
       else
         && t.leases == s.leases && t.inventory.ready == s.inventory.ready && t.cancelled == s.cancelled + {g}
  }

  /** The lease may be given a database: it waits, is offered one, or is refused for
      want of a record. */
  ghost predicate OpenAnswer(cfg: Config, s: State, t: State, lease: LeaseId, c: Consumer, at: nat, createOk: bool) {
    if lease !in s.records && |s.records| >= cfg.maxRecords then
      t == s.(out := s.out + [AttachReplied(c, lease, Rejected(LeaseRecordLimitReached))])
    else if s.inventory.ready == [] then WaitAnswer(s, t, lease, c, at, createOk)
    else OfferAnswer(cfg, s, t, lease, c, createOk)
  }

  /** The answer to every attach, by the state of its lease. */
  lemma AttachAnswered(cfg: Config, s: State, input: Input)
    requires Valid(cfg, s) && !s.shutdown && input.msg.AttachOrJoin?
    ensures var AttachOrJoin(lease, c, at) := input.msg;
            var t := Process(cfg, s, input);
            match LeaseOf(s, lease)
            case Held(_, _) => lease in s.leases && JoinAnswer(s, t, lease, c)
            case Shut => t == s.(out := s.out + [AttachReplied(c, lease, Rejected(LeaseClosed))])
            case _ => OpenAnswer(cfg, s, t, lease, c, at, input.createOk)
  {
    var AttachOrJoin(lease, c, at) := input.msg;
    if lease in s.leases {
      AttachJoins(cfg, s, input);
      JoinedOne(cfg, s, lease, c);
    } else if Admit(cfg, s, lease).1 == Some(Open) {
      AttachOpens(cfg, s, input);
    }
  }

  lemma AttachJoins(cfg: Config, s: State, input: Input)
    requires Coherent(s) && !s.shutdown && input.msg.AttachOrJoin? && input.msg.lease in s.leases
    ensures LeaseOf(s, input.msg.lease).Held?
    ensures Process(cfg, s, input) == Serve(cfg, s, input.msg.lease, [Verdict(input.msg.consumer, false)])
  {
    assert IsOpen(s.records, input.msg.lease);
  }

  lemma AttachOpens(cfg: Config, s: State, input: Input)
    requires Valid(cfg, s) && !s.shutdown && input.msg.AttachOrJoin? && input.msg.lease !in s.leases
    requires Admit(cfg, s, input.msg.lease).1 == Some(Open)
    ensures var t := Process(cfg, s, input);
            OpenAnswer(cfg, s, t, input.msg.lease, input.msg.consumer, input.msg.at, input.createOk)
  {
    var AttachOrJoin(lease, c, at) := input.msg;
    var s1 := Admit(cfg, s, lease).0;
    AttachOpen(cfg, input, s, lease, c, at);
    AdmittedRecords(cfg, s, lease);
    if s.inventory.ready == [] {
      WaitGrows(cfg, input, s, s1, lease, c, at);
    } else {
      OfferGrows(cfg, input, s, s1, lease, c);
    }
  }

  lemma AdmittedRecords(cfg: Config, s: State, lease: LeaseId)
    requires Admit(cfg, s, lease).1 == Some(Open)
    ensures var s1 := Admit(cfg, s, lease).0; s1 == s.(records := s1.records) && s1.records == s.records[lease := Open]
    ensures lease in s.records || |s.records| < cfg.maxRecords
  {
  }

  /** Growing says at most that a batch was requested. */
  ghost predicate Grew(createOk: bool, m: State, t: State) {
    && SameCounts(m, t) && t.records == m.records && t.shutdown == m.shutdown && t.groups == m.groups && t.waiters == m.waiters
    && t.leases == m.leases && t.nextGeneration == m.nextGeneration && t.cancelled == m.cancelled
    && t.inventory.retiring == m.inventory.retiring && t.inventory.ready == m.inventory.ready
    && (t.out == m.out || exists batch :: t.out == m.out + [CreationRequested(batch, createOk)])
  }

  lemma GrowSaid(cfg: Config, clock: Clock, createOk: bool, m: State)
    ensures var t := Grow(cfg, clock, createOk, m); Grew(createOk, m, t)
  {
    GrowFrame(cfg, clock, createOk, m);
    var count := GrowCount(cfg, clock, m);
    if count != 0 {
      ReserveSaid(m, count, createOk);
    }
  }

  lemma ReserveSaid(m: State, count: nat, createOk: bool)
    ensures Reserve(m, count, createOk).out == m.out + [CreationRequested(NextBatch(m.inventory, count), createOk)]
  {
  }

  /** Answering one reply of an assigned lease. */
  lemma JoinedOne(cfg: Config, s: State, lease: LeaseId, c: Consumer)
    requires lease in s.leases && s.leases[lease].conns <= U16_MAX
    ensures var t := Serve(cfg, s, lease, [Verdict(c, false)]); JoinAnswer(s, t, lease, c)
  {
    var vs, e := [Verdict(c, false)], s.leases[lease];
    OneReached(c);
    assert vs[..0] == [] && Timeouts(vs) == 0;
    assert ServeEvents(cfg, lease, e.database, e.generation, e.conns, true, vs)
        == [] + ReplyEvents(cfg, lease, e.database, e.generation, e.conns, true, [], vs[0]);
    assert s.leases[lease := e] == s.leases;
  }

  lemma WaitGrows(cfg: Config, input: Input, s: State, s1: State, lease: LeaseId, c: Consumer, at: nat)
    requires s1 == s.(records := s1.records) && s1.records == s.records[lease := Open]
    ensures var t := Grow(cfg, input.clock, input.createOk, Enqueue(s1, lease, Queued(c, at)));
            WaitAnswer(s, t, lease, c, at, input.createOk)
  {
    GrowSaid(cfg, input.clock, input.createOk, Enqueue(s1, lease, Queued(c, at)));
    assert s.out + [] == s.out;
  }

  lemma OfferedOne(cfg: Config, s: State, lease: LeaseId, c: Consumer)
    requires lease !in s.leases && s.inventory.ready != []
    ensures var db, g := s.inventory.ready[0], s.nextGeneration + 1;
            var t := Serve(cfg, s, lease, [Verdict(c, false)]);
            && t.out == s.out + ((if cfg.claimTimeout > 0 then [TimerArmed(lease, g)] else [])
                                 + [AttachReplied(c, lease, Attached(db, g))])
            && t.nextGeneration == g && t.counters == s.counters
            && if c.reachable then t.leases == s.leases[lease := Entry(db, 1, g)] && t.cancelled == s.cancelled
                                   && t.inventory == s.inventory.(ready := s.inventory.ready[1..])
               else t.leases == s.leases && t.cancelled == s.cancelled + {g} && t.inventory == s.inventory
  {
    var vs := [Verdict(c, false)];
    OneReached(c);
    assert vs[..0] == [] && AnyLive(vs) && Timeouts(vs) == 0;
    var db, g := s.inventory.ready[0], s.nextGeneration + 1;
    var news := ServeOutcome(cfg, s, lease, vs);
    assert ServeEvents(cfg, lease, db, g, 0, false, vs) == [] + ReplyEvents(cfg, lease, db, g, 0, false, [], vs[0]);
  }

  lemma OfferGrows(cfg: Config, input: Input, s: State, s1: State, lease: LeaseId, c: Consumer)
    requires s1 == s.(records := s1.records) && s1.records == s.records[lease := Open]
    requires lease !in s.leases && s.inventory.ready != []
    ensures var t := Grow(cfg, input.clock, input.createOk, Serve(cfg, s1, lease, [Verdict(c, false)]));
            OfferAnswer(cfg, s, t, lease, c, input.createOk)
  {
    OfferedOne(cfg, s1, lease, c);
    var news := ServeOutcome(cfg, s1, lease, [Verdict(c, false)]);
    GrowSaid(cfg, input.clock, input.createOk, Serve(cfg, s1, lease, [Verdict(c, false)]));
  }

  // ------------------------------------------------------ release and expiry

  /** Every queued reply of a closed lease is told so, in order. */
  function Rejections(lease: LeaseId, replies: seq<Queued>): seq<Event> {
    seq(|replies|, i requires 0 <= i < |replies| =>
      AttachReplied(replies[i].consumer, lease, Rejected(LeaseClosed)))
  }

  /** The lease's database is retired: cancelled, recorded under its name, sent to
      cleanup once; then creations may be requested. Whoever waits is left alone. */
  ghost predicate Retired(s: State, t: State, lease: LeaseId, createOk: bool, cleanupOk: bool, said: seq<Event>) {
    if lease in s.leases then
      var e := s.leases[lease];
      && t.leases == s.leases - {lease} && t.cancelled == s.cancelled + {e.generation}
      && t.inventory.retiring == s.inventory.retiring[e.database.id := e.database.name]
      && (said == [CleanupRequested(e.database, cleanupOk)]
          || exists batch :: said == [CleanupRequested(e.database, cleanupOk), CreationRequested(batch, createOk)])
    else
      && t.leases == s.leases && t.cancelled == s.cancelled && t.inventory == s.inventory && said == []
  }

  lemma RetireSays(cfg: Config, input: Input, s: State, lease: LeaseId) returns (said: seq<Event>)
    ensures var t := Retire(cfg, input, s, lease);
            && Retired(s, t, lease, input.createOk, input.cleanupOk, said) && t.out == s.out + said
            && t.records == s.records && t.waiters == s.waiters && t.groups == s.groups && t.shutdown == s.shutdown
            && t.inventory.ready == s.inventory.ready && t.nextGeneration == s.nextGeneration && SameCounts(s, t)
  {
    said := [];
    if lease in s.leases {
      var m := RetireOne(s, lease, input.cleanupOk);
      var t := Grow(cfg, input.clock, input.createOk, m);
      GrowSaid(cfg, input.clock, input.createOk, m);
      var cleanup := CleanupRequested(s.leases[lease].database, input.cleanupOk);
      said := [cleanup];
      if t.out != m.out {
        var batch :| t.out == m.out + [CreationRequested(batch, input.createOk)];
        said := [cleanup, CreationRequested(batch, input.createOk)];
      }
    } else {
      assert s.out + [] == s.out;
    }
  }

  /** The lease is closed, its queued replies are rejected and forgotten, and its
      database is retired; the answer comes last. */
  ghost predicate ReleaseAnswer(s: State, t: State, input: Input, said: seq<Event>)
    requires input.msg.ReleaseLease?
  {
    var lease := input.msg.lease;
    && t.records == s.records[lease := Closed] && t.groups == s.groups - {lease}
    && (if lease in s.waiters then exists p, q :: s.waiters == p + [lease] + q && t.waiters == p + q
        else t.waiters == s.waiters)
    && Retired(s, t, lease, input.createOk, input.cleanupOk, said)
    && t.out == s.out + (if lease in s.groups then Rejections(lease, s.groups[lease]) else []) + said
                + [ReleaseReplied(input.msg.consumer, true)]
    && t.inventory.ready == s.inventory.ready && t.nextGeneration == s.nextGeneration && t.shutdown == s.shutdown
    && SameCounts(s, t)
  }

  /** The queue without a lease that is in it once. */
  lemma {:induction false} WithoutOne(waiters: seq<LeaseId>, lease: LeaseId) returns (p: seq<LeaseId>, q: seq<LeaseId>)
    requires Distinct(waiters)
    ensures if lease in waiters then waiters == p + [lease] + q && Without(waiters, lease) == p + q
            else Without(waiters, lease) == waiters
  {
    p, q := [], [];
    if waiters != [] {
      var init, last := waiters[..|waiters| - 1], waiters[|waiters| - 1];
      assert waiters == init + [last];
      if last == lease {
        assert lease !in init;
        var _, _ := WithoutOne(init, lease);
        p := init;
        assert init + [] == init;
      } else {
        p, q := WithoutOne(init, lease);
        q := q + [last];
      }
    }
  }

  /** The answer to every release, by the state of its lease. */
  lemma ReleaseAnswered(cfg: Config, s: State, input: Input) returns (said: seq<Event>)
    requires Valid(cfg, s) && !s.shutdown && input.msg.ReleaseLease?
    ensures var lease, c, t := input.msg.lease, input.msg.consumer, Process(cfg, s, input);
            if LeaseOf(s, lease) == Shut then t == s.(out := s.out + [ReleaseReplied(c, true)])
            else if LeaseOf(s, lease) == Unknown && |s.records| >= cfg.maxRecords then
              t == s.(out := s.out + [ReleaseReplied(c, false)])
            else ReleaseAnswer(s, t, input, said)
  {
    var lease := input.msg.lease;
    said := [];
    if Admit(cfg, s, lease).1 == Some(Open) {
      var s1 := Admit(cfg, s, lease).0;
      AdmittedRecords(cfg, s, lease);
      OpenReleaseShape(cfg, s, input);
      said := RetireSays(cfg, input, Close(s1, lease), lease);
      ClosedSays(s, s1, lease);
      Released(cfg, s, s1, input, Retire(cfg, input, Close(s1, lease), lease), said);
    }
  }

  lemma ClosedSays(s: State, s1: State, lease: LeaseId)
    requires s1 == s.(records := s1.records)
    ensures var m := Close(s1, lease);
            && m.out == s.out + (if lease in s.groups then Rejections(lease, s.groups[lease]) else [])
            && m == s.(records := m.records, groups := s.groups - {lease}, waiters := Without(s.waiters, lease), out := m.out)
            && m.records == s1.records[lease := Closed]
  {
    if lease in s.groups {
      assert RejectEvents(lease, s.groups[lease]) == Rejections(lease, s.groups[lease]);
    } else {
      assert s.out + [] == s.out;
    }
  }

  lemma Released(cfg: Config, s: State, s1: State, input: Input, r: State, said: seq<Event>)
    requires Coherent(s) && input.msg.ReleaseLease? && s1.records == s.records[input.msg.lease := Open]
    requires var lease := input.msg.lease;
             && Retired(s, r, lease, input.createOk, input.cleanupOk, said)
             && r.records == s1.records[lease := Closed] && r.groups == s.groups - {lease}
             && r.waiters == Without(s.waiters, lease) && r.shutdown == s.shutdown
             && r.out == s.out + (if lease in s.groups then Rejections(lease, s.groups[lease]) else []) + said
             && r.inventory.ready == s.inventory.ready && r.nextGeneration == s.nextGeneration && SameCounts(s, r)
    ensures var t := Say(r, ReleaseReplied(input.msg.consumer, true)); ReleaseAnswer(s, t, input, said)
  {
    var p, q := WithoutOne(s.waiters, input.msg.lease);
    assert s1.records[input.msg.lease := Closed] == s.records[input.msg.lease := Closed];
  }

  /** The expiry of a live assignment ends it and nothing else. */
  lemma ExpiryAnswered(cfg: Config, s: State, input: Input) returns (said: seq<Event>)
    requires Valid(cfg, s) && !s.shutdown && input.msg.LeaseMaxTimeReached?
    requires Current(s, input.msg.lease, input.msg.generation)
    ensures var t := Process(cfg, s, input);
            && Retired(s, t, input.msg.lease, input.createOk, input.cleanupOk, said) && said != []
            && t.out == s.out + said && t.records == s.records && t.waiters == s.waiters && t.groups == s.groups
            && t.inventory.ready == s.inventory.ready && t.nextGeneration == s.nextGeneration && !t.shutdown
            && t.counters.expiredLeases == s.counters.expiredLeases + 1
  {
    ExpiryShape(cfg, s, input);
    said := RetireSays(cfg, input, Expire(s), input.msg.lease);
  }

  lemma ExpiryShape(cfg: Config, s: State, input: Input)
    requires !s.shutdown && input.msg.LeaseMaxTimeReached? && Current(s, input.msg.lease, input.msg.generation)
    ensures Process(cfg, s, input) == Retire(cfg, input, Expire(s), input.msg.lease)
  {
  }

  /** A join and the detach of its session leave nothing behind but the answer. */
  lemma DetachUndoesJoin(cfg: Config, s: State, join: Input, leave: Input)
    requires Valid(cfg, s) && !s.shutdown && join.msg.AttachOrJoin? && join.msg.consumer.reachable
    requires join.msg.lease in s.leases && s.leases[join.msg.lease].conns < 65535
    requires leave.msg == Detach(join.msg.lease, s.leases[join.msg.lease].generation)
    ensures var e := s.leases[join.msg.lease];
            Process(cfg, Process(cfg, s, join), leave)
            == s.(out := s.out + [AttachReplied(join.msg.consumer, join.msg.lease, Attached(e.database, e.generation))])
  {
    var lease := join.msg.lease;
    var e, t := s.leases[lease], Process(cfg, s, join);
    AttachJoins(cfg, s, join);
    JoinedOne(cfg, s, lease, join.msg.consumer);
    DetachLeaves(cfg, t, leave, e.conns);
    assert t.leases[lease := e] == s.leases;
  }

  lemma DetachLeaves(cfg: Config, t: State, leave: Input, n: nat)
    requires !t.shutdown && leave.msg.Detach? && leave.msg.lease in t.leases
    requires t.leases[leave.msg.lease].generation == leave.msg.generation && t.leases[leave.msg.lease].conns == n + 1
    ensures Process(cfg, t, leave) == t.(leases := t.leases[leave.msg.lease := t.leases[leave.msg.lease].(conns := n)])
  {
  }

  // ------------------------------------------------------- nothing happens

  /** Stale detaches and expiries, reports of ids that are not pending or not retired,
      and failed cleanups leave the whole engine as it was. */
  lemma StaleChangesNothing(cfg: Config, s: State, input: Input)
    requires match input.msg
             case Detach(lease, g) => lease !in s.leases || s.leases[lease].generation != g
             case LeaseMaxTimeReached(lease, g) => lease !in s.leases || s.leases[lease].generation != g
             case CreationFinished(id, _) => id !in s.inventory.creating
             case CleanupFinished(id, ok) => id !in s.inventory.retiring || !ok
             case _ => false
    ensures Process(cfg, s, input) == s
  {
  }

  /** A shutdown message stops the engine for ever: no later message changes it. */
  lemma {:induction false} ShutdownStops(cfg: Config, s: State, input: Input, inputs: seq<Input>)
    requires input.msg.Shutdown?
    ensures Run(cfg, Process(cfg, s, input), inputs) == s.(shutdown := true)
  {
    if inputs != [] {
      ShutdownStops(cfg, s, input, inputs[..|inputs| - 1]);
    }
  }

  /** A failed creation only gives its reservation up, is counted, and may be replaced. */
  lemma FailureAnswered(cfg: Config, s: State, input: Input)
    requires Valid(cfg, s) && !s.shutdown && input.msg.CreationFinished? && input.msg.id in s.inventory.creating
    requires input.msg.result.None?
    ensures var t := Process(cfg, s, input);
            && t.records == s.records && t.groups == s.groups && t.waiters == s.waiters && t.leases == s.leases
            && t.nextGeneration == s.nextGeneration && t.cancelled == s.cancelled && !t.shutdown
            && t.inventory.ready == s.inventory.ready && t.inventory.retiring == s.inventory.retiring
            && input.msg.id !in t.inventory.creating && t.counters.createFailures == s.counters.createFailures + 1
            && (t.out == s.out || exists batch :: t.out == s.out + [CreationRequested(batch, input.createOk)])
  {
    var m := CompleteCreation(s, input.msg.id, None);
    CreationShape(cfg, s, input);
    assert Dispatch(cfg, input.clock, m) == m;
    GrowSaid(cfg, input.clock, input.createOk, m);
    GrownCreating(cfg, input, s, m);
  }

  lemma GrownCreating(cfg: Config, input: Input, s: State, m: State)
    requires Sound(cfg, s) && input.msg.CreationFinished? && input.msg.id in s.inventory.creating
    requires m == CompleteCreation(s, input.msg.id, None)
    ensures var t := Grow(cfg, input.clock, input.createOk, m);
            input.msg.id !in t.inventory.creating && t.counters.createFailures == m.counters.createFailures
  {
    SettleKeepsSound(cfg, s, input.msg.id, None);
    var ids := ReservedExactly(m.leases, m.inventory, NextBatch(m.inventory, GrowCount(cfg, input.clock, m)), input.createOk);
  }
}
