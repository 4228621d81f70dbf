/**
  Lease records: the capacity they bound, what a release does to a lease once and
  for all, and how each message moves the waiting queue.
 */
module Records {
  import opened EngineTypes
  import opened EngineSpec
  import opened Ledger
  import opened Plans
  import opened Lifecycle

  // -------------------------------------------------------------- capacity

  lemma {:induction false} DistinctCount(waiters: seq<LeaseId>, members: set<LeaseId>)
    requires Distinct(waiters)
    requires forall lease :: lease in members <==> lease in waiters
    ensures |members| == |waiters|
  {
    if waiters != [] {
      var init, last := waiters[..|waiters| - 1], waiters[|waiters| - 1];
      assert waiters == init + [last];
      assert last !in init;
      DistinctCount(init, members - {last});
    }
  }

  lemma Fits(a: set<LeaseId>, b: set<LeaseId>, c: set<LeaseId>)
    requires a !! b && a + b <= c
    ensures |a| + |b| <= |c|
  {
    assert |a + b| == |a| + |b|;
    assert c == (a + b) + (c - (a + b));
  }

  lemma QueuedFit(leases: Leases, records: map<LeaseId, Status>, waiters: seq<LeaseId>, groups: map<LeaseId, seq<Queued>>)
    requires Queues(leases, records, waiters, groups)
    ensures |leases| + |waiters| <= |records|
  {
    DistinctCount(waiters, groups.Keys);
    Fits(leases.Keys, groups.Keys, records.Keys);
  }

  /** Assigned and waiting leases have a record each, and records are bounded. */
  lemma Capacity(cfg: Config, s: State)
    requires Valid(cfg, s)
    ensures |s.leases| + |s.waiters| <= |s.records| <= cfg.maxRecords
  {
    QueuedFit(s.leases, s.records, s.waiters, s.groups);
  }

  // --------------------------------------------------------------- release

  /** A release succeeds exactly when the lease has a record or there is room for
      one. Then the lease is closed, unassigned and unqueued, whether or not anyone
      reads the answer; otherwise only the refusal is sent. */
  lemma ReleaseOutcome(cfg: Config, s: State, input: Input)
    requires Coherent(s) && !s.shutdown && input.msg.ReleaseLease?
    ensures var lease := input.msg.lease;
            var t := Process(cfg, s, input);
            var accepted := lease in s.records || |s.records| < cfg.maxRecords;
            && t.out != [] && t.out[|t.out| - 1] == ReleaseReplied(input.msg.consumer, accepted)
            && if accepted then LeaseOf(t, lease).Shut? && lease !in t.leases && lease !in t.waiters && lease !in t.groups
               else t == Say(s, ReleaseReplied(input.msg.consumer, false))
  {
    if Admit(cfg, s, input.msg.lease).1 == Some(Open) {
      OpenRelease(cfg, s, input);
    } else if input.msg.lease in s.records {
    }
  }

  lemma OpenRelease(cfg: Config, s: State, input: Input)
    requires Coherent(s) && !s.shutdown && input.msg.ReleaseLease? && Admit(cfg, s, input.msg.lease).1 == Some(Open)
    ensures var lease, t := input.msg.lease, Process(cfg, s, input);
            && t.out != [] && t.out[|t.out| - 1] == ReleaseReplied(input.msg.consumer, true)
            && LeaseOf(t, lease).Shut? && lease !in t.leases && lease !in t.waiters && lease !in t.groups
  {
    var lease := input.msg.lease;
    var s2 := Close(Admit(cfg, s, lease).0, lease);
    WithoutFacts(s.waiters, lease);
    RetireFrame(cfg, input, s2, lease);
  }

  lemma RetireFrame(cfg: Config, input: Input, s: State, lease: LeaseId)
    ensures var t := Retire(cfg, input, s, lease);
            && lease !in t.leases && t.records == s.records && t.waiters == s.waiters && t.groups == s.groups
  {
    if lease in s.leases {
      GrowFrame(cfg, input.clock, input.createOk, RetireOne(s, lease, input.cleanupOk));
    }
  }

  /** Releasing again, after any run, only answers. */
  lemma RepeatedRelease(cfg: Config, s: State, first: Input, inputs: seq<Input>, again: Input)
    requires Valid(cfg, s) && !s.shutdown && first.msg.ReleaseLease? && again.msg.ReleaseLease?
    requires first.msg.lease == again.msg.lease
    requires first.msg.lease in s.records || |s.records| < cfg.maxRecords
    ensures var t := Run(cfg, Process(cfg, s, first), inputs);
            Process(cfg, t, again) == if t.shutdown then t else Say(t, ReleaseReplied(again.msg.consumer, true))
  {
    ReleaseOutcome(cfg, s, first);
    MessageValid(cfg, s, first);
    ClosedForEver(cfg, Process(cfg, s, first), first.msg.lease, inputs);
  }

  // ----------------------------------------------------------------- queue

  /** Between messages the queue and the groups describe the same leases: nobody is
      queued twice, every group has a reply, no waiting lease is assigned or closed,
      and nobody waits beside a ready database. */
  lemma QueueCoherence(cfg: Config, s: State, lease: LeaseId)
    requires Reachable(cfg, s)
    ensures forall i, j | 0 <= i < j < |s.waiters| :: s.waiters[i] != s.waiters[j]
    ensures lease in s.waiters <==> lease in s.groups
    ensures lease in s.groups ==> s.groups[lease] != [] && lease !in s.leases && LeaseOf(s, lease).InQueue?
    ensures s.waiters != [] ==> s.inventory.ready == []
  {
    ReachableValid(cfg, s);
  }

  lemma {:induction false} DispatchDropsPrefix(cfg: Config, clock: Clock, s: State) returns (k: nat)
    ensures k <= |s.waiters| && Dispatch(cfg, clock, s).waiters == s.waiters[k..]
    decreases |s.waiters|
  {
    k := 0;
    if s.inventory.ready != [] && s.waiters != [] {
      var lease := s.waiters[0];
      var popped := s.(waiters := s.waiters[1..]);
      var next := popped;
      if lease in s.groups {
        var taken := popped.(groups := s.groups - {lease});
        if lease in s.records && s.records[lease] == Closed {
          next := taken.(out := s.out + RejectEvents(lease, s.groups[lease]));
        } else {
          next := Serve(cfg, taken, lease, Judge(cfg, clock, s.groups[lease]));
        }
      }
      var j := DispatchDropsPrefix(cfg, clock, next);
      k := j + 1;
    }
  }

  ghost predicate DropsPrefix(before: seq<LeaseId>, after: seq<LeaseId>) {
    exists k | 0 <= k <= |before| :: after == before[k..]
  }

  lemma AttachAppends(cfg: Config, s: State, input: Input)
    requires input.msg.AttachOrJoin? && !s.shutdown && (s.waiters != [] ==> s.inventory.ready == [])
    requires input.msg.lease in s.waiters <==> input.msg.lease in s.groups
    ensures var t := Process(cfg, s, input);
            t.waiters == s.waiters || (t.waiters == s.waiters + [input.msg.lease] && input.msg.lease !in s.waiters)
  {
    var lease := input.msg.lease;
    var (s1, status) := Admit(cfg, s, lease);
    if status == Some(Open) {
      AttachOpen(cfg, input, s, lease, input.msg.consumer, input.msg.at);
      var a := AttachAction(s1, lease, input.msg.consumer, input.msg.at);
      GrowFrame(cfg, input.clock, input.createOk, Apply(cfg, s1, a));
      ActionAppends(cfg, s1, lease, input.msg.consumer, input.msg.at);
    }
  }

  lemma ActionAppends(cfg: Config, s: State, lease: LeaseId, consumer: Consumer, at: nat)
    requires lease in s.waiters <==> lease in s.groups
    requires Enabled(cfg, s, AttachAction(s, lease, consumer, at))
    ensures var t := Apply(cfg, s, AttachAction(s, lease, consumer, at));
            t.waiters == s.waiters || (t.waiters == s.waiters + [lease] && lease !in s.waiters)
  {
  }

  lemma ReleaseDeletes(cfg: Config, s: State, input: Input)
    requires input.msg.ReleaseLease? && !s.shutdown
    ensures var t := Process(cfg, s, input);
            t.waiters == s.waiters || t.waiters == Without(s.waiters, input.msg.lease)
  {
    var lease := input.msg.lease;
    var (s1, status) := Admit(cfg, s, lease);
    if status == Some(Open) {
      RetireFrame(cfg, input, Close(s1, lease), lease);
    }
  }

  /** A message appends one lease at the back, deletes the released one, drops a
      prefix, or leaves the queue alone. */
  lemma QueueMoves(cfg: Config, s: State, input: Input)
    requires Valid(cfg, s)
    ensures var before, after := s.waiters, Process(cfg, s, input).waiters;
            match input.msg
            case AttachOrJoin(lease, _, _) => after == before || (after == before + [lease] && lease !in before)
            case ReleaseLease(lease, _) => after == before || after == Without(before, lease)
            case CreationFinished(_, _) => DropsPrefix(before, after)
            case _ => after == before
  {
    assert s.waiters == s.waiters[0..];
    if !s.shutdown {
      match input.msg
      case AttachOrJoin(_, _, _) => AttachAppends(cfg, s, input);
      case ReleaseLease(_, _) => ReleaseDeletes(cfg, s, input);
      case CreationFinished(id, result) =>
        if id in s.inventory.creating {
          var done := CompleteCreation(s, id, result);
          var k := DispatchDropsPrefix(cfg, input.clock, done);
          GrowFrame(cfg, input.clock, input.createOk, Dispatch(cfg, input.clock, done));
        }
      case LeaseMaxTimeReached(lease, generation) =>
        if Current(s, lease, generation) {
          GrowFrame(cfg, input.clock, input.createOk, RetireOne(Expire(s), lease, input.cleanupOk));
        }
      case _ =>
    }
  }
}
