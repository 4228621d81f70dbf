/**
  No overtaking: why a queued lease leaves the queue, and that whoever waited behind
  it is served only after that.
 */
module Overtaking {
  import opened EngineTypes
  import opened EngineSpec
  import opened Ledger
  import opened Soundness
  import opened Plans
  import opened Fifo
  import opened Records
  import opened Timing
  import Lifecycle

  // --------------------------------------------------- leaving the queue

  /** The event answers this queued reply, or lets it lapse. */
  predicate Answers(e: Event, lease: LeaseId, consumer: Consumer) {
    e == ReplyExpired(consumer) || (e.AttachReplied? && e.lease == lease && e.consumer == consumer)
  }

  ghost predicate AnsweredIn(news: seq<Event>, lease: LeaseId, consumer: Consumer) {
    exists e | e in news :: Answers(e, lease, consumer)
  }

  /** All replies of the group have been answered in `news`, and nothing in it hands
      `other` a database. */
  ghost predicate GroupDone(news: seq<Event>, lease: LeaseId, replies: seq<Queued>, other: LeaseId) {
    && (forall i | 0 <= i < |replies| :: AnsweredIn(news, lease, replies[i].consumer))
    && (forall e | e in news && Delivered(e) :: e.lease != other)
  }

  /** Why a queued lease is gone: it was released, it holds a database, or every reply of
      its group was unreachable or late. */
  ghost predicate Departed(cfg: Config, s: State, input: Input, t: State, lease: LeaseId)
    requires lease in s.groups
  {
    || (input.msg.ReleaseLease? && input.msg.lease == lease)
    || lease in t.leases
    || Hopeless(cfg, input.clock, s.groups[lease])
  }

  lemma {:induction false} ServeAnswersEach(cfg: Config, lease: LeaseId, db: Database, gen: nat, conns: nat, held: bool,
                                            vs: seq<Verdict>, i: nat)
    requires i < |vs|
    ensures AnsweredIn(ServeEvents(cfg, lease, db, gen, conns, held, vs), lease, vs[i].consumer)
  {
    var n := |vs| - 1;
    var last := ReplyEvents(cfg, lease, db, gen, conns, held, vs[..n], vs[n]);
    if i == n {
      assert Answers(last[|last| - 1], lease, vs[n].consumer);
      assert last[|last| - 1] in ServeEvents(cfg, lease, db, gen, conns, held, vs);
    } else {
      ServeAnswersEach(cfg, lease, db, gen, conns, held, vs[..n], i);
    }
  }

  /** Serving the front of the queue answers its group and nobody else. */
  lemma ServedDone(cfg: Config, clock: Clock, s: State, lease: LeaseId, replies: seq<Queued>, other: LeaseId)
    returns (news: seq<Event>)
    requires lease !in s.leases && s.inventory.ready != [] && lease != other
    ensures var t := Serve(cfg, s, lease, Judge(cfg, clock, replies));
            && t.out == s.out + news && GroupDone(news, lease, replies, other)
            && (lease in t.leases || Hopeless(cfg, clock, replies))
  {
    var vs := Judge(cfg, clock, replies);
    news := ServeOutcome(cfg, s, lease, vs);
    ReachedCounts(cfg, clock, replies);
    NoRecipients(cfg, clock, replies);
    forall i | 0 <= i < |replies| ensures AnsweredIn(news, lease, replies[i].consumer) {
      ServeAnswersEach(cfg, lease, s.inventory.ready[0], s.nextGeneration + 1, 0, false, vs, i);
      assert vs[i].consumer == replies[i].consumer;
    }
  }

  /** Serving the front assigns at most its lease, and only adds to what was said. */
  lemma NextKeeps(cfg: Config, s: State, vs: seq<Verdict>) returns (news: seq<Event>)
    requires Coherent(s) && Enabled(cfg, s, ServeNext(vs))
    ensures var n := Apply(cfg, s, ServeNext(vs));
            && n.out == s.out + news && n.waiters == s.waiters[1..] && n.groups == s.groups - {s.waiters[0]}
            && forall lease | lease in s.leases :: lease in n.leases
  {
    assert s.waiters[0] in s.waiters;
    news := ServeOutcome(cfg, PopNext(s), s.waiters[0], vs);
  }

  /** Dispatching only assigns, and only adds to what was said. */
  lemma {:induction false} DispatchKeeps(cfg: Config, clock: Clock, s: State)
    requires Coherent(s)
    ensures var t := Dispatch(cfg, clock, s); s.out <= t.out && forall lease | lease in s.leases :: lease in t.leases
    decreases |s.waiters|
  {
    if s.inventory.ready != [] && s.waiters != [] {
      DispatchNext(cfg, clock, s);
      var vs := Judge(cfg, clock, s.groups[s.waiters[0]]);
      NextQueued(cfg, s, vs);
      var news := NextKeeps(cfg, s, vs);
      DispatchKeeps(cfg, clock, Apply(cfg, s, ServeNext(vs)));
    }
  }

  lemma GroupDoneLater(before: seq<Event>, news: seq<Event>, lease: LeaseId, replies: seq<Queued>, other: LeaseId)
    requires GroupDone(news, lease, replies, other) && forall e | e in before && Delivered(e) :: e.lease != other
    ensures GroupDone(before + news, lease, replies, other)
  {
    forall i | 0 <= i < |replies| ensures AnsweredIn(before + news, lease, replies[i].consumer) {
      assert AnsweredIn(news, lease, replies[i].consumer);
      var e :| e in news && Answers(e, lease, replies[i].consumer);
      assert e in before + news;
    }
  }

  /** Between `s` and `t` the replies of `a` were answered before `b` was handed
      anything, and `a` was assigned unless nobody was there to receive it. */
  ghost predicate ServedFirst(cfg: Config, clock: Clock, s: State, t: State, a: LeaseId, b: LeaseId, news: seq<Event>) {
    && a in s.groups && s.out + news <= t.out && GroupDone(news, a, s.groups[a], b)
    && (a in t.leases || Hopeless(cfg, clock, s.groups[a]))
  }

  lemma StillServing(cfg: Config, clock: Clock, s: State, a: LeaseId)
    requires a in s.waiters && a !in Dispatch(cfg, clock, s).waiters
    ensures s.inventory.ready != [] && s.waiters != []
  {
  }

  /** When dispatching takes `a` off the queue, all of its replies are answered before
      `b` is handed anything. */
  lemma {:induction false} DispatchDeparts(cfg: Config, clock: Clock, s: State, a: LeaseId, b: LeaseId)
    returns (news: seq<Event>)
    requires Coherent(s) && Behind(s, a, b) && a !in Dispatch(cfg, clock, s).waiters
    ensures ServedFirst(cfg, clock, s, Dispatch(cfg, clock, s), a, b, news)
    decreases |s.waiters|
  {
    StillServing(cfg, clock, s, a);
    if s.waiters[0] == a {
      news := FrontDeparts(cfg, clock, s, a, b);
    } else {
      DispatchNext(cfg, clock, s);
      var vs := Judge(cfg, clock, s.groups[s.waiters[0]]);
      var n := Apply(cfg, s, ServeNext(vs));
      var served := OneAhead(cfg, s, vs, a, b);
      var more := DispatchDeparts(cfg, clock, n, a, b);
      ServedLater(cfg, clock, s, n, Dispatch(cfg, clock, s), a, b, served, more);
      news := served + more;
    }
  }

  lemma ServedLater(cfg: Config, clock: Clock, s: State, n: State, t: State, a: LeaseId, b: LeaseId,
                    served: seq<Event>, more: seq<Event>)
    requires ServedFirst(cfg, clock, n, t, a, b, more) && n.out == s.out + served
    requires a in s.groups && n.groups[a] == s.groups[a] && forall e | e in served && Delivered(e) :: e.lease != b
    ensures ServedFirst(cfg, clock, s, t, a, b, served + more)
  {
    GroupDoneLater(served, more, a, s.groups[a], b);
    assert s.out + (served + more) == n.out + more;
  }

  lemma FrontDeparts(cfg: Config, clock: Clock, s: State, a: LeaseId, b: LeaseId) returns (news: seq<Event>)
    requires Coherent(s) && s.inventory.ready != [] && s.waiters != [] && s.waiters[0] == a && a != b
    ensures ServedFirst(cfg, clock, s, Dispatch(cfg, clock, s), a, b, news)
  {
    DispatchNext(cfg, clock, s);
    var vs := Judge(cfg, clock, s.groups[a]);
    NextQueued(cfg, s, vs);
    assert s.waiters[0] in s.waiters;
    news := ServedDone(cfg, clock, PopNext(s), a, s.groups[a], b);
    DispatchKeeps(cfg, clock, Apply(cfg, s, ServeNext(vs)));
  }

  /** Serving somebody ahead of `a` leaves `a` queued and hands `b` nothing. */
  lemma OneAhead(cfg: Config, s: State, vs: seq<Verdict>, a: LeaseId, b: LeaseId) returns (served: seq<Event>)
    requires Coherent(s) && Behind(s, a, b) && Enabled(cfg, s, ServeNext(vs)) && s.waiters[0] != a
    ensures var n := Apply(cfg, s, ServeNext(vs));
            && Coherent(n) && Behind(n, a, b) && n.out == s.out + served
            && a in s.groups && a in n.groups && n.groups[a] == s.groups[a]
            && forall e | e in served && Delivered(e) :: e.lease != b
  {
    var n := Apply(cfg, s, ServeNext(vs));
    NextQueued(cfg, s, vs);
    served := NextKeeps(cfg, s, vs);
    assert a in s.waiters[1..] by { assert s.waiters == [s.waiters[0]] + s.waiters[1..]; }
    ServeNextOrder(cfg, s, vs, a, b);
    OthersFirst(s, n, served, b);
  }

  lemma OthersFirst(s: State, n: State, served: seq<Event>, b: LeaseId)
    requires n.out == s.out + served && Lifecycle.NothingFor(s, n, b)
    ensures forall e | e in served && Delivered(e) :: e.lease != b
  {
    forall e | e in served && Delivered(e) ensures e.lease != b {
      var i :| 0 <= i < |served| && served[i] == e;
      assert n.out[|s.out| + i] == e;
    }
  }

  lemma {:induction false} RejectsEach(lease: LeaseId, replies: seq<Queued>, other: LeaseId)
    ensures GroupDone(RejectEvents(lease, replies), lease, replies, other)
  {
    forall i | 0 <= i < |replies| ensures AnsweredIn(RejectEvents(lease, replies), lease, replies[i].consumer) {
      assert Answers(RejectEvents(lease, replies)[i], lease, replies[i].consumer);
    }
  }

  lemma ReleaseDeparts(cfg: Config, s: State, input: Input, a: LeaseId, b: LeaseId) returns (news: seq<Event>)
    requires Coherent(s) && !s.shutdown && a in s.groups && input.msg.ReleaseLease? && input.msg.lease == a
    ensures var t := Process(cfg, s, input); s.out + news <= t.out && GroupDone(news, a, s.groups[a], b)
  {
    news := RejectEvents(a, s.groups[a]);
    RejectsEach(a, s.groups[a], b);
    assert Close(s, a).out == s.out + news;
    assert Retire(cfg, input, Close(s, a), a) == Close(s, a);
  }

  lemma GrowSays(cfg: Config, clock: Clock, createOk: bool, s: State)
    ensures var t := Grow(cfg, clock, createOk, s); s.out <= t.out && t.leases == s.leases && t.waiters == s.waiters
  {
  }

  lemma CreationDeparts(cfg: Config, s: State, input: Input, a: LeaseId, b: LeaseId) returns (news: seq<Event>)
    requires Coherent(s) && !s.shutdown && input.msg.CreationFinished? && input.msg.id in s.inventory.creating
    requires Behind(s, a, b) && a !in Process(cfg, s, input).waiters
    ensures a in s.groups
    ensures var t := Process(cfg, s, input);
            s.out + news <= t.out && GroupDone(news, a, s.groups[a], b) && Departed(cfg, s, input, t, a)
  {
    var s1 := CompleteCreation(s, input.msg.id, input.msg.result);
    CreationShape(cfg, s, input);
    GrowSays(cfg, input.clock, input.createOk, Dispatch(cfg, input.clock, s1));
    news := DispatchDeparts(cfg, input.clock, s1, a, b);
  }

  /** The message that takes `a` off the queue says why, and answers all of its replies
      before it hands `b` anything. */
  lemma MessageDeparts(cfg: Config, s: State, input: Input, a: LeaseId, b: LeaseId) returns (news: seq<Event>)
    requires Valid(cfg, s) && Behind(s, a, b) && a !in Process(cfg, s, input).waiters
    ensures a in s.groups
    ensures var t := Process(cfg, s, input);
            s.out + news <= t.out && GroupDone(news, a, s.groups[a], b) && Departed(cfg, s, input, t, a)
  {
    QueueMoves(cfg, s, input);
    if input.msg.ReleaseLease? {
      WithoutFacts(s.waiters, input.msg.lease);
      assert input.msg.lease == a;
      news := ReleaseDeparts(cfg, s, input, a, b);
    } else {
      assert input.msg.CreationFinished? && !s.shutdown && input.msg.id in s.inventory.creating;
      news := CreationDeparts(cfg, s, input, a, b);
    }
  }

  // ------------------------------------------------------------- whole runs

  /** Two runs that agree up to their last message, which is the same, agree. */
  lemma RunAlike(cfg: Config, s: State, p: seq<Input>, s': State, q: seq<Input>)
    requires p != [] && q != [] && p[|p| - 1] == q[|q| - 1]
    requires Run(cfg, s, p[..|p| - 1]) == Run(cfg, s', q[..|q| - 1])
    ensures Run(cfg, s, p) == Run(cfg, s', q)
  {
  }

  lemma {:induction false} RunJoin(cfg: Config, s: State, p: seq<Input>, q: seq<Input>)
    ensures Run(cfg, s, p + q) == Run(cfg, Run(cfg, s, p), q)
  {
    if q == [] {
      assert p + q == p;
    } else {
      var n := |q| - 1;
      assert (p + q)[..|p| + n] == p + q[..n];
      RunJoin(cfg, s, p, q[..n]);
      RunAlike(cfg, s, p + q, Run(cfg, s, p), q);
    }
  }

  lemma SaidGrows(cfg: Config, s: State, inputs: seq<Input>, k: nat)
    requires Valid(cfg, s) && k <= |inputs|
    ensures var m, t := Run(cfg, s, inputs[..k]), Run(cfg, s, inputs); m.out <= t.out
  {
    assert inputs == inputs[..k] + inputs[k..];
    RunJoin(cfg, s, inputs[..k], inputs[k..]);
    RunValid(cfg, s, inputs[..k]);
    RunSays(cfg, Run(cfg, s, inputs[..k]), inputs[k..]);
  }

  lemma RunSays(cfg: Config, s: State, inputs: seq<Input>)
    requires Valid(cfg, s)
    ensures var t := Run(cfg, s, inputs); s.out <= t.out
  {
    Lifecycle.RunEvolves(cfg, s, inputs);
  }

  /** The lease is still queued after the first `k` messages. */
  predicate QueuedAt(cfg: Config, s: State, inputs: seq<Input>, k: nat, lease: LeaseId)
    requires k <= |inputs|
  {
    lease in Run(cfg, s, inputs[..k]).waiters
  }

  lemma Leaves(cfg: Config, s: State, inputs: seq<Input>, a: LeaseId, b: LeaseId)
    requires Valid(cfg, s) && Behind(s, a, b)
    requires var t := Run(cfg, s, inputs); b in t.leases || !Lifecycle.NothingFor(s, t, b)
    ensures exists k | 0 <= k <= |inputs| :: !QueuedAt(cfg, s, inputs, k, a)
  {
    if forall k | 0 <= k <= |inputs| :: QueuedAt(cfg, s, inputs, k, a) {
      assert forall k | 0 <= k <= |inputs| :: QueuedAt(cfg, s, inputs, k, a) ==> a in Run(cfg, s, inputs[..k]).waiters;
      QueuedBehind(cfg, s, inputs, a, b);
    }
  }

  /** The message that takes the lease off the queue for the first time. */
  lemma {:induction false} FirstGone(cfg: Config, s: State, inputs: seq<Input>, a: LeaseId, gone: nat) returns (k: nat)
    requires a in s.waiters && gone <= |inputs| && !QueuedAt(cfg, s, inputs, gone, a)
    ensures k < gone && !QueuedAt(cfg, s, inputs, k + 1, a)
    ensures forall j | 0 <= j <= k :: QueuedAt(cfg, s, inputs, j, a)
    decreases gone
  {
    assert inputs[..0] == [];
    if j :| 0 <= j < gone && !QueuedAt(cfg, s, inputs, j, a) {
      k := FirstGone(cfg, s, inputs, a, j);
    } else {
      k := gone - 1;
    }
  }

  /** Message `k` takes `a` off the queue for a reason; until then `b` was handed
      nothing, and within it the replies of `a` are answered first. */
  ghost predicate LeftFirst(cfg: Config, s: State, inputs: seq<Input>, k: nat, a: LeaseId, b: LeaseId, news: seq<Event>)
    requires k < |inputs|
  {
    var m, m', t := Run(cfg, s, inputs[..k]), Run(cfg, s, inputs[..k + 1]), Run(cfg, s, inputs);
    && a in m.waiters && a in m.groups && a !in m'.waiters && Departed(cfg, m, inputs[k], m', a)
    && b !in m.leases && Lifecycle.NothingFor(s, m, b)
    && s.out <= m.out && m.out + news <= t.out && GroupDone(news, a, m.groups[a], b)
  }

  /** No overtaking, over any run: if `b`, which was not ahead of `a`, has been handed
      a database or holds one, then `a` left the queue first: it was released, it was
      assigned, or nobody was there in time to receive its database; and all replies of
      `a` are answered in the log before anything is handed to `b`. */
  lemma NoOvertaking(cfg: Config, s: State, inputs: seq<Input>, a: LeaseId, b: LeaseId)
    returns (k: nat, news: seq<Event>)
    requires Valid(cfg, s) && Behind(s, a, b)
    requires var t := Run(cfg, s, inputs); b in t.leases || !Lifecycle.NothingFor(s, t, b)
    ensures k < |inputs| && LeftFirst(cfg, s, inputs, k, a, b, news)
  {
    Leaves(cfg, s, inputs, a, b);
    var gone :| 0 <= gone <= |inputs| && !QueuedAt(cfg, s, inputs, gone, a);
    k := FirstGone(cfg, s, inputs, a, gone);
    news := LeavesAt(cfg, s, inputs, k, a, b);
  }

  lemma LeavesAt(cfg: Config, s: State, inputs: seq<Input>, k: nat, a: LeaseId, b: LeaseId) returns (news: seq<Event>)
    requires Valid(cfg, s) && Behind(s, a, b) && k < |inputs| && !QueuedAt(cfg, s, inputs, k + 1, a)
    requires forall j | 0 <= j <= k :: QueuedAt(cfg, s, inputs, j, a)
    ensures LeftFirst(cfg, s, inputs, k, a, b, news)
  {
    var before, after := inputs[..k], inputs[..k + 1];
    assert after[..k] == before && after[k] == inputs[k];
    forall j | 0 <= j <= |before| ensures a in Run(cfg, s, before[..j]).waiters {
      assert before[..j] == inputs[..j];
      assert QueuedAt(cfg, s, inputs, j, a);
    }
    QueuedBehind(cfg, s, before, a, b);
    RunValid(cfg, s, before);
    news := MessageDeparts(cfg, Run(cfg, s, before), inputs[k], a, b);
    SaidGrows(cfg, s, inputs, k + 1);
  }
}
