/**
  Reply accounting: every attach request that was read has been answered once,
  has lapsed, or is still held, and nothing else has been answered.
 */
module Accounting {
  import opened EngineTypes
  import opened EngineSpec
  import opened Ledger
  import opened Soundness
  import opened Plans
  import Fifo

  /** The reply channels on which an attach was answered, delivered or not. */
  function Attempted(out: seq<Event>): multiset<Consumer> {
    if out == [] then multiset{} else
      var e := out[|out| - 1];
      Attempted(out[..|out| - 1]) + if e.AttachReplied? then multiset{e.consumer} else multiset{}
  }

  /** The reply channels dropped because they waited too long. */
  function Lapsed(out: seq<Event>): multiset<Consumer> {
    if out == [] then multiset{} else
      var e := out[|out| - 1];
      Lapsed(out[..|out| - 1]) + if e.ReplyExpired? then multiset{e.consumer} else multiset{}
  }

  /** The reply channels still queued. */
  function HeldBy(waiters: seq<LeaseId>, groups: map<LeaseId, seq<Queued>>): multiset<Consumer> {
    if waiters == [] then multiset{} else
      var lease := waiters[|waiters| - 1];
      HeldBy(waiters[..|waiters| - 1], groups)
      + if lease in groups then multiset(Consumers(groups[lease])) else multiset{}
  }

  function Accounted(s: State): multiset<Consumer> {
    Attempted(s.out) + Lapsed(s.out) + HeldBy(s.waiters, s.groups)
  }

  // ------------------------------------------------------------ the answers

  lemma {:induction false} SaidSums(out: seq<Event>, news: seq<Event>)
    ensures Attempted(out + news) == Attempted(out) + Attempted(news)
    ensures Lapsed(out + news) == Lapsed(out) + Lapsed(news)
  {
    if news == [] {
      assert out + news == out;
    } else {
      var all := out + news;
      assert all[..|all| - 1] == out + news[..|news| - 1];
      SaidSums(out, news[..|news| - 1]);
    }
  }

  lemma SaidOne(e: Event)
    ensures Attempted([e]) == if e.AttachReplied? then multiset{e.consumer} else multiset{}
    ensures Lapsed([e]) == if e.ReplyExpired? then multiset{e.consumer} else multiset{}
  {
    assert [e][..0] == [];
  }

  lemma {:induction false} ServeAnswersAll(cfg: Config, lease: LeaseId, db: Database, gen: nat, conns: nat, held: bool,
                                           vs: seq<Verdict>)
    ensures var news := ServeEvents(cfg, lease, db, gen, conns, held, vs);
            Attempted(news) + Lapsed(news) == multiset(Judged(vs)) && |Lapsed(news)| == Timeouts(vs)
  {
    if vs == [] {
      assert Judged(vs) == [];
    } else {
      var n := |vs| - 1;
      ServeAnswersAll(cfg, lease, db, gen, conns, held, vs[..n]);
      AnswersOneMore(cfg, lease, db, gen, conns, held, vs[..n], vs[n],
                     ServeEvents(cfg, lease, db, gen, conns, held, vs[..n]));
      JudgedLast(vs);
    }
  }

  lemma AnswersOneMore(cfg: Config, lease: LeaseId, db: Database, gen: nat, conns: nat, held: bool,
                       before: seq<Verdict>, v: Verdict, said: seq<Event>)
    ensures var news := said + ReplyEvents(cfg, lease, db, gen, conns, held, before, v);
            && Attempted(news) + Lapsed(news) == Attempted(said) + Lapsed(said) + multiset{v.consumer}
            && |Lapsed(news)| == |Lapsed(said)| + if v.expired then 1 else 0
  {
    var last := ReplyEvents(cfg, lease, db, gen, conns, held, before, v);
    SaidSums(said, last);
    ReplyAnswersOne(cfg, lease, db, gen, conns, held, before, v);
    Regroup(Attempted(said), Lapsed(said), Attempted(last), Lapsed(last), v.consumer);
  }

  lemma JudgedLast(vs: seq<Verdict>)
    requires vs != []
    ensures multiset(Judged(vs)) == multiset(Judged(vs[..|vs| - 1])) + multiset{vs[|vs| - 1].consumer}
  {
    assert Judged(vs) == Judged(vs[..|vs| - 1]) + [vs[|vs| - 1].consumer];
  }

  lemma Regroup(a: multiset<Consumer>, l: multiset<Consumer>, a': multiset<Consumer>, l': multiset<Consumer>, c: Consumer)
    requires (a' == multiset{c} && l' == multiset{}) || (a' == multiset{} && l' == multiset{c})
    ensures (a + a') + (l + l') == (a + l) + multiset{c}
    ensures |l + l'| == |l| + |l'|
  {
  }

  lemma ReplyAnswersOne(cfg: Config, lease: LeaseId, db: Database, gen: nat, conns: nat, held: bool,
                        before: seq<Verdict>, v: Verdict)
    ensures var news := ReplyEvents(cfg, lease, db, gen, conns, held, before, v);
            && Attempted(news) == (if v.expired then multiset{} else multiset{v.consumer})
            && Lapsed(news) == (if v.expired then multiset{v.consumer} else multiset{})
  {
    var news := ReplyEvents(cfg, lease, db, gen, conns, held, before, v);
    var e := news[|news| - 1];
    SaidOne(e);
    if |news| == 2 {
      SaidOne(news[0]);
      SaidSums([news[0]], [e]);
      assert news == [news[0]] + [e];
    } else {
      assert news == [e];
    }
  }

  lemma {:induction false} RejectsAnswerAll(lease: LeaseId, replies: seq<Queued>)
    ensures var news := RejectEvents(lease, replies);
            Attempted(news) == multiset(Consumers(replies)) && Lapsed(news) == multiset{}
  {
    if replies != [] {
      var n := |replies| - 1;
      RejectsAnswerAll(lease, replies[..n]);
      var news := RejectEvents(lease, replies);
      assert news[..n] == RejectEvents(lease, replies[..n]);
      assert Consumers(replies) == Consumers(replies[..n]) + [replies[n].consumer];
    }
  }

  // -------------------------------------------------------------- the queue

  lemma {:induction false} HeldSame(waiters: seq<LeaseId>, groups: map<LeaseId, seq<Queued>>,
                                    groups': map<LeaseId, seq<Queued>>)
    requires forall lease | lease in waiters ::
               (lease in groups <==> lease in groups') && (lease in groups ==> groups[lease] == groups'[lease])
    ensures HeldBy(waiters, groups) == HeldBy(waiters, groups')
  {
    if waiters != [] {
      HeldSame(waiters[..|waiters| - 1], groups, groups');
    }
  }

  /** Taking a lease out of the queue takes out exactly its group. */
  lemma {:induction false} HeldWithout(waiters: seq<LeaseId>, groups: map<LeaseId, seq<Queued>>, lease: LeaseId)
    requires Distinct(waiters) && lease in waiters && lease in groups
    ensures HeldBy(waiters, groups)
         == HeldBy(Without(waiters, lease), groups - {lease}) + multiset(Consumers(groups[lease]))
  {
    var n := |waiters| - 1;
    var init := waiters[..n];
    if waiters[n] == lease {
      WithoutAbsent(init, lease);
      HeldSame(init, groups, groups - {lease});
      assert Without(waiters, lease) == init;
    } else {
      HeldWithout(init, groups, lease);
      var rest := Without(init, lease) + [waiters[n]];
      assert rest[..|rest| - 1] == Without(init, lease);
      assert Without(waiters, lease) == rest;
    }
  }

  lemma {:induction false} WithoutAbsent(waiters: seq<LeaseId>, lease: LeaseId)
    requires lease !in waiters
    ensures Without(waiters, lease) == waiters
  {
    if waiters != [] {
      WithoutAbsent(waiters[..|waiters| - 1], lease);
    }
  }

  lemma {:induction false} WithoutFirst(waiters: seq<LeaseId>)
    requires Distinct(waiters) && waiters != []
    ensures Without(waiters, waiters[0]) == waiters[1..]
  {
    var n := |waiters| - 1;
    if n == 0 {
      assert waiters[..0] == [];
    } else {
      WithoutFirst(waiters[..n]);
      assert waiters[..n][1..] + [waiters[n]] == waiters[1..];
    }
  }

  lemma HeldAppend(waiters: seq<LeaseId>, groups: map<LeaseId, seq<Queued>>, lease: LeaseId, replies: seq<Queued>)
    requires lease !in waiters
    ensures HeldBy(waiters + [lease], groups[lease := replies])
         == HeldBy(waiters, groups) + multiset(Consumers(replies))
  {
    var all := waiters + [lease];
    assert all[..|all| - 1] == waiters;
    HeldSame(waiters, groups, groups[lease := replies]);
  }

  lemma LastHasMore(waiters: seq<LeaseId>, groups: map<LeaseId, seq<Queued>>, lease: LeaseId, q: Queued)
    requires Distinct(waiters) && waiters != [] && lease == waiters[|waiters| - 1] && lease in groups
    ensures HeldBy(waiters, groups[lease := groups[lease] + [q]])
         == HeldBy(waiters, groups) + multiset{q.consumer}
  {
    var groups' := groups[lease := groups[lease] + [q]];
    HeldSame(waiters[..|waiters| - 1], groups, groups');
    assert Consumers(groups'[lease]) == Consumers(groups[lease]) + [q.consumer];
  }

  /** One more reply in a group is one more reply held. */
  lemma {:induction false} HeldMore(waiters: seq<LeaseId>, groups: map<LeaseId, seq<Queued>>, lease: LeaseId, q: Queued)
    requires Distinct(waiters) && lease in waiters && lease in groups
    ensures HeldBy(waiters, groups[lease := groups[lease] + [q]])
         == HeldBy(waiters, groups) + multiset{q.consumer}
  {
    var n := |waiters| - 1;
    var init := waiters[..n];
    if waiters[n] == lease {
      LastHasMore(waiters, groups, lease, q);
    } else {
      HeldMore(init, groups, lease, q);
    }
  }

  // ------------------------------------------------- actions, plans, runs

  /** The attach request that an action brings in. */
  function Arrived(a: Action): multiset<Consumer> {
    match a
    case Answer(e) => if e.AttachReplied? then multiset{e.consumer} else multiset{}
    case Wait(_, q) => multiset{q.consumer}
    case Join(_, c) => multiset{c}
    case ServeFresh(_, c) => multiset{c}
    case _ => multiset{}
  }

  /** Every reply channel is accounted for, and `waiterTimeouts` counts the lapsed
      ones. */
  ghost predicate Balances(s: State, t: State, arrived: multiset<Consumer>) {
    && Accounted(t) == Accounted(s) + arrived
    && t.counters.waiterTimeouts + |Lapsed(s.out)| == s.counters.waiterTimeouts + |Lapsed(t.out)|
  }

  lemma QuietBalances(s: State, t: State)
    requires t.out == s.out && t.waiters == s.waiters && t.groups == s.groups
    requires t.counters.waiterTimeouts == s.counters.waiterTimeouts
    ensures Balances(s, t, multiset{})
  {
  }

  /** What is said answers the channels in `answered`, `late` of them by lapsing;
      they come from the queue or from outside. */
  lemma SaidBalances(s: State, t: State, news: seq<Event>, answered: multiset<Consumer>, arrived: multiset<Consumer>)
    requires t.out == s.out + news && Attempted(news) + Lapsed(news) == answered
    requires HeldBy(t.waiters, t.groups) + answered == HeldBy(s.waiters, s.groups) + arrived
    requires t.counters.waiterTimeouts == s.counters.waiterTimeouts + |Lapsed(news)|
    ensures Balances(s, t, arrived)
  {
    SaidSums(s.out, news);
    SumUp(Attempted(s.out), Lapsed(s.out), Attempted(news), Lapsed(news), HeldBy(s.waiters, s.groups),
          HeldBy(t.waiters, t.groups), arrived);
  }

  lemma SumUp(a: multiset<Consumer>, l: multiset<Consumer>, a': multiset<Consumer>, l': multiset<Consumer>,
              h: multiset<Consumer>, h': multiset<Consumer>, arrived: multiset<Consumer>)
    requires h' + (a' + l') == h + arrived
    ensures (a + a') + (l + l') + h' == a + l + h + arrived
    ensures |l + l'| == |l| + |l'|
  {
    var left := (a + a') + (l + l') + h';
    var right := a + l + h + arrived;
    forall c ensures left[c] == right[c] {
      assert (h' + (a' + l'))[c] == (h + arrived)[c];
    }
  }

  lemma ServeSays(cfg: Config, s: State, lease: LeaseId, vs: seq<Verdict>) returns (news: seq<Event>)
    requires lease in s.leases || s.inventory.ready != []
    ensures var t := Serve(cfg, s, lease, vs);
            && t.out == s.out + news && t.waiters == s.waiters && t.groups == s.groups
            && t.counters.waiterTimeouts == s.counters.waiterTimeouts + Timeouts(vs)
    ensures Attempted(news) + Lapsed(news) == multiset(Judged(vs)) && |Lapsed(news)| == Timeouts(vs)
  {
    ServeCounts(cfg, s, lease, vs);
    if lease in s.leases {
      var e := s.leases[lease];
      news := JoinOutcome(cfg, s, lease, vs);
      ServeAnswersAll(cfg, lease, e.database, e.generation, e.conns, true, vs);
    } else {
      news := ServeOutcome(cfg, s, lease, vs);
      ServeAnswersAll(cfg, lease, s.inventory.ready[0], s.nextGeneration + 1, 0, false, vs);
    }
  }

  lemma ServeCounts(cfg: Config, s: State, lease: LeaseId, vs: seq<Verdict>)
    requires lease in s.leases || s.inventory.ready != []
    ensures Serve(cfg, s, lease, vs).counters.waiterTimeouts == s.counters.waiterTimeouts + Timeouts(vs)
  {
  }

  lemma ServeBalances(cfg: Config, s: State, lease: LeaseId, vs: seq<Verdict>)
    requires lease in s.leases || s.inventory.ready != []
    ensures var t := Serve(cfg, s, lease, vs); Balances(s, t, multiset(Judged(vs)))
  {
    var news := ServeSays(cfg, s, lease, vs);
    SaidBalances(s, Serve(cfg, s, lease, vs), news, multiset(Judged(vs)), multiset(Judged(vs)));
  }

  lemma ServeNextBalances(cfg: Config, s: State, vs: seq<Verdict>)
    requires Coherent(s) && Enabled(cfg, s, ServeNext(vs))
    ensures var t := Apply(cfg, s, ServeNext(vs)); Balances(s, t, multiset{})
  {
    var p, lease := PopNext(s), s.waiters[0];
    PopReleases(s);
    ServeBalances(cfg, p, lease, vs);
    PopBalances(s, p, Serve(cfg, p, lease, vs), multiset(Judged(vs)));
  }

  lemma PopReleases(s: State)
    requires Coherent(s) && s.waiters != [] && s.waiters[0] in s.groups
    ensures var p := PopNext(s);
            HeldBy(s.waiters, s.groups) == HeldBy(p.waiters, p.groups) + multiset(Consumers(s.groups[s.waiters[0]]))
  {
    WithoutFirst(s.waiters);
    HeldWithout(s.waiters, s.groups, s.waiters[0]);
  }

  /** What leaves the queue is answered. */
  lemma PopBalances(s: State, p: State, t: State, out: multiset<Consumer>)
    requires p.out == s.out && p.counters == s.counters
    requires HeldBy(s.waiters, s.groups) == HeldBy(p.waiters, p.groups) + out
    requires Balances(p, t, out)
    ensures Balances(s, t, multiset{})
  {
  }

  lemma WaitBalances(s: State, lease: LeaseId, q: Queued)
    requires Coherent(s)
    ensures var t := Enqueue(s, lease, q); Balances(s, t, multiset{q.consumer})
  {
    if lease in s.groups {
      assert lease in s.waiters;
      HeldMore(s.waiters, s.groups, lease, q);
    } else {
      assert lease !in s.waiters;
      HeldAppend(s.waiters, s.groups, lease, [] + [q]);
      assert Consumers([] + [q]) == [q.consumer];
    }
  }

  lemma CloseQueued(s: State, t: State, lease: LeaseId)
    requires Coherent(s) && lease in s.groups && t == Close(s, lease)
    ensures Balances(s, t, multiset{})
  {
    assert lease in s.waiters;
    HeldWithout(s.waiters, s.groups, lease);
    RejectsAnswerAll(lease, s.groups[lease]);
    SaidBalances(s, t, RejectEvents(lease, s.groups[lease]), multiset(Consumers(s.groups[lease])), multiset{});
  }

  lemma CloseAbsent(s: State, lease: LeaseId)
    requires Coherent(s) && lease !in s.groups
    ensures var t := Close(s, lease);
            t.out == s.out && t.waiters == s.waiters && t.groups == s.groups && t.counters == s.counters
  {
    assert lease !in s.waiters;
    WithoutAbsent(s.waiters, lease);
  }

  lemma CloseBalances(s: State, lease: LeaseId)
    requires Coherent(s)
    ensures var t := Close(s, lease); Balances(s, t, multiset{})
  {
    var t := Close(s, lease);
    if lease in s.groups {
      CloseQueued(s, t, lease);
    } else {
      CloseAbsent(s, lease);
      QuietBalances(s, t);
    }
  }

  lemma SayBalances(s: State, t: State, e: Event)
    requires t.out == s.out + [e] && t.waiters == s.waiters && t.groups == s.groups && !e.ReplyExpired?
    requires t.counters.waiterTimeouts == s.counters.waiterTimeouts
    ensures Balances(s, t, if e.AttachReplied? then multiset{e.consumer} else multiset{})
  {
    var arrived := if e.AttachReplied? then multiset{e.consumer} else multiset{};
    SaidOne(e);
    SaidBalances(s, t, [e], arrived, arrived);
  }

  lemma OneBalances(cfg: Config, s: State, lease: LeaseId, c: Consumer)
    requires lease in s.leases || s.inventory.ready != []
    ensures var t := Serve(cfg, s, lease, [Verdict(c, false)]); Balances(s, t, multiset{c})
  {
    ServeBalances(cfg, s, lease, [Verdict(c, false)]);
    assert Judged([Verdict(c, false)]) == [c];
  }

  lemma StepBalances(cfg: Config, s: State, a: Action)
    requires Coherent(s) && Enabled(cfg, s, a)
    ensures var t := Apply(cfg, s, a); Balances(s, t, Arrived(a))
  {
    match a
    case Answer(e) => SayBalances(s, Say(s, e), e);
    case Wait(lease, q) => WaitBalances(s, lease, q);
    case Join(lease, c) => OneBalances(cfg, s, lease, c);
    case ServeFresh(lease, c) => OneBalances(cfg, s, lease, c);
    case ServeNext(vs) => ServeNextBalances(cfg, s, vs);
    case CloseLease(lease) => CloseBalances(s, lease);
    case RetireLease(lease, ok) =>
      SayBalances(s, RetireOne(s, lease, ok), CleanupRequested(s.leases[lease].database, ok));
    case ReserveBatch(amount, ok) =>
      SayBalances(s, Reserve(s, amount, ok), CreationRequested(NextBatch(s.inventory, amount), ok));
    case _ => QuietBalances(s, Apply(cfg, s, a));
  }

  function ArrivedIn(plan: seq<Action>): multiset<Consumer> {
    if plan == [] then multiset{} else Arrived(plan[0]) + ArrivedIn(plan[1..])
  }

  lemma {:induction false} RunsBalance(cfg: Config, s: State, plan: seq<Action>, t: State)
    requires Sound(cfg, s) && Runs(cfg, s, plan, t)
    ensures Balances(s, t, ArrivedIn(plan))
    decreases |plan|
  {
    if plan != [] {
      StepBalances(cfg, s, plan[0]);
      StepSound(cfg, s, plan[0]);
      RunsBalance(cfg, Apply(cfg, s, plan[0]), plan[1..], t);
      BalancesThen(s, Apply(cfg, s, plan[0]), t, Arrived(plan[0]), ArrivedIn(plan[1..]));
    }
  }

  lemma BalancesThen(s: State, m: State, t: State, a: multiset<Consumer>, b: multiset<Consumer>)
    requires Balances(s, m, a) && Balances(m, t, b)
    ensures Balances(s, t, a + b)
  {
    assert Accounted(s) + a + b == Accounted(s) + (a + b);
  }

  lemma {:induction false} ArrivedSums(p: seq<Action>, q: seq<Action>)
    ensures ArrivedIn(p + q) == ArrivedIn(p) + ArrivedIn(q)
  {
    if p == [] {
      assert p + q == q;
    } else {
      assert (p + q)[1..] == p[1..] + q;
      ArrivedSums(p[1..], q);
    }
  }

  predicate Brings(a: Action) {
    a.Wait? || a.Join? || a.ServeFresh? || (a.Answer? && a.event.AttachReplied?)
  }

  ghost predicate BringsNone(plan: seq<Action>) {
    forall a | a in plan :: !Brings(a)
  }

  lemma {:induction false} NoneArrived(plan: seq<Action>)
    requires BringsNone(plan)
    ensures ArrivedIn(plan) == multiset{}
  {
    if plan != [] {
      assert plan[0] in plan && forall a | a in plan[1..] :: a in plan;
      assert Arrived(plan[0]) == multiset{};
      NoneArrived(plan[1..]);
    }
  }

  /** The attach request that a message brings in, if the engine still reads it. */
  function Asked(s: State, msg: Message): multiset<Consumer> {
    if !s.shutdown && msg.AttachOrJoin? then multiset{msg.consumer} else multiset{}
  }

  lemma {:induction false} OneArrives(before: seq<Action>, a: Action, after: seq<Action>)
    requires BringsNone(before) && BringsNone(after)
    ensures ArrivedIn(before + ([a] + after)) == Arrived(a)
  {
    NoneArrived(before);
    NoneArrived(after);
    ArrivedSums([a], after);
    ArrivedSums(before, [a] + after);
    assert [a][1..] == [];
  }

  lemma GrowBringsNone(cfg: Config, clock: Clock, createOk: bool, s: State)
    ensures BringsNone(GrowPlan(cfg, clock, createOk, s))
  {
  }

  lemma AttachOpenArrives(cfg: Config, input: Input, s: State, lease: LeaseId, consumer: Consumer, at: nat)
    requires s.waiters != [] ==> s.inventory.ready == []
    requires Admit(cfg, s, lease).1 == Some(Open)
    ensures var plan := AttachPlan(cfg, input, s, lease, consumer, at); ArrivedIn(plan) == multiset{consumer}
  {
    var s1 := Admit(cfg, s, lease).0;
    AttachOpen(cfg, input, s, lease, consumer, at);
    var a := AttachAction(s1, lease, consumer, at);
    var s2 := Apply(cfg, s1, a);
    GrowBringsNone(cfg, input.clock, input.createOk, s2);
    OneArrives(AdmitPlan(s, lease), a, if a.Join? then [] else GrowPlan(cfg, input.clock, input.createOk, s2));
    assert Arrived(a) == multiset{consumer};
  }

  lemma AttachArrives(cfg: Config, input: Input, s: State, lease: LeaseId, consumer: Consumer, at: nat)
    requires s.waiters != [] ==> s.inventory.ready == []
    ensures var plan := AttachPlan(cfg, input, s, lease, consumer, at); ArrivedIn(plan) == multiset{consumer}
  {
    if Admit(cfg, s, lease).1 == Some(Open) {
      AttachOpenArrives(cfg, input, s, lease, consumer, at);
    } else {
      var plan := AttachPlan(cfg, input, s, lease, consumer, at);
      assert plan[1..] == [];
    }
  }

  lemma ReleaseArrives(cfg: Config, input: Input, s: State, lease: LeaseId, consumer: Consumer)
    ensures var plan := ReleasePlan(cfg, input, s, lease, consumer); BringsNone(plan)
  {
    ReleaseClerical(cfg, input, s, lease, consumer);
  }

  lemma CreationArrives(cfg: Config, s: State, input: Input)
    requires !s.shutdown && input.msg.CreationFinished?
    ensures var plan := Plan(cfg, s, input); BringsNone(plan)
  {
    if input.msg.id in s.inventory.creating {
      Fifo.DispatchOneWay(cfg, input.clock, CompleteCreation(s, input.msg.id, input.msg.result));
    }
  }

  lemma OthersArrive(cfg: Config, s: State, input: Input)
    requires s.shutdown || !input.msg.AttachOrJoin?
    ensures ArrivedIn(Plan(cfg, s, input)) == multiset{}
  {
    if !s.shutdown {
      match input.msg
      case ReleaseLease(lease, consumer) => ReleaseArrives(cfg, input, s, lease, consumer);
      case CreationFinished(_, _) => CreationArrives(cfg, s, input);
      case _ =>
    }
    NoneArrived(Plan(cfg, s, input));
  }

  lemma MessageBalances(cfg: Config, s: State, input: Input)
    requires Valid(cfg, s)
    ensures var t := Process(cfg, s, input); Balances(s, t, Asked(s, input.msg))
  {
    MessageRuns(cfg, s, input);
    RunsBalance(cfg, s, Plan(cfg, s, input), Process(cfg, s, input));
    if !s.shutdown && input.msg.AttachOrJoin? {
      AttachArrives(cfg, input, s, input.msg.lease, input.msg.consumer, input.msg.at);
    } else {
      OthersArrive(cfg, s, input);
    }
  }

  /** The attach requests read during a run. */
  function AskedIn(cfg: Config, s: State, inputs: seq<Input>): multiset<Consumer> {
    if inputs == [] then multiset{} else
      AskedIn(cfg, s, inputs[..|inputs| - 1])
      + Asked(Run(cfg, s, inputs[..|inputs| - 1]), inputs[|inputs| - 1].msg)
  }

  /** Reply accounting over any run of the engine: the attach requests it has read
      are exactly those it answered, those that lapsed, and those it still holds;
      and `waiterTimeouts` is the number that lapsed. */
  lemma {:induction false} RepliesAccounted(cfg: Config, s: State, inputs: seq<Input>)
    requires Started(s)
    ensures var t := Run(cfg, s, inputs);
            && AskedIn(cfg, s, inputs) == Attempted(t.out) + Lapsed(t.out) + HeldBy(t.waiters, t.groups)
            && t.counters.waiterTimeouts == |Lapsed(t.out)|
  {
    if inputs != [] {
      var n := |inputs| - 1;
      RepliesAccounted(cfg, s, inputs[..n]);
      StartValid(cfg, s);
      RunValid(cfg, s, inputs[..n]);
      MessageBalances(cfg, Run(cfg, s, inputs[..n]), inputs[n]);
    }
  }
}
