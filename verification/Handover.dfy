/**
  Whom a created database goes to, what every reply taken off the queue is told, and
  over whole runs: a reply lapses only when its own request is older than the claim
  timeout.
 */
module Handover {
  import opened EngineTypes
  import opened EngineSpec
  import opened Ledger
  import opened Soundness
  import opened Plans
  import opened Lifecycle
  import opened Timing
  import opened Answers

  // ------------------------------------------- whom a database goes to

  /** What reply `i` of a group is told when the group shares the database `db`: it
      lapses if it is late; otherwise it is offered the database, to 65535 connections. */
  function AnswerTo(cfg: Config, clock: Clock, lease: LeaseId, db: Database, g: nat, replies: seq<Queued>, i: nat): Event
    requires i < |replies|
  {
    var c := replies[i].consumer;
    if !InTime(cfg, clock(c), replies[i].at) then ReplyExpired(c)
    else AttachReplied(c, lease, if Recipients(cfg, clock, replies[..i]) < 65535 then Attached(db, g) else FailedToAttach)
  }

  function AnswersTo(cfg: Config, clock: Clock, lease: LeaseId, db: Database, g: nat, replies: seq<Queued>): seq<Event> {
    seq(|replies|, i requires 0 <= i < |replies| => AnswerTo(cfg, clock, lease, db, g, replies, i))
  }

  /** The events that are not timers. */
  function Spoken(news: seq<Event>): seq<Event> {
    if news == [] then [] else
      Spoken(news[..|news| - 1]) + if news[|news| - 1].TimerArmed? then [] else [news[|news| - 1]]
  }

  lemma {:induction false} SpokenSum(p: seq<Event>, q: seq<Event>)
    ensures Spoken(p + q) == Spoken(p) + Spoken(q)
  {
    if q == [] {
      assert p + q == p;
    } else {
      assert (p + q)[..|p + q| - 1] == p + q[..|q| - 1];
      SpokenSum(p, q[..|q| - 1]);
    }
  }

  lemma SpokenReply(cfg: Config, lease: LeaseId, db: Database, g: nat, before: seq<Verdict>, v: Verdict)
    ensures var news := ReplyEvents(cfg, lease, db, g, 0, false, before, v);
            Spoken(news) == [if v.expired then ReplyExpired(v.consumer) else
                               AttachReplied(v.consumer, lease, if Reached(before) < 65535 then Attached(db, g)
                                                                else FailedToAttach)]
  {
    var news := ReplyEvents(cfg, lease, db, g, 0, false, before, v);
    var last := news[|news| - 1];
    assert news == news[..|news| - 1] + [last];
    assert Spoken([last]) == [] + [last];
    SpokenSum(news[..|news| - 1], [last]);
    if |news| > 1 {
      assert news[..1][..0] == [];
    }
  }

  /** A group served with a fresh database is told exactly these answers, in order. */
  lemma {:induction false} ServeSays(cfg: Config, clock: Clock, lease: LeaseId, db: Database, g: nat, replies: seq<Queued>)
    ensures Spoken(ServeEvents(cfg, lease, db, g, 0, false, Judge(cfg, clock, replies)))
         == AnswersTo(cfg, clock, lease, db, g, replies)
  {
    if replies != [] {
      var n := |replies| - 1;
      var vs := Judge(cfg, clock, replies);
      var init := replies[..n];
      assert vs[..n] == Judge(cfg, clock, init);
      ServeSays(cfg, clock, lease, db, g, init);
      SpokenReply(cfg, lease, db, g, vs[..n], vs[n]);
      SpokenSum(ServeEvents(cfg, lease, db, g, 0, false, vs[..n]), ReplyEvents(cfg, lease, db, g, 0, false, vs[..n], vs[n]));
      ReachedCounts(cfg, clock, init);
      ExpiredIsLate(cfg, clock, replies[n]);
      AnswersMore(cfg, clock, lease, db, g, replies);
    }
  }

  lemma AnswersMore(cfg: Config, clock: Clock, lease: LeaseId, db: Database, g: nat, replies: seq<Queued>)
    requires replies != []
    ensures var n := |replies| - 1;
            AnswersTo(cfg, clock, lease, db, g, replies)
            == AnswersTo(cfg, clock, lease, db, g, replies[..n]) + [AnswerTo(cfg, clock, lease, db, g, replies, n)]
  {
    var n := |replies| - 1;
    forall i | 0 <= i < n
      ensures AnswerTo(cfg, clock, lease, db, g, replies, i) == AnswerTo(cfg, clock, lease, db, g, replies[..n], i)
    {
      assert replies[..n][..i] == replies[..i];
    }
  }

  /** The groups that are told something: those passed over, and the one that is served. */
  function Asked(s: State, k: nat): nat
    requires k <= |s.waiters|
  {
    if k < |s.waiters| then k + 1 else k
  }

  /** The database goes to the first lease in the queue with a reply that is in time and
      reachable, number `k`; those ahead of it are dropped. If there is none, the whole
      queue is dropped and nobody is assigned. */
  ghost predicate Placement(cfg: Config, clock: Clock, s: State, t: State, db: Database, k: nat) {
    && k <= |s.waiters|
    && (forall j | 0 <= j < Asked(s, k) :: s.waiters[j] in s.groups)
    && (forall j | 0 <= j < k :: Hopeless(cfg, clock, s.groups[s.waiters[j]]))
    && t.records == s.records && t.waiters == s.waiters[Asked(s, k)..]
    && (forall l :: l in t.groups <==> l in s.groups && l in t.waiters)
    && (forall l | l in t.groups :: t.groups[l] == s.groups[l])
    && t.inventory.retiring == s.inventory.retiring
    && if k < |s.waiters| then
         var replies := s.groups[s.waiters[k]];
         var n := Recipients(cfg, clock, replies);
         && CanReceive(cfg, clock, replies) && t.nextGeneration > s.nextGeneration
         && t.leases == s.leases[s.waiters[k] := Entry(db, if n < 65535 then n else 65535, t.nextGeneration)]
       else t.leases == s.leases
  }

  /** What was said to one group, and the generation it was offered. */
  datatype Part = Part(news: seq<Event>, generation: nat)

  function Flat(parts: seq<Part>): seq<Event> {
    if parts == [] then [] else parts[0].news + Flat(parts[1..])
  }

  /** The part answers its group reply by reply. */
  ghost predicate Answering(cfg: Config, clock: Clock, s: State, lease: LeaseId, db: Database, part: Part) {
    && lease in s.groups
    && Spoken(part.news) == AnswersTo(cfg, clock, lease, db, part.generation, s.groups[lease])
  }

  /** What was said falls into one part for each group taken off the queue, the served
      group's under the generation it is then assigned. */
  ghost predicate Told(cfg: Config, clock: Clock, s: State, t: State, db: Database, k: nat, parts: seq<Part>) {
    && k <= |s.waiters| && |parts| == Asked(s, k)
    && (forall j | 0 <= j < Asked(s, k) :: Answering(cfg, clock, s, s.waiters[j], db, parts[j]))
    && (k < |s.waiters| ==> parts[k].generation == t.nextGeneration)
  }

  function FrontAnswered(cfg: Config, clock: Clock, s: State): State
    requires s.waiters != [] && s.waiters[0] in s.groups && s.inventory.ready != []
  {
    Serve(cfg, PopNext(s), s.waiters[0], Judge(cfg, clock, s.groups[s.waiters[0]]))
  }

  lemma FrontNext(cfg: Config, clock: Clock, s: State)
    requires Coherent(s) && s.inventory.ready != [] && s.waiters != []
    ensures s.waiters[0] in s.groups && s.waiters[0] !in s.leases
    ensures var t := FrontAnswered(cfg, clock, s); Coherent(t) && Dispatch(cfg, clock, s) == Dispatch(cfg, clock, t)
  {
    DispatchNext(cfg, clock, s);
    assert s.waiters[0] in s.waiters;
    NextQueued(cfg, s, Judge(cfg, clock, s.groups[s.waiters[0]]));
  }

  /** The front of the queue has been answered with the one ready database. */
  ghost predicate Fronted(s: State, t: State, db: Database, n: nat, news: seq<Event>)
    requires s.waiters != []
  {
    && t.out == s.out + news && t.records == s.records
    && t.waiters == s.waiters[1..] && t.groups == s.groups - {s.waiters[0]}
    && t.inventory == s.inventory.(ready := if n > 0 then [] else [db])
    && s.nextGeneration <= t.nextGeneration
    && if n > 0 then
         && t.nextGeneration == s.nextGeneration + 1
         && t.leases == s.leases[s.waiters[0] := Entry(db, if n < 65535 then n else 65535, t.nextGeneration)]
       else t.leases == s.leases
  }

  lemma FrontServed(cfg: Config, clock: Clock, s: State, db: Database) returns (news: seq<Event>)
    requires s.inventory.ready == [db] && s.waiters != [] && s.waiters[0] in s.groups && s.waiters[0] !in s.leases
    ensures var replies := s.groups[s.waiters[0]];
            && Fronted(s, FrontAnswered(cfg, clock, s), db, Recipients(cfg, clock, replies), news)
            && news == ServeEvents(cfg, s.waiters[0], db, s.nextGeneration + 1, 0, false, Judge(cfg, clock, replies))
  {
    var lease := s.waiters[0];
    var vs := Judge(cfg, clock, s.groups[lease]);
    news := ServeOutcome(cfg, PopNext(s), lease, vs);
    ReachedCounts(cfg, clock, s.groups[lease]);
    ServedFronts(s, FrontAnswered(cfg, clock, s), db, Reached(vs), AnyLive(vs), news);
  }

  lemma ServedFronts(s: State, t: State, db: Database, n: nat, live: bool, news: seq<Event>)
    requires s.waiters != [] && s.inventory.ready == [db] && Served(PopNext(s), t, s.waiters[0], n, live, news)
    ensures Fronted(s, t, db, n, news)
  {
    assert [db][1..] == [];
  }

  /** From `s` the front is answered, which gives `n`. */
  ghost predicate Stepped(cfg: Config, clock: Clock, s: State, n: State, db: Database, part: Part) {
    && s.inventory.ready == [db] && s.waiters != [] && part.generation == s.nextGeneration + 1
    && Answering(cfg, clock, s, s.waiters[0], db, part)
    && Fronted(s, n, db, Recipients(cfg, clock, s.groups[s.waiters[0]]), part.news)
  }

  lemma FrontStep(cfg: Config, clock: Clock, s: State, n: State, db: Database) returns (part: Part)
    requires s.inventory.ready == [db] && s.waiters != [] && s.waiters[0] in s.groups && s.waiters[0] !in s.leases
    requires n == FrontAnswered(cfg, clock, s)
    ensures var u := n; Stepped(cfg, clock, s, u, db, part)
  {
    var news := FrontServed(cfg, clock, s, db);
    part := Part(news, s.nextGeneration + 1);
    ServeSays(cfg, clock, s.waiters[0], db, s.nextGeneration + 1, s.groups[s.waiters[0]]);
  }

  /** The database has been handed on, and everybody asked has been told. */
  ghost predicate Handed(cfg: Config, clock: Clock, s: State, t: State, db: Database, k: nat, parts: seq<Part>) {
    && Placement(cfg, clock, s, t, db, k) && Told(cfg, clock, s, t, db, k, parts)
    && t.inventory.ready == (if k < |s.waiters| then [] else s.inventory.ready) && t.out == s.out + Flat(parts)
  }

  lemma NobodyWaits(cfg: Config, clock: Clock, s: State, db: Database)
    requires Coherent(s) && s.waiters == []
    ensures Dispatch(cfg, clock, s) == s
    ensures var u := s; Handed(cfg, clock, s, u, db, 0, [])
  {
    NobodyGrouped(s);
    HandedNobody(cfg, clock, s, db);
  }

  lemma NobodyGrouped(s: State)
    requires Coherent(s) && s.waiters == []
    ensures forall l :: l !in s.groups
  {
    assert forall l | l in s.groups :: l in s.waiters;
  }

  lemma HandedNobody(cfg: Config, clock: Clock, s: State, db: Database)
    requires s.waiters == [] && forall l :: l !in s.groups
    ensures var u := s; Handed(cfg, clock, s, u, db, 0, [])
  {
    assert s.out + [] == s.out;
  }

  lemma {:induction false} DispatchServes(cfg: Config, clock: Clock, s: State, t: State, db: Database)
    returns (k: nat, parts: seq<Part>)
    requires Coherent(s) && s.inventory.ready == [db] && t == Dispatch(cfg, clock, s)
    ensures var n := k; Handed(cfg, clock, s, t, db, n, parts)
    decreases |s.waiters|, 1
  {
    if s.waiters == [] {
      k, parts := 0, [];
      NobodyWaits(cfg, clock, s, db);
    } else {
      FrontGrouped(s);
      if CanReceive(cfg, clock, s.groups[s.waiters[0]]) {
        k := 0;
        parts := TakesNow(cfg, clock, s, t, db);
      } else {
        k, parts := ServesLater(cfg, clock, s, t, db);
      }
    }
  }

  lemma {:induction false} ServesLater(cfg: Config, clock: Clock, s: State, t: State, db: Database)
    returns (k: nat, parts: seq<Part>)
    requires Coherent(s) && s.inventory.ready == [db] && t == Dispatch(cfg, clock, s)
    requires s.waiters != [] && s.waiters[0] in s.groups && !CanReceive(cfg, clock, s.groups[s.waiters[0]])
    ensures var n := k; Handed(cfg, clock, s, t, db, n, parts)
    decreases |s.waiters|, 0
  {
    var n, part := PassesOn(cfg, clock, s, t, db);
    var j, more := DispatchServes(cfg, clock, n, t, db);
    FrontPassed(cfg, clock, s, n, t, db, part, j, more);
    k, parts := j + 1, [part] + more;
  }

  lemma FrontGrouped(s: State)
    requires Coherent(s) && s.waiters != []
    ensures s.waiters[0] in s.groups
  {
    assert s.waiters[0] in s.waiters;
  }

  lemma TakesNow(cfg: Config, clock: Clock, s: State, t: State, db: Database) returns (parts: seq<Part>)
    requires Coherent(s) && s.inventory.ready == [db] && t == Dispatch(cfg, clock, s)
    requires s.waiters != [] && s.waiters[0] in s.groups && CanReceive(cfg, clock, s.groups[s.waiters[0]])
    ensures var k := 0; Handed(cfg, clock, s, t, db, k, parts)
  {
    FrontNext(cfg, clock, s);
    var n := FrontAnswered(cfg, clock, s);
    var part := FrontStep(cfg, clock, s, n, db);
    FrontTakes(cfg, clock, s, n, db, part);
    parts := [part];
  }

  lemma PassesOn(cfg: Config, clock: Clock, s: State, t: State, db: Database) returns (n: State, part: Part)
    requires Coherent(s) && s.inventory.ready == [db] && t == Dispatch(cfg, clock, s)
    requires s.waiters != [] && s.waiters[0] in s.groups && !CanReceive(cfg, clock, s.groups[s.waiters[0]])
    ensures Coherent(n) && t == Dispatch(cfg, clock, n) && n.inventory.ready == [db] && |n.waiters| < |s.waiters|
    ensures var u := n; Passing(cfg, clock, s, u, db, part)
  {
    FrontNext(cfg, clock, s);
    n := FrontAnswered(cfg, clock, s);
    part := FrontStep(cfg, clock, s, n, db);
    FrontPasses(cfg, clock, s, n, db, part);
  }

  /** The front can receive the database: it has gone to the first lease. */
  lemma FrontTakes(cfg: Config, clock: Clock, s: State, t: State, db: Database, part: Part)
    requires Coherent(s)
    requires var u := t; Stepped(cfg, clock, s, u, db, part)
    requires CanReceive(cfg, clock, s.groups[s.waiters[0]])
    ensures Dispatch(cfg, clock, t) == t
    ensures var u := t; Handed(cfg, clock, s, u, db, 0, [part])
  {
    NoRecipients(cfg, clock, s.groups[s.waiters[0]]);
    HandedFirst(cfg, clock, s, t, db, part);
  }

  lemma HandedFirst(cfg: Config, clock: Clock, s: State, t: State, db: Database, part: Part)
    requires Coherent(s)
    requires var u := t; Stepped(cfg, clock, s, u, db, part)
    requires CanReceive(cfg, clock, s.groups[s.waiters[0]]) && Recipients(cfg, clock, s.groups[s.waiters[0]]) > 0
    ensures var u := t; Handed(cfg, clock, s, u, db, 0, [part])
  {
    RestOfQueue(s, t);
    assert [part][1..] == [];
    assert part.news + [] == part.news;
  }

  /** After the front, the groups left are those of the rest of the queue. */
  lemma RestOfQueue(s: State, t: State)
    requires Coherent(s) && s.waiters != [] && t.waiters == s.waiters[1..] && t.groups == s.groups - {s.waiters[0]}
    ensures forall l :: l in t.groups <==> l in s.groups && l in t.waiters
  {
    forall l ensures l in t.groups <==> l in s.groups && l in t.waiters {
      assert s.waiters == [s.waiters[0]] + t.waiters;
      assert l in s.waiters <==> l in s.groups;
      if l in t.waiters {
        var i :| 0 <= i < |t.waiters| && t.waiters[i] == l;
        assert s.waiters[i + 1] == l;
      }
    }
  }

  /** Nobody in the front group received the database. */
  ghost predicate Passing(cfg: Config, clock: Clock, s: State, n: State, db: Database, part: Part) {
    && s.waiters != [] && Answering(cfg, clock, s, s.waiters[0], db, part)
    && Hopeless(cfg, clock, s.groups[s.waiters[0]]) && Fronted(s, n, db, 0, part.news)
  }

  lemma FrontPasses(cfg: Config, clock: Clock, s: State, n: State, db: Database, part: Part)
    requires var u := n; Stepped(cfg, clock, s, u, db, part)
    requires !CanReceive(cfg, clock, s.groups[s.waiters[0]])
    ensures n.inventory.ready == [db] && |n.waiters| < |s.waiters|
    ensures var u := n; Passing(cfg, clock, s, u, db, part)
  {
    NoRecipients(cfg, clock, s.groups[s.waiters[0]]);
  }

  /** The front cannot receive the database: it goes to whom it would go to without
      the front. */
  lemma FrontPassed(cfg: Config, clock: Clock, s: State, n: State, t: State, db: Database, part: Part,
                    k: nat, parts: seq<Part>)
    requires Coherent(s) && s.inventory.ready == [db]
    requires var u := n; Passing(cfg, clock, s, u, db, part)
    requires var j := k; Handed(cfg, clock, n, t, db, j, parts)
    ensures var j := k + 1; Handed(cfg, clock, s, t, db, j, [part] + parts)
  {
    PassedPlacement(cfg, clock, s, n, t, db, part, k);
    PassedTold(cfg, clock, s, n, t, db, part, k, parts);
    FlatMore(s.out, part, parts);
  }

  lemma FlatMore(out: seq<Event>, part: Part, parts: seq<Part>)
    ensures out + part.news + Flat(parts) == out + Flat([part] + parts)
  {
    assert ([part] + parts)[1..] == parts;
  }

  lemma PassedPlacement(cfg: Config, clock: Clock, s: State, n: State, t: State, db: Database, part: Part, k: nat)
    requires Coherent(s) && s.inventory.ready == [db]
    requires var u := n; Passing(cfg, clock, s, u, db, part)
    requires var j := k; Placement(cfg, clock, n, t, db, j)
    ensures var j := k + 1; Placement(cfg, clock, s, t, db, j)
  {
    assert forall j | 0 <= j < |n.waiters| :: n.waiters[j] == s.waiters[j + 1];
    PassedRest(s, n, k);
    PassedQueued(cfg, clock, s, n, k);
    RestOfQueue(s, n);
    PassedGroups(s, n, t, Asked(n, k));
  }

  lemma PassedRest(s: State, n: State, k: nat)
    requires s.waiters != [] && n.waiters == s.waiters[1..] && k <= |n.waiters|
    ensures n.waiters[Asked(n, k)..] == s.waiters[Asked(s, k + 1)..]
  {
  }

  lemma PassedQueued(cfg: Config, clock: Clock, s: State, n: State, k: nat)
    requires s.waiters != [] && s.waiters[0] in s.groups && Hopeless(cfg, clock, s.groups[s.waiters[0]])
    requires n.waiters == s.waiters[1..] && n.groups == s.groups - {s.waiters[0]} && k <= |n.waiters|
    requires forall j | 0 <= j < Asked(n, k) :: n.waiters[j] in n.groups
    requires forall j | 0 <= j < k :: n.waiters[j] in n.groups && Hopeless(cfg, clock, n.groups[n.waiters[j]])
    ensures forall j | 0 <= j < Asked(s, k + 1) :: s.waiters[j] in s.groups
    ensures forall j | 0 <= j < k + 1 :: s.waiters[j] in s.groups && Hopeless(cfg, clock, s.groups[s.waiters[j]])
  {
    forall j | 0 <= j < Asked(s, k + 1) ensures s.waiters[j] in s.groups {
      if j > 0 { assert s.waiters[j] == n.waiters[j - 1]; }
    }
    forall j | 0 <= j < k + 1 ensures s.waiters[j] in s.groups && Hopeless(cfg, clock, s.groups[s.waiters[j]]) {
      if j > 0 { assert s.waiters[j] == n.waiters[j - 1]; }
    }
  }

  lemma PassedGroups(s: State, n: State, t: State, k: nat)
    requires forall l :: l in n.groups <==> l in s.groups && l in n.waiters
    requires forall l :: l in t.groups <==> l in n.groups && l in t.waiters
    requires k <= |n.waiters| && t.waiters == n.waiters[k..]
    ensures forall l :: l in t.groups <==> l in s.groups && l in t.waiters
  {
    forall l | l in t.waiters ensures l in n.waiters {
      var i :| 0 <= i < |t.waiters| && t.waiters[i] == l;
      assert n.waiters[k + i] == l;
    }
  }

  lemma PassedTold(cfg: Config, clock: Clock, s: State, n: State, t: State, db: Database, part: Part,
                   k: nat, parts: seq<Part>)
    requires var u := n; Passing(cfg, clock, s, u, db, part)
    requires var j := k; Told(cfg, clock, n, t, db, j, parts)
    ensures var j := k + 1; Told(cfg, clock, s, t, db, j, [part] + parts)
  {
    forall j | 0 <= j < Asked(s, k + 1) ensures Answering(cfg, clock, s, s.waiters[j], db, ([part] + parts)[j]) {
      if j > 0 {
        SameAnswering(cfg, clock, s, n, s.waiters[j], db, parts[j - 1]);
      }
    }
  }

  lemma SameAnswering(cfg: Config, clock: Clock, s: State, n: State, lease: LeaseId, db: Database, part: Part)
    requires Answering(cfg, clock, n, lease, db, part) && lease in s.groups && s.groups[lease] == n.groups[lease]
    ensures Answering(cfg, clock, s, lease, db, part)
  {
  }

  /** A created database goes to the first lease in the queue that can receive it, and
      joins the ready ones, last, when there is none; every reply of the groups taken off
      the queue is answered as `AnswerTo` says. */
  lemma CreationServes(cfg: Config, s: State, input: Input) returns (k: nat, parts: seq<Part>)
    requires Valid(cfg, s) && !s.shutdown && input.msg.CreationFinished? && input.msg.id in s.inventory.creating
    requires input.msg.result.Some?
    ensures var t := Process(cfg, s, input);
            var db := Database(input.msg.id, input.msg.result.value);
            && Placement(cfg, input.clock, s, t, db, k)
            && t.inventory.ready == (if k < |s.waiters| then [] else s.inventory.ready + [db])
            && Told(cfg, input.clock, s, t, db, k, parts)
            && (t.out == s.out + Flat(parts)
                || exists batch :: t.out == s.out + Flat(parts) + [CreationRequested(batch, input.createOk)])
  {
    var db := Database(input.msg.id, input.msg.result.value);
    var m := CompleteCreation(s, input.msg.id, input.msg.result);
    var d := Dispatch(cfg, input.clock, m);
    CreationShape(cfg, s, input);
    GrowSaid(cfg, input.clock, input.createOk, d);
    if s.waiters == [] {
      k, parts := 0, [];
      NobodyWaits(cfg, input.clock, m, db);
    } else {
      assert s.inventory.ready + [db] == [db];
      k, parts := DispatchServes(cfg, input.clock, m, d, db);
    }
    HandedOn(cfg, input, s, m, d, Process(cfg, s, input), db, k, parts);
  }

  /** Neither settling the creation before nor growing after it hands out anything. */
  lemma HandedOn(cfg: Config, input: Input, s: State, m: State, d: State, t: State, db: Database, k: nat,
                 parts: seq<Part>)
    requires Handed(cfg, input.clock, m, d, db, k, parts) && Grew(input.createOk, d, t)
    requires m == s.(inventory := m.inventory, counters := m.counters) && m.inventory.retiring == s.inventory.retiring
    ensures Placement(cfg, input.clock, s, t, db, k) && Told(cfg, input.clock, s, t, db, k, parts)
    ensures t.inventory.ready == if k < |s.waiters| then [] else m.inventory.ready
    ensures t.out == s.out + Flat(parts)
            || exists batch :: t.out == s.out + Flat(parts) + [CreationRequested(batch, input.createOk)]
  {
    assert Asked(m, k) == Asked(s, k);
  }

  /** In particular: when the first lease in the queue has a reachable reply asked for
      within the timeout, it is assigned the created database, and that consumer is
      delivered it unless 65535 replies of its group come before. */
  lemma FrontIsDelivered(cfg: Config, s: State, input: Input, i: nat)
    requires Valid(cfg, s) && !s.shutdown && input.msg.CreationFinished? && input.msg.id in s.inventory.creating
    requires input.msg.result.Some? && s.waiters != [] && s.waiters[0] in s.groups && i < |s.groups[s.waiters[0]]|
    requires var q := s.groups[s.waiters[0]][i];
             && q.consumer.reachable && (cfg.claimTimeout == 0 || input.clock(q.consumer) <= q.at + cfg.claimTimeout)
    ensures var t, lease := Process(cfg, s, input), s.waiters[0];
            var db := Database(input.msg.id, input.msg.result.value);
            && lease in t.leases && t.leases[lease].database == db
            && (i < 65535 ==> AttachReplied(s.groups[lease][i].consumer, lease,
                                            Attached(db, t.leases[lease].generation)) in t.out)
  {
    var lease, t := s.waiters[0], Process(cfg, s, input);
    var replies := s.groups[lease];
    var db := Database(input.msg.id, input.msg.result.value);
    var k, parts := CreationServes(cfg, s, input);
    assert Receives(cfg, input.clock, replies[i]);
    assert k == 0;
    if i < 65535 {
      RecipientsBound(cfg, input.clock, replies[..i]);
      var e := AnswerTo(cfg, input.clock, lease, db, parts[0].generation, replies, i);
      assert Answering(cfg, input.clock, s, lease, db, parts[0]);
      assert AnswersTo(cfg, input.clock, lease, db, parts[0].generation, replies)[i] == e;
      assert e in Spoken(parts[0].news);
      SpokenIn(parts[0].news, e);
      assert Flat(parts) == parts[0].news + Flat(parts[1..]);
    }
  }

  lemma {:induction false} RecipientsBound(cfg: Config, clock: Clock, replies: seq<Queued>)
    ensures Recipients(cfg, clock, replies) <= |replies|
  {
    if replies != [] {
      RecipientsBound(cfg, clock, replies[..|replies| - 1]);
    }
  }

  lemma {:induction false} SpokenIn(news: seq<Event>, e: Event)
    requires e in Spoken(news)
    ensures e in news
  {
    if e != news[|news| - 1] {
      SpokenIn(news[..|news| - 1], e);
    }
  }

  // ------------------------------------------------------ who is queued

  /** Nothing is queued but what the message brought. */
  lemma MessageGroups(cfg: Config, s: State, input: Input, lease: LeaseId, q: Queued)
    requires Valid(cfg, s) && lease in Process(cfg, s, input).groups && q in Process(cfg, s, input).groups[lease]
    ensures (lease in s.groups && q in s.groups[lease]) || input.msg == AttachOrJoin(lease, q.consumer, q.at)
  {
    if !s.shutdown {
      match input.msg
      case AttachOrJoin(_, _, _) => AttachGroups(cfg, s, input, lease, q);
      case ReleaseLease(_, _) => ReleaseGroups(cfg, s, input, lease);
      case LeaseMaxTimeReached(l, g) =>
        if Current(s, l, g) { var said := ExpiryAnswered(cfg, s, input); }
      case CreationFinished(id, result) =>
        if id in s.inventory.creating { CreationGroups(cfg, s, input, lease); }
      case _ =>
    }
  }

  lemma AttachGroups(cfg: Config, s: State, input: Input, lease: LeaseId, q: Queued)
    requires Valid(cfg, s) && !s.shutdown && input.msg.AttachOrJoin?
    requires lease in Process(cfg, s, input).groups && q in Process(cfg, s, input).groups[lease]
    ensures (lease in s.groups && q in s.groups[lease]) || input.msg == AttachOrJoin(lease, q.consumer, q.at)
  {
    AttachAnswered(cfg, s, input);
  }

  lemma ReleaseGroups(cfg: Config, s: State, input: Input, lease: LeaseId)
    requires Valid(cfg, s) && !s.shutdown && input.msg.ReleaseLease? && lease in Process(cfg, s, input).groups
    ensures lease in s.groups && s.groups[lease] == Process(cfg, s, input).groups[lease]
  {
    var said := ReleaseAnswered(cfg, s, input);
  }

  lemma CreationGroups(cfg: Config, s: State, input: Input, lease: LeaseId)
    requires Valid(cfg, s) && !s.shutdown && input.msg.CreationFinished? && input.msg.id in s.inventory.creating
    requires lease in Process(cfg, s, input).groups
    ensures lease in s.groups && s.groups[lease] == Process(cfg, s, input).groups[lease]
  {
    if input.msg.result.Some? {
      var k, parts := CreationServes(cfg, s, input);
    } else {
      FailureAnswered(cfg, s, input);
    }
  }

  /** Every queued reply was asked for by a message that was read, at the time it
      carried. */
  lemma {:induction false} QueuedWasAsked(cfg: Config, start: State, inputs: seq<Input>, lease: LeaseId, q: Queued)
    returns (j: nat)
    requires Started(start) && lease in Run(cfg, start, inputs).groups && q in Run(cfg, start, inputs).groups[lease]
    ensures j < |inputs| && inputs[j].msg == AttachOrJoin(lease, q.consumer, q.at)
  {
    var n := |inputs| - 1;
    var m := Run(cfg, start, inputs[..n]);
    StartValid(cfg, start);
    RunValid(cfg, start, inputs[..n]);
    MessageGroups(cfg, m, inputs[n], lease, q);
    if inputs[n].msg == AttachOrJoin(lease, q.consumer, q.at) {
      j := n;
    } else {
      j := QueuedWasAsked(cfg, start, inputs[..n], lease, q);
    }
  }

  // ---------------------------------------------------------- who lapses

  lemma {:induction false} InSpoken(news: seq<Event>, e: Event)
    requires e in news && !e.TimerArmed?
    ensures e in Spoken(news)
  {
    assert news == news[..|news| - 1] + [news[|news| - 1]];
    if e != news[|news| - 1] {
      InSpoken(news[..|news| - 1], e);
    }
  }

  lemma {:induction false} InPart(parts: seq<Part>, e: Event) returns (j: nat)
    requires e in Flat(parts)
    ensures j < |parts| && e in parts[j].news
  {
    if e in parts[0].news {
      j := 0;
    } else {
      var i := InPart(parts[1..], e);
      j := i + 1;
    }
  }

  /** The queued reply is late. */
  predicate Lapsing(cfg: Config, clock: Clock, q: Queued) {
    cfg.claimTimeout > 0 && clock(q.consumer) > q.at + cfg.claimTimeout
  }

  lemma CreationLapses(cfg: Config, s: State, input: Input, i: nat) returns (lease: LeaseId, q: Queued)
    requires Valid(cfg, s) && !s.shutdown && input.msg.CreationFinished? && input.msg.id in s.inventory.creating
    requires input.msg.result.Some? && |s.out| <= i < |Process(cfg, s, input).out|
    requires Process(cfg, s, input).out[i].ReplyExpired?
    ensures lease in s.groups && q in s.groups[lease] && Lapsing(cfg, input.clock, q)
    ensures q.consumer == Process(cfg, s, input).out[i].consumer
  {
    var e := Process(cfg, s, input).out[i];
    var db := Database(input.msg.id, input.msg.result.value);
    var k, parts := CreationServes(cfg, s, input);
    SaidIn(s.out, Flat(parts), Process(cfg, s, input).out, i, input.createOk);
    lease, q := ToldLapses(cfg, input.clock, s, Process(cfg, s, input), db, k, parts, e.consumer);
  }

  lemma SaidIn(out: seq<Event>, said: seq<Event>, out': seq<Event>, i: nat, createOk: bool)
    requires out' == out + said || exists batch :: out' == out + said + [CreationRequested(batch, createOk)]
    requires |out| <= i < |out'| && out'[i].ReplyExpired?
    ensures out'[i] in said
  {
    assert out'[i] == said[i - |out|];
  }

  lemma ToldLapses(cfg: Config, clock: Clock, s: State, t: State, db: Database, k: nat, parts: seq<Part>, c: Consumer)
    returns (lease: LeaseId, q: Queued)
    requires Told(cfg, clock, s, t, db, k, parts) && ReplyExpired(c) in Flat(parts)
    ensures lease in s.groups && q in s.groups[lease] && q.consumer == c && Lapsing(cfg, clock, q)
  {
    var j := InPart(parts, ReplyExpired(c));
    lease := s.waiters[j];
    q := PartLapses(cfg, clock, s, lease, db, parts[j], c);
  }

  lemma PartLapses(cfg: Config, clock: Clock, s: State, lease: LeaseId, db: Database, part: Part, c: Consumer)
    returns (q: Queued)
    requires Answering(cfg, clock, s, lease, db, part) && ReplyExpired(c) in part.news
    ensures q in s.groups[lease] && q.consumer == c && Lapsing(cfg, clock, q)
  {
    InSpoken(part.news, ReplyExpired(c));
    var answers := AnswersTo(cfg, clock, lease, db, part.generation, s.groups[lease]);
    var i :| 0 <= i < |answers| && answers[i] == ReplyExpired(c);
    q := s.groups[lease][i];
  }

  /** Only a successful creation makes replies lapse. */
  lemma OthersLapseNothing(cfg: Config, s: State, input: Input)
    requires Valid(cfg, s)
    requires !s.shutdown && input.msg.CreationFinished? && input.msg.id in s.inventory.creating ==> input.msg.result.None?
    ensures var t := Process(cfg, s, input); NoLapse(s, t)
  {
    if !s.shutdown {
      match input.msg
      case AttachOrJoin(_, _, _) => AttachLapsesNothing(cfg, s, input);
      case ReleaseLease(_, _) => ReleaseLapsesNothing(cfg, s, input);
      case LeaseMaxTimeReached(l, g) =>
        if Current(s, l, g) { ExpiryLapsesNothing(cfg, s, input); }
      case CreationFinished(id, result) =>
        if id in s.inventory.creating { FailureLapsesNothing(cfg, s, input); }
      case _ =>
    }
  }

  lemma ExpiryLapsesNothing(cfg: Config, s: State, input: Input)
    requires Valid(cfg, s) && !s.shutdown && input.msg.LeaseMaxTimeReached?
    requires Current(s, input.msg.lease, input.msg.generation)
    ensures var t := Process(cfg, s, input); NoLapse(s, t)
  {
    var said := ExpiryAnswered(cfg, s, input);
    SaidNoLapse(s, Process(cfg, s, input), said);
  }

  lemma FailureLapsesNothing(cfg: Config, s: State, input: Input)
    requires Valid(cfg, s) && !s.shutdown && input.msg.CreationFinished? && input.msg.id in s.inventory.creating
    requires input.msg.result.None?
    ensures var t := Process(cfg, s, input); NoLapse(s, t)
  {
    FailureAnswered(cfg, s, input);
  }

  /** Only events of these kinds were added. */
  ghost predicate NoLapse(s: State, t: State) {
    s.out <= t.out && forall i | |s.out| <= i < |t.out| :: !t.out[i].ReplyExpired?
  }

  lemma SaidNoLapse(s: State, t: State, said: seq<Event>)
    requires t.out == s.out + said && forall e | e in said :: !e.ReplyExpired?
    ensures NoLapse(s, t)
  {
    forall i | |s.out| <= i < |t.out| ensures !t.out[i].ReplyExpired? {
      assert t.out[i] in said;
    }
  }

  lemma GrownNoLapse(s: State, t: State, lease: LeaseId, createOk: bool, said: seq<Event>)
    requires OnlyGrows(s, t, lease, createOk, said) && forall e | e in said :: !e.ReplyExpired?
    ensures NoLapse(s, t)
  {
    if t.out == s.out + said {
      SaidNoLapse(s, t, said);
    } else {
      var batch :| t.out == s.out + said + [CreationRequested(batch, createOk)];
      assert t.out == s.out + (said + [CreationRequested(batch, createOk)]);
      SaidNoLapse(s, t, said + [CreationRequested(batch, createOk)]);
    }
  }

  lemma OpenNoLapse(cfg: Config, s: State, t: State, lease: LeaseId, c: Consumer, at: nat, createOk: bool)
    requires OpenAnswer(cfg, s, t, lease, c, at, createOk)
    ensures NoLapse(s, t)
  {
    if lease !in s.records && |s.records| >= cfg.maxRecords {
      SaidNoLapse(s, t, [AttachReplied(c, lease, Rejected(LeaseRecordLimitReached))]);
    } else if s.inventory.ready == [] {
      GrownNoLapse(s, t, lease, createOk, []);
    } else {
      var db, g := s.inventory.ready[0], s.nextGeneration + 1;
      GrownNoLapse(s, t, lease, createOk, (if cfg.claimTimeout > 0 then [TimerArmed(lease, g)] else [])
                                          + [AttachReplied(c, lease, Attached(db, g))]);
    }
  }

  lemma AttachLapsesNothing(cfg: Config, s: State, input: Input)
    requires Valid(cfg, s) && !s.shutdown && input.msg.AttachOrJoin?
    ensures var t := Process(cfg, s, input); NoLapse(s, t)
  {
    var AttachOrJoin(lease, c, at) := input.msg;
    var t := Process(cfg, s, input);
    AttachAnswered(cfg, s, input);
    if LeaseOf(s, lease).Held? || LeaseOf(s, lease).Shut? {
      SaidNoLapse(s, t, [t.out[|s.out|]]);
    } else {
      OpenNoLapse(cfg, s, t, lease, c, at, input.createOk);
    }
  }

  lemma ReleaseLapsesNothing(cfg: Config, s: State, input: Input)
    requires Valid(cfg, s) && !s.shutdown && input.msg.ReleaseLease?
    ensures var t := Process(cfg, s, input); NoLapse(s, t)
  {
    var lease, t := input.msg.lease, Process(cfg, s, input);
    var said := ReleaseAnswered(cfg, s, input);
    if LeaseOf(s, lease) == Shut || (LeaseOf(s, lease) == Unknown && |s.records| >= cfg.maxRecords) {
      SaidNoLapse(s, t, [t.out[|s.out|]]);
    } else {
      ReleasedNoLapse(s, t, input, said);
    }
  }

  lemma ReleasedNoLapse(s: State, t: State, input: Input, said: seq<Event>)
    requires input.msg.ReleaseLease? && ReleaseAnswer(s, t, input, said)
    ensures NoLapse(s, t)
  {
    var lease := input.msg.lease;
    var rejected := if lease in s.groups then Rejections(lease, s.groups[lease]) else [];
    var all := rejected + said + [ReleaseReplied(input.msg.consumer, true)];
    assert t.out == s.out + all;
    SaidNoLapse(s, t, all);
  }

  /** The request and the message that let it lapse. */
  predicate LapsedLate(cfg: Config, inputs: seq<Input>, c: Consumer, j: nat, k: nat) {
    && j < k < |inputs| && inputs[j].msg.AttachOrJoin? && inputs[j].msg.consumer == c
    && cfg.claimTimeout > 0 && inputs[k].clock(c) > inputs[j].msg.at + cfg.claimTimeout
  }

  lemma LapsesNow(cfg: Config, start: State, inputs: seq<Input>, m: State, i: nat) returns (j: nat)
    requires Started(start) && inputs != [] && m == Run(cfg, start, inputs[..|inputs| - 1]) && Valid(cfg, m)
    requires |m.out| <= i < |Process(cfg, m, inputs[|inputs| - 1]).out|
    requires Process(cfg, m, inputs[|inputs| - 1]).out[i].ReplyExpired?
    ensures LapsedLate(cfg, inputs, Process(cfg, m, inputs[|inputs| - 1]).out[i].consumer, j, |inputs| - 1)
  {
    var n := |inputs| - 1;
    if m.shutdown || !(inputs[n].msg.CreationFinished? && inputs[n].msg.id in m.inventory.creating
                       && inputs[n].msg.result.Some?) {
      OthersLapseNothing(cfg, m, inputs[n]);
    }
    var lease, q := CreationLapses(cfg, m, inputs[n], i);
    j := QueuedWasAsked(cfg, start, inputs[..n], lease, q);
  }

  /** A reply lapses only late, in plain numbers: if the log of a run says that the
      reply of `c` lapsed, then some message asked for it at a time `at`, and a later
      one, which wrote the log entry, found it more than the claim timeout after `at`;
      and there is a timeout. */
  lemma {:induction false} LapsedWasLate(cfg: Config, start: State, inputs: seq<Input>, i: nat) returns (j: nat, k: nat)
    requires Started(start) && i < |Run(cfg, start, inputs).out| && Run(cfg, start, inputs).out[i].ReplyExpired?
    ensures LapsedLate(cfg, inputs, Run(cfg, start, inputs).out[i].consumer, j, k)
    ensures WrittenBy(cfg, start, inputs, i, k)
  {
    var n := |inputs| - 1;
    var m := Run(cfg, start, inputs[..n]);
    StartValid(cfg, start);
    RunValid(cfg, start, inputs[..n]);
    SaidBefore(cfg, m, inputs[n]);
    if i < |m.out| {
      j, k := LapsedWasLate(cfg, start, inputs[..n], i);
      LapsedEarlier(cfg, start, inputs, n, i, m.out[i].consumer, j, k);
    } else {
      k := n;
      j := LapsesNow(cfg, start, inputs, m, i);
      assert inputs[..n + 1] == inputs;
    }
  }

  /** Log entry `i` was written by message `k`. */
  predicate WrittenBy(cfg: Config, start: State, inputs: seq<Input>, i: nat, k: nat) {
    k < |inputs| && |Run(cfg, start, inputs[..k]).out| <= i < |Run(cfg, start, inputs[..k + 1]).out|
  }

  lemma LapsedEarlier(cfg: Config, start: State, inputs: seq<Input>, n: nat, i: nat, c: Consumer, j: nat, k: nat)
    requires n <= |inputs| && LapsedLate(cfg, inputs[..n], c, j, k) && WrittenBy(cfg, start, inputs[..n], i, k)
    ensures LapsedLate(cfg, inputs, c, j, k) && WrittenBy(cfg, start, inputs, i, k)
  {
    SamePrefix(inputs, n, k);
  }

  lemma SamePrefix(inputs: seq<Input>, n: nat, k: nat)
    requires k < n <= |inputs|
    ensures inputs[..n][..k] == inputs[..k] && inputs[..n][..k + 1] == inputs[..k + 1]
  {
  }

  lemma SaidBefore(cfg: Config, m: State, input: Input)
    requires Valid(cfg, m)
    ensures m.out <= Process(cfg, m, input).out
  {
    Lifecycle.MessageEvolves(cfg, m, input);
  }
}
