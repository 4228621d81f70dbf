/**
  The engine seen as a map from database ids to lifecycle phases and from leases
  to lease states. Every message only moves these forwards, and what follows for
  whole runs: isolation, permanent closure, and generations that stay dead.
 */
module Lifecycle {
  import opened EngineTypes
  import opened EngineSpec
  import opened Ledger
  import opened Soundness
  import opened Plans

  // ---------------------------------------------------------------- phases

  datatype Phase =
    | Unissued
    | Creating
    | Failed
    | Ready
    | Leased(lease: LeaseId, generation: nat)
    | Retiring
    | Cleaned

  predicate Holds(leases: Leases, lease: LeaseId, id: nat) {
    lease in leases && leases[lease].database.id == id
  }

  ghost predicate IsLeased(leases: Leases, id: nat) {
    exists lease :: Holds(leases, lease, id)
  }

  ghost predicate InPhase(s: State, id: nat, p: Phase) {
    match p
    case Unissued => !Issued(s.inventory, id)
    case Creating => id in s.inventory.creating
    case Failed => Issued(s.inventory, id) && id !in s.inventory.creating && !IsReady(s.inventory.ready, id)
                   && !IsLeased(s.leases, id) && id !in s.inventory.retiring && !CleanupSent(s.out, id)
    case Ready => IsReady(s.inventory.ready, id)
    case Leased(lease, generation) => Holds(s.leases, lease, id) && s.leases[lease].generation == generation
    case Retiring => id in s.inventory.retiring
    case Cleaned => CleanupSent(s.out, id) && id !in s.inventory.retiring
  }

  /** Read the phase off the containers. */
  ghost function PhaseOf(s: State, id: nat): Phase {
    if !Issued(s.inventory, id) then Unissued
    else if id in s.inventory.creating then Creating
    else if IsReady(s.inventory.ready, id) then Ready
    else if IsLeased(s.leases, id) then
      var lease :| Holds(s.leases, lease, id); Leased(lease, s.leases[lease].generation)
    else if id in s.inventory.retiring then Retiring
    else if CleanupSent(s.out, id) then Cleaned
    else Failed
  }

  /** The part of the invariants that places databases. */
  ghost predicate Placed(s: State) {
    Places(s.leases, s.inventory) && Cleanups(s.out, s.leases, s.inventory)
  }

  /** Conservation: every id is in exactly one phase. */
  lemma ExactlyOnePhase(s: State, id: nat, p: Phase)
    requires Placed(s)
    ensures InPhase(s, id, p) <==> p == PhaseOf(s, id)
  {
    if InPhase(s, id, p) {
      PlacedOnce(s.leases, s.inventory, id);
      if CleanupSent(s.out, id) {
        var i :| 0 <= i < |s.out| && s.out[i].CleanupRequested? && s.out[i].database.id == id;
        assert s.out[i] in s.out;
      }
    }
  }

  lemma PlacedOnce(leases: Leases, inv: Inventory, id: nat)
    requires Places(leases, inv)
    ensures id in inv.creating ==> Issued(inv, id) && !IsReady(inv.ready, id) && id !in inv.retiring
    ensures IsReady(inv.ready, id) ==> Issued(inv, id) && id !in inv.retiring
    ensures id in inv.retiring ==> Issued(inv, id)
    ensures forall lease | Holds(leases, lease, id) ::
              && Issued(inv, id) && id !in inv.creating && !IsReady(inv.ready, id) && id !in inv.retiring
              && (forall other | Holds(leases, other, id) :: other == lease)
  {
    if IsReady(inv.ready, id) {
      var i :| 0 <= i < |inv.ready| && inv.ready[i].id == id;
    }
  }

  /** `q` is a possible later phase of an id in phase `p`: nothing ever comes back
      to the pool, and a lease and generation, once bound, never change. */
  predicate Later(p: Phase, q: Phase) {
    match p
    case Unissued => true
    case Creating => !q.Unissued?
    case Failed => q.Failed?
    case Ready => q.Ready? || q.Leased? || q.Retiring? || q.Cleaned?
    case Leased(_, _) => q == p || q.Retiring? || q.Cleaned?
    case Retiring => q.Retiring? || q.Cleaned?
    case Cleaned => q.Cleaned?
  }

  lemma LaterTransitive(p: Phase, q: Phase, r: Phase)
    requires Later(p, q) && Later(q, r)
    ensures Later(p, r)
  {
  }

  // ---------------------------------------------------------- lease states

  datatype LeaseState =
    | Unknown
    | Idle
    | InQueue
    | Held(id: nat, generation: nat)
    | Shut

  function LeaseOf(s: State, lease: LeaseId): LeaseState {
    if lease !in s.records then Unknown
    else if s.records[lease] == Closed then Shut
    else if lease in s.leases then Held(s.leases[lease].database.id, s.leases[lease].generation)
    else if lease in s.groups then InQueue
    else Idle
  }

  /** Records are kept, closure is final, and an assignment that was not there
      before is newer than every generation issued before. */
  predicate LeaseLater(p: LeaseState, q: LeaseState, issued: nat) {
    && (!p.Unknown? ==> !q.Unknown?)
    && (p.Shut? ==> q.Shut?)
    && (q.Held? ==> q == p || q.generation > issued)
  }

  // ------------------------------------------------- every action evolves

  lemma SentGrows(out: seq<Event>, news: seq<Event>, id: nat)
    ensures CleanupSent(out + news, id) <==>
            CleanupSent(out, id) || exists e | e in news :: e.CleanupRequested? && e.database.id == id
  {
    var all := out + news;
    SaidKeepsSent(out, news);
    if CleanupSent(all, id) {
      var i :| 0 <= i < |all| && all[i].CleanupRequested? && all[i].database.id == id;
      if i < |out| {
        assert out[i] == all[i];
      } else {
        assert all[i] in news;
      }
    }
    if e :| e in news && e.CleanupRequested? && e.database.id == id {
      var i :| 0 <= i < |news| && news[i] == e;
      assert all[|out| + i] == e;
    }
  }

  /** Nothing about databases changes. */
  lemma PhaseKept(s: State, t: State, id: nat, news: seq<Event>)
    requires Placed(s) && Placed(t) && t.inventory == s.inventory && t.out == s.out + news
    requires forall e | e in news :: !e.CleanupRequested?
    requires LeasesKept(s.leases, t.leases) && LeasesKept(t.leases, s.leases)
    ensures PhaseOf(t, id) == PhaseOf(s, id)
  {
    SentGrows(s.out, news, id);
    SamePhase(s, t, id);
  }

  /** At most the oldest ready database moves, to the lease being served. */
  predicate Granted(s: State, lease: LeaseId, id: nat, p: Phase, q: Phase)
    requires s.inventory.ready != []
  {
    q == p || (id == s.inventory.ready[0].id && p == Ready && q == Leased(lease, s.nextGeneration + 1))
  }

  /** An id that was never issued may be reserved; a refused batch is given up again. */
  predicate Reserving(accepted: bool, p: Phase, q: Phase) {
    q == p || (p.Unissued? && q == if accepted then Creating else Failed)
  }

  /** How one action moves the database `id`. */
  predicate Moves(cfg: Config, s: State, a: Action, id: nat, p: Phase, q: Phase)
    requires Enabled(cfg, s, a)
  {
    match a
    case ServeFresh(lease, _) => Granted(s, lease, id, p, q)
    case ServeNext(_) => Granted(s, s.waiters[0], id, p, q)
    case RetireLease(lease, _) =>
      if id == s.leases[lease].database.id then p == Leased(lease, s.leases[lease].generation) && q == Retiring
      else q == p
    case ReserveBatch(_, accepted) => Reserving(accepted, p, q)
    case SettleCreation(x, result) =>
      if id == x then p == Creating && q == (if result.Some? then Ready else Failed) else q == p
    case SettleCleanup(x) => if id == x then p == Retiring && q == Cleaned else q == p
    case _ => q == p
  }

  lemma MovesForward(cfg: Config, s: State, a: Action, id: nat, p: Phase, q: Phase)
    requires Enabled(cfg, s, a) && Moves(cfg, s, a, id, p, q)
    ensures Later(p, q)
  {
  }

  /** A grant moves the oldest ready database to its lease. */
  lemma GrantPhase(s: State, t: State, lease: LeaseId, live: bool, n: nat, news: seq<Event>, id: nat)
    requires Placed(s) && Placed(t) && s.inventory.ready != [] && lease !in s.leases
    requires n > 0 && Served(s, t, lease, n, live, news)
    ensures Granted(s, lease, id, PhaseOf(s, id), PhaseOf(t, id))
  {
    ReadySplit(s.inventory.ready, id);
    if id == s.inventory.ready[0].id {
      assert Holds(t.leases, lease, id);
      ExactlyOnePhase(s, id, Ready);
      ExactlyOnePhase(t, id, Leased(lease, t.leases[lease].generation));
    } else {
      SentGrows(s.out, news, id);
      OthersHold(s.leases, t.leases, lease, id);
      SamePhase(s, t, id);
    }
  }

  lemma OthersHold(leases: Leases, leases': Leases, lease: LeaseId, id: nat)
    requires !Holds(leases, lease, id) && !Holds(leases', lease, id)
    requires forall l | l != lease :: (l in leases <==> l in leases') && (l in leases ==> leases[l] == leases'[l])
    ensures forall l :: Holds(leases, l, id) <==> Holds(leases', l, id)
    ensures forall l | Holds(leases, l, id) :: leases[l] == leases'[l]
  {
  }

  /** The same facts about an id put it in the same phase. */
  lemma SamePhase(s: State, t: State, id: nat)
    requires Placed(s) && Placed(t)
    requires Issued(s.inventory, id) == Issued(t.inventory, id)
    requires id in s.inventory.creating <==> id in t.inventory.creating
    requires IsReady(s.inventory.ready, id) == IsReady(t.inventory.ready, id)
    requires id in s.inventory.retiring <==> id in t.inventory.retiring
    requires CleanupSent(s.out, id) == CleanupSent(t.out, id)
    requires forall l :: Holds(s.leases, l, id) <==> Holds(t.leases, l, id)
    requires forall l | Holds(s.leases, l, id) && Holds(t.leases, l, id) ::
               s.leases[l].generation == t.leases[l].generation
    ensures PhaseOf(t, id) == PhaseOf(s, id)
  {
    var p := PhaseOf(s, id);
    ExactlyOnePhase(s, id, p);
    ExactlyOnePhase(t, id, p);
  }

  lemma ReadySplit(ready: seq<Database>, id: nat)
    requires ready != []
    ensures IsReady(ready, id) <==> id == ready[0].id || IsReady(ready[1..], id)
  {
    ReadyTail(ready);
    if IsReady(ready, id) && id != ready[0].id {
      var i :| 0 <= i < |ready| && ready[i].id == id;
      assert ready[1..][i - 1].id == id;
    }
  }

  lemma RetirePhase(cfg: Config, s: State, lease: LeaseId, ok: bool, id: nat)
    requires Sound(cfg, s) && lease in s.leases
    ensures var t := RetireOne(s, lease, ok); Moves(cfg, s, RetireLease(lease, ok), id, PhaseOf(s, id), PhaseOf(t, id))
  {
    RetireKeepsSound(cfg, s, lease, ok);
    RetiredPhase(s, RetireOne(s, lease, ok), lease, ok, id);
  }

  lemma RetiredPhase(s: State, t: State, lease: LeaseId, ok: bool, id: nat)
    requires Placed(s) && Placed(t) && lease in s.leases && t == RetireOne(s, lease, ok)
    ensures if id == s.leases[lease].database.id
            then PhaseOf(s, id) == Leased(lease, s.leases[lease].generation) && PhaseOf(t, id) == Retiring
            else PhaseOf(t, id) == PhaseOf(s, id)
  {
    if id == s.leases[lease].database.id {
      assert Holds(s.leases, lease, id);
      ExactlyOnePhase(s, id, Leased(lease, s.leases[lease].generation));
      ExactlyOnePhase(t, id, Retiring);
    } else {
      SentGrows(s.out, [CleanupRequested(s.leases[lease].database, ok)], id);
      OthersHold(s.leases, t.leases, lease, id);
      SamePhase(s, t, id);
    }
  }

  lemma ReservePhase(cfg: Config, s: State, amount: nat, ok: bool, id: nat)
    requires Sound(cfg, s)
    ensures var t := Reserve(s, amount, ok); Reserving(ok, PhaseOf(s, id), PhaseOf(t, id))
  {
    var t := Reserve(s, amount, ok);
    ReserveKeepsSound(cfg, s, amount, ok);
    ReservedPhase(s, t, amount, ok, id);
  }

  lemma ReservedPhase(s: State, t: State, amount: nat, ok: bool, id: nat)
    requires Placed(s) && Placed(t) && t == Reserve(s, amount, ok)
    ensures Reserving(ok, PhaseOf(s, id), PhaseOf(t, id))
  {
    var batch := NextBatch(s.inventory, amount);
    var ids := ReservedExactly(s.leases, s.inventory, batch, ok);
    SentGrows(s.out, [CreationRequested(batch, ok)], id);
    if id in batch.Ids() {
      NeverIssued(s, id);
      ExactlyOnePhase(t, id, if ok then Creating else Failed);
    } else {
      SamePhase(s, t, id);
    }
  }

  /** An id that was not issued is nowhere. */
  lemma NeverIssued(s: State, id: nat)
    requires Placed(s) && !Issued(s.inventory, id)
    ensures id !in s.inventory.creating && !IsReady(s.inventory.ready, id) && id !in s.inventory.retiring
    ensures !IsLeased(s.leases, id) && !CleanupSent(s.out, id)
  {
    forall i | 0 <= i < |s.out| && s.out[i].CleanupRequested? ensures s.out[i].database.id != id {
      assert s.out[i] in s.out;
    }
  }

  lemma SettlePhase(cfg: Config, s: State, settled: nat, result: Option<string>, id: nat)
    requires Sound(cfg, s) && settled in s.inventory.creating
    ensures var t := CompleteCreation(s, settled, result);
            Moves(cfg, s, SettleCreation(settled, result), id, PhaseOf(s, id), PhaseOf(t, id))
  {
    SettleKeepsSound(cfg, s, settled, result);
    SettledPhase(s, CompleteCreation(s, settled, result), settled, result, id);
  }

  lemma SettledPhase(s: State, t: State, settled: nat, result: Option<string>, id: nat)
    requires Placed(s) && Placed(t) && settled in s.inventory.creating && t == CompleteCreation(s, settled, result)
    ensures if id == settled then PhaseOf(s, id) == Creating && PhaseOf(t, id) == (if result.Some? then Ready else Failed)
            else PhaseOf(t, id) == PhaseOf(s, id)
  {
    if result.Some? {
      ReadyPush(s.inventory.ready, Database(settled, result.value));
    }
    if id == settled {
      ExactlyOnePhase(s, id, Creating);
      CreatingOnly(s, id);
      ExactlyOnePhase(t, id, if result.Some? then Ready else Failed);
    } else {
      SamePhase(s, t, id);
    }
  }

  /** A reserved id is nowhere else. */
  lemma CreatingOnly(s: State, id: nat)
    requires Placed(s) && id in s.inventory.creating
    ensures Issued(s.inventory, id) && !IsReady(s.inventory.ready, id) && id !in s.inventory.retiring
    ensures !IsLeased(s.leases, id) && !CleanupSent(s.out, id)
  {
    forall i | 0 <= i < |s.out| && s.out[i].CleanupRequested? ensures s.out[i].database.id != id {
      assert s.out[i] in s.out;
    }
  }

  lemma ForgetPhase(cfg: Config, s: State, gone: nat, id: nat)
    requires Sound(cfg, s) && gone in s.inventory.retiring
    ensures var t := ForgetRetired(s, gone); Moves(cfg, s, SettleCleanup(gone), id, PhaseOf(s, id), PhaseOf(t, id))
  {
    var t := ForgetRetired(s, gone);
    ForgetKeepsSound(cfg, s, gone);
    if id != gone {
      SamePhase(s, t, id);
    } else {
      ExactlyOnePhase(s, id, Retiring);
      ExactlyOnePhase(t, id, Cleaned);
    }
  }

  lemma ServedPhase(s: State, t: State, lease: LeaseId, n: nat, live: bool, news: seq<Event>, id: nat)
    requires Placed(s) && Placed(t) && s.inventory.ready != [] && lease !in s.leases
    requires Served(s, t, lease, n, live, news)
    ensures Granted(s, lease, id, PhaseOf(s, id), PhaseOf(t, id))
  {
    if n > 0 {
      GrantPhase(s, t, lease, live, n, news, id);
    } else {
      PhaseKept(s, t, id, news);
    }
  }

  /** Actions that move no database. */
  predicate Still(a: Action) {
    a.Join? || a.Answer? || a.CloseLease? || a.DropConnection? || a.AdmitLease? || a.Wait? || a.CountExpiry? || a.Halt?
  }

  lemma StillStep(cfg: Config, s: State, a: Action) returns (news: seq<Event>)
    requires Still(a) && Enabled(cfg, s, a)
    ensures var t := Apply(cfg, s, a);
            && t.inventory == s.inventory && t.out == s.out + news && t.nextGeneration == s.nextGeneration
            && t.cancelled == s.cancelled
            && LeasesKept(s.leases, t.leases) && LeasesKept(t.leases, s.leases)
            && (forall e | e in news :: !e.CleanupRequested? && !e.CreationRequested?)
            && (forall e | e in news && Delivered(e) :: a.Join? && e.lease == a.lease)
  {
    news := [];
    assert s.out == s.out + [];
    match a
    case Join(lease, c) => news := JoinOutcome(cfg, s, lease, [Verdict(c, false)]);
    case Answer(e) => news := [e];
    case CloseLease(lease) => news := if lease in s.groups then RejectEvents(lease, s.groups[lease]) else [];
    case _ =>
  }

  /** Every action moves every database as it says. */
  lemma StepPhase(cfg: Config, s: State, a: Action, id: nat)
    requires Sound(cfg, s) && Enabled(cfg, s, a)
    ensures var t := Apply(cfg, s, a); Moves(cfg, s, a, id, PhaseOf(s, id), PhaseOf(t, id))
  {
    if Still(a) {
      StillPhase(cfg, s, a, id);
    } else {
      match a
      case ServeFresh(lease, c) => ServeFreshPhase(cfg, s, lease, c, id);
      case ServeNext(vs) => ServeNextPhase(cfg, s, vs, id);
      case RetireLease(lease, ok) => RetirePhase(cfg, s, lease, ok, id);
      case ReserveBatch(amount, ok) => ReservePhase(cfg, s, amount, ok, id);
      case SettleCreation(settled, result) => SettlePhase(cfg, s, settled, result, id);
      case SettleCleanup(gone) => ForgetPhase(cfg, s, gone, id);
    }
  }

  lemma StillPhase(cfg: Config, s: State, a: Action, id: nat)
    requires Sound(cfg, s) && Still(a) && Enabled(cfg, s, a)
    ensures var t := Apply(cfg, s, a); PhaseOf(t, id) == PhaseOf(s, id)
  {
    StepSound(cfg, s, a);
    var news := StillStep(cfg, s, a);
    PhaseKept(s, Apply(cfg, s, a), id, news);
  }

  lemma ServeFreshPhase(cfg: Config, s: State, lease: LeaseId, c: Consumer, id: nat)
    requires Sound(cfg, s) && Enabled(cfg, s, ServeFresh(lease, c))
    ensures var t := Apply(cfg, s, ServeFresh(lease, c)); Granted(s, lease, id, PhaseOf(s, id), PhaseOf(t, id))
  {
    var vs := [Verdict(c, false)];
    FreshKeepsSound(cfg, s, lease, c);
    var news := ServeOutcome(cfg, s, lease, vs);
    ServedPhase(s, Serve(cfg, s, lease, vs), lease, Reached(vs), AnyLive(vs), news, id);
  }

  lemma ServeNextPhase(cfg: Config, s: State, vs: seq<Verdict>, id: nat)
    requires Sound(cfg, s) && Enabled(cfg, s, ServeNext(vs))
    ensures var t := Apply(cfg, s, ServeNext(vs)); Granted(s, s.waiters[0], id, PhaseOf(s, id), PhaseOf(t, id))
  {
    var news := ServeNextPlaced(cfg, s, vs);
    NextPhase(s, Apply(cfg, s, ServeNext(vs)), Reached(vs), AnyLive(vs), news, id);
  }

  lemma ServeNextPlaced(cfg: Config, s: State, vs: seq<Verdict>) returns (news: seq<Event>)
    requires Sound(cfg, s) && Enabled(cfg, s, ServeNext(vs))
    ensures s.waiters[0] !in s.leases
    ensures var t := Apply(cfg, s, ServeNext(vs));
            Placed(t) && Served(PopNext(s), t, s.waiters[0], Reached(vs), AnyLive(vs), news)
  {
    ServeNextSound(cfg, s, vs);
    assert s.waiters[0] in s.waiters;
    news := ServeOutcome(cfg, PopNext(s), s.waiters[0], vs);
  }

  lemma NextPhase(s: State, t: State, n: nat, live: bool, news: seq<Event>, id: nat)
    requires Placed(s) && Placed(t) && s.waiters != [] && s.inventory.ready != [] && s.waiters[0] !in s.leases
    requires Served(PopNext(s), t, s.waiters[0], n, live, news)
    ensures Granted(s, s.waiters[0], id, PhaseOf(s, id), PhaseOf(t, id))
  {
    PoppedPhase(s, id);
    ServedPhase(PopNext(s), t, s.waiters[0], n, live, news, id);
  }

  lemma PoppedPhase(s: State, id: nat)
    requires Placed(s) && s.waiters != []
    ensures Placed(PopNext(s)) && PhaseOf(PopNext(s), id) == PhaseOf(s, id)
  {
    SamePhase(s, PopNext(s), id);
  }

  // ------------------------------------------------------- leases evolve

  /** Nothing in the later answers hands this lease a database. */
  ghost predicate NothingFor(s: State, t: State, lease: LeaseId) {
    forall i | |s.out| <= i < |t.out| && Delivered(t.out[i]) :: t.out[i].lease != lease
  }

  ghost predicate LeasesEvolve(s: State, t: State) {
    && (forall lease :: LeaseLater(LeaseOf(s, lease), LeaseOf(t, lease), s.nextGeneration))
    && (forall lease | LeaseOf(s, lease).Shut? :: NothingFor(s, t, lease))
    && s.nextGeneration <= t.nextGeneration
    && s.cancelled <= t.cancelled
    && s.inventory.nextId <= t.inventory.nextId
    && s.out <= t.out
  }

  lemma ServedLeases(s: State, t: State, lease: LeaseId, n: nat, live: bool, news: seq<Event>)
    requires s.inventory.ready != [] && IsOpen(s.records, lease) && lease !in s.leases
    requires Served(s, t, lease, n, live, news)
    ensures LeasesEvolve(s, t)
  {
    SaidKeepsSent(s.out, news);
  }

  ghost predicate RecordsKept(records: map<LeaseId, Status>, records': map<LeaseId, Status>) {
    forall lease | lease in records ::
      lease in records' && (records[lease] == Closed ==> records'[lease] == Closed)
  }

  /** No new assignment, and no delivery to a closed lease. */
  lemma KeptLeases(s: State, t: State, news: seq<Event>)
    requires t.out == s.out + news && LeasesKept(s.leases, t.leases) && RecordsKept(s.records, t.records)
    requires s.nextGeneration == t.nextGeneration && s.cancelled <= t.cancelled
    requires s.inventory.nextId <= t.inventory.nextId
    requires forall lease | lease in s.leases :: IsOpen(s.records, lease)
    requires forall e | e in news && Delivered(e) :: e.lease in s.leases
    ensures LeasesEvolve(s, t)
  {
    SaidKeepsSent(s.out, news);
  }

  lemma StillLeases(cfg: Config, s: State, a: Action)
    requires Still(a) && Enabled(cfg, s, a) && forall lease | lease in s.leases :: IsOpen(s.records, lease)
    ensures var t := Apply(cfg, s, a); LeasesEvolve(s, t)
  {
    var t := Apply(cfg, s, a);
    var news := StillStep(cfg, s, a);
    StillRecords(cfg, s, a);
    assert a.Join? ==> a.lease in s.leases;
    KeptLeases(s, t, news);
  }

  lemma StillRecords(cfg: Config, s: State, a: Action)
    requires Still(a) && Enabled(cfg, s, a)
    ensures var t := Apply(cfg, s, a); RecordsKept(s.records, t.records)
  {
    match a
    case Join(_, _) =>
    case CloseLease(_) =>
    case AdmitLease(_) =>
    case _ =>
  }

  lemma ServeNextLeases(cfg: Config, s: State, vs: seq<Verdict>)
    requires Coherent(s) && Enabled(cfg, s, ServeNext(vs))
    ensures var t := Apply(cfg, s, ServeNext(vs)); LeasesEvolve(s, t)
  {
    var lease, p := s.waiters[0], PopNext(s);
    assert lease in s.waiters;
    assert s.out == s.out + [];
    KeptLeases(s, p, []);
    var news := ServeOutcome(cfg, p, lease, vs);
    ServedLeases(p, Serve(cfg, p, lease, vs), lease, Reached(vs), AnyLive(vs), news);
    LeasesEvolveTransitive(s, p, Serve(cfg, p, lease, vs));
  }

  lemma MovingLeases(cfg: Config, s: State, a: Action)
    requires Coherent(s) && !Still(a) && Enabled(cfg, s, a)
    ensures var t := Apply(cfg, s, a); LeasesEvolve(s, t)
  {
    match a
    case ServeFresh(lease, c) =>
      var vs := [Verdict(c, false)];
      var news := ServeOutcome(cfg, s, lease, vs);
      ServedLeases(s, Serve(cfg, s, lease, vs), lease, Reached(vs), AnyLive(vs), news);
    case ServeNext(vs) => ServeNextLeases(cfg, s, vs);
    case RetireLease(lease, ok) =>
      KeptLeases(s, RetireOne(s, lease, ok), [CleanupRequested(s.leases[lease].database, ok)]);
    case ReserveBatch(amount, ok) =>
      KeptLeases(s, Reserve(s, amount, ok), [CreationRequested(NextBatch(s.inventory, amount), ok)]);
    case SettleCreation(id, result) =>
      assert s.out == s.out + [];
      KeptLeases(s, CompleteCreation(s, id, result), []);
    case SettleCleanup(id) =>
      assert s.out == s.out + [];
      KeptLeases(s, ForgetRetired(s, id), []);
  }

  lemma NothingForThen(s: State, t: State, u: State, lease: LeaseId)
    requires NothingFor(s, t, lease) && NothingFor(t, u, lease) && t.out <= u.out
    ensures NothingFor(s, u, lease)
  {
    forall i | |s.out| <= i < |u.out| && Delivered(u.out[i]) ensures u.out[i].lease != lease {
      if i < |t.out| { assert u.out[i] == t.out[i]; }
    }
  }

  lemma LeasesEvolveTransitive(s: State, t: State, u: State)
    requires LeasesEvolve(s, t) && LeasesEvolve(t, u)
    ensures LeasesEvolve(s, u)
  {
    forall lease ensures LeaseLater(LeaseOf(s, lease), LeaseOf(u, lease), s.nextGeneration) {
      assert LeaseLater(LeaseOf(s, lease), LeaseOf(t, lease), s.nextGeneration);
      assert LeaseLater(LeaseOf(t, lease), LeaseOf(u, lease), t.nextGeneration);
    }
    forall lease | LeaseOf(s, lease).Shut? ensures NothingFor(s, u, lease) {
      assert LeaseLater(LeaseOf(s, lease), LeaseOf(t, lease), s.nextGeneration);
      NothingForThen(s, t, u, lease);
    }
  }

  // ------------------------------------------- messages and runs evolve

  /** How two states are related when one follows the other, whatever happened in
      between: the closure of the labelled steps in Transitions.dfy. */
  ghost predicate Evolves(s: State, t: State) {
    LeasesEvolve(s, t) && forall id :: Later(PhaseOf(s, id), PhaseOf(t, id))
  }

  lemma EvolvesTransitive(s: State, t: State, u: State)
    requires Evolves(s, t) && Evolves(t, u)
    ensures Evolves(s, u)
  {
    LeasesEvolveTransitive(s, t, u);
    forall id ensures Later(PhaseOf(s, id), PhaseOf(u, id)) {
      LaterTransitive(PhaseOf(s, id), PhaseOf(t, id), PhaseOf(u, id));
    }
  }

  lemma StepEvolves(cfg: Config, s: State, a: Action)
    requires Sound(cfg, s) && Enabled(cfg, s, a)
    ensures var t := Apply(cfg, s, a); Evolves(s, t)
  {
    if Still(a) {
      StillLeases(cfg, s, a);
    } else {
      MovingLeases(cfg, s, a);
    }
    forall id ensures Later(PhaseOf(s, id), PhaseOf(Apply(cfg, s, a), id)) {
      StepPhase(cfg, s, a, id);
      MovesForward(cfg, s, a, id, PhaseOf(s, id), PhaseOf(Apply(cfg, s, a), id));
    }
  }

  lemma {:induction false} RunsEvolve(cfg: Config, s: State, plan: seq<Action>, t: State)
    requires Sound(cfg, s) && Runs(cfg, s, plan, t)
    ensures Evolves(s, t)
    decreases |plan|
  {
    if plan != [] {
      var m := Apply(cfg, s, plan[0]);
      StepSound(cfg, s, plan[0]);
      StepEvolves(cfg, s, plan[0]);
      RunsEvolve(cfg, m, plan[1..], t);
      EvolvesTransitive(s, m, t);
    }
  }

  /** Every message, from any valid state, moves both maps forwards. */
  lemma MessageEvolves(cfg: Config, s: State, input: Input)
    requires Valid(cfg, s)
    ensures var t := Process(cfg, s, input); Evolves(s, t)
  {
    MessageRuns(cfg, s, input);
    RunsEvolve(cfg, s, Plan(cfg, s, input), Process(cfg, s, input));
  }

  /** So is every run. */
  lemma {:induction false} RunEvolves(cfg: Config, s: State, inputs: seq<Input>)
    requires Valid(cfg, s)
    ensures var t := Run(cfg, s, inputs); Evolves(s, t)
  {
    if inputs != [] {
      var m := Run(cfg, s, inputs[..|inputs| - 1]);
      RunEvolves(cfg, s, inputs[..|inputs| - 1]);
      RunValid(cfg, s, inputs[..|inputs| - 1]);
      MessageEvolves(cfg, m, inputs[|inputs| - 1]);
      EvolvesTransitive(s, m, Run(cfg, s, inputs));
    }
  }

  // -------------------------------------------------- what runs guarantee

  /** Isolation: over any run, two connections that were ever handed the same
      database share its lease and its generation; and a database in the pool has
      never been handed to anyone. */
  lemma Isolation(cfg: Config, s: State, e: Event, f: Event)
    requires Reachable(cfg, s) && e in s.out && f in s.out && Delivered(e) && Delivered(f)
    ensures e.reply.database.id == f.reply.database.id ==>
              e.lease == f.lease && e.reply.generation == f.reply.generation
    ensures !IsReady(s.inventory.ready, e.reply.database.id)
  {
    ReachableValid(cfg, s);
  }

  /** Conservation: in every reachable state every issued id is in exactly one
      lifecycle phase, and its phase never moves backwards afterwards. */
  lemma Conservation(cfg: Config, s: State, id: nat, p: Phase, inputs: seq<Input>, q: Phase)
    requires Reachable(cfg, s)
    requires InPhase(s, id, p) && InPhase(Run(cfg, s, inputs), id, q)
    ensures Later(p, q)
    ensures forall other | InPhase(s, id, other) :: other == p
  {
    ReachableValid(cfg, s);
    RunValid(cfg, s, inputs);
    RunEvolves(cfg, s, inputs);
    ExactlyOnePhase(s, id, p);
    ExactlyOnePhase(Run(cfg, s, inputs), id, q);
    forall other | InPhase(s, id, other) ensures other == p {
      ExactlyOnePhase(s, id, other);
    }
  }

  /** Once closed, a lease stays closed: it never holds or waits for a database
      again, and no reply ever hands it one. */
  lemma ClosedForEver(cfg: Config, s: State, lease: LeaseId, inputs: seq<Input>)
    requires Valid(cfg, s) && LeaseOf(s, lease).Shut?
    ensures var t := Run(cfg, s, inputs);
            && LeaseOf(t, lease).Shut? && lease !in t.leases && lease !in t.waiters
            && NothingFor(s, t, lease)
  {
    var t := Run(cfg, s, inputs);
    RunEvolves(cfg, s, inputs);
    RunValid(cfg, s, inputs);
    assert LeaseLater(LeaseOf(s, lease), LeaseOf(t, lease), s.nextGeneration);
  }

  predicate TokenCancelled(s: State, generation: nat) {
    s.shutdown || generation in s.cancelled
  }

  /** A generation's token is uncancelled exactly while its assignment is live and
      the engine runs. */
  lemma TokenTracksAssignment(cfg: Config, s: State, generation: nat)
    requires Reachable(cfg, s) && 1 <= generation <= s.nextGeneration
    ensures !TokenCancelled(s, generation) <==> IsLive(s.leases, generation) && !s.shutdown
  {
    ReachableValid(cfg, s);
  }

  /** A dead generation stays dead, and its late events change nothing. */
  lemma DeadGeneration(cfg: Config, s: State, generation: nat, inputs: seq<Input>, late: Input)
    requires Valid(cfg, s) && 1 <= generation <= s.nextGeneration && !IsLive(s.leases, generation)
    requires (late.msg.Detach? || late.msg.LeaseMaxTimeReached?) && late.msg.generation == generation
    ensures var t := Run(cfg, s, inputs); !IsLive(t.leases, generation) && Process(cfg, t, late) == t
  {
    var t := Run(cfg, s, inputs);
    RunEvolves(cfg, s, inputs);
    RunValid(cfg, s, inputs);
    assert generation in t.cancelled;
  }
}
