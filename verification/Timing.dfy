/**
  When a queued reply is late, and who still waits in time, in plain arithmetic on
  the times of the requests: the reference for everything the engine decides by its
  clock.
 */
module Timing {
  import opened EngineTypes
  import opened EngineSpec

  /** A reply asked for at `at` may still be answered at `now`; without a timeout it
      always may. */
  predicate InTime(cfg: Config, now: nat, at: nat) {
    cfg.claimTimeout == 0 || now <= at + cfg.claimTimeout
  }

  /** The queued reply would be delivered if it were answered now. */
  predicate Receives(cfg: Config, clock: Clock, q: Queued) {
    q.consumer.reachable && InTime(cfg, clock(q.consumer), q.at)
  }

  ghost predicate CanReceive(cfg: Config, clock: Clock, replies: seq<Queued>) {
    exists i | 0 <= i < |replies| :: Receives(cfg, clock, replies[i])
  }

  /** Every reply of the group is unreachable or late. */
  ghost predicate Hopeless(cfg: Config, clock: Clock, replies: seq<Queued>) {
    forall i | 0 <= i < |replies| ::
      || !replies[i].consumer.reachable
      || (cfg.claimTimeout > 0 && clock(replies[i].consumer) > replies[i].at + cfg.claimTimeout)
  }

  /** How many replies of the group would be delivered. */
  function Recipients(cfg: Config, clock: Clock, replies: seq<Queued>): nat {
    if replies == [] then 0 else
      var n := |replies| - 1;
      Recipients(cfg, clock, replies[..n]) + if Receives(cfg, clock, replies[n]) then 1 else 0
  }

  /** The unassigned leases with a reply that is in time, each reply seen at its own
      instant of the clock. */
  function LiveSeen(cfg: Config, clock: Clock, s: State): set<LeaseId> {
    set lease | lease in s.groups && lease !in s.leases
                && exists i | 0 <= i < |s.groups[lease]| ::
                     InTime(cfg, clock(s.groups[lease][i].consumer), s.groups[lease][i].at)
  }

  /** The same when all replies are seen at the instant `now`. */
  function LiveAt(cfg: Config, now: nat, s: State): set<LeaseId> {
    set lease | lease in s.groups && lease !in s.leases
                && exists i | 0 <= i < |s.groups[lease]| :: InTime(cfg, now, s.groups[lease][i].at)
  }

  // --------------------------------------------- what the engine computes

  /** The engine's lateness test is the arithmetic one. */
  lemma ExpiredIsLate(cfg: Config, clock: Clock, q: Queued)
    ensures Expired(cfg, clock, q) <==> cfg.claimTimeout > 0 && clock(q.consumer) > q.at + cfg.claimTimeout
    ensures Expired(cfg, clock, q) <==> !InTime(cfg, clock(q.consumer), q.at)
  {
  }

  lemma {:induction false} ReachedCounts(cfg: Config, clock: Clock, replies: seq<Queued>)
    ensures Reached(Judge(cfg, clock, replies)) == Recipients(cfg, clock, replies)
  {
    if replies != [] {
      var n := |replies| - 1;
      ReachedCounts(cfg, clock, replies[..n]);
      assert Judge(cfg, clock, replies)[..n] == Judge(cfg, clock, replies[..n]);
      ExpiredIsLate(cfg, clock, replies[n]);
    }
  }

  lemma {:induction false} NoRecipients(cfg: Config, clock: Clock, replies: seq<Queued>)
    ensures Recipients(cfg, clock, replies) == 0 <==> Hopeless(cfg, clock, replies)
    ensures Hopeless(cfg, clock, replies) <==> !CanReceive(cfg, clock, replies)
  {
    if replies != [] {
      var n := |replies| - 1;
      NoRecipients(cfg, clock, replies[..n]);
      assert replies == replies[..n] + [replies[n]];
      if Hopeless(cfg, clock, replies[..n]) && !Receives(cfg, clock, replies[n]) {
        forall i | 0 <= i < |replies| ensures !Receives(cfg, clock, replies[i]) {
          if i < n { assert replies[..n][i] == replies[i]; }
        }
      }
      if Hopeless(cfg, clock, replies) {
        forall i | 0 <= i < n ensures !Receives(cfg, clock, replies[..n][i]) {
          assert replies[..n][i] == replies[i];
        }
      }
    }
  }

  lemma WaitingIsLive(cfg: Config, clock: Clock, s: State)
    ensures Waiting(cfg, clock, s) == LiveSeen(cfg, clock, s)
  {
    forall lease | lease in s.groups
      ensures LiveGroup(cfg, clock, s.groups[lease])
         <==> exists i | 0 <= i < |s.groups[lease]| ::
                InTime(cfg, clock(s.groups[lease][i].consumer), s.groups[lease][i].at)
    {
      forall i | 0 <= i < |s.groups[lease]|
        ensures Expired(cfg, clock, s.groups[lease][i])
           <==> !InTime(cfg, clock(s.groups[lease][i].consumer), s.groups[lease][i].at)
      {
        ExpiredIsLate(cfg, clock, s.groups[lease][i]);
      }
    }
  }

  /** Everything is looked at at the same instant. */
  function At(now: nat): Clock {
    (c: Consumer) => now
  }

  lemma WaitingAt(cfg: Config, now: nat, s: State)
    ensures Waiting(cfg, At(now), s) == LiveAt(cfg, now, s)
  {
    WaitingIsLive(cfg, At(now), s);
    assert LiveSeen(cfg, At(now), s) == LiveAt(cfg, now, s);
  }
}
