/**
  What a recovery excludes: the membership change it overtook, and the permits
  of the generation it replaced.
*/
module Exclusion {
  import opened Records
  import opened Durable
  import opened Runtime
  import opened Quorum
  import opened Cluster
  import opened Invariant
  import opened Safety

  // ----- a recovery and a membership change out of one configuration -----

  ghost predicate Committed(log: seq<Event>, p: PeerId, m: MembershipRecord) {
    Wrote(p, PutMembership(m)) in log
  }

  /** A membership stored after an epoch belongs to that epoch or a later one. */
  lemma RecordsFollowEpochs(c: Cluster, p: PeerId, e: EpochRecord, m: MembershipRecord, i: nat, j: nat)
    requires Reachable(c) && i < j < |c.log| && c.log[j] == Wrote(p, PutMembership(m))
    requires exists proof :: c.log[i] == Wrote(p, PutEpoch(e, proof))
    ensures e.gen.epoch <= m.epoch
  {
    var proof :| c.log[i] == Wrote(p, PutEpoch(e, proof));
    EventJustified(c, j);
    assert c.log[..j][i] == c.log[i];
    assert Wrote(p, PutEpoch(e, proof)) in c.log[..j];
    assert HasStored(c.log[..j], p, e);
  }

  /** A certified epoch is accepted on the latest membership only. */
  lemma AcceptedStands(c: Cluster, p: PeerId, m: MembershipRecord, i: nat, j: nat)
    requires Reachable(c) && j <= i < |c.log| && c.log[j] == Wrote(p, PutMembership(m))
    requires c.log[i].Wrote? && c.log[i].who == p && c.log[i].write.PutEpoch? && c.log[i].write.proof.Some?
    ensures m.sequence <= c.log[i].write.proof.value.ballot.membership.sequence
  {
    EventJustified(c, i);
    assert c.log[..i][j] == c.log[j];
    assert Wrote(p, PutMembership(m)) in c.log[..i];
  }

  /**
    No peer both accepts a recovery out of a configuration and commits a change
    out of it, unless the change belongs to the recovered epoch or a later one.
  */
  lemma NoPeerDoesBoth(c: Cluster, p: PeerId, ballot: Ballot, q: Proposal)
    requires Reachable(c) && ballot.membership == q.previous && DirectExtension(q)
    requires AcceptedOn(c.log, p, ballot) && Committed(c.log, p, q.proposed)
    ensures ballot.target.epoch <= q.proposed.epoch
  {
    var e, cert :| Wrote(p, PutEpoch(e, Some(cert))) in c.log && cert.ballot == ballot;
    var i :| 0 <= i < |c.log| && c.log[i] == Wrote(p, PutEpoch(e, Some(cert)));
    var j :| 0 <= j < |c.log| && c.log[j] == Wrote(p, PutMembership(q.proposed));
    EventJustified(c, i);
    if i < j { RecordsFollowEpochs(c, p, e, q.proposed, i, j); } else { AcceptedStands(c, p, q.proposed, i, j); }
  }

  /** So of a recovery and an earlier-epoch change out of one configuration, majorities store at most one. */
  lemma RecoveryExcludesChange(c: Cluster, ballot: Ballot, q: Proposal, acceptors: set<PeerId>, committers: set<PeerId>)
    requires Reachable(c) && ballot.membership == q.previous && DirectExtension(q)
    requires q.proposed.epoch < ballot.target.epoch
    requires forall p :: p in acceptors ==> AcceptedOn(c.log, p, ballot)
    requires forall p :: p in committers ==> Committed(c.log, p, q.proposed)
    ensures !(Majority(acceptors, Voters(q.previous)) && Majority(committers, Voters(q.previous)))
  {
    if Majority(acceptors, Voters(q.previous)) && Majority(committers, Voters(q.previous)) {
      var p := MajoritiesMeet(acceptors, committers, Voters(q.previous));
      NoPeerDoesBoth(c, p, ballot, q);
    }
  }

  // ----- permits of successive generations -----

  /** Whoever backs a permit stored its generation before the permit. */
  lemma BackedBefore(c: Cluster, k: nat, q: PeerId)
    requires Reachable(c) && k < |c.log| && c.log[k].PermitGranted? && q in c.log[k].backers
    ensures StoredFor(c.log[..k], q, c.log[k].gen, c.log[k].who)
  {
    var p, gen := c.log[k].who, c.log[k].gen;
    EventJustified(c, k);
    if q != p {
      var _, i := LeaseBehind(c, k, q);
      EventJustified(c, i);
      var e :| HasStored(c.log[..i], q, e) && e.gen == gen && e.authority == p;
      var proof :| Wrote(q, PutEpoch(e, proof)) in c.log[..i];
      assert Wrote(q, PutEpoch(e, proof)) in c.log[..k];
    }
  }

  /** A peer that stored a later epoch grants no lease and holds no permit of an earlier one. */
  lemma NothingEarlier(c: Cluster, k: nat, i: nat, p: PeerId, gen: Generation, to: PeerId)
    requires Reachable(c) && i <= k < |c.log| && StoredFor(c.log[..i], p, gen, to) && c.log[k].who == p
    requires c.log[k].LeaseGranted? || c.log[k].PermitGranted?
    ensures gen.epoch <= c.log[k].gen.epoch
  {
    EventJustified(c, k);
    var e :| HasStored(c.log[..i], p, e) && e.gen == gen && e.authority == to;
    var proof :| Wrote(p, PutEpoch(e, proof)) in c.log[..i];
    assert Wrote(p, PutEpoch(e, proof)) in c.log[..k];
    assert HasStored(c.log[..k], p, e);
  }

  /**
    Once a generation has a permit, permits of an earlier one end: the last is
    less than a lease and one reply delay later.
  */
  lemma EarlierPermitsEnd(c: Cluster, i: nat, k: nat, delay: nat)
    requires Reachable(c) && i < k < |c.log| && c.log[i].PermitGranted? && c.log[k].PermitGranted?
    requires c.log[k].gen.epoch < c.log[i].gen.epoch && Adjacent(c.log[i].electorate, c.log[k].electorate)
    requires forall q, t: Instant, seen: Instant ::
               AckSeen(c.log[k].who, q, c.log[k].gen, t, seen) in c.log ==> seen <= t + delay
    ensures c.log[k].at < c.log[i].at + LEASE_MS + delay
  {
    EventJustified(c, i);
    EventJustified(c, k);
    var q := ElectoratesMeet(c.log[i].backers, c.log[i].electorate, c.log[k].backers, c.log[k].electorate);
    BackedBefore(c, i, q);
    if q == c.log[k].who {
      NothingEarlier(c, k, i, q, c.log[i].gen, c.log[i].who);
    } else {
      var n, j := LeaseBehind(c, k, q);
      if i <= j { NothingEarlier(c, j, i, q, c.log[i].gen, c.log[i].who); }
      assert c.log[..i][j] == c.log[j];
      assert At(c.log[j]) <= c.log[i].at;
      assert c.log[n] in c.log;
    }
  }
}
