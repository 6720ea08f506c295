/**
  What holds in every reachable cluster, whatever crashed, restarted, was lost,
  repeated or reordered on the way: agreement of recovery, the fence of a
  prepare, one change out of each configuration, freshness against promises,
  separation of leases and votes, and one permit holder per generation.
*/
module Safety {
  import opened Records
  import opened Durable
  import opened Runtime
  import opened Plans
  import opened Quorum
  import opened Certificates
  import opened Freshness
  import opened Cluster
  import opened Discipline
  import opened Invariant
  import opened Steps

  ghost predicate Reachable(c: Cluster) {
    exists run: Run :: run.Valid() && run.states != [] && run.Last() == c
  }

  lemma ReachableInv(c: Cluster)
    requires Reachable(c)
    ensures Inv(c)
  {
    var run: Run :| run.Valid() && run.states != [] && run.Last() == c;
    RunKeeps(run, |run.states| - 1);
  }

  /** The peer behind an event, and its part of the invariant. */
  lemma ActorInv(c: Cluster, ev: Event)
    requires Reachable(c) && ev in c.log
    ensures ev.who in c.peers && DiskInv(c.log, ev.who, c.peers[ev.who].disk)
  {
    ReachableInv(c);
    assert PeerInv(c.log, ev.who, c.peers[ev.who]);
  }

  lemma EventJustified(c: Cluster, i: nat)
    requires Reachable(c) && i < |c.log|
    ensures Justified(c.log[..i], c.log[i])
  {
    ReachableInv(c);
  }

  // ----- electorates -----

  /** The same voters, or voter sets one join or leave apart. */
  ghost predicate Adjacent(a: set<PeerId>, b: set<PeerId>) {
    a == b || (exists x :: x !in a && b == a + {x}) || (exists x :: x !in b && a == b + {x})
  }

  lemma ElectoratesMeet(a: set<PeerId>, va: set<PeerId>, b: set<PeerId>, vb: set<PeerId>) returns (shared: PeerId)
    requires Majority(a, va) && Majority(b, vb) && Adjacent(va, vb)
    ensures shared in a && shared in b && shared in va && shared in vb
  {
    if va == vb {
      shared := MajoritiesMeet(a, b, va);
    } else if x :| x !in va && vb == va + {x} {
      shared := AdjacentMajoritiesMeet(a, va, b, x);
    } else {
      var y :| y !in vb && va == vb + {y};
      shared := AdjacentMajoritiesMeet(b, vb, a, y);
    }
  }

  // ----- recovery -----

  /** A certificate that votes on record make possible, counted in `voters`. */
  ghost predicate Certified(c: Cluster, cert: RecoveryCertificate, voters: set<PeerId>) {
    voters != {} && RecoveryShape(cert, voters) && VotesSigned(c.log, cert.votes)
  }

  lemma VoterPromised(c: Cluster, cert: RecoveryCertificate, voters: set<PeerId>, v: PeerId)
    requires Reachable(c) && Certified(c, cert, voters) && v in VotersOf(cert.votes)
    ensures v in c.peers && HasPromised(c.log, v, cert.ballot)
  {
    var vote :| vote in cert.votes && vote.voter == v;
    var wake, at :| VoteCast(v, vote.ballot, wake, at) in c.log;
    ActorInv(c, VoteCast(v, vote.ballot, wake, at));
  }

  /** Over all rounds, candidates and restarts, one base generation certifies one value. */
  lemma OneValuePerBase(c: Cluster, c1: RecoveryCertificate, v1: set<PeerId>, c2: RecoveryCertificate, v2: set<PeerId>)
    requires Reachable(c) && Certified(c, c1, v1) && Certified(c, c2, v2) && Adjacent(v1, v2)
    requires c1.ballot.base == c2.ballot.base
    ensures SameValue(c1.ballot, c2.ballot)
  {
    RecoveryShapeIsMajority(c1, v1);
    RecoveryShapeIsMajority(c2, v2);
    var v := ElectoratesMeet(VotersOf(c1.votes), v1, VotersOf(c2.votes), v2);
    VoterPromised(c, c1, v1, v);
    VoterPromised(c, c2, v2, v);
    ActorInv(c, Wrote(v, PutPromise(c1.ballot)));
    assert Locked(c1.ballot, c2.ballot);
  }

  /** Hence two recovery records of one generation are one record, wherever each was stored. */
  lemma OneRecoveryRecord(c: Cluster, p1: PeerId, e1: EpochRecord, c1: RecoveryCertificate, v1: set<PeerId>,
                          p2: PeerId, e2: EpochRecord, c2: RecoveryCertificate, v2: set<PeerId>)
    requires Reachable(c) && Certified(c, c1, v1) && Certified(c, c2, v2) && Adjacent(v1, v2)
    requires Wrote(p1, PutEpoch(e1, Some(c1))) in c.log && Wrote(p2, PutEpoch(e2, Some(c2))) in c.log
    requires e1.gen == e2.gen
    ensures e1 == e2
  {
    ActorInv(c, Wrote(p1, PutEpoch(e1, Some(c1))));
    ActorInv(c, Wrote(p2, PutEpoch(e2, Some(c2))));
    OneValuePerBase(c, c1, v1, c2, v2);
    SameAuthorityRecord(c, p1, e1, p2, e2);
  }

  /** A generation and an authority determine the record, at whichever peers it is stored. */
  lemma SameAuthorityRecord(c: Cluster, p1: PeerId, e1: EpochRecord, p2: PeerId, e2: EpochRecord)
    requires Reachable(c) && HasStored(c.log, p1, e1) && HasStored(c.log, p2, e2)
    requires e1.gen == e2.gen && e1.authority == e2.authority
    ensures e1 == e2
  {
    StoredIsPublished(c, p1, e1);
    StoredIsPublished(c, p2, e2);
    var proof :| Wrote(e1.authority, PutEpoch(e1, proof)) in c.log;
    ActorInv(c, Wrote(e1.authority, PutEpoch(e1, proof)));
  }

  lemma StoredIsPublished(c: Cluster, p: PeerId, e: EpochRecord)
    requires Reachable(c) && HasStored(c.log, p, e)
    ensures Published(c.log, e)
  {
    var proof :| Wrote(p, PutEpoch(e, proof)) in c.log;
    ActorInv(c, Wrote(p, PutEpoch(e, proof)));
  }

  /** `p` stored an epoch on a certificate of this ballot, whichever votes that certificate lists. */
  ghost predicate AcceptedOn(log: seq<Event>, p: PeerId, ballot: Ballot) {
    exists e, cert :: Wrote(p, PutEpoch(e, Some(cert))) in log && cert.ballot == ballot
  }

  /** Once a majority accepted on a ballot, its base is never certified in a later round. */
  lemma AcceptedRoundIsLast(c: Cluster, ballot: Ballot, acceptors: set<PeerId>, voters: set<PeerId>,
                            later: RecoveryCertificate, laterVoters: set<PeerId>)
    requires Reachable(c) && Majority(acceptors, voters) && Adjacent(voters, laterVoters)
    requires forall p :: p in acceptors ==> AcceptedOn(c.log, p, ballot)
    requires Certified(c, later, laterVoters) && later.ballot.base == ballot.base
    ensures later.ballot.round <= ballot.round
  {
    RecoveryShapeIsMajority(later, laterVoters);
    var v := ElectoratesMeet(acceptors, voters, VotersOf(later.votes), laterVoters);
    VoterPromised(c, later, laterVoters, v);
    var e, cert :| Wrote(v, PutEpoch(e, Some(cert))) in c.log && cert.ballot == ballot;
    ActorInv(c, Wrote(v, PutEpoch(e, Some(cert))));
    assert Closed(c.log, v, cert);
  }

  // ----- who may supersede an abandoned attempt -----

  /** In a later round on the very same base a voter follows the candidate it promised, and nobody else. */
  lemma OnlyTheSameCandidateSupersedes(d: Disk, b: Ballot)
    requires d.promise.Some? && b.WellFormed() && d.promise.value.round < b.round
    requires b == d.promise.value.(round := b.round, candidate := b.candidate)
    ensures PromiseBallot(d, b).Granted? <==> b.candidate == d.promise.value.candidate
  {
  }

  /** So a peer that would vote answers a later round of another candidate with a rejection. */
  lemma VoterFollowsItsCandidate(d: Disk, rt: LeaseRuntime, b: Ballot, now: Instant)
    requires MayVote(d, rt, b.candidate, b, now) && d.promise.Some? && d.promise.value.round < b.round
    requires b == d.promise.value.(round := b.round, candidate := b.candidate)
    ensures var reply := BallotPlan(d, rt, b.candidate, b, now).reply;
            if b.candidate == d.promise.value.candidate then reply == VoteReply(b)
            else reply == RoundRejected(d.promise.value.round)
  {
  }

  /**
    Four members, the authority gone, the first candidate abandoned: a voter
    that meets every condition for the second candidate, in a later round on the
    same base, snapshot and membership, rejects it.
  */
  lemma AnotherCandidateIsRefused() returns (d: Disk, rt: LeaseRuntime, b: Ballot)
    ensures MayVote(d, rt, b.candidate, b, 0)
    ensures d.promise.Some? && PromiseSound(d, d.promise.value) && d.promise.value.round < b.round
    ensures b == d.promise.value.(round := b.round, candidate := b.candidate)
    ensures BallotPlan(d, rt, b.candidate, b, 0).reply.RoundRejected?
  {
    var roster := [Member(1, true, false), Member(2, true, false), Member(3, true, false), Member(4, true, false)];
    assert Lookup(roster, 2) == Some(Member(2, true, false)) by { assert roster[1..][0] == Member(2, true, false); }
    var m := MembershipRecord(1, 0, None, roster, 3);
    var epoch := EpochRecord(Generation(1, 1), None, 8, 3, EpochMode.Quorum, "");
    var held := Ballot(Generation(1, 1), Generation(2, 2), 1, 1, 7, 8, m);
    var head := Snapshot(7, 8, 1, 1, 3);
    d := Disk(Some(epoch), Some(held), None, Some(m), roster, None, None, map[], None, Some(head), None, 0);
    var status := ObservedStatus(WorldStatus(1, 1, Some(7), Some(8), 0, true), 0);
    var capability := ObservedCapability(HostCapability(0, Ready, ModsReady, true, true), 0);
    rt := BLANK.(connected := {2}, notBefore := Some(0), statuses := map[2 := status],
                 capabilities := map[2 := capability]);
    b := held.(round := 2, candidate := 2);
    VoterFollowsItsCandidate(d, rt, b, 0);
  }

  /** A candidate told of a higher round retires its ballot and tries above every round it knows of. */
  lemma RejectedCandidateTriesHigher(me: PeerId, d: Disk, rt: LeaseRuntime, asked: Ballot, highest: U64)
    requires CanAttempt(d) && rt.ballot == Some(asked) && asked.round <= highest
    requires RoundFloor(d, ReceiveRejection(rt, asked, highest)) < U64_MAX
    ensures var reply := BallotAttempt(me, d, ReceiveRejection(rt, asked, highest)).reply;
            && (reply.VoteReply? || reply.RoundRejected?)
            && (reply.VoteReply? ==> reply.ballot.round > highest && reply.ballot.round > DurableRound(d))
            && (reply.VoteReply?
                <==> d.promise.None? || SameValue(d.promise.value, Attempt(me, d, d.promise.value.round)))
  {
  }

  ghost predicate LockedElsewhere(c: Cluster, v: PeerId, base: Generation, candidate: PeerId) {
    exists b :: HasPromised(c.log, v, b) && b.base == base && b.candidate != candidate
  }

  /** A candidate is certified only by voters that never promised another one: split promises stay split. */
  lemma LockedVotersNeverCertify(c: Cluster, cert: RecoveryCertificate, voters: set<PeerId>, locked: set<PeerId>)
    requires Reachable(c) && Certified(c, cert, voters)
    requires forall v :: v in locked ==> LockedElsewhere(c, v, cert.ballot.base, cert.ballot.candidate)
    ensures Majority(voters - locked, voters)
  {
    forall v | v in VotersOf(cert.votes)
      ensures v !in locked
    {
      FreeToVote(c, cert, voters, v);
    }
    RecoveryShapeIsMajority(cert, voters);
    SubsetCardinality(VotersOf(cert.votes) * voters, (voters - locked) * voters);
  }

  lemma FreeToVote(c: Cluster, cert: RecoveryCertificate, voters: set<PeerId>, v: PeerId)
    requires Reachable(c) && Certified(c, cert, voters) && v in VotersOf(cert.votes)
    ensures !LockedElsewhere(c, v, cert.ballot.base, cert.ballot.candidate)
  {
    VoterPromised(c, cert, voters, v);
    ActorInv(c, Wrote(v, PutPromise(cert.ballot)));
    forall b | HasPromised(c.log, v, b) && b.base == cert.ballot.base
      ensures b.candidate == cert.ballot.candidate
    {
      assert Locked(b, cert.ballot);
    }
  }

  /** Voters locked on other candidates block a candidate for good once they are half of the electorate. */
  lemma LockedHalfBlocks(c: Cluster, cert: RecoveryCertificate, voters: set<PeerId>, locked: set<PeerId>)
    requires Reachable(c) && voters != {} && locked <= voters
    requires HasQuorum(|voters|, |locked|) || 2 * |locked| == |voters|
    requires forall v :: v in locked ==> LockedElsewhere(c, v, cert.ballot.base, cert.ballot.candidate)
    ensures !Certified(c, cert, voters)
  {
    MinorityIsBlocked(voters - locked, voters);
    assert voters - (voters - locked) == locked;
    if Certified(c, cert, voters) { LockedVotersNeverCertify(c, cert, voters, locked); }
  }

  // ----- certificates on disk -----

  /** Whatever crashed, a stored recovery epoch was preceded on disk by its majority certificate. */
  lemma CertificateBeforeEpoch(c: Cluster, p: PeerId, i: nat) returns (j: nat)
    requires Reachable(c) && i < |c.log| && c.log[i].Wrote? && c.log[i].who == p
    requires c.log[i].write.PutEpoch? && c.log[i].write.epoch.mode.Recovery?
    ensures var e, proof := c.log[i].write.epoch, c.log[i].write.proof;
            && proof.Some? && Certifies(proof.value, e)
            && j < i && c.log[j].Wrote? && c.log[j].who == p && c.log[j].write.PutCertificate?
            && c.log[j].write.certificate == proof.value && RecoveryShape(proof.value, c.log[j].write.electorate)
            && VotesSigned(c.log, proof.value.votes)
  {
    var e, proof := c.log[i].write.epoch, c.log[i].write.proof;
    ActorInv(c, c.log[i]);
    EventJustified(c, i);
    var electorate :| Wrote(p, PutCertificate(proof.value, electorate)) in c.log[..i];
    j :| 0 <= j < i && c.log[..i][j] == Wrote(p, PutCertificate(proof.value, electorate));
    ActorInv(c, c.log[j]);
  }

  /** And the certificate on disk now is for the stored recovery generation or the next one. */
  lemma DiskCertificate(c: Cluster, p: PeerId)
    requires Reachable(c) && p in c.peers
    requires c.peers[p].disk.epoch.Some? && c.peers[p].disk.epoch.value.mode.Recovery?
    ensures var d := c.peers[p].disk;
            && d.certificate.Some?
            && (|| d.certificate.value.ballot.target == d.epoch.value.gen
                || d.epoch.value.gen.CheckedNext() == Some(d.certificate.value.ballot.target))
  {
    ReachableInv(c);
    assert PeerInv(c.log, p, c.peers[p]);
  }

  // ----- the fence of a prepare -----

  /** The peer votes for, or accepts, a recovery out of configuration `m`. */
  predicate RecoversFrom(ev: Event, p: PeerId, m: MembershipRecord) {
    ev.who == p && match ev
      case Wrote(_, PutPromise(b)) => b.membership == m
      case Wrote(_, PutEpoch(_, Some(cert))) => cert.ballot.membership == m
      case VoteCast(_, b, _, _) => b.membership == m
      case _ => false
  }

  /** After preparing a change out of a configuration, a peer recovers from it never again. */
  lemma PreparedNeverRecovers(c: Cluster, p: PeerId, q: Proposal, i: nat, j: nat)
    requires Reachable(c) && i < j < |c.log|
    requires c.log[i] == Wrote(p, PutPrepare(q))
    ensures !RecoversFrom(c.log[j], p, q.previous)
  {
    EventJustified(c, j);
    assert c.log[..j][i] == c.log[i];
    assert HasPrepared(c.log[..j], p, q);
  }

  /** `p` prepared some change out of `m` at a moment when it had not accepted on `ballot`. */
  ghost predicate PreparedFirst(log: seq<Event>, p: PeerId, m: MembershipRecord, ballot: Ballot) {
    exists i, q :: 0 <= i < |log| && log[i] == Wrote(p, PutPrepare(q)) && q.previous == m
      && !AcceptedOn(log[..i], p, ballot)
  }

  lemma PreparedFirstNeverAccepts(c: Cluster, p: PeerId, m: MembershipRecord, ballot: Ballot)
    requires Reachable(c) && ballot.membership == m && PreparedFirst(c.log, p, m, ballot)
    ensures !AcceptedOn(c.log, p, ballot)
  {
    var i, q :| 0 <= i < |c.log| && c.log[i] == Wrote(p, PutPrepare(q)) && q.previous == m
      && !AcceptedOn(c.log[..i], p, ballot);
    forall j, e, cert: RecoveryCertificate | 0 <= j < |c.log| && cert.ballot == ballot
      ensures c.log[j] != Wrote(p, PutEpoch(e, Some(cert)))
    {
      if i < j { PreparedNeverRecovers(c, p, q, i, j); } else if j < i { assert c.log[j] in c.log[..i]; }
    }
  }

  /** If a majority of `m` prepares before accepting, the recovery balloted out of `m` never gets a majority. */
  lemma PreparedMajorityBlocksRecovery(c: Cluster, m: MembershipRecord, ballot: Ballot,
                                       prepared: set<PeerId>, acceptors: set<PeerId>)
    requires Reachable(c) && ballot.membership == m
    requires Majority(prepared, Voters(m)) && forall p :: p in prepared ==> PreparedFirst(c.log, p, m, ballot)
    requires forall p :: p in acceptors ==> AcceptedOn(c.log, p, ballot)
    ensures !Majority(acceptors, Voters(m))
  {
    forall p | p in prepared
      ensures p !in acceptors
    {
      PreparedFirstNeverAccepts(c, p, m, ballot);
    }
    if Majority(acceptors, Voters(m)) {
      var p := MajoritiesMeet(prepared, acceptors, Voters(m));
      assert false;
    }
  }

  // ----- joint membership change -----

  /** A joint certificate that votes on record make possible. */
  ghost predicate JointCertified(c: Cluster, joint: JointCertificate) {
    JointShape(joint) && JointVotesSigned(c.log, joint.votes)
  }

  lemma JointVoterPrepared(c: Cluster, joint: JointCertificate, v: PeerId)
    requires JointCertified(c, joint) && v in JointVotersOf(joint.votes)
    ensures HasPrepared(c.log, v, joint.proposal)
  {
  }

  /** Out of one configuration at most one change is ever certified. */
  lemma OneChangePerConfiguration(c: Cluster, a: JointCertificate, b: JointCertificate)
    requires Reachable(c) && JointCertified(c, a) && JointCertified(c, b)
    requires a.proposal.previous == b.proposal.previous
    ensures a.proposal == b.proposal
  {
    var v := JointMeetsBothMajorities(b, JointVotersOf(a.votes));
    JointVoterPrepared(c, a, v);
    JointVoterPrepared(c, b, v);
    ActorInv(c, Wrote(v, PutPrepare(a.proposal)));
  }

  /** A certified change and a certified recovery out of one configuration share a peer that recovered first. */
  lemma ChangeAfterRecoveryVote(c: Cluster, joint: JointCertificate, cert: RecoveryCertificate)
    returns (v: PeerId, i: nat, j: nat)
    requires Reachable(c) && JointCertified(c, joint)
    requires var m := joint.proposal.previous;
             cert.ballot.membership == m && Voters(m) != {} && Certified(c, cert, Voters(m))
    ensures i < j < |c.log|
    ensures c.log[i] == Wrote(v, PutPromise(cert.ballot)) && c.log[j] == Wrote(v, PutPrepare(joint.proposal))
  {
    var m := joint.proposal.previous;
    RecoveryShapeIsMajority(cert, Voters(m));
    v := JointMeetsBothMajorities(joint, VotersOf(cert.votes));
    VoterPromised(c, cert, Voters(m), v);
    JointVoterPrepared(c, joint, v);
    i :| 0 <= i < |c.log| && c.log[i] == Wrote(v, PutPromise(cert.ballot));
    j :| 0 <= j < |c.log| && c.log[j] == Wrote(v, PutPrepare(joint.proposal));
    if j < i { PreparedNeverRecovers(c, v, joint.proposal, j, i); }
  }

  /** A bare membership record, without certificate, never becomes a peer's first one. */
  lemma BareRecordNeverBootstraps(d: Disk, rt: LeaseRuntime, sender: PeerId, m: MembershipRecord)
    requires d.membership.None?
    ensures MembershipPlan(d, rt, sender, m) == Deny(rt)
  {
  }

  // ----- discovery freshness -----

  /** `p` had promised, by position `k`, a generation past `gen`. */
  ghost predicate PromisedPast(log: seq<Event>, k: nat, p: PeerId, gen: Generation)
    requires k <= |log|
  {
    exists b :: HasPromised(log[..k], p, b) && gen.Before(b.target)
  }

  ghost predicate VotedFreshSince(log: seq<Event>, k: nat, p: PeerId, ch: Challenge) {
    exists j :: k <= j < |log| && log[j] == FreshVoted(p, ch)
  }

  lemma PromisedNeverVouches(c: Cluster, k: nat, p: PeerId, ch: Challenge)
    requires Reachable(c) && k <= |c.log| && PromisedPast(c.log, k, p, ch.gen)
    ensures !VotedFreshSince(c.log, k, p, ch)
  {
    var b :| HasPromised(c.log[..k], p, b) && ch.gen.Before(b.target);
    var i :| 0 <= i < k && c.log[..k][i] == Wrote(p, PutPromise(b));
    forall j | k <= j < |c.log|
      ensures c.log[j] != FreshVoted(p, ch)
    {
      EventJustified(c, j);
      assert c.log[..j][i] == Wrote(p, PutPromise(b));
    }
  }

  /** Once a majority promised past a generation, nobody finds a fresh majority for it again. */
  lemma PromisesEndFreshness(c: Cluster, k: nat, ch: Challenge, promised: set<PeerId>, vouchers: set<PeerId>)
    requires Reachable(c) && k <= |c.log|
    requires Majority(promised, Voters(ch.membership))
    requires forall p :: p in promised ==> PromisedPast(c.log, k, p, ch.gen)
    requires forall p :: p in vouchers ==> VotedFreshSince(c.log, k, p, ch)
    ensures !Majority(vouchers, Voters(ch.membership))
  {
    forall p | p in promised
      ensures p !in vouchers
    {
      PromisedNeverVouches(c, k, p, ch);
    }
    if Majority(vouchers, Voters(ch.membership)) {
      var p := MajoritiesMeet(promised, vouchers, Voters(ch.membership));
      assert false;
    }
  }

  /** So no list of freshness votes cast from then on validates for that generation. */
  lemma NoFreshnessQuorumAfterPromises(c: Cluster, k: nat, ch: Challenge, promised: set<PeerId>, signers: seq<PeerId>)
    requires Reachable(c) && k <= |c.log|
    requires Majority(promised, Voters(ch.membership))
    requires forall p :: p in promised ==> PromisedPast(c.log, k, p, ch.gen)
    requires forall p :: p in signers ==> VotedFreshSince(c.log, k, p, ch)
    ensures !FreshnessQuorum(ch.membership, ch.pending, signers)
  {
    PromisesEndFreshness(c, k, ch, promised, SignerSet(signers));
    if FreshnessQuorum(ch.membership, ch.pending, signers) { FreshnessIsMajority(ch.membership, ch.pending, signers); }
  }

  // ----- leases against votes -----

  /** A vote outside sleep comes 7,000 ms or more after every lease its voter granted before it. */
  lemma VoteOutwaitsLeases(c: Cluster, i: nat, j: nat)
    requires Reachable(c) && i < j < |c.log|
    requires c.log[i].LeaseGranted? && c.log[j].VoteCast? && c.log[j].who == c.log[i].who && !c.log[j].wake
    ensures c.log[j].at >= c.log[i].at + 7_000
  {
    EventJustified(c, j);
    assert c.log[..j][i] == c.log[i];
  }

  /** The acknowledgement, still fresh, that makes `q` count, and the lease behind it. */
  lemma LeaseBehind(c: Cluster, k: nat, q: PeerId) returns (n: nat, i: nat)
    requires Reachable(c) && k < |c.log| && c.log[k].PermitGranted?
    requires q in c.log[k].backers && q != c.log[k].who
    ensures i < n < k && c.log[n].AckSeen? && Elapsed(c.log[k].at, c.log[n].at) < LEASE_MS
    ensures c.log[n] == AckSeen(c.log[k].who, q, c.log[k].gen, c.log[n].grantedAt, c.log[n].at)
    ensures c.log[i] == LeaseGranted(q, c.log[k].who, c.log[k].gen, c.log[n].grantedAt)
  {
    var p, gen := c.log[k].who, c.log[k].gen;
    EventJustified(c, k);
    var t: Instant, seen: Instant :|
      AckSeen(p, q, gen, t, seen) in c.log[..k] && Elapsed(c.log[k].at, seen) < LEASE_MS;
    n :| 0 <= n < k && c.log[..k][n] == AckSeen(p, q, gen, t, seen);
    EventJustified(c, n);
    i :| 0 <= i < n && c.log[..n][i] == LeaseGranted(q, p, gen, t);
  }

  /** If replies take at most 2,000 ms, a permit counting `v` after its vote rests on a lease granted after the vote. */
  lemma PermitNeedsNewLease(c: Cluster, j: nat, k: nat) returns (i: nat)
    requires Reachable(c) && j < k < |c.log|
    requires c.log[j].VoteCast? && !c.log[j].wake && c.log[k].PermitGranted?
    requires var v, p, gen := c.log[j].who, c.log[k].who, c.log[k].gen;
             && v in c.log[k].backers && v != p
             && forall t: Instant, seen: Instant :: AckSeen(p, v, gen, t, seen) in c.log ==> seen <= t + 2_000
    ensures j < i < k && c.log[i].LeaseGranted? && c.log[i].who == c.log[j].who
    ensures c.log[i].to == c.log[k].who && c.log[i].gen == c.log[k].gen
  {
    var v, at := c.log[j].who, c.log[k].at;
    var n;
    n, i := LeaseBehind(c, k, v);
    assert c.log[n] in c.log;
    EventJustified(c, k);
    assert At(c.log[j]) <= at by { assert c.log[..k][j] == c.log[j]; assert c.log[j] in c.log[..k]; }
    if i < j { VoteOutwaitsLeases(c, i, j); }
  }

  /** So once a majority voted, the old authority's next permit needs one of those voters to lease again. */
  lemma VotedMajorityStopsOldPermits(c: Cluster, k: nat, voted: set<PeerId>) returns (v: PeerId, i: nat)
    requires Reachable(c) && k < |c.log| && c.log[k].PermitGranted?
    requires Majority(voted, c.log[k].electorate) && c.log[k].who !in voted
    requires forall p :: p in voted ==> VotedBefore(c.log, k, p)
    requires forall q, t: Instant, seen: Instant ::
               AckSeen(c.log[k].who, q, c.log[k].gen, t, seen) in c.log ==> seen <= t + 2_000
    ensures v in voted && i < k && c.log[i].LeaseGranted? && c.log[i].who == v && c.log[i].gen == c.log[k].gen
    ensures exists j :: 0 <= j < i && c.log[j].VoteCast? && c.log[j].who == v
  {
    EventJustified(c, k);
    v := MajoritiesMeet(voted, c.log[k].backers, c.log[k].electorate);
    var j :| 0 <= j < k && c.log[j].VoteCast? && c.log[j].who == v && !c.log[j].wake;
    i := PermitNeedsNewLease(c, j, k);
  }

  ghost predicate VotedBefore(log: seq<Event>, k: nat, p: PeerId)
    requires k <= |log|
  {
    exists j :: 0 <= j < k && log[j].VoteCast? && log[j].who == p && !log[j].wake
  }

  // ----- permits -----

  /** Whoever backs a permit, its holder included, stored the holder's record. */
  lemma BackerStored(c: Cluster, k: nat, q: PeerId) returns (e: EpochRecord)
    requires Reachable(c) && k < |c.log| && c.log[k].PermitGranted? && q in c.log[k].backers
    ensures HasStored(c.log, q, e) && e.gen == c.log[k].gen && e.authority == c.log[k].who
  {
    var p, gen := c.log[k].who, c.log[k].gen;
    EventJustified(c, k);
    if q == p {
      e := StoredEarlier(c, k, p, gen, p);
    } else {
      var _, i := LeaseBehind(c, k, q);
      EventJustified(c, i);
      e := StoredEarlier(c, i, q, gen, p);
    }
  }

  lemma StoredEarlier(c: Cluster, k: nat, q: PeerId, gen: Generation, p: PeerId) returns (e: EpochRecord)
    requires k <= |c.log| && StoredFor(c.log[..k], q, gen, p)
    ensures HasStored(c.log, q, e) && e.gen == gen && e.authority == p
  {
    e :| HasStored(c.log[..k], q, e) && e.gen == gen && e.authority == p;
    var proof :| Wrote(q, PutEpoch(e, proof)) in c.log[..k];
    assert Wrote(q, PutEpoch(e, proof)) in c.log;
  }

  /** Every peer behind a permit holds the identical record of its generation. */
  lemma PermitRestsOnOneRecord(c: Cluster, k: nat, q: PeerId, r: PeerId, eq: EpochRecord, er: EpochRecord)
    requires Reachable(c) && k < |c.log| && c.log[k].PermitGranted?
    requires q in c.log[k].backers && HasStored(c.log, q, eq) && eq.gen == c.log[k].gen
    requires r in c.log[k].backers && HasStored(c.log, r, er) && er.gen == c.log[k].gen
    ensures eq == er && eq.authority == c.log[k].who
  {
    var e1 := BackerStored(c, k, q);
    var e2 := BackerStored(c, k, r);
    OneRecordPerGeneration(c, q, e1, eq);
    OneRecordPerGeneration(c, r, e2, er);
    SameAuthorityRecord(c, q, e1, r, e2);
  }

  lemma OneRecordPerGeneration(c: Cluster, p: PeerId, a: EpochRecord, b: EpochRecord)
    requires Reachable(c) && HasStored(c.log, p, a) && HasStored(c.log, p, b) && a.gen.epoch == b.gen.epoch
    ensures a == b
  {
    var proof :| Wrote(p, PutEpoch(a, proof)) in c.log;
    ActorInv(c, Wrote(p, PutEpoch(a, proof)));
  }

  /** However its generation arose, at most one peer ever holds a permit for it. */
  lemma OnePermitHolder(c: Cluster, i: nat, k: nat)
    requires Reachable(c) && i < |c.log| && k < |c.log| && c.log[i].PermitGranted? && c.log[k].PermitGranted?
    requires c.log[i].gen == c.log[k].gen && Adjacent(c.log[i].electorate, c.log[k].electorate)
    ensures c.log[i].who == c.log[k].who
  {
    EventJustified(c, i);
    EventJustified(c, k);
    var q := ElectoratesMeet(c.log[i].backers, c.log[i].electorate, c.log[k].backers, c.log[k].electorate);
    var e1 := BackerStored(c, i, q);
    var e2 := BackerStored(c, k, q);
    OneRecordPerGeneration(c, q, e1, e2);
  }

  /** A permit for a recovery epoch also follows its acceptance, reported by a majority of the electorate. */
  lemma RecoveryPermitIsAccepted(c: Cluster, k: nat, e: EpochRecord) returns (acceptors: set<PeerId>)
    requires Reachable(c) && k < |c.log| && c.log[k].PermitGranted?
    requires HasStored(c.log[..k], c.log[k].who, e) && e.gen == c.log[k].gen && e.mode.Recovery?
    ensures Majority(acceptors, c.log[k].electorate) && forall q :: q in acceptors ==> HasStored(c.log, q, e)
  {
    var p, gen := c.log[k].who, c.log[k].gen;
    EventJustified(c, k);
    acceptors := Acknowledged(c.log[..k], p, gen, c.log[k].electorate);
    StoredLater(c, k, p, e);
    var own := StoredEarlier(c, k, p, gen, p);
    OneRecordPerGeneration(c, p, own, e);
    forall q | q in acceptors
      ensures HasStored(c.log, q, e)
    {
      if q != p {
        var n :| 0 <= n < k && c.log[..k][n] == EpochAcked(q, p, gen);
        EventJustified(c, n);
        var e' := StoredEarlier(c, n, q, gen, p);
        SameAuthorityRecord(c, q, e', p, e);
      }
    }
  }

  lemma StoredLater(c: Cluster, k: nat, q: PeerId, e: EpochRecord)
    requires k <= |c.log| && HasStored(c.log[..k], q, e)
    ensures HasStored(c.log, q, e)
  {
  }
}
