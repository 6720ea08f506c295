/**
  The peers of one world as a step machine. A step is one handler or tick
  branch at one peer, run to the end or cut by a crash after any of its durable
  writes, or the passing of time, or a change of what a peer sees. Messages are
  whatever signatures on record allow: delayed, lost, repeated and reordered at
  will, with ballots, leases, sleeps and proposals of any content at any time.
*/
module Cluster {
  import opened Records
  import opened Durable
  import opened Runtime
  import opened Plans

  datatype Peer = Peer(disk: Disk, rt: LeaseRuntime)

  /** What happened, oldest first: every durable write, and every answer that left a peer. */
  datatype Event =
    | Wrote(who: PeerId, write: Write)
    | VoteCast(who: PeerId, ballot: Ballot, wake: bool, at: Instant)
    | LeaseGranted(who: PeerId, to: PeerId, gen: Generation, at: Instant)
    | AckSeen(who: PeerId, backer: PeerId, gen: Generation, grantedAt: Instant, at: Instant)
    | EpochAcked(who: PeerId, to: PeerId, gen: Generation)
    | PermitGranted(who: PeerId, gen: Generation, electorate: set<PeerId>, backers: set<PeerId>, at: Instant)
    | FreshVoted(who: PeerId, challenge: Challenge)

  datatype Cluster = Cluster(peers: map<PeerId, Peer>, log: seq<Event>, now: Instant)

  datatype Action =
    | OnBallot(sender: PeerId, ballot: Ballot)
    | Drive(wake: bool, meReady: bool)
    | Promote(wake: bool, meReady: bool, votes: seq<Vote>)
    | OnRecoveryEpoch(sender: PeerId, epoch: EpochRecord, certificate: RecoveryCertificate)
    | OnEpoch(sender: PeerId, epoch: EpochRecord, transfer: Option<Transfer>, soloAllowed: bool)
    | ManualEpoch(epoch: EpochRecord)
    | LaunchEpoch
    | Upkeep
    | Artifacts
    | OnLease(sender: PeerId, gen: Generation, durationMs: nat)
    | Propose(change: Change)
    | OnProposal(sender: PeerId, proposal: Proposal, inviteLive: bool)
    | OnCommit(sender: PeerId, joint: JointCertificate, inviteLive: bool)
    | Transition(jointVotes: seq<JointVote>)
    | RecoverMembership(inviteLive: bool)
    | OnMembership(sender: PeerId, membership: MembershipRecord)
    | OnSleep(sender: PeerId, sleep: SleepRecord)
    | StoreLocally(write: Write)

  function PlanOf(me: PeerId, peer: Peer, action: Action, now: Instant): Plan {
    var d, rt := peer.disk, peer.rt;
    match action
    case OnBallot(sender, b) => BallotPlan(d, rt, sender, b, now)
    case Drive(wake, ready) => DrivePlan(me, d, rt, wake, ready, now)
    case Promote(wake, ready, votes) => PromotePlan(me, d, rt, wake, ready, now, votes)
    case OnRecoveryEpoch(sender, e, c) => RecoveryEpochPlan(d, rt, sender, e, c)
    case OnEpoch(sender, e, transfer, solo) => EpochPlan(d, rt, sender, e, transfer, solo)
    case ManualEpoch(e) => ManualEpochPlan(d, rt, e)
    case LaunchEpoch => LaunchEpochPlan(me, d, rt)
    case Upkeep => AuthorityPlan(me, d, rt, now)
    case Artifacts => ArtifactsPlan(me, d, rt)
    case OnLease(sender, gen, ms) => LeasePlan(d, rt, sender, gen, ms, now)
    case Propose(change) => ProposePlan(me, d, rt, change)
    case OnProposal(sender, p, live) => PreparePlan(me, d, rt, sender, p, live)
    case OnCommit(sender, c, live) => CommitPlan(me, d, rt, sender, c, live)
    case Transition(votes) => TransitionPlan(me, d, rt, votes)
    case RecoverMembership(live) => RecoverMembershipPlan(me, d, rt, live)
    case OnMembership(sender, m) => MembershipPlan(d, rt, sender, m)
    case OnSleep(sender, s) => SleepPlan(d, rt, sender, s)
    case StoreLocally(w) => Plan([w], rt, Quiet)
  }

  // ----- what signatures can exist -----

  predicate HasPromised(log: seq<Event>, p: PeerId, b: Ballot) { Wrote(p, PutPromise(b)) in log }
  predicate HasPrepared(log: seq<Event>, p: PeerId, q: Proposal) { Wrote(p, PutPrepare(q)) in log }

  /** A recovery vote is signed when it is cast, after its promise is durable. */
  ghost predicate HasCast(log: seq<Event>, p: PeerId, b: Ballot) {
    exists wake, at :: VoteCast(p, b, wake, at) in log
  }

  ghost predicate HasStored(log: seq<Event>, p: PeerId, e: EpochRecord) {
    exists proof :: Wrote(p, PutEpoch(e, proof)) in log
  }

  /** An epoch record is sent only after its authority has stored it. */
  ghost predicate Published(log: seq<Event>, e: EpochRecord) { HasStored(log, e.authority, e) }

  ghost predicate VotesSigned(log: seq<Event>, votes: seq<Vote>) {
    forall v :: v in votes ==> HasCast(log, v.voter, v.ballot)
  }

  ghost predicate JointVotesSigned(log: seq<Event>, votes: seq<JointVote>) {
    forall v :: v in votes ==> HasPrepared(log, v.voter, v.proposal)
  }

  /** The signed content of a message is backed by its signer's past. */
  ghost predicate Authentic(log: seq<Event>, me: PeerId, action: Action) {
    match action
    case OnRecoveryEpoch(_, e, c) => Published(log, e) && VotesSigned(log, c.votes)
    case OnEpoch(_, e, _, _) => Published(log, e)
    case ManualEpoch(e) => e.authority == me || Published(log, e)
    case OnCommit(_, c, _) => JointVotesSigned(log, c.votes)
    // Snapshots, the local sleep boundary and a staged join come from outside the control plane.
    case StoreLocally(w) => w.PutHead? || w.PutSleep? || w.PutJoin?
    case _ => true
  }

  // ----- steps -----

  function Writes(who: PeerId, writes: seq<Write>): seq<Event> {
    seq(|writes|, i requires 0 <= i < |writes| => Wrote(who, writes[i]))
  }

  /** What leaves the peer, and counts for safety, when the handler completes. */
  function Answers(me: PeerId, peer: Peer, action: Action, reply: Reply, now: Instant): seq<Event> {
    match action
    case OnBallot(_, _) => Cast(me, peer, reply, now)
    case Drive(_, _) => Cast(me, peer, reply, now)
    case OnLease(sender, _, _) => if reply.LeaseAccepted? then [LeaseGranted(me, sender, reply.gen, now)] else []
    case OnRecoveryEpoch(sender, e, _) => Acked(me, sender, e, reply)
    case OnEpoch(sender, e, _, _) => Acked(me, sender, e, reply)
    case Upkeep =>
      if reply.PermitRefreshed?
      then [PermitGranted(me, reply.gen, Active(peer.disk.roster),
                          Confirmed(me, peer.disk.roster, peer.rt, reply.gen, now), now)]
      else []
    case _ => []
  }

  function Cast(me: PeerId, peer: Peer, reply: Reply, now: Instant): seq<Event> {
    if reply.VoteReply? then [VoteCast(me, reply.ballot, peer.disk.sleep.Some?, now)] else []
  }

  /** A relay of someone else's epoch keeps no request context, so its acknowledgement counts nowhere. */
  function Acked(me: PeerId, sender: PeerId, e: EpochRecord, reply: Reply): seq<Event> {
    if reply.EpochAccepted? && sender == e.authority then [EpochAcked(me, sender, reply.gen)] else []
  }

  /** The runtime may lose entries, and what it sees of other peers may change at any time. */
  predicate Forgets(rt: LeaseRuntime, seen: LeaseRuntime) {
    && seen == rt.(connected := seen.connected, statuses := seen.statuses, capabilities := seen.capabilities,
                   leaseAcks := seen.leaseAcks, epochAcks := seen.epochAcks, votes := seen.votes,
                   jointVotes := seen.jointVotes, heartbeat := seen.heartbeat)
    && (seen.heartbeat == rt.heartbeat || seen.heartbeat == 0)
    && (forall q :: q in seen.leaseAcks ==> q in rt.leaseAcks && seen.leaseAcks[q] == rt.leaseAcks[q])
    && (forall q :: q in seen.epochAcks ==> q in rt.epochAcks && seen.epochAcks[q] == rt.epochAcks[q])
    && (forall q :: q in seen.votes ==> q in rt.votes && seen.votes[q] == rt.votes[q])
    && (forall q :: q in seen.jointVotes ==> q in rt.jointVotes && seen.jointVotes[q] == rt.jointVotes[q])
  }

  datatype Step =
    | Elapse(ms: nat)
    | Complete(who: PeerId, action: Action)
    | Crash(who: PeerId, action: Action, after: nat)
    | Look(who: PeerId, seen: LeaseRuntime)
    | BeginDelay(who: PeerId)
    | DropSleeping(who: PeerId)
    | DropUnreadable(who: PeerId)
    | GetVote(who: PeerId, vote: Vote)
    | GetRejection(who: PeerId, asked: Ballot, highest: U64)
    | GetLeaseAck(who: PeerId, backer: PeerId, gen: Generation, grantedAt: Instant)
    | GetEpochAck(who: PeerId, backer: PeerId, gen: Generation)
    | GetJointVote(who: PeerId, jointVote: JointVote)
    | VoteFresh(who: PeerId, challenge: Challenge, configMatches: bool)

  function SetPeer(c: Cluster, who: PeerId, peer: Peer, events: seq<Event>): Cluster {
    c.(peers := c.peers[who := peer], log := c.log + events)
  }

  ghost predicate Next(c: Cluster, c': Cluster, step: Step) {
    if step.Elapse? then c' == c.(now := c.now + step.ms)
    else
      && step.who in c.peers
      && var me, peer := step.who, c.peers[step.who];
         match step
         case Complete(_, action) =>
           var plan := PlanOf(me, peer, action, c.now);
           && Authentic(c.log, me, action)
           && c' == SetPeer(c, me, Peer(Replay(peer.disk, plan.writes), plan.runtime),
                            Writes(me, plan.writes) + Answers(me, peer, action, plan.reply, c.now))
         case Crash(_, action, after) =>
           var plan := PlanOf(me, peer, action, c.now);
           && Authentic(c.log, me, action)
           && after <= |plan.writes|
           && c' == SetPeer(c, me, Peer(Replay(peer.disk, plan.writes[..after]), BLANK),
                            Writes(me, plan.writes[..after]))
         case Look(_, seen) => Forgets(peer.rt, seen) && c' == SetPeer(c, me, peer.(rt := seen), [])
         case BeginDelay(_) => c' == SetPeer(c, me, peer.(rt := StartDelay(peer.rt, c.now)), [])
         case DropSleeping(_) => c' == SetPeer(c, me, peer.(rt := ClearSleeping(peer.rt)), [])
         case DropUnreadable(_) => c' == SetPeer(c, me, peer.(rt := ClearWorld(peer.rt)), [])
         case GetVote(_, vote) =>
           && HasCast(c.log, vote.voter, vote.ballot)
           && c' == SetPeer(c, me, peer.(rt := ReceiveVote(peer.rt, vote.voter, vote)), [])
         case GetRejection(_, asked, highest) =>
           c' == SetPeer(c, me, peer.(rt := ReceiveRejection(peer.rt, asked, highest)), [])
         case GetLeaseAck(_, backer, gen, grantedAt) =>
           && LeaseGranted(backer, me, gen, grantedAt) in c.log
           && c' == SetPeer(c, me, peer.(rt := ReceiveLeaseAck(peer.rt, backer, gen, c.now)),
                            [AckSeen(me, backer, gen, grantedAt, c.now)])
         case GetEpochAck(_, backer, gen) =>
           && EpochAcked(backer, me, gen) in c.log
           && c' == SetPeer(c, me, peer.(rt := ReceiveEpochAck(peer.rt, backer, gen)), [])
         case GetJointVote(_, vote) =>
           && HasPrepared(c.log, vote.voter, vote.proposal)
           && c' == SetPeer(c, me, peer.(rt := ReceiveJointVote(peer.disk, peer.rt, vote.voter, vote)), [])
         case VoteFresh(_, ch, configMatches) =>
           VouchesFresh(me, peer.disk, ch, configMatches) && c' == SetPeer(c, me, peer, [FreshVoted(me, ch)])
  }

  /** A peer starts with a descriptor, possibly a committed membership, and nothing else. */
  predicate Blank(d: Disk) {
    && d.epoch.None? && d.promise.None? && d.certificate.None? && d.prepare.None?
    && d.joint.None? && d.jointHistory == map[] && d.sleep.None?
    && Ordered(d.roster)
  }

  ghost predicate Init(c: Cluster) {
    && c.log == []
    && forall p :: p in c.peers ==> Blank(c.peers[p].disk) && c.peers[p].rt == BLANK
  }

  /** A run: any finite sequence of steps from any initial cluster. */
  datatype Run = Run(states: seq<Cluster>, steps: seq<Step>) {
    ghost predicate Valid() {
      && |states| == |steps| + 1
      && Init(states[0])
      && forall i :: 0 <= i < |steps| ==> Next(states[i], states[i + 1], steps[i])
    }

    function Last(): Cluster
      requires |states| > 0
    {
      states[|states| - 1]
    }
  }
}
