/**
  What every durable write of the control plane has established at the moment
  it reaches the disk, whichever handler makes it and wherever a crash cuts the
  handler short.
*/
module Discipline {
  import opened Records
  import opened Durable
  import opened Runtime
  import opened Plans
  import opened Certificates
  import opened Cluster

  /** A joint certificate for this change exists: both majorities prepared it. */
  ghost predicate JointBacked(log: seq<Event>, q: Proposal) {
    exists c: JointCertificate :: c.proposal == q && JointShape(c) && JointVotesSigned(log, c.votes)
  }

  ghost predicate HasFiled(log: seq<Event>, p: PeerId, c: RecoveryCertificate) {
    exists electorate :: Wrote(p, PutCertificate(c, electorate)) in log
  }

  /** The certificate is the one the epoch rests on. */
  predicate Certifies(c: RecoveryCertificate, e: EpochRecord) {
    && c.ballot.WellFormed() && c.ballot.target == e.gen && c.ballot.candidate == e.authority
    && c.ballot.state == e.baseState
  }

  /** The peer's own head is this snapshot, with this state. */
  predicate HeadIs(d: Disk, snapshot: Digest, state: Digest) {
    d.head.Some? && d.head.value.manifest == snapshot && d.head.value.stateRoot == state
  }

  ghost predicate Obeys(log: seq<Event>, me: PeerId, d: Disk, w: Write) {
    match w
    case PutPromise(b) =>
      && b.WellFormed() && d.prepare.None? && d.membership == Some(b.membership)
      && d.epoch.Some? && d.epoch.value.gen == b.base && HeadIs(d, b.snapshot, b.state)
      && (d.promise.Some? ==> d.promise.value.round < b.round && SameValue(d.promise.value, b))
    case DropPromise =>
      d.promise.Some? && d.epoch.Some? && d.epoch.value.gen.epoch >= d.promise.value.target.epoch
    case PutCertificate(c, electorate) =>
      && RecoveryShape(c, electorate) && VotesSigned(log, c.votes)
      && (d.epoch.Some? ==>
          c.ballot.target == d.epoch.value.gen || d.epoch.value.gen.CheckedNext() == Some(c.ballot.target))
    case PutEpoch(e, proof) =>
      && (d.epoch.Some? ==> Follows(d.epoch.value, e))
      && (e.authority == me || Published(log, e))
      && e.mode.Recovery? == proof.Some?
      && d.head.Some? && d.head.value.stateRoot == e.baseState
      && (proof.Some? ==>
            && HeadIs(d, proof.value.ballot.snapshot, proof.value.ballot.state)
            && d.certificate == proof && HasFiled(log, me, proof.value) && Certifies(proof.value, e)
            && d.prepare.None? && d.membership == Some(proof.value.ballot.membership)
            && (d.promise.Some? ==> d.promise.value.round <= proof.value.ballot.round))
    case PutMembership(m) =>
      && Ordered(m.members) && (d.epoch.Some? ==> m.epoch == d.epoch.value.gen.epoch)
      && (if d.membership.Some? then
            && Extends(d.membership.value, m)
            && (m.members == d.membership.value.members || JointBacked(log, Proposal(d.membership.value, m)))
          else
            || (m.sequence == 0 && m.previous.None?)
            || (m.previous.Some? && JointBacked(log, Proposal(m.previous.value, m))))
    case PutRoster(r) => Ordered(r)
    case PutPrepare(q) =>
      ProposalShape(q) && d.prepare.None? && (d.membership.Some? ==> d.membership.value == q.previous)
    case DropPrepare => d.prepare.Some? && d.membership == Some(d.prepare.value.proposed)
    case PutJointHistory(c) => JointShape(c) && JointVotesSigned(log, c.votes)
    case PutJoint(c) => JointShape(c) && JointVotesSigned(log, c.votes)
    case _ => true
  }

  /** Each write of the run obeys at its own moment, the earlier ones done. */
  ghost predicate ObeysAll(log: seq<Event>, me: PeerId, d: Disk, writes: seq<Write>) {
    forall i :: 0 <= i < |writes| ==> Obeys(log + Writes(me, writes[..i]), me, Replay(d, writes[..i]), writes[i])
  }

  lemma WritesAppend(me: PeerId, a: seq<Write>, b: seq<Write>)
    ensures Writes(me, a + b) == Writes(me, a) + Writes(me, b)
  {
  }

  lemma ObeysNone(log: seq<Event>, me: PeerId, d: Disk)
    ensures ObeysAll(log, me, d, [])
  {
  }

  lemma ObeysOne(log: seq<Event>, me: PeerId, d: Disk, w: Write)
    requires Obeys(log, me, d, w)
    ensures ObeysAll(log, me, d, [w])
  {
  }

  lemma ObeysFirst(log: seq<Event>, me: PeerId, d: Disk, a: seq<Write>, b: seq<Write>, i: nat)
    requires i < |a| && ObeysAll(log, me, d, a)
    ensures Obeys(log + Writes(me, (a + b)[..i]), me, Replay(d, (a + b)[..i]), (a + b)[i])
  {
    assert (a + b)[..i] == a[..i];
  }

  lemma ObeysSecond(log: seq<Event>, me: PeerId, d: Disk, a: seq<Write>, b: seq<Write>, i: nat)
    requires |a| <= i < |a + b| && ObeysAll(log + Writes(me, a), me, Replay(d, a), b)
    ensures Obeys(log + Writes(me, (a + b)[..i]), me, Replay(d, (a + b)[..i]), (a + b)[i])
  {
    var j := i - |a|;
    assert (a + b)[..i] == a + b[..j];
    ReplayAppend(d, a, b[..j]);
    WritesAppend(me, a, b[..j]);
    assert log + Writes(me, a + b[..j]) == log + Writes(me, a) + Writes(me, b[..j]);
  }

  lemma ObeysAppend(log: seq<Event>, me: PeerId, d: Disk, a: seq<Write>, b: seq<Write>)
    requires ObeysAll(log, me, d, a)
    requires ObeysAll(log + Writes(me, a), me, Replay(d, a), b)
    ensures ObeysAll(log, me, d, a + b)
  {
    forall i | 0 <= i < |a + b|
      ensures Obeys(log + Writes(me, (a + b)[..i]), me, Replay(d, (a + b)[..i]), (a + b)[i])
    {
      if i < |a| { ObeysFirst(log, me, d, a, b, i); } else { ObeysSecond(log, me, d, a, b, i); }
    }
  }

  lemma ObeysSnoc(log: seq<Event>, me: PeerId, d: Disk, a: seq<Write>, w: Write)
    requires ObeysAll(log, me, d, a)
    requires Obeys(log + Writes(me, a), me, Replay(d, a), w)
    ensures ObeysAll(log, me, d, a + [w])
  {
    ObeysOne(log + Writes(me, a), me, Replay(d, a), w);
    ObeysAppend(log, me, d, a, [w]);
  }

  /** The same prefix of a crashed handler obeys too. */
  lemma ObeysPrefix(log: seq<Event>, me: PeerId, d: Disk, writes: seq<Write>, k: nat)
    requires ObeysAll(log, me, d, writes) && k <= |writes|
    ensures ObeysAll(log, me, d, writes[..k])
  {
    forall i | 0 <= i < k
      ensures Obeys(log + Writes(me, writes[..k][..i]), me, Replay(d, writes[..k][..i]), writes[..k][i])
    {
      assert writes[..k][..i] == writes[..i];
    }
  }

  // ----- handler by handler -----

  /** What the log must already say about a peer for its own handlers to obey. */
  ghost predicate Backed(log: seq<Event>, me: PeerId, peer: Peer) {
    && (forall q :: q in peer.rt.votes ==> HasCast(log, q, peer.rt.votes[q]))
    && (forall q :: q in peer.rt.jointVotes ==> HasPrepared(log, q, peer.rt.jointVotes[q]))
    && (peer.disk.prepare.Some? ==> HasPrepared(log, me, peer.disk.prepare.value))
    && (peer.disk.joint.Some? ==>
        JointShape(peer.disk.joint.value) && JointVotesSigned(log, peer.disk.joint.value.votes))
  }

  /** The clean-up after an accepted epoch: sleep boundary and reached promise. */
  lemma ClearedObeys(log: seq<Event>, me: PeerId, d: Disk, e: EpochRecord, sleepy: seq<Write>)
    requires d.epoch == Some(e)
    requires sleepy == [] || sleepy == [DropSleep]
    ensures ObeysAll(log, me, d, sleepy + ClearPromise(d, e.gen.epoch))
  {
  }

  lemma PromoteObeys(log: seq<Event>, me: PeerId, peer: Peer, wake: bool, ready: bool, now: Instant, votes: seq<Vote>)
    requires Backed(log, me, peer)
    ensures ObeysAll(log, me, peer.disk, PromotePlan(me, peer.disk, peer.rt, wake, ready, now, votes).writes)
  {
    var d := peer.disk;
    var plan := PromotePlan(me, d, peer.rt, wake, ready, now, votes);
    if plan.reply.EpochAccepted? {
      var c := RecoveryCertificate(peer.rt.ballot.value, votes);
      var members := Active(d.roster);
      var next := Promoted(me, d, wake);
      assert VotesSigned(log, votes);
      AcceptedObeys(log, me, d, c, members, next, ClearSleep(d));
    }
  }

  /** Certificate, epoch, clean-up: the order both the candidate and its followers write in. */
  lemma AcceptedObeys(log: seq<Event>, me: PeerId, d: Disk, c: RecoveryCertificate, electorate: set<PeerId>,
                      e: EpochRecord, sleepy: seq<Write>)
    requires Obeys(log, me, d, PutCertificate(c, electorate))
    requires e.mode.Recovery? && Certifies(c, e) && (e.authority == me || Published(log, e))
    requires d.epoch.Some? ==> Follows(d.epoch.value, e)
    requires d.prepare.None? && d.membership == Some(c.ballot.membership)
    requires HeadIs(d, c.ballot.snapshot, c.ballot.state)
    requires d.promise.Some? ==> d.promise.value.round <= c.ballot.round
    requires sleepy == [] || sleepy == [DropSleep]
    ensures ObeysAll(log, me, d,
                     [PutCertificate(c, electorate), PutEpoch(e, Some(c))] + (sleepy + ClearPromise(d, e.gen.epoch)))
  {
    var first, second := PutCertificate(c, electorate), PutEpoch(e, Some(c));
    ObeysOne(log, me, d, first);
    var filed := log + Writes(me, [first]);
    assert filed == log + [Wrote(me, first)];
    ReplayOne(d, first);
    assert Published(log, e) ==> Published(filed, e);
    ObeysSnoc(log, me, d, [first], second);
    assert [first] + [second] == [first, second];
    ReplaySnoc(d, [first], second);
    ClearedObeys(log + Writes(me, [first, second]), me, Replay(d, [first, second]), e, sleepy);
    ObeysAppend(log, me, d, [first, second], sleepy + ClearPromise(d, e.gen.epoch));
  }

  lemma RecoveryEpochObeys(log: seq<Event>, me: PeerId, peer: Peer, sender: PeerId, e: EpochRecord,
                           c: RecoveryCertificate)
    requires Authentic(log, me, OnRecoveryEpoch(sender, e, c))
    ensures ObeysAll(log, me, peer.disk, RecoveryEpochPlan(peer.disk, peer.rt, sender, e, c).writes)
  {
    var d := peer.disk;
    var plan := RecoveryEpochPlan(d, peer.rt, sender, e, c);
    if plan.writes != [] {
      var first := PutCertificate(c, Voters(c.ballot.membership));
      if d.epoch == Some(e) {
        ObeysOne(log, me, d, first);
        ReplayOne(d, first);
        ClearedObeys(log + Writes(me, [first]), me, Replay(d, [first]), e, ClearSleep(d));
        ObeysAppend(log, me, d, [first], ClearSleep(d) + ClearPromise(d, e.gen.epoch));
      } else {
        AcceptedObeys(log, me, d, c, Voters(c.ballot.membership), e, ClearSleep(d));
      }
    }
  }

  /** An epoch without certificate: the record, then at most the sleep boundary. */
  lemma DirectEpochObeys(log: seq<Event>, me: PeerId, d: Disk, e: EpochRecord, rest: seq<Write>)
    requires Obeys(log, me, d, PutEpoch(e, None))
    requires rest == [] || rest == [DropSleep]
    ensures ObeysAll(log, me, d, [PutEpoch(e, None)] + rest)
  {
  }

  /** Once the record is committed: the roster, then the prepare and the join it fulfils. */
  lemma SettledObeys(log: seq<Event>, me: PeerId, d: Disk, next: MembershipRecord, cleared: seq<Write>,
                     joined: seq<Write>)
    requires d.membership == Some(next) && Ordered(next.members)
    requires cleared == ClearPrepare(d, next)
    requires joined == [] || joined == [DropJoin]
    ensures ObeysAll(log, me, d, [PutRoster(next.members)] + cleared + joined)
  {
  }

  /** Applying a joint certificate: record, roster, then the prepare it fulfils. */
  lemma ApplyObeys(log: seq<Event>, me: PeerId, d: Disk, c: JointCertificate)
    requires JointShape(c) && JointVotesSigned(log, c.votes)
    requires ApplyJoint(d, c).Some?
    ensures ObeysAll(log, me, d, ApplyJoint(d, c).value)
  {
    var next := c.proposal.proposed;
    var saved := SaveMembership(d, next).writes;
    SavedObeys(log, me, d, c);
    var cleared, joined := ClearPrepare(d, next), ClearSatisfiedJoin(d, next.members);
    SettledObeys(log + Writes(me, saved), me, Replay(d, saved), next, cleared, joined);
    ObeysAppend(log, me, d, saved, Settled(d, next));
  }

  lemma SavedObeys(log: seq<Event>, me: PeerId, d: Disk, c: JointCertificate)
    requires JointShape(c) && JointVotesSigned(log, c.votes)
    requires ApplyJoint(d, c).Some?
    ensures ObeysAll(log, me, d, SaveMembership(d, c.proposal.proposed).writes)
    ensures Replay(d, SaveMembership(d, c.proposal.proposed).writes) == d.(membership := Some(c.proposal.proposed))
  {
    var next := c.proposal.proposed;
    if SaveMembership(d, next).writes == [] {
      ObeysNone(log, me, d);
    } else {
      assert JointBacked(log, c.proposal);
      assert DirectExtension(c.proposal);
      NextRecordObeys(log, me, d, c.proposal);
    }
  }

  lemma NextRecordObeys(log: seq<Event>, me: PeerId, d: Disk, q: Proposal)
    requires JointBacked(log, q) && DirectExtension(q) && Ordered(q.proposed.members)
    requires d.membership.Some? ==> d.membership.value == q.previous
    requires d.epoch.Some? ==> q.proposed.epoch == d.epoch.value.gen.epoch
    ensures ObeysAll(log, me, d, [PutMembership(q.proposed)])
    ensures Replay(d, [PutMembership(q.proposed)]) == d.(membership := Some(q.proposed))
  {
    var w := PutMembership(q.proposed);
    assert Proposal(q.previous, q.proposed) == q;
    ObeysOne(log, me, d, w);
    ReplayOne(d, w);
  }

  lemma CommitObeys(log: seq<Event>, me: PeerId, d: Disk, c: JointCertificate)
    requires JointShape(c) && JointVotesSigned(log, c.votes)
    ensures ObeysAll(log, me, d, CommitWrites(d, c).1)
  {
    var saved := SaveJoint(d, c);
    if saved.Saved? {
      var filed := saved.writes;
      if |filed| == 1 {
        ObeysOne(log, me, d, PutJoint(c));
      } else {
        ObeysOne(log, me, d, PutJointHistory(c));
        ObeysSnoc(log, me, d, [PutJointHistory(c)], PutJoint(c));
        assert [PutJointHistory(c)] + [PutJoint(c)] == filed;
      }
      var d1, log1 := Replay(d, filed), log + Writes(me, filed);
      if ApplyJoint(d1, c).Some? {
        ApplyObeys(log1, me, d1, c);
        ObeysAppend(log, me, d, filed, ApplyJoint(d1, c).value);
      }
    } else {
      ObeysNone(log, me, d);
    }
  }

  lemma MembershipObeys(log: seq<Event>, me: PeerId, peer: Peer, sender: PeerId, m: MembershipRecord)
    ensures ObeysAll(log, me, peer.disk, MembershipPlan(peer.disk, peer.rt, sender, m).writes)
  {
    var d := peer.disk;
    var plan := MembershipPlan(d, peer.rt, sender, m);
    if plan.writes == [] {
      ObeysNone(log, me, d);
    } else {
      RefreshedObeys(log, me, d, m);
    }
  }

  /** A refreshed record keeps the members, and the roster follows it. */
  lemma RefreshedObeys(log: seq<Event>, me: PeerId, d: Disk, m: MembershipRecord)
    requires SaveMembership(d, m) == Saved([PutMembership(m)]) && Refreshes(d, m)
    ensures ObeysAll(log, me, d, [PutMembership(m)] + ([PutRoster(m.members)] + ClearSatisfiedJoin(d, m.members)))
  {
    ObeysOne(log, me, d, PutMembership(m));
    var d1, log1, joined := Replay(d, [PutMembership(m)]), log + Writes(me, [PutMembership(m)]),
      ClearSatisfiedJoin(d, m.members);
    ObeysOne(log1, me, d1, PutRoster(m.members));
    if joined != [] {
      ObeysSnoc(log1, me, d1, [PutRoster(m.members)], DropJoin);
    } else {
      assert [PutRoster(m.members)] + joined == [PutRoster(m.members)];
    }
    ObeysAppend(log, me, d, [PutMembership(m)], [PutRoster(m.members)] + joined);
  }

  lemma AtMostOneObeys(log: seq<Event>, me: PeerId, d: Disk, writes: seq<Write>)
    requires |writes| <= 1 && (writes != [] ==> Obeys(log, me, d, writes[0]))
    ensures ObeysAll(log, me, d, writes)
  {
  }

  /** A vote is a promise for the present base and configuration. */
  lemma BallotObeys(log: seq<Event>, me: PeerId, peer: Peer, sender: PeerId, b: Ballot, now: Instant)
    ensures ObeysAll(log, me, peer.disk, BallotPlan(peer.disk, peer.rt, sender, b, now).writes)
  {
  }

  /** So is the candidate's own. */
  lemma DriveObeys(log: seq<Event>, me: PeerId, peer: Peer, wake: bool, ready: bool, now: Instant)
    ensures ObeysAll(log, me, peer.disk, DrivePlan(me, peer.disk, peer.rt, wake, ready, now).writes)
  {
    if MayDrive(me, peer.disk, peer.rt, wake, ready, now) {
      AttemptObeys(log, me, peer.disk, peer.rt);
    } else {
      ObeysNone(log, me, peer.disk);
    }
  }

  lemma AttemptObeys(log: seq<Event>, me: PeerId, d: Disk, rt: LeaseRuntime)
    requires CanAttempt(d) && d.prepare.None?
    ensures ObeysAll(log, me, d, BallotAttempt(me, d, rt).writes)
  {
  }

  lemma UpkeepObeys(log: seq<Event>, me: PeerId, peer: Peer, now: Instant)
    ensures ObeysAll(log, me, peer.disk, AuthorityPlan(me, peer.disk, peer.rt, now).writes)
  {
    AtMostOneObeys(log, me, peer.disk, AuthorityPlan(me, peer.disk, peer.rt, now).writes);
  }

  lemma ArtifactsObeys(log: seq<Event>, me: PeerId, peer: Peer)
    ensures ObeysAll(log, me, peer.disk, ArtifactsPlan(me, peer.disk, peer.rt).writes)
  {
  }

  lemma PrepareObeys(log: seq<Event>, me: PeerId, peer: Peer, sender: PeerId, p: Proposal, live: bool)
    ensures ObeysAll(log, me, peer.disk, PreparePlan(me, peer.disk, peer.rt, sender, p, live).writes)
  {
    AtMostOneObeys(log, me, peer.disk, PreparePlan(me, peer.disk, peer.rt, sender, p, live).writes);
  }

  lemma ProposeObeys(log: seq<Event>, me: PeerId, peer: Peer, change: Change)
    ensures ObeysAll(log, me, peer.disk, ProposePlan(me, peer.disk, peer.rt, change).writes)
  {
    AtMostOneObeys(log, me, peer.disk, ProposePlan(me, peer.disk, peer.rt, change).writes);
  }

  lemma SleepObeys(log: seq<Event>, me: PeerId, d: Disk, rt: LeaseRuntime, sender: PeerId, s: SleepRecord)
    ensures ObeysAll(log, me, d, SleepPlan(d, rt, sender, s).writes)
  {
    if SleepPlan(d, rt, sender, s).writes == [] { ObeysNone(log, me, d); } else { ObeysOne(log, me, d, PutSleep(s)); }
  }

  lemma LeaseObeys(log: seq<Event>, me: PeerId, d: Disk, rt: LeaseRuntime, sender: PeerId, gen: Generation, ms: nat,
                   now: Instant)
    ensures ObeysAll(log, me, d, LeasePlan(d, rt, sender, gen, ms, now).writes)
  {
    ObeysNone(log, me, d);
  }

  lemma LocalObeys(log: seq<Event>, me: PeerId, d: Disk, w: Write)
    requires w.PutHead? || w.PutSleep? || w.PutJoin?
    ensures ObeysAll(log, me, d, [w])
  {
    ObeysOne(log, me, d, w);
  }

  /** Handlers that store an epoch without a certificate. */
  lemma EpochObeys(log: seq<Event>, me: PeerId, peer: Peer, action: Action, now: Instant)
    requires Authentic(log, me, action)
    requires action.OnEpoch? || action.ManualEpoch? || action.LaunchEpoch?
    ensures ObeysAll(log, me, peer.disk, PlanOf(me, peer, action, now).writes)
  {
    var d, writes := peer.disk, PlanOf(me, peer, action, now).writes;
    if writes == [] {
      ObeysNone(log, me, d);
    } else {
      var e := writes[0].epoch;
      assert writes == [PutEpoch(e, None)] + writes[1..];
      DirectEpochObeys(log, me, d, e, writes[1..]);
    }
  }

  /** Every handler, run to any point, writes only what the discipline allows. */
  lemma PlanObeys(log: seq<Event>, me: PeerId, peer: Peer, action: Action, now: Instant)
    requires Backed(log, me, peer) && Authentic(log, me, action)
    ensures ObeysAll(log, me, peer.disk, PlanOf(me, peer, action, now).writes)
  {
    match action {
      case Promote(wake, ready, votes) => PromoteObeys(log, me, peer, wake, ready, now, votes);
      case OnRecoveryEpoch(sender, e, c) => RecoveryEpochObeys(log, me, peer, sender, e, c);
      case OnEpoch(_, _, _, _) => EpochObeys(log, me, peer, action, now);
      case ManualEpoch(_) => EpochObeys(log, me, peer, action, now);
      case LaunchEpoch => EpochObeys(log, me, peer, action, now);
      case OnBallot(sender, b) => BallotObeys(log, me, peer, sender, b, now);
      case Drive(wake, ready) => DriveObeys(log, me, peer, wake, ready, now);
      case Upkeep => UpkeepObeys(log, me, peer, now);
      case Artifacts => ArtifactsObeys(log, me, peer);
      case Propose(change) => ProposeObeys(log, me, peer, change);
      case OnProposal(sender, p, live) => PrepareObeys(log, me, peer, sender, p, live);
      case OnCommit(_, _, _) => OnCommitObeys(log, me, peer, action);
      case Transition(votes) => TransitionObeys(log, me, peer, votes);
      case RecoverMembership(_) => RecoverObeys(log, me, peer, action);
      case OnMembership(sender, m) => MembershipObeys(log, me, peer, sender, m);
      case OnLease(sender, gen, ms) => LeaseObeys(log, me, peer.disk, peer.rt, sender, gen, ms, now);
      case OnSleep(sender, s) => SleepObeys(log, me, peer.disk, peer.rt, sender, s);
      case StoreLocally(w) => LocalObeys(log, me, peer.disk, w);
    }
  }

  lemma OnCommitObeys(log: seq<Event>, me: PeerId, peer: Peer, action: Action)
    requires action.OnCommit? && Authentic(log, me, action)
    ensures ObeysAll(log, me, peer.disk,
                     CommitPlan(me, peer.disk, peer.rt, action.sender, action.joint, action.inviteLive).writes)
  {
    if CommitPlan(me, peer.disk, peer.rt, action.sender, action.joint, action.inviteLive).writes == [] {
      ObeysNone(log, me, peer.disk);
    } else {
      CommitObeys(log, me, peer.disk, action.joint);
    }
  }

  lemma TransitionObeys(log: seq<Event>, me: PeerId, peer: Peer, votes: seq<JointVote>)
    requires Backed(log, me, peer)
    ensures ObeysAll(log, me, peer.disk, TransitionPlan(me, peer.disk, peer.rt, votes).writes)
  {
    var d := peer.disk;
    var plan := TransitionPlan(me, d, peer.rt, votes);
    if plan.writes == [DropPrepare] {
      ObeysOne(log, me, d, DropPrepare);
    } else if plan.writes != [] {
      CommitObeys(log, me, d, JointCertificate(d.prepare.value, votes));
    }
  }

  lemma RecoverObeys(log: seq<Event>, me: PeerId, peer: Peer, action: Action)
    requires Backed(log, me, peer) && action.RecoverMembership?
    ensures ObeysAll(log, me, peer.disk, RecoverMembershipPlan(me, peer.disk, peer.rt, action.inviteLive).writes)
  {
    var d := peer.disk;
    var plan := RecoverMembershipPlan(me, d, peer.rt, action.inviteLive);
    if d.joint.Some? && plan.writes != [] {
      if d.membership == Some(d.joint.value.proposal.proposed) {
        ObeysOne(log, me, d, DropPrepare);
      } else {
        ApplyObeys(log, me, d, d.joint.value);
      }
    }
  }
}
