/**
  Every step of every run keeps the invariant: files, runtime and log of every
  peer, whichever handler ran, whether it completed or crashed, whoever watched.
*/
module Steps {
  import opened Records
  import opened Durable
  import opened Runtime
  import opened Plans
  import opened Quorum
  import opened Cluster
  import opened Discipline
  import opened Invariant

  // ----- runtime -----

  ghost predicate AckOnRecord(log: seq<Event>, p: PeerId, q: PeerId, ack: LeaseAck) {
    exists t :: AckSeen(p, q, ack.gen, t, ack.observedAt) in log
  }

  /** Whatever the runtime counts as an answer was given. */
  ghost predicate RuntimeInv(log: seq<Event>, p: PeerId, rt: LeaseRuntime) {
    && (forall q :: q in rt.votes ==> HasCast(log, q, rt.votes[q]))
    && (forall q :: q in rt.jointVotes ==> HasPrepared(log, q, rt.jointVotes[q]))
    && (forall q :: q in rt.leaseAcks ==> AckOnRecord(log, p, q, rt.leaseAcks[q]))
    && (forall q :: q in rt.epochAcks ==> EpochAcked(q, p, rt.epochAcks[q]) in log)
  }

  /** Both clocks of the recovery window are at or past the end of every lease ever granted. */
  ghost predicate LeaseInv(log: seq<Event>, p: PeerId, rt: LeaseRuntime) {
    forall to, gen, t: Instant :: LeaseGranted(p, to, gen, t) in log ==>
      && (rt.notBefore.Some? ==> rt.notBefore.value >= t + LEASE_MS + SETTLE_MS)
      && (rt.inbound.Some? ==> rt.inbound.value.expiresAt >= t + LEASE_MS)
  }

  ghost predicate PeerInv(log: seq<Event>, p: PeerId, peer: Peer) {
    DiskInv(log, p, peer.disk) && RuntimeInv(log, p, peer.rt) && LeaseInv(log, p, peer.rt)
  }

  ghost predicate Inv(c: Cluster) {
    && Orderly(c.log)
    && (forall ev :: ev in c.log ==> ev.who in c.peers && At(ev) <= c.now)
    && (forall p :: p in c.peers ==> PeerInv(c.log, p, c.peers[p]))
  }

  lemma RuntimeGrows(log: seq<Event>, p: PeerId, rt: LeaseRuntime, more: seq<Event>)
    requires RuntimeInv(log, p, rt)
    ensures RuntimeInv(log + more, p, rt)
  {
  }

  /** `less` counts nothing `rt` does not, and waits no shorter. */
  ghost predicate NoMore(less: LeaseRuntime, rt: LeaseRuntime) {
    && (forall q :: q in less.votes ==> q in rt.votes && less.votes[q] == rt.votes[q])
    && (forall q :: q in less.jointVotes ==> q in rt.jointVotes && less.jointVotes[q] == rt.jointVotes[q])
    && (forall q :: q in less.leaseAcks ==> q in rt.leaseAcks && less.leaseAcks[q] == rt.leaseAcks[q])
    && (forall q :: q in less.epochAcks ==> q in rt.epochAcks && less.epochAcks[q] == rt.epochAcks[q])
    && (less.inbound == rt.inbound || less.inbound.None?)
    && (less.notBefore == rt.notBefore || less.notBefore.None?)
  }

  lemma NoMoreKeeps(log: seq<Event>, p: PeerId, less: LeaseRuntime, rt: LeaseRuntime)
    requires RuntimeInv(log, p, rt) && LeaseInv(log, p, rt) && NoMore(less, rt)
    ensures RuntimeInv(log, p, less) && LeaseInv(log, p, less)
  {
  }

  /** Handlers that only touch files leave the runtime as it was. */
  lemma FileHandlersKeepRuntime(me: PeerId, peer: Peer, action: Action, now: Instant)
    requires action.OnEpoch? || action.ManualEpoch? || action.LaunchEpoch? || action.Artifacts? || action.OnSleep?
          || action.StoreLocally?
    ensures PlanOf(me, peer, action, now).runtime == peer.rt
  {
  }

  lemma RecordHandlersKeepRuntime(me: PeerId, peer: Peer, action: Action, now: Instant)
    requires action.OnMembership? || action.RecoverMembership? || action.OnBallot?
    ensures PlanOf(me, peer, action, now).runtime == peer.rt
  {
  }

  lemma RecoveryEpochForgets(me: PeerId, peer: Peer, action: Action, now: Instant)
    requires action.OnRecoveryEpoch?
    ensures NoMore(PlanOf(me, peer, action, now).runtime, peer.rt)
  {
    var rt, rt' := peer.rt, PlanOf(me, peer, action, now).runtime;
    assert rt' == rt || rt' == rt.(inbound := None);
  }

  lemma UpkeepForgets(me: PeerId, peer: Peer, now: Instant)
    ensures NoMore(AuthorityPlan(me, peer.disk, peer.rt, now).runtime, peer.rt)
  {
    var rt, rt' := peer.rt, AuthorityPlan(me, peer.disk, peer.rt, now).runtime;
    assert rt' == rt.(heartbeat := rt'.heartbeat);
  }

  lemma JointHandlersForget(me: PeerId, peer: Peer, action: Action, now: Instant)
    requires action.OnProposal? || action.OnCommit?
    ensures NoMore(PlanOf(me, peer, action, now).runtime, peer.rt)
  {
    var rt, rt' := peer.rt, PlanOf(me, peer, action, now).runtime;
    assert rt' == rt || rt' == rt.(heartbeat := 0) || rt' == rt.(heartbeat := 0, jointVotes := map[]);
  }

  lemma PromotionForgets(me: PeerId, peer: Peer, wake: bool, ready: bool, now: Instant, votes: seq<Vote>)
    ensures NoMore(PromotePlan(me, peer.disk, peer.rt, wake, ready, now, votes).runtime, peer.rt)
  {
    var rt := peer.rt;
    var plan := PromotePlan(me, peer.disk, rt, wake, ready, now, votes);
    if MayDrive(me, peer.disk, rt, wake, ready, now) && plan.runtime != rt {
      assert plan.runtime == rt.(leaseAcks := map[], epochAcks := map[], inbound := None, ballot := None,
                                 votes := map[]);
    }
  }

  /** Most handlers add nothing to the runtime. */
  lemma PlanAddsNothing(me: PeerId, peer: Peer, action: Action, now: Instant)
    requires !action.OnLease? && !action.Drive? && !action.Propose? && !action.Transition?
    ensures NoMore(PlanOf(me, peer, action, now).runtime, peer.rt)
  {
    if action.OnRecoveryEpoch? {
      RecoveryEpochForgets(me, peer, action, now);
    } else if action.Upkeep? {
      UpkeepForgets(me, peer, now);
    } else if action.OnProposal? || action.OnCommit? {
      JointHandlersForget(me, peer, action, now);
    } else if action.Promote? {
      PromotionForgets(me, peer, action.wake, action.meReady, now, action.votes);
    } else if action.OnMembership? || action.RecoverMembership? || action.OnBallot? {
      RecordHandlersKeepRuntime(me, peer, action, now);
    } else {
      FileHandlersKeepRuntime(me, peer, action, now);
    }
  }

  // ----- answers -----

  /** The log once the handler's writes are done. */
  ghost function Filed(log: seq<Event>, me: PeerId, plan: Plan): seq<Event> {
    log + Writes(me, plan.writes)
  }

  /** An answer, if any, is the peer's own, of this moment, and justified by the writes before it. */
  ghost predicate Sound(log: seq<Event>, me: PeerId, answers: seq<Event>, now: Instant) {
    && |answers| <= 1
    && (answers != [] ==>
        answers[0].who == me && !answers[0].Wrote? && At(answers[0]) <= now && Justified(log, answers[0]))
  }

  /** A ballot is answered with a vote only behind its durable promise, outside any prepare, after every lease. */
  lemma VoteIsJustified(log: seq<Event>, me: PeerId, d1: Disk, rt: LeaseRuntime, b: Ballot, wake: bool, now: Instant)
    requires DiskInv(log, me, d1) && LeaseInv(log, me, rt) && forall e :: e in log ==> At(e) <= now
    requires HasPromised(log, me, b) && d1.prepare.None? && d1.membership == Some(b.membership)
    requires wake || WindowOpen(rt, b.base, now)
    ensures Justified(log, VoteCast(me, b, wake, now))
  {
  }

  lemma FiledLog(log: seq<Event>, me: PeerId, writes: seq<Write>, w: Write)
    requires w in writes
    ensures Wrote(me, w) in log + Writes(me, writes)
  {
    var i :| 0 <= i < |writes| && writes[i] == w;
    assert Writes(me, writes)[i] == Wrote(me, w);
  }

  lemma SameLeases(log: seq<Event>, me: PeerId, writes: seq<Write>, rt: LeaseRuntime)
    requires LeaseInv(log, me, rt)
    ensures LeaseInv(log + Writes(me, writes), me, rt)
  {
  }

  lemma SameTimes(log: seq<Event>, me: PeerId, writes: seq<Write>, now: Instant)
    requires forall e :: e in log ==> At(e) <= now
    ensures forall e :: e in log + Writes(me, writes) ==> At(e) <= now
  {
  }

  /** The vote leaves once the promise is on disk, now or since an earlier attempt. */
  lemma PromisedAnswer(log: seq<Event>, me: PeerId, peer: Peer, writes: seq<Write>, b: Ballot, now: Instant)
    requires PeerInv(log, me, peer) && forall e :: e in log ==> At(e) <= now
    requires (writes == [] && peer.disk.promise == Some(b)) || writes == [PutPromise(b)]
    requires peer.disk.prepare.None? && peer.disk.membership == Some(b.membership)
    requires peer.disk.sleep.Some? || WindowOpen(peer.rt, b.base, now)
    requires DiskInv(log + Writes(me, writes), me, Replay(peer.disk, writes))
    ensures Justified(log + Writes(me, writes), VoteCast(me, b, peer.disk.sleep.Some?, now))
  {
    var d := peer.disk;
    SameLeases(log, me, writes, peer.rt);
    SameTimes(log, me, writes, now);
    if writes == [] {
      assert log + Writes(me, writes) == log;
    } else {
      FiledLog(log, me, writes, PutPromise(b));
      ReplayOne(d, PutPromise(b));
    }
    VoteIsJustified(log + Writes(me, writes), me, Replay(d, writes), peer.rt, b, d.sleep.Some?, now);
  }

  lemma BallotAnswer(log: seq<Event>, me: PeerId, peer: Peer, sender: PeerId, b: Ballot, now: Instant)
    requires PeerInv(log, me, peer) && forall e :: e in log ==> At(e) <= now
    requires var plan := BallotPlan(peer.disk, peer.rt, sender, b, now);
             DiskInv(Filed(log, me, plan), me, Replay(peer.disk, plan.writes))
    ensures var plan := BallotPlan(peer.disk, peer.rt, sender, b, now);
            Sound(Filed(log, me, plan), me, Cast(me, peer, plan.reply, now), now)
  {
    var plan := BallotPlan(peer.disk, peer.rt, sender, b, now);
    if plan.reply.VoteReply? { PromisedAnswer(log, me, peer, plan.writes, b, now); }
  }

  /** What a voting attempt answers with is what it wrote, or holds, as its promise. */
  lemma AttemptVotes(me: PeerId, d: Disk, rt: LeaseRuntime)
    requires CanAttempt(d)
    ensures var plan := BallotAttempt(me, d, rt);
            plan.reply.VoteReply? ==>
              && var b := plan.reply.ballot;
              && ((plan.writes == [] && d.promise == Some(b)) || plan.writes == [PutPromise(b)])
              && d.membership == Some(b.membership) && b.base == d.epoch.value.gen
              && plan.runtime == rt.(ballot := Some(b), votes := map[me := b])
    ensures var plan := BallotAttempt(me, d, rt);
            !plan.reply.VoteReply? ==> plan.runtime == rt.(roundFloor := plan.runtime.roundFloor)
  {
  }

  lemma AttemptAnswer(log: seq<Event>, me: PeerId, peer: Peer, now: Instant)
    requires PeerInv(log, me, peer) && forall e :: e in log ==> At(e) <= now
    requires CanAttempt(peer.disk) && peer.disk.prepare.None?
    requires peer.disk.sleep.Some? || WindowOpen(peer.rt, peer.disk.epoch.value.gen, now)
    requires var plan := BallotAttempt(me, peer.disk, peer.rt);
             DiskInv(Filed(log, me, plan), me, Replay(peer.disk, plan.writes))
    ensures var plan := BallotAttempt(me, peer.disk, peer.rt);
            Sound(Filed(log, me, plan), me, Cast(me, peer, plan.reply, now), now)
  {
    var plan := BallotAttempt(me, peer.disk, peer.rt);
    AttemptVotes(me, peer.disk, peer.rt);
    if plan.reply.VoteReply? { PromisedAnswer(log, me, peer, plan.writes, plan.reply.ballot, now); }
  }

  /** A lease is granted only to the authority of the stored record, for its generation. */
  lemma LeaseAnswer(log: seq<Event>, me: PeerId, peer: Peer, sender: PeerId, gen: Generation, ms: nat, now: Instant)
    requires PeerInv(log, me, peer)
    requires LeasePlan(peer.disk, peer.rt, sender, gen, ms, now).reply.LeaseAccepted?
    ensures Justified(log, LeaseGranted(me, sender, gen, now))
  {
  }

  /** An epoch is acknowledged to its authority only once it is stored. */
  lemma EpochAnswer(log: seq<Event>, me: PeerId, peer: Peer, action: Action, now: Instant)
    requires PeerInv(log, me, peer) && (action.OnRecoveryEpoch? || action.OnEpoch?)
    requires PlanOf(me, peer, action, now).reply.EpochAccepted?
    ensures PlanOf(me, peer, action, now).reply.gen == action.epoch.gen
    ensures HasStored(Filed(log, me, PlanOf(me, peer, action, now)), me, action.epoch)
  {
    var plan, e := PlanOf(me, peer, action, now), action.epoch;
    if peer.disk.epoch == Some(e) {
      var proof :| Wrote(me, PutEpoch(e, proof)) in log;
      assert Wrote(me, PutEpoch(e, proof)) in Filed(log, me, plan);
    } else {
      var proof := if action.OnRecoveryEpoch? then Some(action.certificate) else None;
      assert plan.writes[if action.OnRecoveryEpoch? then 1 else 0] == PutEpoch(e, proof);
      FiledLog(log, me, plan.writes, PutEpoch(e, proof));
    }
  }

  /** A recovery permit rests on the epoch acknowledgements of a majority. */
  lemma EpochMajority(log: seq<Event>, me: PeerId, roster: seq<Member>, rt: LeaseRuntime, gen: Generation)
    requires RuntimeInv(log, me, rt) && IsActive(roster, me)
    requires HasQuorum(|Active(roster)|, |EpochConfirmed(me, roster, rt, gen)|)
    ensures Majority(Acknowledged(log, me, gen, Active(roster)), Active(roster))
  {
    var members := Active(roster);
    var acked := Acknowledged(log, me, gen, members);
    assert acked * members == acked;
    SubsetCardinality(EpochConfirmed(me, roster, rt, gen), acked);
  }

  /** Every permit rests on the fresh lease acknowledgements of a majority. */
  lemma LeaseMajority(log: seq<Event>, me: PeerId, roster: seq<Member>, rt: LeaseRuntime, gen: Generation, now: Instant)
    requires RuntimeInv(log, me, rt) && IsActive(roster, me)
    requires HasQuorum(|Active(roster)|, |Confirmed(me, roster, rt, gen, now)|)
    ensures Majority(Confirmed(me, roster, rt, gen, now), Active(roster))
    ensures forall q :: q in Confirmed(me, roster, rt, gen, now) && q != me ==> FreshAck(log, me, q, gen, now)
  {
    var backers := Confirmed(me, roster, rt, gen, now);
    assert backers * Active(roster) == backers;
    forall q | q in backers && q != me
      ensures FreshAck(log, me, q, gen, now)
    {
      assert AckOnRecord(log, me, q, rt.leaseAcks[q]);
    }
  }

  lemma PermitAnswer(log: seq<Event>, me: PeerId, peer: Peer, now: Instant)
    requires PeerInv(log, me, peer) && forall e :: e in log ==> At(e) <= now
    requires AuthorityPlan(me, peer.disk, peer.rt, now).reply.PermitRefreshed?
    ensures var d, gen := peer.disk, peer.disk.epoch.value.gen;
            Justified(log, PermitGranted(me, gen, Active(d.roster), Confirmed(me, d.roster, peer.rt, gen, now), now))
  {
    var d, e := peer.disk, peer.disk.epoch.value;
    assert HasStored(log, me, e);
    LeaseMajority(log, me, d.roster, peer.rt, e.gen, now);
    if e.mode.Recovery? { EpochMajority(log, me, d.roster, peer.rt, e.gen); }
  }

  lemma DriveAnswer(log: seq<Event>, me: PeerId, peer: Peer, wake: bool, ready: bool, now: Instant)
    requires PeerInv(log, me, peer) && forall e :: e in log ==> At(e) <= now
    requires var plan := DrivePlan(me, peer.disk, peer.rt, wake, ready, now);
             DiskInv(Filed(log, me, plan), me, Replay(peer.disk, plan.writes))
    ensures var plan := DrivePlan(me, peer.disk, peer.rt, wake, ready, now);
            Sound(Filed(log, me, plan), me, Cast(me, peer, plan.reply, now), now)
  {
    if MayDrive(me, peer.disk, peer.rt, wake, ready, now) { AttemptAnswer(log, me, peer, now); }
  }

  lemma EpochSound(log: seq<Event>, me: PeerId, peer: Peer, action: Action, now: Instant)
    requires PeerInv(log, me, peer) && (action.OnRecoveryEpoch? || action.OnEpoch?)
    ensures var plan := PlanOf(me, peer, action, now);
            Sound(Filed(log, me, plan), me, Acked(me, action.sender, action.epoch, plan.reply), now)
  {
    if PlanOf(me, peer, action, now).reply.EpochAccepted? { EpochAnswer(log, me, peer, action, now); }
  }

  lemma TickSound(log: seq<Event>, me: PeerId, peer: Peer, action: Action, now: Instant)
    requires PeerInv(log, me, peer) && forall e :: e in log ==> At(e) <= now
    requires action.OnLease? || action.Upkeep?
    ensures var plan := PlanOf(me, peer, action, now);
            Sound(Filed(log, me, plan), me, Answers(me, peer, action, plan.reply, now), now)
  {
    var plan := PlanOf(me, peer, action, now);
    if action.OnLease? {
      if plan.reply.LeaseAccepted? {
        LeaseAnswer(log, me, peer, action.sender, action.gen, action.durationMs, now);
        assert Filed(log, me, plan) == log;
      }
    } else if plan.reply.PermitRefreshed? {
      UpkeepShape(me, peer, now);
      UpkeepAnswer(log, me, peer, plan.writes, now);
    }
  }

  lemma AnswersSound(log: seq<Event>, me: PeerId, peer: Peer, action: Action, now: Instant)
    requires PeerInv(log, me, peer) && forall e :: e in log ==> At(e) <= now
    requires var plan := PlanOf(me, peer, action, now);
             DiskInv(Filed(log, me, plan), me, Replay(peer.disk, plan.writes))
    ensures var plan := PlanOf(me, peer, action, now);
            Sound(Filed(log, me, plan), me, Answers(me, peer, action, plan.reply, now), now)
  {
    match action {
      case OnBallot(sender, b) => BallotAnswer(log, me, peer, sender, b, now);
      case Drive(wake, ready) => DriveAnswer(log, me, peer, wake, ready, now);
      case OnLease(_, _, _) => TickSound(log, me, peer, action, now);
      case Upkeep => TickSound(log, me, peer, action, now);
      case OnRecoveryEpoch(_, _, _) => EpochSound(log, me, peer, action, now);
      case OnEpoch(_, _, _, _) => EpochSound(log, me, peer, action, now);
      case _ =>
    }
  }

  /** Clearing a reached promise beside the permit changes nothing the permit rests on. */
  lemma ClearedPermit(log: seq<Event>, me: PeerId, writes: seq<Write>, permit: Event)
    requires permit.PermitGranted? && Justified(log, permit) && (writes == [] || writes == [DropPromise])
    ensures Justified(log + Writes(me, writes), permit)
  {
    if writes == [] {
      assert log + Writes(me, writes) == log;
    } else {
      assert log + Writes(me, writes) == log + [Wrote(me, DropPromise)];
      PermitOutlives(log, Wrote(me, DropPromise), permit);
    }
  }

  lemma UpkeepShape(me: PeerId, peer: Peer, now: Instant)
    requires AuthorityPlan(me, peer.disk, peer.rt, now).reply.PermitRefreshed?
    ensures var plan := AuthorityPlan(me, peer.disk, peer.rt, now);
            && peer.disk.epoch.Some? && plan.reply.gen == peer.disk.epoch.value.gen
            && (plan.writes == [] || plan.writes == [DropPromise])
  {
  }

  lemma UpkeepAnswer(log: seq<Event>, me: PeerId, peer: Peer, writes: seq<Write>, now: Instant)
    requires PeerInv(log, me, peer) && forall e :: e in log ==> At(e) <= now
    requires AuthorityPlan(me, peer.disk, peer.rt, now).reply.PermitRefreshed?
    requires writes == [] || writes == [DropPromise]
    ensures var d, gen := peer.disk, peer.disk.epoch.value.gen;
            Justified(log + Writes(me, writes),
                      PermitGranted(me, gen, Active(d.roster), Confirmed(me, d.roster, peer.rt, gen, now), now))
  {
    var d, gen := peer.disk, peer.disk.epoch.value.gen;
    PermitAnswer(log, me, peer, now);
    ClearedPermit(log, me, writes,
                  PermitGranted(me, gen, Active(d.roster), Confirmed(me, d.roster, peer.rt, gen, now), now));
  }

  lemma PermitOutlives(log: seq<Event>, ev: Event, permit: Event)
    requires permit.PermitGranted? && Justified(log, permit) && ev.Wrote? && !ev.write.PutEpoch?
    requires !ev.write.PutPrepare?
    ensures Justified(log + [ev], permit)
  {
    HeldSnoc(log, permit.who, ev);
    var p, gen := permit.who, permit.gen;
    var log' := log + [ev];
    assert Acknowledged(log', p, gen, permit.electorate) == Acknowledged(log, p, gen, permit.electorate);
    assert forall e :: HasStored(log', p, e) <==> HasStored(log, p, e) by { StoredSame(log, ev, p); }
    forall q | q in permit.backers && q != p
      ensures FreshAck(log', p, q, gen, permit.at)
    {
      var t, seen :| AckSeen(p, q, gen, t, seen) in log && Elapsed(permit.at, seen) < LEASE_MS;
      assert AckSeen(p, q, gen, t, seen) in log';
    }
  }

  lemma StoredSame(log: seq<Event>, ev: Event, p: PeerId)
    requires ev.Wrote? && !ev.write.PutEpoch?
    ensures forall e :: HasStored(log + [ev], p, e) <==> HasStored(log, p, e)
  {
  }

  // ----- the runtime a handler leaves -----

  /** Apart from a lease just granted, new events do not touch the recovery clocks. */
  lemma LeasesFrame(log: seq<Event>, p: PeerId, rt: LeaseRuntime, more: seq<Event>)
    requires LeaseInv(log, p, rt) && forall ev :: ev in more && ev.who == p ==> !ev.LeaseGranted?
    ensures LeaseInv(log + more, p, rt)
  {
  }

  lemma AfterRuntime(log: seq<Event>, me: PeerId, peer: Peer, action: Action, now: Instant)
    requires PeerInv(log, me, peer) && forall e :: e in log ==> At(e) <= now
    ensures var plan := PlanOf(me, peer, action, now);
            var more := Writes(me, plan.writes) + Answers(me, peer, action, plan.reply, now);
            RuntimeInv(log + more, me, plan.runtime) && LeaseInv(log + more, me, plan.runtime)
  {
    if action.OnLease? {
      LeaseClocks(log, me, peer, action, now);
    } else if action.Drive? {
      DriveRuntime(log, me, peer, action.wake, action.meReady, now);
    } else if action.Propose? || action.Transition? {
      JointAnswers(log, me, peer, action, now);
    } else {
      OtherRuntime(log, me, peer, action, now);
    }
  }

  lemma JointAnswers(log: seq<Event>, me: PeerId, peer: Peer, action: Action, now: Instant)
    requires PeerInv(log, me, peer) && (action.Propose? || action.Transition?)
    ensures var plan := PlanOf(me, peer, action, now);
            var more := Writes(me, plan.writes) + Answers(me, peer, action, plan.reply, now);
            RuntimeInv(log + more, me, plan.runtime) && LeaseInv(log + more, me, plan.runtime)
  {
    var plan := PlanOf(me, peer, action, now);
    assert Writes(me, plan.writes) + Answers(me, peer, action, plan.reply, now) == Writes(me, plan.writes);
    JointRuntime(log, me, peer, action, now);
  }

  lemma NoLeaseAnswered(me: PeerId, peer: Peer, action: Action, writes: seq<Write>, reply: Reply, now: Instant,
                        ev: Event)
    requires !action.OnLease? && ev in Writes(me, writes) + Answers(me, peer, action, reply, now)
    ensures !ev.LeaseGranted?
  {
  }

  lemma OtherRuntime(log: seq<Event>, me: PeerId, peer: Peer, action: Action, now: Instant)
    requires PeerInv(log, me, peer)
    requires !action.OnLease? && !action.Drive? && !action.Propose? && !action.Transition?
    ensures var plan := PlanOf(me, peer, action, now);
            var more := Writes(me, plan.writes) + Answers(me, peer, action, plan.reply, now);
            RuntimeInv(log + more, me, plan.runtime) && LeaseInv(log + more, me, plan.runtime)
  {
    var plan := PlanOf(me, peer, action, now);
    var more := Writes(me, plan.writes) + Answers(me, peer, action, plan.reply, now);
    forall ev | ev in more ensures !ev.LeaseGranted? {
      NoLeaseAnswered(me, peer, action, plan.writes, plan.reply, now, ev);
    }
    PlanAddsNothing(me, peer, action, now);
    QuietRuntime(log, me, peer.rt, plan.runtime, more);
  }

  /** A runtime that only forgets stays sound under events that grant no lease. */
  lemma QuietRuntime(log: seq<Event>, me: PeerId, rt: LeaseRuntime, rt': LeaseRuntime, more: seq<Event>)
    requires RuntimeInv(log, me, rt) && LeaseInv(log, me, rt) && NoMore(rt', rt)
    requires forall ev :: ev in more && ev.who == me ==> !ev.LeaseGranted?
    ensures RuntimeInv(log + more, me, rt') && LeaseInv(log + more, me, rt')
  {
    RuntimeGrows(log, me, rt, more);
    LeasesFrame(log, me, rt, more);
    NoMoreKeeps(log + more, me, rt', rt);
  }

  lemma LeaseClocks(log: seq<Event>, me: PeerId, peer: Peer, action: Action, now: Instant)
    requires PeerInv(log, me, peer) && action.OnLease? && forall e :: e in log ==> At(e) <= now
    ensures var plan := PlanOf(me, peer, action, now);
            var more := Writes(me, plan.writes) + Answers(me, peer, action, plan.reply, now);
            RuntimeInv(log + more, me, plan.runtime) && LeaseInv(log + more, me, plan.runtime)
  {
  }

  lemma AttemptRuntime(log: seq<Event>, me: PeerId, peer: Peer, now: Instant)
    requires PeerInv(log, me, peer) && CanAttempt(peer.disk)
    ensures var plan := BallotAttempt(me, peer.disk, peer.rt);
            var more := Writes(me, plan.writes) + Cast(me, peer, plan.reply, now);
            RuntimeInv(log + more, me, plan.runtime) && LeaseInv(log + more, me, plan.runtime)
  {
  }

  lemma DriveRuntime(log: seq<Event>, me: PeerId, peer: Peer, wake: bool, ready: bool, now: Instant)
    requires PeerInv(log, me, peer)
    ensures var plan := DrivePlan(me, peer.disk, peer.rt, wake, ready, now);
            var more := Writes(me, plan.writes) + Cast(me, peer, plan.reply, now);
            RuntimeInv(log + more, me, plan.runtime) && LeaseInv(log + more, me, plan.runtime)
  {
    if MayDrive(me, peer.disk, peer.rt, wake, ready, now) {
      AttemptRuntime(log, me, peer, now);
    } else {
      assert log + (Writes(me, []) + []) == log;
    }
  }

  lemma JointRuntime(log: seq<Event>, me: PeerId, peer: Peer, action: Action, now: Instant)
    requires PeerInv(log, me, peer) && (action.Propose? || action.Transition?)
    ensures var plan := PlanOf(me, peer, action, now);
            var more := Writes(me, plan.writes);
            RuntimeInv(log + more, me, plan.runtime) && LeaseInv(log + more, me, plan.runtime)
  {
    var plan := PlanOf(me, peer, action, now);
    if action.Propose? {
      ProposeRuntime(me, peer, action.change);
    } else {
      TransitionRuntime(me, peer, action.jointVotes);
    }
    OwnJointVote(log, me, peer, plan.writes, plan.runtime);
  }

  /** A runtime that gained at most the peer's own vote for what it has prepared, or prepares now, is sound. */
  lemma OwnJointVote(log: seq<Event>, me: PeerId, peer: Peer, writes: seq<Write>, rt': LeaseRuntime)
    requires PeerInv(log, me, peer)
    requires NoMore(rt', peer.rt) || (exists q :: OwnVote(me, peer, writes, rt', q))
    ensures RuntimeInv(log + Writes(me, writes), me, rt') && LeaseInv(log + Writes(me, writes), me, rt')
  {
    var more := Writes(me, writes);
    RuntimeGrows(log, me, peer.rt, more);
    LeasesFrame(log, me, peer.rt, more);
    if q :| OwnVote(me, peer, writes, rt', q) {
      if PutPrepare(q) in writes { FiledLog(log, me, writes, PutPrepare(q)); }
      assert HasPrepared(log + more, me, q);
    } else {
      NoMoreKeeps(log + more, me, rt', peer.rt);
    }
  }

  ghost predicate OwnVote(me: PeerId, peer: Peer, writes: seq<Write>, rt': LeaseRuntime, q: Proposal) {
    && (peer.disk.prepare == Some(q) || PutPrepare(q) in writes)
    && rt' == peer.rt.(heartbeat := 0, jointVotes := peer.rt.jointVotes[me := q])
  }

  lemma ProposeRuntime(me: PeerId, peer: Peer, change: Change)
    ensures var plan := ProposePlan(me, peer.disk, peer.rt, change);
            NoMore(plan.runtime, peer.rt) || exists q :: OwnVote(me, peer, plan.writes, plan.runtime, q)
  {
    var plan := ProposePlan(me, peer.disk, peer.rt, change);
    if plan.writes != [] {
      var q := plan.writes[0].proposal;
      assert OwnVote(me, peer, plan.writes, plan.runtime, q);
    } else {
      assert plan.runtime == peer.rt;
    }
  }

  /** The transition tick adds at most the authority's own vote, for the proposal it prepared. */
  lemma TransitionRuntime(me: PeerId, peer: Peer, votes: seq<JointVote>)
    ensures var plan := TransitionPlan(me, peer.disk, peer.rt, votes);
            NoMore(plan.runtime, peer.rt) || exists q :: OwnVote(me, peer, plan.writes, plan.runtime, q)
  {
    var rt, plan := peer.rt, TransitionPlan(me, peer.disk, peer.rt, votes);
    var rt' := plan.runtime;
    assert peer.disk.prepare.None? ==> rt' == rt;
    if peer.disk.prepare.Some? {
      var q := peer.disk.prepare.value;
      assert rt' == rt || rt' == rt.(heartbeat := 0) || rt' == rt.(heartbeat := 0, jointVotes := map[])
          || OwnVote(me, peer, plan.writes, rt', q);
    }
  }

  // ----- steps -----

  /** Peers that did nothing keep their part whatever others wrote or answered. */
  lemma BystanderKeeps(log: seq<Event>, p: PeerId, peer: Peer, more: seq<Event>)
    requires PeerInv(log, p, peer) && forall ev :: ev in more ==> ev.who != p
    ensures PeerInv(log + more, p, peer)
  {
    DiskFrame(log, p, peer.disk, more);
    RuntimeGrows(log, p, peer.rt, more);
    LeasesFrame(log, p, peer.rt, more);
  }

  /** One peer's move keeps the invariant if that peer's part and the log's order survive it. */
  lemma MoveKeeps(c: Cluster, me: PeerId, peer: Peer, events: seq<Event>)
    requires Inv(c) && me in c.peers
    requires forall ev :: ev in events ==> ev.who == me && At(ev) <= c.now
    requires Orderly(c.log + events) && PeerInv(c.log + events, me, peer)
    ensures Inv(SetPeer(c, me, peer, events))
  {
    var c' := SetPeer(c, me, peer, events);
    forall p | p in c'.peers
      ensures PeerInv(c'.log, p, c'.peers[p])
    {
      if p != me { BystanderKeeps(c.log, p, c.peers[p], events); }
    }
  }

  /** A crash after any obedient run of writes. */
  lemma CutKeeps(c: Cluster, me: PeerId, done: seq<Write>)
    requires Inv(c) && me in c.peers && ObeysAll(c.log, me, c.peers[me].disk, done)
    ensures Inv(SetPeer(c, me, Peer(Replay(c.peers[me].disk, done), BLANK), Writes(me, done)))
  {
    WritesKeep(c.log, me, c.peers[me].disk, done);
    MoveKeeps(c, me, Peer(Replay(c.peers[me].disk, done), BLANK), Writes(me, done));
  }

  lemma CrashKeeps(c: Cluster, me: PeerId, action: Action, writes: seq<Write>, after: nat)
    requires Inv(c) && me in c.peers && Authentic(c.log, me, action)
    requires writes == PlanOf(me, c.peers[me], action, c.now).writes && after <= |writes|
    ensures Inv(SetPeer(c, me, Peer(Replay(c.peers[me].disk, writes[..after]), BLANK), Writes(me, writes[..after])))
  {
    PlanObeys(c.log, me, c.peers[me], action, c.now);
    ObeysPrefix(c.log, me, c.peers[me].disk, writes, after);
    CutKeeps(c, me, writes[..after]);
  }

  lemma AnswersAside(log: seq<Event>, me: PeerId, answers: seq<Event>, now: Instant)
    requires Sound(log, me, answers, now)
    ensures Aside(log, me, answers)
  {
  }

  lemma AnswersOrderly(log: seq<Event>, me: PeerId, answers: seq<Event>, now: Instant)
    requires Orderly(log) && Sound(log, me, answers, now)
    ensures Orderly(log + answers)
  {
    if answers == [] {
      assert log + answers == log;
    } else {
      assert answers == [answers[0]];
      OrderlySnoc(log, answers[0]);
    }
  }

  lemma AnswerKeeps(log: seq<Event>, me: PeerId, d: Disk, answers: seq<Event>, now: Instant)
    requires DiskInv(log, me, d) && Orderly(log) && Sound(log, me, answers, now)
    ensures DiskInv(log + answers, me, d) && Orderly(log + answers)
  {
    AnswersAside(log, me, answers, now);
    AnswersOrderly(log, me, answers, now);
    DiskFrame(log, me, d, answers);
  }

  lemma PeerAfter(log: seq<Event>, me: PeerId, d: Disk, done: seq<Event>, answers: seq<Event>, rt: LeaseRuntime,
                  now: Instant)
    requires DiskInv(log + done, me, d) && Orderly(log + done) && Sound(log + done, me, answers, now)
    requires RuntimeInv(log + (done + answers), me, rt) && LeaseInv(log + (done + answers), me, rt)
    ensures PeerInv(log + (done + answers), me, Peer(d, rt)) && Orderly(log + (done + answers))
  {
    AnswerKeeps(log + done, me, d, answers, now);
    assert log + (done + answers) == log + done + answers;
  }

  lemma OwnEvents(log: seq<Event>, me: PeerId, writes: seq<Write>, answers: seq<Event>, now: Instant)
    requires Sound(log, me, answers, now)
    ensures forall ev :: ev in Writes(me, writes) + answers ==> ev.who == me && At(ev) <= now
  {
  }

  /** A completed handler: its obedient writes, then its sound answers, then the runtime it leaves. */
  lemma DoneKeeps(c: Cluster, me: PeerId, d: Disk, done: seq<Event>, answers: seq<Event>, rt: LeaseRuntime)
    requires Inv(c) && me in c.peers && forall ev :: ev in done + answers ==> ev.who == me && At(ev) <= c.now
    requires DiskInv(c.log + done, me, d) && Orderly(c.log + done) && Sound(c.log + done, me, answers, c.now)
    requires RuntimeInv(c.log + (done + answers), me, rt) && LeaseInv(c.log + (done + answers), me, rt)
    ensures Inv(SetPeer(c, me, Peer(d, rt), done + answers))
  {
    PeerAfter(c.log, me, d, done, answers, rt, c.now);
    MoveKeeps(c, me, Peer(d, rt), done + answers);
  }

  lemma CompleteKeeps(c: Cluster, me: PeerId, peer: Peer, action: Action, plan: Plan)
    requires Inv(c) && me in c.peers && peer == c.peers[me] && Authentic(c.log, me, action)
    requires plan == PlanOf(me, peer, action, c.now)
    ensures Inv(SetPeer(c, me, Peer(Replay(peer.disk, plan.writes), plan.runtime),
                        Writes(me, plan.writes) + Answers(me, peer, action, plan.reply, c.now)))
  {
    PlanObeys(c.log, me, peer, action, c.now);
    WritesKeep(c.log, me, peer.disk, plan.writes);
    AnswersSound(c.log, me, peer, action, c.now);
    AfterRuntime(c.log, me, peer, action, c.now);
    var done, answers := Writes(me, plan.writes), Answers(me, peer, action, plan.reply, c.now);
    OwnEvents(c.log + done, me, plan.writes, answers, c.now);
    DoneKeeps(c, me, Replay(peer.disk, plan.writes), done, answers, plan.runtime);
  }

  /** Steps that change only what a peer holds in memory. */
  lemma MemoryKeeps(c: Cluster, me: PeerId, rt: LeaseRuntime)
    requires Inv(c) && me in c.peers
    requires RuntimeInv(c.log, me, rt) && LeaseInv(c.log, me, rt)
    ensures Inv(SetPeer(c, me, c.peers[me].(rt := rt), []))
  {
    assert c.log + [] == c.log;
    MoveKeeps(c, me, c.peers[me].(rt := rt), []);
  }

  /** Starting the delay now puts it past the end of every lease granted so far. */
  lemma DelayKeeps(c: Cluster, me: PeerId)
    requires Inv(c) && me in c.peers
    ensures Inv(SetPeer(c, me, c.peers[me].(rt := StartDelay(c.peers[me].rt, c.now)), []))
  {
    forall to, gen, t: Instant | LeaseGranted(me, to, gen, t) in c.log
      ensures t <= c.now
    {
      assert At(LeaseGranted(me, to, gen, t)) <= c.now;
    }
    assert PeerInv(c.log, me, c.peers[me]);
    MemoryKeeps(c, me, StartDelay(c.peers[me].rt, c.now));
  }

  /** Something a peer saw or vouched for, without writing, voting or granting. */
  lemma WitnessKeeps(c: Cluster, me: PeerId, rt: LeaseRuntime, ev: Event)
    requires Inv(c) && me in c.peers && Justified(c.log, ev)
    requires ev.who == me && (ev.AckSeen? || ev.FreshVoted?) && At(ev) <= c.now
    requires RuntimeInv(c.log + [ev], me, rt) && LeaseInv(c.log, me, rt)
    ensures Inv(SetPeer(c, me, c.peers[me].(rt := rt), [ev]))
  {
    assert PeerInv(c.log, me, c.peers[me]);
    AnswerKeeps(c.log, me, c.peers[me].disk, [ev], c.now);
    LeasesFrame(c.log, me, rt, [ev]);
    MoveKeeps(c, me, c.peers[me].(rt := rt), [ev]);
  }

  lemma AckKeeps(c: Cluster, me: PeerId, rt: LeaseRuntime, backer: PeerId, gen: Generation, grantedAt: Instant)
    requires Inv(c) && me in c.peers && rt == c.peers[me].rt && LeaseGranted(backer, me, gen, grantedAt) in c.log
    ensures Inv(SetPeer(c, me, c.peers[me].(rt := ReceiveLeaseAck(rt, backer, gen, c.now)),
                        [AckSeen(me, backer, gen, grantedAt, c.now)]))
  {
    var ev := AckSeen(me, backer, gen, grantedAt, c.now);
    var rt' := ReceiveLeaseAck(rt, backer, gen, c.now);
    assert At(LeaseGranted(backer, me, gen, grantedAt)) <= c.now;
    assert PeerInv(c.log, me, c.peers[me]);
    AckReceived(c.log, me, rt, ev);
    WitnessKeeps(c, me, rt', ev);
  }

  lemma AckReceived(log: seq<Event>, me: PeerId, rt: LeaseRuntime, ev: Event)
    requires RuntimeInv(log, me, rt) && ev.AckSeen? && ev.who == me
    ensures RuntimeInv(log + [ev], me, ReceiveLeaseAck(rt, ev.backer, ev.gen, ev.at))
  {
  }

  /** A freshness vote is refused whenever some promise of the voter, cleared or not, lies ahead of the challenge. */
  lemma FreshJustified(log: seq<Event>, me: PeerId, d: Disk, ch: Challenge, configMatches: bool)
    requires VoteInv(log, me, d) && VouchesFresh(me, d, ch, configMatches)
    ensures Justified(log, FreshVoted(me, ch))
  {
  }

  lemma FreshKeeps(c: Cluster, me: PeerId, peer: Peer, ch: Challenge, configMatches: bool)
    requires Inv(c) && me in c.peers && peer == c.peers[me] && VouchesFresh(me, peer.disk, ch, configMatches)
    ensures Inv(SetPeer(c, me, peer, [FreshVoted(me, ch)]))
  {
    assert PeerInv(c.log, me, peer);
    FreshJustified(c.log, me, peer.disk, ch, configMatches);
    RuntimeGrows(c.log, me, peer.rt, [FreshVoted(me, ch)]);
    WitnessKeeps(c, me, peer.rt, FreshVoted(me, ch));
    assert peer.(rt := peer.rt) == peer;
  }

  lemma VoteReceived(log: seq<Event>, me: PeerId, rt: LeaseRuntime, vote: Vote)
    requires RuntimeInv(log, me, rt) && LeaseInv(log, me, rt) && HasCast(log, vote.voter, vote.ballot)
    ensures RuntimeInv(log, me, ReceiveVote(rt, vote.voter, vote))
            && LeaseInv(log, me, ReceiveVote(rt, vote.voter, vote))
  {
  }

  lemma JointVoteReceived(log: seq<Event>, me: PeerId, d: Disk, rt: LeaseRuntime, vote: JointVote)
    requires RuntimeInv(log, me, rt) && LeaseInv(log, me, rt) && HasPrepared(log, vote.voter, vote.proposal)
    ensures var rt' := ReceiveJointVote(d, rt, vote.voter, vote); RuntimeInv(log, me, rt') && LeaseInv(log, me, rt')
  {
  }

  lemma EpochAckReceived(log: seq<Event>, me: PeerId, rt: LeaseRuntime, backer: PeerId, gen: Generation)
    requires RuntimeInv(log, me, rt) && LeaseInv(log, me, rt) && EpochAcked(backer, me, gen) in log
    ensures var rt' := ReceiveEpochAck(rt, backer, gen); RuntimeInv(log, me, rt') && LeaseInv(log, me, rt')
  {
  }

  lemma RejectionReceived(log: seq<Event>, me: PeerId, rt: LeaseRuntime, asked: Ballot, highest: U64)
    requires RuntimeInv(log, me, rt) && LeaseInv(log, me, rt)
    ensures var rt' := ReceiveRejection(rt, asked, highest); RuntimeInv(log, me, rt') && LeaseInv(log, me, rt')
  {
    NoMoreKeeps(log, me, ReceiveRejection(rt, asked, highest), rt);
  }

  /** What a peer remembers of an answer that reaches it. */
  function Heard(peer: Peer, step: Step): LeaseRuntime
    requires step.GetVote? || step.GetRejection? || step.GetEpochAck? || step.GetJointVote?
  {
    match step
    case GetVote(_, vote) => ReceiveVote(peer.rt, vote.voter, vote)
    case GetRejection(_, asked, highest) => ReceiveRejection(peer.rt, asked, highest)
    case GetEpochAck(_, backer, gen) => ReceiveEpochAck(peer.rt, backer, gen)
    case GetJointVote(_, vote) => ReceiveJointVote(peer.disk, peer.rt, vote.voter, vote)
  }

  ghost predicate Backed(log: seq<Event>, me: PeerId, step: Step) {
    && (step.GetVote? ==> HasCast(log, step.vote.voter, step.vote.ballot))
    && (step.GetEpochAck? ==> EpochAcked(step.backer, me, step.gen) in log)
    && (step.GetJointVote? ==> HasPrepared(log, step.jointVote.voter, step.jointVote.proposal))
  }

  lemma HeardSound(log: seq<Event>, me: PeerId, peer: Peer, step: Step)
    requires RuntimeInv(log, me, peer.rt) && LeaseInv(log, me, peer.rt) && Backed(log, me, step)
    requires step.GetVote? || step.GetRejection? || step.GetEpochAck? || step.GetJointVote?
    ensures RuntimeInv(log, me, Heard(peer, step)) && LeaseInv(log, me, Heard(peer, step))
  {
    match step {
      case GetVote(_, vote) => VoteReceived(log, me, peer.rt, vote);
      case GetRejection(_, asked, highest) => RejectionReceived(log, me, peer.rt, asked, highest);
      case GetEpochAck(_, backer, gen) => EpochAckReceived(log, me, peer.rt, backer, gen);
      case GetJointVote(_, vote) => JointVoteReceived(log, me, peer.disk, peer.rt, vote);
    }
  }

  /** Answers that reach the asking peer. */
  lemma HeardKeeps(c: Cluster, c': Cluster, step: Step, peer: Peer)
    requires Inv(c) && Next(c, c', step) && !step.Elapse? && peer == c.peers[step.who]
    requires step.GetVote? || step.GetRejection? || step.GetEpochAck? || step.GetJointVote?
    ensures Inv(c')
  {
    assert PeerInv(c.log, step.who, peer);
    HeardSound(c.log, step.who, peer, step);
    MemoryKeeps(c, step.who, Heard(peer, step));
  }

  lemma DroppedKeeps(c: Cluster, c': Cluster, step: Step, peer: Peer)
    requires Inv(c) && Next(c, c', step) && !step.Elapse? && peer == c.peers[step.who]
    requires step.Look? || step.BeginDelay? || step.DropSleeping? || step.DropUnreadable?
    ensures Inv(c')
  {
    var me := step.who;
    assert PeerInv(c.log, me, peer);
    match step {
      case Look(_, seen) =>
        NoMoreKeeps(c.log, me, seen, peer.rt);
        MemoryKeeps(c, me, seen);
      case BeginDelay(_) => DelayKeeps(c, me);
      case DropSleeping(_) => MemoryKeeps(c, me, ClearSleeping(peer.rt));
      case DropUnreadable(_) => MemoryKeeps(c, me, ClearWorld(peer.rt));
    }
  }

  /** A handler that completes, and one that a crash cuts short. */
  lemma ServedKeeps(c: Cluster, c': Cluster, step: Step, peer: Peer)
    requires Inv(c) && Next(c, c', step) && !step.Elapse? && peer == c.peers[step.who]
    requires step.Complete? || step.Crash?
    ensures Inv(c')
  {
    var plan := PlanOf(step.who, peer, step.action, c.now);
    if step.Complete? {
      CompleteKeeps(c, step.who, peer, step.action, plan);
    } else {
      CrashKeeps(c, step.who, step.action, plan.writes, step.after);
    }
  }

  /** Steps that leave a mark in the log and none on the disk. */
  lemma MarkedKeeps(c: Cluster, c': Cluster, step: Step, peer: Peer)
    requires Inv(c) && Next(c, c', step) && !step.Elapse? && peer == c.peers[step.who]
    requires step.GetLeaseAck? || step.VoteFresh?
    ensures Inv(c')
  {
    if step.GetLeaseAck? {
      AckKeeps(c, step.who, peer.rt, step.backer, step.gen, step.grantedAt);
    } else {
      FreshKeeps(c, step.who, peer, step.challenge, step.configMatches);
    }
  }

  /** Every step keeps the invariant. */
  lemma NextKeeps(c: Cluster, c': Cluster, step: Step)
    requires Inv(c) && Next(c, c', step)
    ensures Inv(c')
  {
    if step.Elapse? {
    } else if step.Complete? || step.Crash? {
      ServedKeeps(c, c', step, c.peers[step.who]);
    } else if step.GetLeaseAck? || step.VoteFresh? {
      MarkedKeeps(c, c', step, c.peers[step.who]);
    } else if step.Look? || step.BeginDelay? || step.DropSleeping? || step.DropUnreadable? {
      DroppedKeeps(c, c', step, c.peers[step.who]);
    } else {
      HeardKeeps(c, c', step, c.peers[step.who]);
    }
  }

  lemma InitHolds(c: Cluster)
    requires Init(c)
    ensures Inv(c)
  {
  }

  /** Every state of every run satisfies the invariant. */
  lemma {:induction false} RunKeeps(run: Run, i: nat)
    requires run.Valid() && i < |run.states|
    ensures Inv(run.states[i])
  {
    if i == 0 {
      InitHolds(run.states[0]);
    } else {
      RunKeeps(run, i - 1);
      NextKeeps(run.states[i - 1], run.states[i], run.steps[i - 1]);
    }
  }

  lemma RunStep(run: Run, i: nat)
    requires run.Valid() && i < |run.steps|
    ensures Inv(run.states[i]) && Next(run.states[i], run.states[i + 1], run.steps[i])
  {
    RunKeeps(run, i);
  }
}
