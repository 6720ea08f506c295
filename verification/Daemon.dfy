/**
  One peer's daemon for one world: the request handlers, the response handlers
  and the branches of the periodic tick, as code that updates the runtime and
  the files in place. Each does exactly what its plan says, write by write.
*/
module Daemon {
  import opened Records
  import opened Durable
  import opened Storage
  import opened Runtime
  import opened Quorum
  import opened Certificates
  import opened Plans
  import opened Rules
  import opened MemberRules
  import opened Election
  import opened Survey

  class Daemon {
    const me: PeerId
    const storage: Store
    var connected: set<PeerId>
    var leaseAcks: map<PeerId, LeaseAck>
    var ballot: Option<Ballot>
    var votes: map<PeerId, Ballot>
    var jointVotes: map<PeerId, Proposal>
    var roundFloor: U64
    var epochAcks: map<PeerId, Generation>
    var heartbeat: U64
    var inbound: Option<InboundLease>
    var notBefore: Option<Instant>
    var statuses: map<PeerId, ObservedStatus>
    var capabilities: map<PeerId, ObservedCapability>

    function Runtime(): LeaseRuntime
      reads this
    {
      LeaseRuntime(connected, leaseAcks, ballot, votes, jointVotes, roundFloor, epochAcks, heartbeat, inbound,
                   notBefore, statuses, capabilities)
    }

    ghost predicate Valid()
      reads this, storage
    {
      storage.Valid()
    }

    /** A start, first or after a crash: the files as they are, nothing in memory. */
    constructor (id: PeerId, store: Store)
      requires store.Valid()
      ensures Valid() && me == id && storage == store && Runtime() == BLANK
    {
      me, storage := id, store;
      connected, leaseAcks, ballot, votes, jointVotes := {}, map[], None, map[], map[];
      roundFloor, epochAcks, heartbeat, inbound, notBefore := 0, map[], 0, None, None;
      statuses, capabilities := map[], map[];
    }

    /** The plan's writes were made, in order, and its runtime is the present one. */
    twostate predicate Did(plan: Plan)
      reads this, storage
    {
      storage.Wrote(plan.writes) && Runtime() == plan.runtime
    }

    // ----- recovery -----

    /** A vote leaves only once its promise is on disk, on the present base, outside any prepare and after the lease. */
    method HandleRecoveryBallot(sender: PeerId, b: Ballot, now: Instant) returns (reply: Reply)
      requires Valid()
      modifies this, storage
      ensures var plan := BallotPlan(old(storage.Files()), old(Runtime()), sender, b, now);
              Did(plan) && reply == plan.reply
      ensures Ordered(old(storage.roster)) ==>
                reply == if !VoteDue(old(storage.Files()), old(Runtime()), sender, b, now) then Denied
                         else if PromiseAllows(old(storage.promise), b) then VoteReply(b)
                         else RoundRejected(old(storage.promise).value.round)
      ensures reply.VoteReply? ==>
                && reply.ballot == b && storage.promise == Some(b) && storage.prepare.None?
                && storage.epoch.Some? && storage.epoch.value.gen == b.base && storage.membership == Some(b.membership)
                && (storage.sleep.None? ==> WindowOpen(Runtime(), b.base, now))
      ensures !reply.VoteReply? ==> storage.Files() == old(storage.Files())
      ensures old(storage.promise).Some? ==>
              storage.promise.Some? && SameValue(old(storage.promise).value, storage.promise.value)
    {
      if Ordered(storage.roster) { VoteExactly(storage.Files(), Runtime(), sender, b, now); }
      if storage.prepare.Some? || sender != b.candidate || !b.WellFormed() || !MayLead(storage.roster, b.candidate) {
        return Denied;
      }
      if storage.epoch.None? || b.base != storage.epoch.value.gen || storage.head.None? {
        return Denied;
      }
      var epoch, head := storage.epoch.value, storage.head.value;
      if head.manifest != b.snapshot || head.stateRoot != b.state {
        return Denied;
      }
      if storage.sleep.Some? {
        if !SleepMatches(storage.sleep.value, epoch, head) {
          return Denied;
        }
      } else if epoch.authority in connected || !WindowOpen(Runtime(), b.base, now) {
        return Denied;
      }
      if !FreshStatus(Runtime(), b.candidate, now)
         || !StatusMatches(statuses[b.candidate].status, storage.fingerprint, b.base.epoch, head)
         || !CandidateReady(Runtime(), b.candidate, storage.fingerprint, now)
         || storage.membership != Some(b.membership)
      {
        return Denied;
      }
      var result := storage.PromiseRecoveryBallot(b);
      match result {
        case Rejected(highest) => reply := RoundRejected(highest);
        case _ => reply := VoteReply(b);
      }
    }

    /** Certificate, epoch, sleep boundary, promise: in this order. */
    method HandleRecoveryEpoch(sender: PeerId, e: EpochRecord, c: RecoveryCertificate) returns (reply: Reply)
      requires Valid()
      modifies this, storage
      ensures var plan := RecoveryEpochPlan(old(storage.Files()), old(Runtime()), sender, e, c);
              Did(plan) && reply == plan.reply
      ensures Ordered(old(storage.roster)) ==>
                if AcceptDue(old(storage.Files()), sender, e, c)
                then reply == EpochAccepted(e.gen) && storage.Files() == Installed(old(storage.Files()), e, c)
                else reply == Denied && storage.Files() == old(storage.Files()) && Runtime() == old(Runtime())
    {
      if Ordered(storage.roster) { AcceptExactly(storage.Files(), Runtime(), sender, e, c); }
      reply := AdmitRecoveryEpoch(sender, e, c);
    }

    method AdmitRecoveryEpoch(sender: PeerId, e: EpochRecord, c: RecoveryCertificate) returns (reply: Reply)
      requires Valid()
      modifies this, storage
      ensures var plan := RecoveryEpochPlan(old(storage.Files()), old(Runtime()), sender, e, c);
              Did(plan) && reply == plan.reply
    {
      var valid := ValidateRecoveryEpoch(sender, e, c);
      if storage.prepare.Some? || !valid {
        return Denied;
      }
      var repeated := storage.epoch == Some(e);
      if !repeated {
        if storage.epoch.Some? && !Follows(storage.epoch.value, e) {
          return Denied;
        }
        if storage.promise.Some? && (storage.promise.value.round > c.ballot.round
             || (storage.promise.value.round == c.ballot.round && storage.promise.value != c.ballot))
        {
          return Denied;
        }
      }
      if repeated {
        Refile(e, c);
      } else {
        Install(e, c, Voters(c.ballot.membership));
        inbound := None;
      }
      return EpochAccepted(e.gen);
    }

    /** The quorum proof, then the epoch, then the leftovers of the generation that was left. */
    method Install(e: EpochRecord, c: RecoveryCertificate, electorate: set<PeerId>)
      requires Valid() && (storage.epoch.Some? ==> Follows(storage.epoch.value, e))
      modifies storage
      ensures var d, filed := old(storage.Files()), PutCertificate(c, electorate);
              storage.Wrote([filed, PutEpoch(e, Some(c))] + (ClearSleep(d) + ClearPromise(d, e.gen.epoch)))
    {
      ghost var d0, j0 := storage.Files(), storage.journal;
      var filed := PutCertificate(c, electorate);
      storage.Put(filed);
      ghost var d1, j1 := storage.Files(), storage.journal;
      ReplayOne(d0, filed);
      SuccessorIsSaved(d1, e, Some(c));
      var saved := storage.SaveEpochRecord(e, Some(c));
      ghost var d2, j2 := storage.Files(), storage.journal;
      ReplayOne(d1, PutEpoch(e, Some(c)));
      Sequenced(d0, d1, d2, j0, j1, j2, [filed], [PutEpoch(e, Some(c))]);
      CleanUp(e.gen.epoch);
      Sequenced(d0, d2, storage.Files(), j0, j2, storage.journal, [filed] + [PutEpoch(e, Some(c))],
                ClearSleep(d0) + ClearPromise(d0, e.gen.epoch));
      assert [filed] + [PutEpoch(e, Some(c))] == [filed, PutEpoch(e, Some(c))];
    }

    /** A repeated epoch files its proof again and clears what a crash left behind. */
    method Refile(e: EpochRecord, c: RecoveryCertificate)
      requires Valid()
      modifies storage
      ensures var d, filed := old(storage.Files()), PutCertificate(c, Voters(c.ballot.membership));
              storage.Wrote([filed] + (ClearSleep(d) + ClearPromise(d, e.gen.epoch)))
    {
      ghost var d0, j0 := storage.Files(), storage.journal;
      var filed := PutCertificate(c, Voters(c.ballot.membership));
      storage.Put(filed);
      ghost var d1, j1 := storage.Files(), storage.journal;
      ReplayOne(d0, filed);
      CleanUp(e.gen.epoch);
      Sequenced(d0, d1, storage.Files(), j0, j1, storage.journal, [filed],
                ClearSleep(d0) + ClearPromise(d0, e.gen.epoch));
    }

    method CleanUp(acceptedEpoch: U64)
      requires Valid()
      modifies storage
      ensures var d := old(storage.Files()); storage.Wrote(ClearSleep(d) + ClearPromise(d, acceptedEpoch))
    {
      ghost var d0, j0 := storage.Files(), storage.journal;
      storage.ClearSleepRecord();
      ghost var d1, j1 := storage.Files(), storage.journal;
      ClearSleepKeeps(d0);
      storage.ClearRecoveryPromiseAfterEpochAdvance(acceptedEpoch);
      Sequenced(d0, d1, storage.Files(), j0, j1, storage.journal, ClearSleep(d0), ClearPromise(d0, acceptedEpoch));
    }

    method ValidateRecoveryEpoch(sender: PeerId, e: EpochRecord, c: RecoveryCertificate) returns (ok: bool)
      ensures ok == CertifiedRecord(storage.Files(), sender, e, c)
      ensures Ordered(storage.roster) ==> (ok <==> OnCertifiedBase(storage.Files(), sender, e, c))
    {
      if Ordered(storage.roster) { CertifiedExactly(storage.Files(), sender, e, c); }
      if !e.mode.Recovery? || !IsActive(storage.roster, sender) || !MayLead(storage.roster, e.authority)
         || storage.head.None?
      {
        return false;
      }
      var head := storage.head.value;
      if head.stateRoot != e.baseState || sender != c.ballot.candidate || e.authority != c.ballot.candidate
         || e.gen != c.ballot.target || e.baseState != c.ballot.state || head.manifest != c.ballot.snapshot
         || storage.membership != Some(c.ballot.membership)
      {
        return false;
      }
      ok := ValidateRecoveryShape(c, Voters(c.ballot.membership));
    }

    // ----- leases -----

    /** A granted lease closes the recovery window for 7,000 ms, whatever generation a ballot names. */
    method HandleLeaseGrant(sender: PeerId, gen: Generation, durationMs: nat, now: Instant) returns (reply: Reply)
      requires Valid()
      modifies this, storage
      ensures var plan := LeasePlan(old(storage.Files()), old(Runtime()), sender, gen, durationMs, now);
              Did(plan) && reply == plan.reply
      ensures Ordered(storage.roster) ==>
                if LeaseDue(storage.Files(), sender, gen, durationMs)
                then reply == LeaseAccepted(gen) && notBefore == Some(now + 7_000) else reply == Denied
      ensures reply.LeaseAccepted? ==>
                && storage.epoch.Some? && storage.epoch.value.gen == gen && storage.epoch.value.authority == sender
                && forall base, at: Instant :: at < now + 7_000 ==> !WindowOpen(Runtime(), base, at)
      ensures !reply.LeaseAccepted? ==> Runtime() == old(Runtime())
      ensures storage.Files() == old(storage.Files())
    {
      if Ordered(storage.roster) { LeaseExactly(storage.Files(), Runtime(), sender, gen, durationMs, now); }
      if storage.prepare.Some? || !MayLead(storage.roster, sender) || durationMs != LEASE_MS {
        return Denied;
      }
      if storage.epoch.None? || gen != storage.epoch.value.gen || sender != storage.epoch.value.authority {
        return Denied;
      }
      var expires := now + durationMs;
      inbound := Some(InboundLease(gen, expires));
      notBefore := Some(expires + SETTLE_MS);
      return LeaseAccepted(gen);
    }

    // ----- epochs without a certificate -----

    /** An epoch without certificate directly follows the stored one; a new authority needs a committed transfer. */
    method HandleEpoch(sender: PeerId, e: EpochRecord, transfer: Option<Transfer>, soloAllowed: bool)
      returns (reply: Reply)
      requires Valid()
      modifies this, storage
      ensures var plan := EpochPlan(old(storage.Files()), old(Runtime()), sender, e, transfer, soloAllowed);
              Did(plan) && reply == plan.reply
      ensures Ordered(old(storage.roster)) ==>
                (reply.EpochAccepted? <==> EpochDue(old(storage.Files()), sender, e, transfer, soloAllowed))
      ensures reply.EpochAccepted? ==> storage.epoch == Some(e) && storage.prepare.None? && !e.mode.Recovery?
      ensures reply.EpochAccepted? && old(storage.epoch).Some? && old(storage.epoch) != Some(e) ==>
                && Follows(old(storage.epoch).value, e)
                && (e.authority != old(storage.epoch).value.authority ==>
                      transfer.Some? && transfer.value.phase.Committed? && transfer.value.target == e.authority)
      ensures !reply.EpochAccepted? ==> storage.Files() == old(storage.Files())
    {
      if Ordered(storage.roster) { EpochExactly(storage.Files(), Runtime(), sender, e, transfer, soloAllowed); }
      reply := AdmitEpoch(sender, e, transfer, soloAllowed);
    }

    method AdmitEpoch(sender: PeerId, e: EpochRecord, transfer: Option<Transfer>, soloAllowed: bool)
      returns (reply: Reply)
      requires Valid()
      modifies this, storage
      ensures var plan := EpochPlan(old(storage.Files()), old(Runtime()), sender, e, transfer, soloAllowed);
              Did(plan) && reply == plan.reply
      ensures reply.EpochAccepted? ==> storage.epoch == Some(e) && storage.prepare == old(storage.prepare)
      ensures !reply.EpochAccepted? ==> storage.Files() == old(storage.Files())
    {
      if storage.prepare.Some? || e.mode.Recovery? || !IsActive(storage.roster, sender)
         || !MayLead(storage.roster, e.authority)
         || storage.head.None? || storage.head.value.stateRoot != e.baseState
      {
        return Denied;
      }
      if storage.epoch == Some(e) {
        return EpochAccepted(e.gen);
      }
      if storage.epoch.Some? {
        if !Follows(storage.epoch.value, e)
           || !MayChangeAuthority(storage.Files(), storage.epoch.value, e, transfer, soloAllowed)
        {
          return Denied;
        }
      } else if e.gen.epoch < storage.head.value.epoch || e.gen.token == 0 {
        return Denied;
      }
      StoreDirectly(e);
      return EpochAccepted(e.gen);
    }

    method StoreDirectly(e: EpochRecord)
      requires Valid() && (storage.epoch.Some? ==> Follows(storage.epoch.value, e))
      modifies storage
      ensures storage.Wrote([PutEpoch(e, None)] + ClearSleep(old(storage.Files())))
      ensures storage.Files() == old(storage.Files()).(epoch := Some(e), sleep := None)
    {
      ghost var d0, j0 := storage.Files(), storage.journal;
      SuccessorIsSaved(d0, e, None);
      var saved := storage.SaveEpochRecord(e, None);
      ghost var d1, j1 := storage.Files(), storage.journal;
      ReplayOne(d0, PutEpoch(e, None));
      storage.ClearSleepRecord();
      Sequenced(d0, d1, storage.Files(), j0, j1, storage.journal, [PutEpoch(e, None)], ClearSleep(d0));
    }

    // ----- joint membership change -----

    /** A joint vote is given only for the one prepare on disk, which leaves the committed configuration. */
    method HandleMembershipProposal(sender: PeerId, p: Proposal, inviteLive: bool) returns (reply: Reply)
      requires Valid()
      modifies this, storage
      ensures var plan := PreparePlan(me, old(storage.Files()), old(Runtime()), sender, p, inviteLive);
              Did(plan) && reply == plan.reply
      ensures reply.PrepareReply? <==> PrepareDue(me, old(storage.Files()), sender, p, inviteLive)
      ensures reply.PrepareReply? ==>
                && reply.proposal == p && storage.prepare == Some(p) && ProposalShape(p)
                && sender == p.proposed.authority
                && (storage.membership.Some? ==> storage.membership.value == p.previous)
      ensures !reply.PrepareReply? ==> storage.Files() == old(storage.Files()) && Runtime() == old(Runtime())
      ensures old(storage.prepare).Some? ==> storage.prepare == old(storage.prepare)
    {
      PrepareExactly(me, storage.Files(), Runtime(), sender, p, inviteLive);
      if sender != p.proposed.authority || !ProposalShape(p) || !ForLocal(me, storage.Files(), p, inviteLive) {
        return Denied;
      }
      var result := storage.PromiseMembershipProposal(p);
      if result.Rejected? {
        return Denied;
      }
      heartbeat := 0;
      return PrepareReply(p);
    }

    /** A commit is answered only when certificate, record and descriptor agree; a refused one changes neither. */
    method HandleMembershipCommit(sender: PeerId, c: JointCertificate, inviteLive: bool) returns (reply: Reply)
      requires Valid()
      modifies this, storage
      ensures var plan := CommitPlan(me, old(storage.Files()), old(Runtime()), sender, c, inviteLive);
              Did(plan) && reply == plan.reply
      ensures reply.CommitAccepted? <==> CommitDue(me, old(storage.Files()), sender, c, inviteLive)
      ensures reply.CommitAccepted? ==> storage.Files() == Applied(Filing(old(storage.Files()), c), c)
      ensures reply.CommitAccepted? ==> CommittedOn(c) && storage.joint == Some(c)
      ensures !reply.CommitAccepted? ==>
                storage.membership == old(storage.membership) && storage.roster == old(storage.roster)
    {
      CommitExactly(me, storage.Files(), Runtime(), sender, c, inviteLive);
      var admitted := AdmitsCommit(sender, c, inviteLive);
      if !admitted {
        return Denied;
      }
      var ok := FileAndApply(c);
      if !ok {
        return Denied;
      }
      heartbeat, jointVotes := 0, map[];
      return CommitAccepted(c.proposal.proposed.sequence);
    }

    method AdmitsCommit(sender: PeerId, c: JointCertificate, inviteLive: bool) returns (ok: bool)
      ensures ok == (sender == c.proposal.proposed.authority && CommitForLocal(me, storage.Files(), c, inviteLive))
    {
      var shaped := ValidateJointShape(c);
      return sender == c.proposal.proposed.authority && shaped && CommitForLocal(me, storage.Files(), c, inviteLive);
    }

    /** The certificate is on file before any of it is applied. */
    method FileAndApply(c: JointCertificate) returns (ok: bool)
      requires Valid()
      modifies storage
      ensures ok == CommitWrites(old(storage.Files()), c).0
      ensures storage.Wrote(CommitWrites(old(storage.Files()), c).1)
      ensures if ok then CommittedOn(c) && storage.joint == Some(c)
              else storage.membership == old(storage.membership) && storage.roster == old(storage.roster)
    {
      ghost var d0, j0 := storage.Files(), storage.journal;
      ok := storage.SaveMembershipCertificate(c);
      if !ok {
        return;
      }
      ghost var d1, j1 := storage.Files(), storage.journal;
      ok := ApplyMembershipCertificate(c);
      if ok {
        Sequenced(d0, d1, storage.Files(), j0, j1, storage.journal, SaveJoint(d0, c).writes, ApplyJoint(d1, c).value);
      }
    }

    /** Record and descriptor are those the certificate commits, and its votes are a majority of both voter sets. */
    ghost predicate CommittedOn(c: JointCertificate)
      reads this, storage
    {
      JointShape(c) && storage.membership == Some(c.proposal.proposed) && storage.roster == c.proposal.proposed.members
    }

    method ApplyMembershipCertificate(c: JointCertificate) returns (ok: bool)
      requires Valid()
      modifies storage
      ensures ok == ApplyJoint(old(storage.Files()), c).Some?
      ensures storage.Wrote(if ok then ApplyJoint(old(storage.Files()), c).value else [])
      ensures if ok then CommittedOn(c) && storage.joint == old(storage.joint)
              else storage.Files() == old(storage.Files())
    {
      var next := c.proposal.proposed;
      var shaped := ValidateJointShape(c);
      if !shaped || storage.roster == [] {
        return false;
      }
      if storage.membership.Some? {
        if storage.membership.value != next && storage.membership.value != c.proposal.previous {
          return false;
        }
      } else if storage.join.None?
        || Lookup(next.members, storage.join.value.member.id) != Some(storage.join.value.member)
      {
        return false;
      }
      ok := CommitRecord(next);
    }

    method CommitRecord(next: MembershipRecord) returns (ok: bool)
      requires Valid()
      modifies storage
      ensures var d := old(storage.Files());
              && ok == SaveMembership(d, next).Saved?
              && storage.Wrote(if ok then SaveMembership(d, next).writes + Settled(d, next) else [])
      ensures if ok then
                && storage.membership == Some(next) && storage.roster == next.members
                && storage.joint == old(storage.joint)
              else storage.Files() == old(storage.Files())
    {
      ghost var d0, j0 := storage.Files(), storage.journal;
      ok := storage.SaveMembershipRecord(next);
      if ok {
        ghost var d1, j1 := storage.Files(), storage.journal;
        SavedMembership(d0, next);
        Settle(next);
        Sequenced(d0, d1, storage.Files(), j0, j1, storage.journal, SaveMembership(d0, next).writes, Settled(d0, next));
      }
    }

    /** The descriptor, then the prepare and the join that the committed record fulfils. */
    method Settle(next: MembershipRecord)
      requires Valid()
      modifies storage
      ensures storage.Wrote(Settled(old(storage.Files()), next))
      ensures storage.Files()
              == old(storage.Files()).(roster := next.members, prepare := storage.prepare, join := storage.join)
    {
      ghost var d0, j0 := storage.Files(), storage.journal;
      storage.Put(PutRoster(next.members));
      ghost var d1, j1 := storage.Files(), storage.journal;
      ReplayOne(d0, PutRoster(next.members));
      storage.ClearMembershipPromiseAfterCommit(next);
      ghost var d2, j2 := storage.Files(), storage.journal;
      if ClearPrepare(d1, next) != [] { ReplayOne(d1, DropPrepare); }
      Sequenced(d0, d1, d2, j0, j1, j2, [PutRoster(next.members)], ClearPrepare(d0, next));
      storage.ClearSatisfiedPendingJoin(next.members);
      Sequenced(d0, d2, storage.Files(), j0, j2, storage.journal, [PutRoster(next.members)] + ClearPrepare(d0, next),
                ClearSatisfiedJoin(d0, next.members));
    }

    /** Applies a certificate that a crash left filed but not applied. */
    method RecoverCommittedMembership(inviteLive: bool) returns (reply: Reply)
      requires Valid()
      modifies this, storage
      ensures var plan := RecoverMembershipPlan(me, old(storage.Files()), old(Runtime()), inviteLive);
              Did(plan) && reply == plan.reply
      ensures reply == Quiet && old(storage.joint).Some? ==>
                && storage.joint == old(storage.joint) && storage.membership.Some?
                && (storage.membership == old(storage.membership) || CommittedOn(storage.joint.value))
                && !Later(storage.joint.value.proposal.proposed, storage.membership.value)
      ensures reply != Quiet ==> storage.Files() == old(storage.Files())
      ensures var d := old(storage.Files());
              d.joint.Some? && !(d.membership.Some? && UpToDate(d)) ==>
                if ReplayDue(me, d, inviteLive) then reply == Quiet && storage.Files() == Applied(d, d.joint.value)
                else reply == Denied
    {
      ReplayExactly(me, storage.Files(), Runtime(), inviteLive);
      if storage.joint.None? {
        return Quiet;
      }
      var c := storage.joint.value;
      var next := c.proposal.proposed;
      if storage.membership == Some(next) {
        storage.ClearMembershipPromiseAfterCommit(next);
        return Quiet;
      }
      if storage.membership.Some? && Later(storage.membership.value, next) {
        return Quiet;
      }
      if !CommitForLocal(me, storage.Files(), c, inviteLive) {
        return Denied;
      }
      var ok := ApplyMembershipCertificate(c);
      return if ok then Quiet else Denied;
    }

    /** A bare record never changes the members of a peer that has some. */
    method HandleMembership(sender: PeerId, m: MembershipRecord) returns (reply: Reply)
      requires Valid()
      modifies this, storage
      ensures var plan := MembershipPlan(old(storage.Files()), old(Runtime()), sender, m);
              Did(plan) && reply == plan.reply
      ensures Ordered(old(storage.roster)) ==>
                (reply.MembershipAccepted? <==> BareDue(old(storage.Files()), sender, m))
      ensures reply.MembershipAccepted? ==> storage.membership == Some(m)
      ensures reply.MembershipAccepted? && old(storage.membership).Some? ==>
                m.members == old(storage.membership).value.members
      ensures !reply.MembershipAccepted? ==> storage.Files() == old(storage.Files())
    {
      if Ordered(storage.roster) { BareExactly(storage.Files(), Runtime(), sender, m); }
      if !MembershipAdmissible(storage.Files(), sender, m) {
        return Denied;
      }
      if storage.membership == Some(m) {
        return MembershipAccepted(m.sequence);
      }
      if !Refreshes(storage.Files(), m) {
        return Denied;
      }
      reply := AdoptRecord(m);
    }

    method AdoptRecord(m: MembershipRecord) returns (reply: Reply)
      requires Valid()
      modifies this, storage
      ensures var plan := AdoptPlan(old(storage.Files()), old(Runtime()), m); Did(plan) && reply == plan.reply
      ensures if reply.MembershipAccepted? then storage.membership == Some(m) && storage.roster == m.members
              else storage.Files() == old(storage.Files())
    {
      ghost var d0, j0 := storage.Files(), storage.journal;
      var ok := storage.SaveMembershipRecord(m);
      if !ok {
        return Denied;
      }
      ghost var d1, j1 := storage.Files(), storage.journal;
      Announce(m);
      Sequenced(d0, d1, storage.Files(), j0, j1, storage.journal, SaveMembership(d0, m).writes,
                [PutRoster(m.members)] + ClearSatisfiedJoin(d0, m.members));
      return MembershipAccepted(m.sequence);
    }

    /** The descriptor follows the record, and a join it fulfils is forgotten. */
    method Announce(m: MembershipRecord)
      requires Valid()
      modifies storage
      ensures storage.Wrote([PutRoster(m.members)] + ClearSatisfiedJoin(old(storage.Files()), m.members))
      ensures storage.Files() == old(storage.Files()).(roster := m.members, join := storage.join)
    {
      ghost var d0, j0 := storage.Files(), storage.journal;
      storage.Put(PutRoster(m.members));
      ghost var d1, j1 := storage.Files(), storage.journal;
      storage.ClearSatisfiedPendingJoin(m.members);
      Sequenced(d0, d1, storage.Files(), j0, j1, storage.journal, [PutRoster(m.members)],
                ClearSatisfiedJoin(d0, m.members));
    }

    /** A join or leave request reaches the authority, which prepares the change itself first. */
    method HandleChange(change: Change) returns (reply: Reply)
      requires Valid()
      modifies this, storage
      ensures var plan := ProposePlan(me, old(storage.Files()), old(Runtime()), change);
              Did(plan) && reply == plan.reply
      ensures reply.PrepareReply? ==>
                && storage.prepare == Some(reply.proposal) && storage.membership == Some(reply.proposal.previous)
      ensures storage.Files() == old(storage.Files()).(prepare := storage.prepare)
      ensures !reply.PrepareReply? || old(storage.prepare).Some? ==> storage.prepare == old(storage.prepare)
      ensures Ordered(storage.roster) && ProposalDue(me, old(storage.Files()), change) ==>
                reply.PrepareReply? && Proposes(me, old(storage.Files()), change, reply.proposal)
      ensures Ordered(storage.roster) && !ProposalDue(me, old(storage.Files()), change) ==>
                storage.Files() == old(storage.Files())
    {
      if Ordered(storage.roster) { ProposeExactly(me, storage.Files(), Runtime(), change); }
      if storage.membership.None? || storage.membership.value.authority != me || !IsActive(storage.roster, me) {
        return Denied;
      }
      match change {
        case Joining(m) =>
          if Lookup(storage.roster, m.id).Some? {
            return if IsActive(storage.roster, m.id) then MembershipAccepted(storage.membership.value.sequence)
                   else Denied;
          }
        case Leaving(peer) =>
          if peer == me || !IsActive(storage.roster, peer) {
            return Denied;
          }
      }
      if storage.prepare.Some? {
        return if Repeats(storage.Files(), change) then PrepareReply(storage.prepare.value) else Denied;
      }
      if storage.membership.value.sequence == U64_MAX {
        return Denied;
      }
      reply := Propose(ChangedRoster(storage.Files(), change));
    }

    method Propose(members: seq<Member>) returns (reply: Reply)
      requires Valid() && storage.membership.Some? && storage.prepare.None?
               && storage.membership.value.sequence < U64_MAX
      modifies this, storage
      ensures var plan := NewProposalPlan(me, old(storage.Files()), old(Runtime()), members);
              Did(plan) && reply == plan.reply
      ensures reply.PrepareReply? ==>
                && storage.prepare == Some(reply.proposal) && storage.membership == Some(reply.proposal.previous)
      ensures storage.Files() == old(storage.Files()).(prepare := storage.prepare)
      ensures !reply.PrepareReply? ==> storage.prepare.None?
    {
      var current := storage.membership.value;
      var p := Proposal(current, MembershipRecord(current.epoch, current.sequence + 1, Some(current), members, me));
      if !ProposalShape(p) {
        return Denied;
      }
      PrepareOwn(p);
      return PrepareReply(p);
    }

    /** The authority's own prepare is its own vote. */
    method PrepareOwn(p: Proposal)
      requires Valid() && storage.prepare.None? && DirectExtension(p)
      modifies this, storage
      ensures storage.Wrote([PutPrepare(p)]) && storage.Files() == old(storage.Files()).(prepare := Some(p))
      ensures Runtime() == old(Runtime()).(jointVotes := old(jointVotes)[me := p], heartbeat := 0)
    {
      var result := storage.PromiseMembershipProposal(p);
      jointVotes, heartbeat := jointVotes[me := p], 0;
    }

    /** The tick of the authority that holds a prepare. */
    method MaintainMembershipTransition() returns (reply: Reply, list: seq<JointVote>)
      requires Valid()
      modifies this, storage
      ensures var plan := TransitionPlan(me, old(storage.Files()), old(Runtime()), list);
              Did(plan) && reply == plan.reply
      ensures old(storage.prepare).Some? ==>
                JointCollected(old(Runtime()).(jointVotes := old(jointVotes)[me := old(storage.prepare).value]),
                               old(storage.prepare).value, list)
      ensures var d := old(storage.Files());
              Leads(me, d) ==>
                var c := JointCertificate(d.prepare.value, list);
                if !MajoritiesInHand(me, d, old(Runtime())) then reply == Quiet && storage.Files() == d
                else if Unfiled(d, c) && Storable(d, c) then
                  && reply == CommitAccepted(c.proposal.proposed.sequence)
                  && storage.Files() == Applied(Filing(d, c), c) && jointVotes == map[]
                else reply == Denied && storage.Files() in {d, Filing(d, c)}
      ensures !Leads(me, old(storage.Files())) ==>
                storage.Files() == old(storage.Files()).(prepare := storage.prepare) && !reply.CommitAccepted?
    {
      ghost var d0, rt0 := storage.Files(), Runtime();
      list := [];
      if storage.prepare.None? {
        return Denied, [];
      }
      var p := storage.prepare.value;
      list := CollectJointVotes(jointVotes[me := p], p);
      if Leads(me, d0) { TransitionExactly(me, d0, rt0, list); }
      if p.proposed.authority != me || storage.membership.None? {
        return Denied, list;
      }
      heartbeat := 0;
      if storage.membership.value == p.proposed {
        storage.ClearMembershipPromiseAfterCommit(p.proposed);
        return Quiet, list;
      }
      if storage.membership.value != p.previous {
        return Denied, list;
      }
      jointVotes := jointVotes[me := p];
      reply := CommitIfQuorate(p, list);
    }

    method CommitIfQuorate(p: Proposal, list: seq<JointVote>) returns (reply: Reply)
      requires Valid() && JointCollected(Runtime(), p, list)
      modifies this, storage
      ensures var plan := JointCommitPlan(old(storage.Files()), old(Runtime()), p, list);
              Did(plan) && reply == plan.reply
    {
      var c := JointCertificate(p, list);
      var shaped := ValidateJointShape(c);
      if !shaped {
        return Quiet;
      }
      var ok := FileAndApply(c);
      if !ok {
        return Denied;
      }
      jointVotes := map[];
      return CommitAccepted(p.proposed.sequence);
    }

    /** Only the accepted authority puts the world to sleep, at the exact generation and snapshot stored here. */
    method HandleSleep(sender: PeerId, s: SleepRecord) returns (reply: Reply)
      requires Valid()
      modifies this, storage
      ensures var plan := SleepPlan(old(storage.Files()), old(Runtime()), sender, s); Did(plan) && reply == plan.reply
      ensures Ordered(storage.roster) ==> (reply.SleepAccepted? <==> SleepDue(old(storage.Files()), sender, s))
      ensures reply.SleepAccepted? ==>
                && storage.sleep == Some(s) && storage.epoch.Some? && storage.head.Some?
                && s.gen == storage.epoch.value.gen && sender == storage.epoch.value.authority
                && s.snapshot == storage.head.value.manifest
      ensures !reply.SleepAccepted? ==> storage.Files() == old(storage.Files())
    {
      if Ordered(storage.roster) { SleepExactly(storage.Files(), Runtime(), sender, s); }
      if storage.prepare.Some? || sender != s.authority || !MayLead(storage.roster, sender) {
        return Denied;
      }
      if storage.epoch.None? || storage.head.None? || !SleepMatches(s, storage.epoch.value, storage.head.value) {
        return Denied;
      }
      storage.Put(PutSleep(s));
      return SleepAccepted(s.gen);
    }

    // ----- the tick of the accepted authority -----

    method MaintainLocalAuthority(now: Instant) returns (reply: Reply)
      requires Valid() && Ordered(storage.roster)
      modifies this, storage
      ensures var plan := AuthorityPlan(me, old(storage.Files()), old(Runtime()), now); Did(plan) && reply == plan.reply
      ensures if PermitDue(me, old(storage.Files()), old(Runtime()), now) then
                && reply == PermitRefreshed(old(storage.epoch).value.gen, heartbeat)
                && heartbeat == if old(heartbeat) < U64_MAX then old(heartbeat) + 1 else U64_MAX
              else !reply.PermitRefreshed? && Runtime() == old(Runtime())
    {
      PermitExactly(me, storage.Files(), Runtime(), now);
      if storage.sleep.Some? || storage.prepare.Some? || !IsActive(storage.roster, me)
         || storage.epoch.None? || storage.epoch.value.authority != me
      {
        return Denied;
      }
      var e := storage.epoch.value;
      var members := CountActive(storage.roster);
      if e.mode.Recovery? {
        if !CertificateBacks(storage.Files()) {
          return Denied;
        }
        var accepted := CountEpochConfirmed(me, storage.roster, Runtime(), e.gen);
        if !HasQuorum(members, accepted) {
          return PermitCleared;
        }
      }
      var confirmed := CountConfirmed(me, storage.roster, Runtime(), e.gen, now);
      reply := RefreshPermit(HasQuorum(members, confirmed));
    }

    /** Only a quorate epoch that is not solo gets a permit; a solo authority first steps back to quorum mode. */
    method RefreshPermit(quorate: bool) returns (reply: Reply)
      requires Valid() && storage.epoch.Some?
      modifies this, storage
      ensures var plan := PermitPlan(me, old(storage.Files()), old(Runtime()), quorate);
              Did(plan) && reply == plan.reply
      ensures reply.PermitRefreshed? ==>
                && quorate && storage.epoch == old(storage.epoch) && !storage.epoch.value.mode.Solo?
                && reply.gen == storage.epoch.value.gen && old(heartbeat) <= heartbeat
                && (old(heartbeat) < U64_MAX ==> old(heartbeat) < heartbeat)
      ensures storage.epoch == old(storage.epoch)
              || (&& quorate && old(storage.epoch).value.mode.Solo? && storage.epoch.Some?
                  && Follows(old(storage.epoch).value, storage.epoch.value) && storage.epoch.value.mode.Quorum?)
    {
      var e := storage.epoch.value;
      if !quorate {
        storage.ClearRecoveryPromiseAfterEpochAdvance(e.gen.epoch);
        return PermitCleared;
      }
      if e.mode.Solo? {
        if storage.head.None? || e.gen.CheckedNext().None? {
          return Denied;
        }
        var saved := storage.SaveEpochRecord(Restored(me, storage.Files()), None);
        return PermitCleared;
      }
      heartbeat := if heartbeat == U64_MAX then U64_MAX else heartbeat + 1;
      storage.ClearRecoveryPromiseAfterEpochAdvance(e.gen.epoch);
      return PermitRefreshed(e.gen, heartbeat);
    }

    // ----- the tick of a survivor -----

    /** Everything the tick checks before it drives a ballot. */
    method MayDriveNow(wake: bool, ready: bool, now: Instant) returns (ok: bool)
      requires Ordered(storage.roster)
      ensures ok == MayDrive(me, storage.Files(), Runtime(), wake, ready, now)
      ensures ok <==> DriveDue(me, storage.Files(), Runtime(), wake, ready, now)
    {
      DriveExactly(me, storage.Files(), Runtime(), wake, ready, now);
      if storage.sleep.Some? != wake || storage.prepare.Some? || !MayLead(storage.roster, me)
         || storage.epoch.None? || (!wake && storage.epoch.value.authority == me)
      {
        return false;
      }
      var e := storage.epoch.value;
      var members := CountActive(storage.roster);
      if members <= 1 || (!wake && (e.authority in connected || !WindowOpen(Runtime(), e.gen, now)))
         || storage.head.None?
      {
        return false;
      }
      var head := storage.head.value;
      if wake && !SleepMatches(storage.sleep.value, e, head) {
        return false;
      }
      var visible, candidates := SurveyMembers(me, ready, storage.roster, Runtime(), storage.fingerprint, e.gen.epoch,
                                               head, now);
      var elected := ElectAuthority(candidates);
      ghost var hosts := Hosts(me, ready, storage.roster, Runtime(), storage.fingerprint, e.gen.epoch, head, now);
      if elected.None? {
        assert me in hosts ==> Running(me, e.gen.epoch, head.sequence) in candidates;
        return false;
      }
      ghost var w :| Wins(w, candidates) && w.peer == elected.value;
      ElectedDrives(me, candidates, hosts, e.gen.epoch, head.sequence, w);
      return HasQuorum(members, visible) && elected.value == me && e.gen.CheckedNext().Some?
             && storage.membership.Some?;
    }

    /** Keeps the active ballot, or opens one in the next round behind its own durable promise. */
    method DriveRecoveryBallot(wake: bool, ready: bool, now: Instant) returns (reply: Reply)
      requires Valid() && Ordered(storage.roster)
      modifies this, storage
      ensures var plan := DrivePlan(me, old(storage.Files()), old(Runtime()), wake, ready, now);
              Did(plan) && reply == plan.reply
      ensures storage.roster == old(storage.roster)
      ensures !DriveDue(me, old(storage.Files()), old(Runtime()), wake, ready, now) ==>
                reply == Denied && storage.Files() == old(storage.Files()) && Runtime() == old(Runtime())
      ensures DriveDue(me, old(storage.Files()), old(Runtime()), wake, ready, now) ==>
                Attempted(old(storage.Files()), old(Runtime()), reply)
    {
      var ok := MayDriveNow(wake, ready, now);
      if !ok {
        return Denied;
      }
      reply := AttemptBallot();
    }

    /** The round no new attempt may reuse, and whether the ballot in memory is still worth collecting for. */
    method CurrentRound() returns (usable: bool, floor: U64)
      requires Valid() && CanAttempt(storage.Files())
      ensures usable == BallotUsable(me, storage.Files(), Runtime()) && floor == RoundFloor(storage.Files(), Runtime())
    {
      var durable := if storage.promise.Some? then storage.promise.value.round else 0;
      floor := if roundFloor > durable then roundFloor else durable;
      usable := ballot.Some? && ballot.value == Attempt(me, storage.Files(), ballot.value.round)
                && ballot.value.round >= floor;
    }

    /** The ballot in hand is kept; otherwise the next attempt is promised, unless rounds ran out or it is rejected. */
    ghost predicate Attempted(d: Disk, rt: LeaseRuntime, reply: Reply)
      reads this, storage
    {
      if InHand(me, d, rt) then reply == Quiet && storage.Files() == d && Runtime() == rt
      else if RoundsExhausted(d, rt) then reply == Denied && storage.Files() == d && Runtime() == rt
      else if reply.VoteReply? then
        && NextAttempt(me, d, rt, reply.ballot) && storage.Files() == d.(promise := Some(reply.ballot))
        && ballot == Some(reply.ballot) && votes == map[me := reply.ballot]
      else
        && reply.RoundRejected? && storage.Files() == d && d.promise.Some?
        && forall b :: NextAttempt(me, d, rt, b) ==> !PromiseAllows(d.promise, b)
    }

    method AttemptBallot() returns (reply: Reply)
      requires Valid() && CanAttempt(storage.Files())
      modifies this, storage
      ensures var plan := BallotAttempt(me, old(storage.Files()), old(Runtime())); Did(plan) && reply == plan.reply
      ensures storage.roster == old(storage.roster)
      ensures Attempted(old(storage.Files()), old(Runtime()), reply)
    {
      OpenedExactly(me, storage.Files(), Runtime());
      reply := KeepOrOpen();
    }

    method KeepOrOpen() returns (reply: Reply)
      requires Valid() && CanAttempt(storage.Files())
      modifies this, storage
      ensures var plan := BallotAttempt(me, old(storage.Files()), old(Runtime())); Did(plan) && reply == plan.reply
      ensures storage.roster == old(storage.roster)
    {
      var usable, floor := CurrentRound();
      if usable {
        return Quiet;
      }
      if floor == U64_MAX {
        return Denied;
      }
      reply := OpenBallot(Attempt(me, storage.Files(), floor + 1));
    }

    method OpenBallot(b: Ballot) returns (reply: Reply)
      requires Valid() && b.WellFormed()
      modifies this, storage
      ensures var plan := OpenPlan(me, old(storage.Files()), old(Runtime()), b); Did(plan) && reply == plan.reply
      ensures storage.roster == old(storage.roster)
    {
      var result := storage.PromiseRecoveryBallot(b);
      if result.Rejected? {
        roundFloor := result.highestRound;
        return RoundRejected(result.highestRound);
      }
      votes := map[me := b];
      ballot := Some(b);
      return VoteReply(b);
    }

    method MayPromoteNow(wake: bool, ready: bool, now: Instant) returns (ok: bool)
      requires Ordered(storage.roster)
      ensures ok == MayPromote(me, storage.Files(), Runtime(), wake, ready, now)
    {
      ok := MayDriveNow(wake, ready, now);
      ok := ok && BallotUsable(me, storage.Files(), Runtime());
    }

    /** Promotes itself once the votes in hand make a valid certificate. */
    method PromoteBallot(wake: bool, ready: bool, now: Instant) returns (reply: Reply, list: seq<Vote>)
      requires Valid() && Ordered(storage.roster)
      modifies this, storage
      ensures var plan := PromotePlan(me, old(storage.Files()), old(Runtime()), wake, ready, now, list);
              Did(plan) && reply == plan.reply
      ensures old(ballot).Some? ==> Collected(old(Runtime()), list)
      ensures if && DriveDue(me, old(storage.Files()), old(Runtime()), wake, ready, now)
                 && MajorityInHand(me, old(storage.Files()), old(Runtime()))
              then Promotes(me, old(storage.Files()), old(Runtime()), wake, list,
                            PromotePlan(me, old(storage.Files()), old(Runtime()), wake, ready, now, list))
                   && reply == EpochAccepted(old(ballot).value.target) && storage.epoch.Some?
                   && Successor(me, old(storage.Files()), wake, storage.epoch.value)
                   && storage.Files() == Installed(old(storage.Files()), storage.epoch.value,
                                                   RecoveryCertificate(old(ballot).value, list))
              else storage.Files() == old(storage.Files()) && Runtime() == old(Runtime()) && !reply.EpochAccepted?
    {
      ghost var d0, rt0 := storage.Files(), Runtime();
      var may := MayPromoteNow(wake, ready, now);
      reply, list := PromoteCollected(may, wake);
      PromotionExactly(me, d0, rt0, wake, ready, now, list);
    }

    method PromoteCollected(may: bool, wake: bool) returns (reply: Reply, list: seq<Vote>)
      requires Valid() && Ordered(storage.roster)
      requires may ==> ballot.Some? && CanAttempt(storage.Files())
      modifies this, storage
      ensures may ==>
                var plan := PromotionPlan(me, old(storage.Files()), old(Runtime()), wake,
                                          RecoveryCertificate(old(ballot).value, list));
                Did(plan) && reply == plan.reply
      ensures !may ==> Did(Deny(old(Runtime()))) && reply == Denied
      ensures old(ballot).Some? ==> Collected(old(Runtime()), list)
    {
      list := [];
      if ballot.Some? {
        list := CollectVotes(votes, ballot.value);
      }
      if !may {
        return Denied, list;
      }
      reply := Promote(wake, RecoveryCertificate(ballot.value, list));
    }

    method Promote(wake: bool, c: RecoveryCertificate) returns (reply: Reply)
      requires Valid() && Ordered(storage.roster) && CanAttempt(storage.Files())
      modifies this, storage
      ensures var plan := PromotionPlan(me, old(storage.Files()), old(Runtime()), wake, c);
              Did(plan) && reply == plan.reply
    {
      var members := CountActive(storage.roster);
      if !HasQuorum(members, |c.votes|) {
        return Quiet;
      }
      var shaped := ValidateRecoveryShape(c, Active(storage.roster));
      if !shaped {
        return Denied;
      }
      reply := TakeOver(Promoted(me, storage.Files(), wake), c, Active(storage.roster));
    }

    method TakeOver(next: EpochRecord, c: RecoveryCertificate, members: set<PeerId>) returns (reply: Reply)
      requires Valid() && (storage.epoch.Some? ==> Follows(storage.epoch.value, next))
      modifies this, storage
      ensures var plan := TakeOverPlan(old(Runtime()), old(storage.Files()), next, c, members);
              Did(plan) && reply == plan.reply
    {
      Install(next, c, members);
      ForgetGeneration();
      return EpochAccepted(next.gen);
    }

    /** Acknowledgements, the inbound lease and the ballot belong to the generation that was left. */
    method ForgetGeneration()
      modifies this
      ensures Runtime() == old(Runtime()).(leaseAcks := map[], epochAcks := map[], inbound := None, ballot := None,
                                           votes := map[])
    {
      leaseAcks, epochAcks, inbound, ballot, votes := map[], map[], None, None, map[];
    }

    /** One tick of recovery: the ballot, then the promotion it may now allow. */
    method TryRecovery(wake: bool, ready: bool, now: Instant)
      returns (reply: Reply, ghost middle: (Disk, LeaseRuntime), list: seq<Vote>)
      requires Valid() && Ordered(storage.roster)
      modifies this, storage
      ensures var first := DrivePlan(me, old(storage.Files()), old(Runtime()), wake, ready, now);
              var second := PromotePlan(me, middle.0, middle.1, wake, ready, now, list);
              && middle == (Replay(old(storage.Files()), first.writes), first.runtime)
              && storage.Wrote(first.writes + second.writes) && Runtime() == second.runtime && reply == second.reply
    {
      ghost var d0, j0 := storage.Files(), storage.journal;
      ghost var first := DrivePlan(me, d0, Runtime(), wake, ready, now);
      var answer := DriveRecoveryBallot(wake, ready, now);
      middle := (storage.Files(), Runtime());
      ghost var j1 := storage.journal;
      reply, list := PromoteBallot(wake, ready, now);
      Sequenced(d0, middle.0, storage.Files(), j0, j1, storage.journal, first.writes,
                PromotePlan(me, middle.0, middle.1, wake, ready, now, list).writes);
    }

    // ----- epochs the local peer mints or takes from a transfer -----

    /** A committed transfer's successor is stored only as the direct successor on the local base state. */
    method StoreManualEpoch(e: EpochRecord) returns (reply: Reply)
      requires Valid()
      modifies this, storage
      ensures var plan := ManualEpochPlan(old(storage.Files()), old(Runtime()), e); Did(plan) && reply == plan.reply
      ensures Ordered(old(storage.roster)) ==> (reply.EpochAccepted? <==> ManualDue(old(storage.Files()), e))
      ensures reply.EpochAccepted? ==>
                && old(storage.epoch).Some? && Follows(old(storage.epoch).value, e) && !e.mode.Recovery?
                && storage.Files() == old(storage.Files()).(epoch := Some(e), sleep := None)
      ensures !reply.EpochAccepted? ==> storage.Files() == old(storage.Files())
    {
      if Ordered(storage.roster) { ManualExactly(storage.Files(), Runtime(), e); }
      if e.mode.Recovery? || storage.epoch.None? || !Follows(storage.epoch.value, e)
         || !MayLead(storage.roster, e.authority)
         || storage.head.None? || storage.head.value.stateRoot != e.baseState
      {
        return Denied;
      }
      StoreDirectly(e);
      return EpochAccepted(e.gen);
    }

    /** A launch wakes a sleeping world from its exact snapshot, or mints the first epoch. */
    method PrepareAuthorityEpoch() returns (reply: Reply)
      requires Valid()
      modifies this, storage
      ensures var plan := LaunchEpochPlan(me, old(storage.Files()), old(Runtime())); Did(plan) && reply == plan.reply
      ensures Ordered(old(storage.roster)) ==>
                if reply.EpochAccepted?
                then storage.epoch.Some? && LaunchMints(me, old(storage.Files()), storage.epoch.value)
                else forall minted :: !LaunchMints(me, old(storage.Files()), minted)
      ensures reply.EpochAccepted? ==>
                && storage.epoch.Some? && storage.epoch.value.authority == me && storage.epoch.value.mode.Solo?
                && storage.head.Some? && storage.epoch.value.baseState == storage.head.value.stateRoot
                && (old(storage.epoch).Some? ==> Follows(old(storage.epoch).value, storage.epoch.value))
                && storage.Files() == old(storage.Files()).(epoch := storage.epoch, sleep := None)
      ensures !reply.EpochAccepted? ==> storage.Files() == old(storage.Files())
    {
      if Ordered(storage.roster) { LaunchExactly(me, storage.Files(), Runtime()); }
      if !MayLead(storage.roster, me) || storage.head.None? {
        return Denied;
      }
      var head := storage.head.value;
      if storage.sleep.Some? {
        if storage.sleep.value.snapshot != head.manifest || storage.epoch.None?
           || storage.epoch.value.gen.CheckedNext().None?
        {
          return Denied;
        }
        var gen := storage.epoch.value.gen.CheckedNext().value;
        StoreDirectly(EpochRecord(gen, storage.epoch, head.stateRoot, me, Solo, SOLO_WAKE_REASON));
        return EpochAccepted(gen);
      }
      if storage.epoch.Some? || head.author != me {
        return Denied;
      }
      StoreDirectly(EpochRecord(Generation(head.epoch, 1), None, head.stateRoot, me, Solo, INITIAL_REASON));
      return EpochAccepted(Generation(head.epoch, 1));
    }

    /** The new authority signs the unchanged member list under its own epoch. */
    method EnsureArtifacts() returns (reply: Reply)
      requires Valid()
      modifies this, storage
      ensures var plan := ArtifactsPlan(me, old(storage.Files()), old(Runtime())); Did(plan) && reply == plan.reply
      ensures reply == Quiet ==>
                && storage.epoch.Some? && storage.membership.Some? && storage.membership.value.authority == me
                && storage.membership.value.epoch == storage.epoch.value.gen.epoch
                && old(storage.membership).Some?
                && storage.membership.value.members == old(storage.membership).value.members
      ensures reply != Quiet ==> storage.Files() == old(storage.Files())
      ensures Ordered(storage.roster) ==>
                && (storage.membership != old(storage.membership) ==>
                      Resigns(me, old(storage.Files()), storage.membership.value))
                && forall m :: Resigns(me, old(storage.Files()), m) ==> storage.membership == Some(m)
    {
      if Ordered(storage.roster) { ResignsExactly(me, storage.Files(), Runtime()); }
      reply := Resign();
    }

    method Resign() returns (reply: Reply)
      requires Valid()
      modifies this, storage
      ensures var plan := ArtifactsPlan(me, old(storage.Files()), old(Runtime())); Did(plan) && reply == plan.reply
      ensures reply == Quiet ==>
                && storage.epoch.Some? && storage.membership.Some? && storage.membership.value.authority == me
                && storage.membership.value.epoch == storage.epoch.value.gen.epoch
                && old(storage.membership).Some?
                && storage.membership.value.members == old(storage.membership).value.members
      ensures reply != Quiet ==> storage.Files() == old(storage.Files())
    {
      if !IsActive(storage.roster, me) || storage.epoch.None? || storage.epoch.value.authority != me
         || storage.membership.None? || storage.membership.value.epoch > storage.epoch.value.gen.epoch
      {
        return Denied;
      }
      var m, epoch := storage.membership.value, storage.epoch.value.gen.epoch;
      if m.epoch == epoch && m.authority == me {
        return Quiet;
      }
      if m.sequence == U64_MAX {
        return Denied;
      }
      reply := RefreshRecord(MembershipRecord(epoch, m.sequence + 1, Some(m), m.members, me));
    }

    method RefreshRecord(m: MembershipRecord) returns (reply: Reply)
      requires Valid()
      modifies this, storage
      ensures var plan := RefreshPlan(old(storage.Files()), old(Runtime()), m); Did(plan) && reply == plan.reply
      ensures reply in {Quiet, Denied}
      ensures storage.Files() == if reply == Quiet then old(storage.Files()).(membership := Some(m))
              else old(storage.Files())
    {
      var ok := storage.SaveMembershipRecord(m);
      return if ok then Quiet else Denied;
    }

    /** A snapshot, a local sleep boundary or a staged join from outside the control plane. */
    method StoreLocal(w: Write) returns (reply: Reply)
      requires Valid()
      modifies this, storage
      ensures Did(Plan([w], old(Runtime()), Quiet)) && reply == Quiet
    {
      storage.Put(w);
      return Quiet;
    }
  }
}
