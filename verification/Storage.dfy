/** Durable storage of one world, updated file by file in place. */
module Storage {
  import opened Records
  import opened Durable

  /**
    The journal is what a crash can cut short: the directory is always the
    replay, over what it was opened with, of the writes made since.
  */
  class Store {
    var epoch: Option<EpochRecord>
    var promise: Option<Ballot>
    var certificate: Option<RecoveryCertificate>
    var membership: Option<MembershipRecord>
    var roster: seq<Member>
    var prepare: Option<Proposal>
    var joint: Option<JointCertificate>
    var jointHistory: map<nat, JointCertificate>
    var sleep: Option<SleepRecord>
    var head: Option<Snapshot>
    var join: Option<PendingJoin>
    const fingerprint: Digest
    ghost const origin: Disk
    ghost var journal: seq<Write>

    function Files(): Disk
      reads this
    {
      Disk(epoch, promise, certificate, membership, roster, prepare, joint, jointHistory, sleep, head, join,
        fingerprint)
    }

    ghost predicate Valid()
      reads this
    {
      Files() == Replay(origin, journal)
    }

    constructor (d: Disk)
      ensures Valid() && Files() == d && journal == []
    {
      epoch, promise, certificate := d.epoch, d.promise, d.certificate;
      membership, roster, prepare := d.membership, d.roster, d.prepare;
      joint, jointHistory, sleep, head, join := d.joint, d.jointHistory, d.sleep, d.head, d.join;
      fingerprint := d.fingerprint;
      origin, journal := d, [];
    }

    /** The journal grew by `writes`, and the files moved with it. */
    twostate predicate Wrote(writes: seq<Write>)
      reads this
    {
      Valid() && journal == old(journal) + writes && Files() == Replay(old(Files()), writes)
    }

    /** One atomic replacement or removal of one file. */
    method Put(w: Write)
      requires Valid()
      modifies this
      ensures Wrote([w]) && Files() == Apply(old(Files()), w)
    {
      ghost var d, j := Files(), journal;
      Replace(w);
      journal := journal + [w];
      ReplaySnoc(origin, j, w);
      ReplayOne(d, w);
    }

    method Replace(w: Write)
      modifies this
      ensures Files() == Apply(old(Files()), w) && journal == old(journal)
    {
      if w.PutEpoch? || w.PutPromise? || w.DropPromise? || w.PutCertificate? || w.PutSleep? || w.DropSleep?
         || w.PutHead?
      {
        ReplaceAuthority(w);
      } else {
        ReplaceMembership(w);
      }
    }

    method ReplaceAuthority(w: Write)
      requires w.PutEpoch? || w.PutPromise? || w.DropPromise? || w.PutCertificate? || w.PutSleep? || w.DropSleep?
               || w.PutHead?
      modifies this
      ensures Files() == Apply(old(Files()), w) && journal == old(journal)
    {
      match w {
        case PutEpoch(e, _) => epoch := Some(e);
        case PutPromise(b) => promise := Some(b);
        case DropPromise => promise := None;
        case PutCertificate(c, _) => certificate := Some(c);
        case PutSleep(s) => sleep := Some(s);
        case DropSleep => sleep := None;
        case PutHead(s) => head := Some(s);
      }
    }

    method ReplaceMembership(w: Write)
      requires w.PutMembership? || w.PutRoster? || w.PutPrepare? || w.DropPrepare? || w.PutJointHistory? || w.PutJoint?
            || w.PutJoin? || w.DropJoin?
      modifies this
      ensures Files() == Apply(old(Files()), w) && journal == old(journal)
    {
      match w {
        case PutMembership(m) => membership := Some(m);
        case PutRoster(r) => roster := r;
        case PutPrepare(p) => prepare := Some(p);
        case DropPrepare => prepare := None;
        case PutJointHistory(c) => jointHistory := jointHistory[c.proposal.proposed.sequence := c];
        case PutJoint(c) => joint := Some(c);
        case PutJoin(j) => join := Some(j);
        case DropJoin => join := None;
      }
    }

    /** What is stored never goes back, and two records of one generation never replace each other. */
    method SaveEpochRecord(e: EpochRecord, proof: Option<RecoveryCertificate>) returns (ok: bool)
      requires Valid()
      modifies this
      ensures ok == SaveEpoch(old(Files()), e, proof).Saved?
      ensures Wrote(if ok then SaveEpoch(old(Files()), e, proof).writes else [])
      ensures ok == (old(epoch).None? || old(epoch).value.gen.Before(e.gen) || old(epoch).value == e)
      ensures Files() == if ok then old(Files()).(epoch := Some(e)) else old(Files())
      ensures old(epoch).Some? ==> epoch.Some? && !epoch.value.gen.Before(old(epoch).value.gen)
    {
      if epoch.Some? {
        if e.gen.Before(epoch.value.gen) {
          return false;
        }
        if e.gen == epoch.value.gen {
          return e == epoch.value;
        }
      }
      Put(PutEpoch(e, proof));
      return true;
    }

    /** Granted or repeated, the ballot is on disk before the vote, and the value promised on a base never changes. */
    method PromiseRecoveryBallot(b: Ballot) returns (result: PromiseResult)
      requires Valid() && b.WellFormed()
      modifies this
      ensures result == PromiseBallot(old(Files()), b)
      ensures Wrote(if result.Granted? then [PutPromise(b)] else [])
      ensures Files() == old(Files()).(promise := if result.Rejected? then old(promise) else Some(b))
      ensures result.Rejected? <==>
                && old(promise).Some? && old(promise).value != b
                && (b.round <= old(promise).value.round || old(promise).value != b.(round := old(promise).value.round))
      ensures result.Rejected? ==> old(promise).Some? && result.highestRound == old(promise).value.round
      ensures !result.Rejected? && old(promise).Some? ==>
                SameValue(old(promise).value, b) && old(promise).value.round <= b.round
    {
      if promise.Some? {
        var held := promise.value;
        if b.round < held.round {
          return Rejected(held.round);
        }
        if b.round == held.round {
          return if b == held then Idempotent else Rejected(held.round);
        }
        if !SameValue(held, b) {
          return Rejected(held.round);
        }
      }
      Put(PutPromise(b));
      return Granted;
    }

    /** A promise survives exactly as long as its target epoch has not been reached. */
    method ClearRecoveryPromiseAfterEpochAdvance(acceptedEpoch: U64)
      requires Valid()
      modifies this
      ensures Wrote(ClearPromise(old(Files()), acceptedEpoch))
      ensures Files() == old(Files()).(promise := promise)
      ensures promise.Some? ==> promise == old(promise) && acceptedEpoch < promise.value.target.epoch
      ensures promise.None? && old(promise).Some? ==> old(promise).value.target.epoch <= acceptedEpoch
    {
      if promise.Some? && acceptedEpoch >= promise.value.target.epoch {
        Put(DropPromise);
      }
    }

    /** Sequence by sequence, each record signed by the authority of the stored epoch. */
    method SaveMembershipRecord(m: MembershipRecord) returns (ok: bool)
      requires Valid()
      modifies this
      ensures ok == SaveMembership(old(Files()), m).Saved?
      ensures Wrote(if ok then SaveMembership(old(Files()), m).writes else [])
      ensures Files() == if ok then old(Files()).(membership := Some(m)) else old(Files())
      ensures ok && old(membership).Some? && m != old(membership).value ==> Extends(old(membership).value, m)
      ensures ok && old(membership).None? ==>
              CertifiedBootstrap(old(Files()), m) || (m.sequence == 0 && m.previous.None?)
      ensures ok && m.sequence > 0 && old(membership) != Some(m) && epoch.Some? ==>
                m.epoch == epoch.value.gen.epoch && m.authority == epoch.value.authority
    {
      if !Ordered(m.members) || m.members == [] {
        return false;
      }
      if membership.Some? {
        var current := membership.value;
        if m == current {
          return true;
        }
        if !Extends(current, m) {
          return false;
        }
        if epoch.Some? {
          if m.epoch != epoch.value.gen.epoch || m.authority != epoch.value.authority {
            return false;
          }
        } else if m.epoch != current.epoch || m.authority != current.authority {
          return false;
        }
      } else {
        var certified := IsCertifiedBootstrap(m);
        if !certified && (m.sequence != 0 || m.previous.Some?) {
          return false;
        }
        if epoch.Some? {
          if m.epoch != epoch.value.gen.epoch || m.authority != epoch.value.authority {
            return false;
          }
        } else if m.epoch != 0 && !certified {
          return false;
        }
      }
      Put(PutMembership(m));
      return true;
    }

    method IsCertifiedBootstrap(m: MembershipRecord) returns (certified: bool)
      ensures certified == CertifiedBootstrap(Files(), m)
      ensures certified ==>
              m.previous.Some? && Extends(m.previous.value, m) && m.previous.value.authority == m.authority
    {
      if joint.None? || join.None? {
        return false;
      }
      var p := joint.value.proposal;
      return DirectExtension(p) && p.proposed == m && join.value.inviter == p.previous.authority
        && join.value.member in m.members;
    }

    /** A prepare that is held is never replaced; a vote is given only for what is then on disk. */
    method PromiseMembershipProposal(p: Proposal) returns (result: PromiseResult)
      requires Valid()
      modifies this
      ensures result == PromiseMembership(old(Files()), p)
      ensures Wrote(if result.Granted? then [PutPrepare(p)] else [])
      ensures Files() == old(Files()).(prepare := if result.Rejected? then old(prepare) else Some(p))
      ensures old(prepare).Some? ==> prepare == old(prepare)
      ensures prepare != old(prepare) ==> DirectExtension(p)
      ensures !result.Rejected? <==> DirectExtension(p) && (old(prepare).None? || old(prepare) == Some(p))
    {
      if !DirectExtension(p) {
        return Rejected(0);
      }
      if prepare.Some? {
        return if prepare.value == p then Idempotent else Rejected(0);
      }
      Put(PutPrepare(p));
      return Granted;
    }

    /** A prepare ends with the commit of the very record it proposes. */
    method ClearMembershipPromiseAfterCommit(committed: MembershipRecord)
      requires Valid()
      modifies this
      ensures Wrote(ClearPrepare(old(Files()), committed))
      ensures Files() == old(Files()).(prepare := prepare)
      ensures prepare.Some? ==> prepare == old(prepare) && prepare.value.proposed != committed
      ensures prepare.None? && old(prepare).Some? ==> old(prepare).value.proposed == committed
    {
      if prepare.Some? && prepare.value.proposed == committed {
        Put(DropPrepare);
      }
    }

    /** Once filed for a sequence number, a certificate is never replaced by another. */
    method SaveMembershipCertificate(c: JointCertificate) returns (ok: bool)
      requires Valid()
      modifies this
      ensures ok == SaveJoint(old(Files()), c).Saved?
      ensures Wrote(if ok then SaveJoint(old(Files()), c).writes else [])
      ensures Files() == old(Files()).(joint := joint, jointHistory := jointHistory)
      ensures ok ==> joint == Some(c) && jointHistory == old(jointHistory)[c.proposal.proposed.sequence := c]
      ensures ok ==> forall k :: k in old(jointHistory) ==> jointHistory[k] == old(jointHistory)[k]
      ensures !ok ==> joint == old(joint) && jointHistory == old(jointHistory)
    {
      var sequence := c.proposal.proposed.sequence;
      if sequence in jointHistory {
        if jointHistory[sequence] != c {
          return false;
        }
        Put(PutJoint(c));
      } else {
        Put(PutJointHistory(c));
        Put(PutJoint(c));
        ReplaySnoc(old(Files()), [PutJointHistory(c)], PutJoint(c));
      }
      return true;
    }

    method ClearSleepRecord()
      requires Valid()
      modifies this
      ensures Wrote(ClearSleep(old(Files()))) && Files() == old(Files()).(sleep := None)
    {
      if sleep.Some? {
        Put(DropSleep);
      }
    }

    /** A staged join waits exactly until its member is a voter. */
    method ClearSatisfiedPendingJoin(members: seq<Member>)
      requires Valid()
      modifies this
      ensures Wrote(ClearSatisfiedJoin(old(Files()), members))
      ensures Files() == old(Files()).(join := join)
      ensures join.Some? ==> join == old(join) && !IsActive(members, join.value.member.id)
      ensures join.None? && old(join).Some? ==> IsActive(members, old(join).value.member.id)
    {
      if join.Some? && IsActive(members, join.value.member.id) {
        Put(DropJoin);
      }
    }
  }
}
