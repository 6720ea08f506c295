/**
  The files of one world directory, the durable writes that change them, and
  the rules by which storage accepts or refuses a write.
*/
module Durable {
  import opened Records

  /** `roster` is the member list of the world descriptor; an absent descriptor is an empty
      roster. `fingerprint` is the compatibility fingerprint fixed at genesis: nothing writes it. */
  datatype Disk = Disk(
    epoch: Option<EpochRecord>,
    promise: Option<Ballot>,
    certificate: Option<RecoveryCertificate>,
    membership: Option<MembershipRecord>,
    roster: seq<Member>,
    prepare: Option<Proposal>,
    joint: Option<JointCertificate>,
    jointHistory: map<nat, JointCertificate>,
    sleep: Option<SleepRecord>,
    head: Option<Snapshot>,
    join: Option<PendingJoin>,
    fingerprint: Digest)

  /**
    One durable file operation. `proof` and `electorate` are not stored in the
    file: they record which certificate a recovery epoch rests on, and which
    voter set the certificate's majority was counted in.
  */
  datatype Write =
    | PutEpoch(epoch: EpochRecord, proof: Option<RecoveryCertificate>)
    | PutPromise(ballot: Ballot)
    | DropPromise
    | PutCertificate(certificate: RecoveryCertificate, electorate: set<PeerId>)
    | PutMembership(membership: MembershipRecord)
    | PutRoster(roster: seq<Member>)
    | PutPrepare(proposal: Proposal)
    | DropPrepare
    | PutJointHistory(joint: JointCertificate)
    | PutJoint(joint: JointCertificate)
    | PutSleep(sleep: SleepRecord)
    | DropSleep
    | PutHead(head: Snapshot)
    | PutJoin(join: PendingJoin)
    | DropJoin

  function Apply(d: Disk, w: Write): Disk {
    match w
    case PutEpoch(e, _) => d.(epoch := Some(e))
    case PutPromise(b) => d.(promise := Some(b))
    case DropPromise => d.(promise := None)
    case PutCertificate(c, _) => d.(certificate := Some(c))
    case PutMembership(m) => d.(membership := Some(m))
    case PutRoster(r) => d.(roster := r)
    case PutPrepare(p) => d.(prepare := Some(p))
    case DropPrepare => d.(prepare := None)
    case PutJointHistory(c) => d.(jointHistory := d.jointHistory[c.proposal.proposed.sequence := c])
    case PutJoint(c) => d.(joint := Some(c))
    case PutSleep(s) => d.(sleep := Some(s))
    case DropSleep => d.(sleep := None)
    case PutHead(s) => d.(head := Some(s))
    case PutJoin(j) => d.(join := Some(j))
    case DropJoin => d.(join := None)
  }

  /** The directory after a run of writes, oldest first. */
  function Replay(d: Disk, writes: seq<Write>): Disk {
    if writes == [] then d
    else Apply(Replay(d, writes[..|writes| - 1]), writes[|writes| - 1])
  }

  lemma ReplaySnoc(d: Disk, writes: seq<Write>, w: Write)
    ensures Replay(d, writes + [w]) == Apply(Replay(d, writes), w)
  {
  }

  lemma ReplayOne(d: Disk, w: Write)
    ensures Replay(d, [w]) == Apply(d, w)
  {
  }

  lemma {:induction false} ReplayAppend(d: Disk, first: seq<Write>, second: seq<Write>)
    ensures Replay(d, first + second) == Replay(Replay(d, first), second)
  {
    if second == [] {
      assert first + second == first;
    } else {
      var body, last := second[..|second| - 1], second[|second| - 1];
      assert first + second == (first + body) + [last] && second == body + [last];
      ReplayAppend(d, first, body);
      ReplaySnoc(d, first + body, last);
    }
  }

  /** Two runs of writes, one after the other, are one run. */
  lemma Sequenced(d0: Disk, d1: Disk, d2: Disk, j0: seq<Write>, j1: seq<Write>, j2: seq<Write>, a: seq<Write>,
                  b: seq<Write>)
    requires d1 == Replay(d0, a) && d2 == Replay(d1, b) && j1 == j0 + a && j2 == j1 + b
    ensures d2 == Replay(d0, a + b) && j2 == j0 + (a + b)
  {
    ReplayAppend(d0, a, b);
  }

  /** What a save does: refuse, or perform these writes (none, if the record is already there). */
  datatype Saved = Refused | Saved(writes: seq<Write>)

  // ----- epochs -----

  function SaveEpoch(d: Disk, e: EpochRecord, proof: Option<RecoveryCertificate>): Saved {
    if d.epoch.None? then Saved([PutEpoch(e, proof)])
    else if e.gen.Before(d.epoch.value.gen) then Refused
    else if e.gen == d.epoch.value.gen then (if e == d.epoch.value then Saved([]) else Refused)
    else Saved([PutEpoch(e, proof)])
  }

  /** The direct successor of the stored epoch is always saved. */
  lemma SuccessorIsSaved(d: Disk, e: EpochRecord, proof: Option<RecoveryCertificate>)
    requires d.epoch.Some? ==> Follows(d.epoch.value, e)
    ensures SaveEpoch(d, e, proof) == Saved([PutEpoch(e, proof)])
  {
  }

  // ----- recovery promises -----

  datatype PromiseResult = Granted | Idempotent | Rejected(highestRound: U64)

  function DurableRound(d: Disk): U64 {
    if d.promise.Some? then d.promise.value.round else 0
  }

  /** A promise moves to a strictly higher round only, and only for the very same value. */
  function PromiseBallot(d: Disk, b: Ballot): PromiseResult
    requires b.WellFormed()
  {
    if d.promise.None? then Granted
    else
      var held := d.promise.value;
      if b.round < held.round then Rejected(held.round)
      else if b.round == held.round then (if b == held then Idempotent else Rejected(held.round))
      else if !SameValue(held, b) then Rejected(held.round)
      else Granted
  }

  /** A promise is dropped only once the accepted epoch has reached its target. */
  function ClearPromise(d: Disk, acceptedEpoch: U64): seq<Write> {
    if d.promise.Some? && acceptedEpoch >= d.promise.value.target.epoch then [DropPromise] else []
  }

  // ----- membership -----

  /** The first record of a joining peer is the one its joint certificate commits. */
  predicate CertifiedBootstrap(d: Disk, m: MembershipRecord) {
    && d.joint.Some? && d.join.Some?
    && DirectExtension(d.joint.value.proposal)
    && d.joint.value.proposal.proposed == m
    && d.join.value.inviter == d.joint.value.proposal.previous.authority
    && d.join.value.member in m.members
  }

  function SaveMembership(d: Disk, m: MembershipRecord): Saved {
    if !Ordered(m.members) || m.members == [] then Refused
    else if d.membership.Some? then
      var current := d.membership.value;
      if m == current then Saved([])
      else if !Extends(current, m) then Refused
      else if d.epoch.Some? && (m.epoch != d.epoch.value.gen.epoch || m.authority != d.epoch.value.authority) then
        Refused
      else if d.epoch.None? && (m.epoch != current.epoch || m.authority != current.authority) then Refused
      else Saved([PutMembership(m)])
    else if !CertifiedBootstrap(d, m) && (m.sequence != 0 || m.previous.Some?) then Refused
    else if d.epoch.Some? && (m.epoch != d.epoch.value.gen.epoch || m.authority != d.epoch.value.authority) then Refused
    else if d.epoch.None? && m.epoch != 0 && !CertifiedBootstrap(d, m) then Refused
    else Saved([PutMembership(m)])
  }

  lemma SavedMembership(d: Disk, m: MembershipRecord)
    requires SaveMembership(d, m).Saved?
    ensures Replay(d, SaveMembership(d, m).writes) == d.(membership := Some(m))
  {
  }

  /** One prepare at a time: a different proposal is rejected until the held one is cleared. */
  function PromiseMembership(d: Disk, p: Proposal): PromiseResult {
    if !DirectExtension(p) then Rejected(0)
    else if d.prepare.None? then Granted
    else if d.prepare.value == p then Idempotent
    else Rejected(0)
  }

  /** A prepare is dropped only by the commit of the record it proposes. */
  function ClearPrepare(d: Disk, committed: MembershipRecord): seq<Write> {
    if d.prepare.Some? && d.prepare.value.proposed == committed then [DropPrepare] else []
  }

  /** A joint certificate is filed once per sequence number and then made current. */
  function SaveJoint(d: Disk, c: JointCertificate): Saved {
    var sequence := c.proposal.proposed.sequence;
    if sequence in d.jointHistory then
      if d.jointHistory[sequence] != c then Refused else Saved([PutJoint(c)])
    else Saved([PutJointHistory(c), PutJoint(c)])
  }

  // ----- sleep and joins -----

  function ClearSleep(d: Disk): seq<Write> {
    if d.sleep.Some? then [DropSleep] else []
  }

  lemma ClearSleepKeeps(d: Disk)
    ensures Replay(d, ClearSleep(d)) == d.(sleep := None)
  {
  }

  function ClearSatisfiedJoin(d: Disk, members: seq<Member>): seq<Write> {
    if d.join.Some? && IsActive(members, d.join.value.member.id) then [DropJoin] else []
  }
}
