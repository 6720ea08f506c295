/**
  The signed records of the authority control plane.

  One world is modelled, so no record carries a world id. A record's hash is
  injective, so a field that holds a hash holds the hashed record instead. A
  peer id is the hash of the peer's public key, so a check on the key is a check
  on the id. Signatures are not fields: which records a peer can have signed is
  decided in the cluster model, by what that peer wrote.
*/
module Records {

  datatype Option<+T> = None | Some(value: T)

  const U64_MAX: nat := 0xFFFF_FFFF_FFFF_FFFF
  type U64 = n: nat | n <= U64_MAX

  type PeerId = nat
  /** Snapshot manifests and state roots are only ever compared. */
  type Digest = nat
  /** Milliseconds on the monotonic clock. */
  type Instant = nat

  /** How long ago `then` was, and zero if it is not in the past. */
  function Elapsed(now: Instant, then': Instant): nat {
    if now >= then' then now - then' else 0
  }

  // ----- generations -----

  datatype Generation = Generation(epoch: U64, token: U64) {

    /** Fails closed when either counter is exhausted. */
    function CheckedNext(): (next: Option<Generation>) {
      if epoch == U64_MAX || token == U64_MAX then None else Some(Generation(epoch + 1, token + 1))
    }

    /** The derived order: epoch first, fencing token second. */
    predicate Before(other: Generation) {
      epoch < other.epoch || (epoch == other.epoch && token < other.token)
    }

    /** What a chain of generations never changes. */
    function Skew(): int { token - epoch }
  }

  /** `next` is the generation directly after `gen`. */
  predicate Directly(gen: Generation, next: Generation) {
    next.epoch == gen.epoch + 1 && next.token == gen.token + 1
  }

  // ----- members -----

  datatype Member = Member(id: PeerId, eligible: bool, banned: bool)

  /** Members are stored strictly ordered by id, hence without duplicates. */
  predicate Ordered(members: seq<Member>) {
    forall i, j :: 0 <= i < j < |members| ==> members[i].id < members[j].id
  }

  function Lookup(members: seq<Member>, id: PeerId): (found: Option<Member>)
    ensures found.Some? ==> found.value in members && found.value.id == id
    ensures found.None? ==> forall m :: m in members ==> m.id != id
  {
    if members == [] then None
    else if members[0].id == id then Some(members[0])
    else Lookup(members[1..], id)
  }

  /** The voters of a member list: everyone in it who is not banned. */
  function Active(members: seq<Member>): set<PeerId> {
    set m | m in members && !m.banned :: m.id
  }

  predicate IsActive(members: seq<Member>, id: PeerId) {
    Lookup(members, id).Some? && !Lookup(members, id).value.banned
  }

  predicate MayLead(members: seq<Member>, id: PeerId) {
    IsActive(members, id) && Lookup(members, id).value.eligible
  }

  /** In an ordered list the first entry with an id is the only one, so lookup decides membership. */
  lemma {:induction false} OrderedLookup(members: seq<Member>, id: PeerId)
    requires Ordered(members)
    ensures IsActive(members, id) <==> id in Active(members)
  {
  }

  /** A member that is not banned and may hold authority. */
  ghost predicate Host(roster: seq<Member>, p: PeerId) {
    exists m :: m in roster && m.id == p && m.eligible && !m.banned
  }

  lemma {:induction false} HostExactly(roster: seq<Member>, p: PeerId)
    requires Ordered(roster)
    ensures MayLead(roster, p) <==> Host(roster, p)
    ensures IsActive(roster, p) <==> p in Active(roster)
  {
    OrderedLookup(roster, p);
    if Host(roster, p) {
      var m :| m in roster && m.id == p && m.eligible && !m.banned;
      var found := Lookup(roster, p);
      var i :| 0 <= i < |roster| && roster[i] == m;
      var j :| 0 <= j < |roster| && roster[j] == found.value;
    }
  }

  // ----- epochs and membership -----

  datatype EpochMode = Quorum | Solo | Recovery

  datatype EpochRecord = EpochRecord(
    gen: Generation, previous: Option<EpochRecord>, baseState: Digest,
    authority: PeerId, mode: EpochMode, reason: string)

  const SOLO_WAKE_REASON := "wake from durable sleep"

  /** `next` is the one successor of `current`: both counters plus one, hash-linked. */
  predicate Follows(current: EpochRecord, next: EpochRecord) {
    current.gen.CheckedNext() == Some(next.gen) && next.previous == Some(current)
  }

  datatype MembershipRecord = MembershipRecord(
    epoch: U64, sequence: U64, previous: Option<MembershipRecord>,
    members: seq<Member>, authority: PeerId)

  function Voters(record: MembershipRecord): set<PeerId> { Active(record.members) }

  /** `next` directly extends `current`: sequence plus one, hash-linked, epoch not decreasing. */
  predicate Extends(current: MembershipRecord, next: MembershipRecord) {
    next.sequence == current.sequence + 1 && next.previous == Some(current) && current.epoch <= next.epoch
  }

  // ----- recovery ballots -----

  datatype Ballot = Ballot(
    base: Generation, target: Generation, round: U64, candidate: PeerId,
    snapshot: Digest, state: Digest, membership: MembershipRecord)
  {
    predicate WellFormed() { base.CheckedNext() == Some(target) && round > 0 }
  }

  /** Everything a ballot binds except its round. */
  predicate SameValue(a: Ballot, b: Ballot) {
    a == b.(round := a.round)
  }

  datatype Vote = Vote(voter: PeerId, ballot: Ballot)
  datatype RecoveryCertificate = RecoveryCertificate(ballot: Ballot, votes: seq<Vote>)

  function VotersOf(votes: seq<Vote>): set<PeerId> {
    set v | v in votes :: v.voter
  }

  // ----- joint membership change -----

  datatype Proposal = Proposal(previous: MembershipRecord, proposed: MembershipRecord)
  datatype JointVote = JointVote(voter: PeerId, proposal: Proposal)
  datatype JointCertificate = JointCertificate(proposal: Proposal, votes: seq<JointVote>)

  function JointVotersOf(votes: seq<JointVote>): set<PeerId> {
    set v | v in votes :: v.voter
  }

  /** A proposal extends its predecessor in place: same epoch, same authority. */
  predicate DirectExtension(p: Proposal) {
    && p.previous.epoch == p.proposed.epoch
    && p.proposed.sequence == p.previous.sequence + 1
    && p.proposed.previous == Some(p.previous)
    && p.previous.authority == p.proposed.authority
    && p.proposed.members != []
  }

  /** Moreover both member lists are canonical and the authority votes in both. */
  predicate ProposalShape(p: Proposal) {
    && DirectExtension(p)
    && Ordered(p.previous.members) && Ordered(p.proposed.members)
    && p.previous.authority in Voters(p.previous)
    && p.previous.authority in Voters(p.proposed)
  }

  // ----- snapshots, sleep, joins -----

  datatype Snapshot = Snapshot(manifest: Digest, stateRoot: Digest, epoch: U64, sequence: U64, author: PeerId)
  datatype SleepRecord = SleepRecord(snapshot: Digest, gen: Generation, authority: PeerId)
  datatype PendingJoin = PendingJoin(member: Member, inviter: PeerId)

  // ----- manual transfer -----

  datatype TransferPhase = Prepared | Accepted | Committed

  /** Signed by the target in the accepted phase, by the source in the others. */
  datatype Transfer = Transfer(source: PeerId, target: PeerId, checkpoint: Snapshot, next: Generation,
                               phase: TransferPhase)
}
