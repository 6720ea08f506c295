/**
  What each handler and each branch of the daemon tick does: which durable
  writes, in which order, which new runtime, which answer. A plan is a pure
  function of the peer's files, its runtime and the message; a crash runs a
  prefix of the writes and loses the rest.
*/
module Plans {
  import opened Records
  import opened Durable
  import opened Runtime
  import opened Quorum
  import opened Certificates

  datatype Reply =
    | Denied
    | Quiet
    | VoteReply(ballot: Ballot)
    | RoundRejected(highestRound: U64)
    | EpochAccepted(gen: Generation)
    | LeaseAccepted(gen: Generation)
    | PrepareReply(proposal: Proposal)
    | CommitAccepted(sequence: U64)
    | MembershipAccepted(sequence: U64)
    | SleepAccepted(gen: Generation)
    | PermitRefreshed(gen: Generation, heartbeat: U64)
    | PermitCleared

  datatype Plan = Plan(writes: seq<Write>, runtime: LeaseRuntime, reply: Reply)

  function Deny(rt: LeaseRuntime): Plan { Plan([], rt, Denied) }

  // ----- voting on a recovery ballot -----

  /** A sleeping world may be woken only from its exact sleep boundary. */
  predicate SleepMatches(s: SleepRecord, current: EpochRecord, head: Snapshot) {
    s.gen == current.gen && s.authority == current.authority && s.snapshot == head.manifest
  }

  predicate MayVote(d: Disk, rt: LeaseRuntime, sender: PeerId, b: Ballot, now: Instant) {
    && d.prepare.None?
    && sender == b.candidate && b.WellFormed()
    && MayLead(d.roster, b.candidate)
    && d.epoch.Some? && b.base == d.epoch.value.gen
    && d.head.Some? && d.head.value.manifest == b.snapshot && d.head.value.stateRoot == b.state
    && (d.sleep.Some? ==> SleepMatches(d.sleep.value, d.epoch.value, d.head.value))
    && (d.sleep.None? ==> d.epoch.value.authority !in rt.connected && WindowOpen(rt, b.base, now))
    && FreshStatus(rt, b.candidate, now)
    && StatusMatches(rt.statuses[b.candidate].status, d.fingerprint, b.base.epoch, d.head.value)
    && CandidateReady(rt, b.candidate, d.fingerprint, now)
    && d.membership == Some(b.membership)
  }

  function BallotPlan(d: Disk, rt: LeaseRuntime, sender: PeerId, b: Ballot, now: Instant): Plan {
    if !MayVote(d, rt, sender, b, now) then Deny(rt)
    else match PromiseBallot(d, b)
      case Granted => Plan([PutPromise(b)], rt, VoteReply(b))
      case Idempotent => Plan([], rt, VoteReply(b))
      case Rejected(highest) => Plan([], rt, RoundRejected(highest))
  }

  // ----- driving a recovery ballot -----

  /** The tick reaches the recovery branch and elects the local peer; `rt` already has its delay started. */
  predicate MayDrive(me: PeerId, d: Disk, rt: LeaseRuntime, wake: bool, meReady: bool, now: Instant) {
    && d.sleep.Some? == wake
    && d.prepare.None?
    && MayLead(d.roster, me)
    && d.epoch.Some? && (wake || d.epoch.value.authority != me)
    && |Active(d.roster)| > 1
    && (!wake ==> d.epoch.value.authority !in rt.connected && WindowOpen(rt, d.epoch.value.gen, now))
    && d.head.Some?
    && (wake ==> SleepMatches(d.sleep.value, d.epoch.value, d.head.value))
    && HasQuorum(|Active(d.roster)|,
                 |Visible(me, d.roster, rt, d.fingerprint, d.epoch.value.gen.epoch, d.head.value, now)|)
    && Drives(me, Hosts(me, meReady, d.roster, rt, d.fingerprint, d.epoch.value.gen.epoch, d.head.value, now))
    && d.epoch.value.gen.CheckedNext().Some?
    && d.membership.Some?
  }

  predicate CanAttempt(d: Disk) {
    d.epoch.Some? && d.head.Some? && d.membership.Some? && d.epoch.value.gen.CheckedNext().Some?
  }

  function Attempt(me: PeerId, d: Disk, round: U64): Ballot
    requires CanAttempt(d)
  {
    Ballot(d.epoch.value.gen, d.epoch.value.gen.CheckedNext().value, round, me,
           d.head.value.manifest, d.head.value.stateRoot, d.membership.value)
  }

  function RoundFloor(d: Disk, rt: LeaseRuntime): U64 {
    if rt.roundFloor > DurableRound(d) then rt.roundFloor else DurableRound(d)
  }

  /** The ballot in memory still names exactly the present base and is not below the floor. */
  predicate BallotUsable(me: PeerId, d: Disk, rt: LeaseRuntime) {
    && CanAttempt(d) && rt.ballot.Some?
    && rt.ballot.value == Attempt(me, d, rt.ballot.value.round)
    && rt.ballot.value.round >= RoundFloor(d, rt)
  }

  function DrivePlan(me: PeerId, d: Disk, rt: LeaseRuntime, wake: bool, meReady: bool, now: Instant): Plan {
    if MayDrive(me, d, rt, wake, meReady, now) then BallotAttempt(me, d, rt) else Deny(rt)
  }

  function BallotAttempt(me: PeerId, d: Disk, rt: LeaseRuntime): Plan
    requires CanAttempt(d)
  {
    if BallotUsable(me, d, rt) then Plan([], rt, Quiet)
    else if RoundFloor(d, rt) == U64_MAX then Deny(rt)
    else OpenPlan(me, d, rt, Attempt(me, d, RoundFloor(d, rt) + 1))
  }

  /** A ballot is opened only behind the candidate's own durable promise for it. */
  function OpenPlan(me: PeerId, d: Disk, rt: LeaseRuntime, b: Ballot): Plan
    requires b.WellFormed()
  {
    match PromiseBallot(d, b)
    case Granted => Plan([PutPromise(b)], rt.(ballot := Some(b), votes := map[me := b]), VoteReply(b))
    case Idempotent => Plan([], rt.(ballot := Some(b), votes := map[me := b]), VoteReply(b))
    case Rejected(highest) => Plan([], rt.(roundFloor := highest), RoundRejected(highest))
  }

  /** `votes` lists, in some order and once each, the votes in memory for the active ballot. */
  predicate Collected(rt: LeaseRuntime, votes: seq<Vote>)
    requires rt.ballot.Some?
  {
    && (forall v :: v in votes ==> v.ballot == rt.ballot.value && v.voter in rt.votes && rt.votes[v.voter] == v.ballot)
    && (forall q :: q in rt.votes && rt.votes[q] == rt.ballot.value ==> Vote(q, rt.ballot.value) in votes)
    && (forall i, j :: 0 <= i < j < |votes| ==> votes[i] != votes[j])
  }

  const CRASH_REASON := "automatic crash recovery after durable quorum ballot"
  const WAKE_REASON := "quorum wake from exact durable sleep boundary"

  function Promoted(me: PeerId, d: Disk, wake: bool): EpochRecord
    requires CanAttempt(d)
  {
    EpochRecord(d.epoch.value.gen.CheckedNext().value, d.epoch, d.head.value.stateRoot, me, Recovery,
                if wake then WAKE_REASON else CRASH_REASON)
  }

  predicate MayPromote(me: PeerId, d: Disk, rt: LeaseRuntime, wake: bool, meReady: bool, now: Instant) {
    MayDrive(me, d, rt, wake, meReady, now) && BallotUsable(me, d, rt)
  }

  function PromotePlan(me: PeerId, d: Disk, rt: LeaseRuntime, wake: bool, meReady: bool, now: Instant,
                       votes: seq<Vote>): Plan
  {
    if MayPromote(me, d, rt, wake, meReady, now) && Collected(rt, votes)
    then PromotionPlan(me, d, rt, wake, RecoveryCertificate(rt.ballot.value, votes)) else Deny(rt)
  }

  /** A majority of votes: certificate first, then the epoch, then the leftovers of the old generation. */
  function PromotionPlan(me: PeerId, d: Disk, rt: LeaseRuntime, wake: bool, c: RecoveryCertificate): Plan
    requires CanAttempt(d)
  {
    var members := Active(d.roster);
    if !HasQuorum(|members|, |c.votes|) then Plan([], rt, Quiet)
    else if !RecoveryShape(c, members) then Deny(rt)
    else TakeOverPlan(rt, d, Promoted(me, d, wake), c, members)
  }

  function TakeOverPlan(rt: LeaseRuntime, d: Disk, next: EpochRecord, c: RecoveryCertificate,
                        members: set<PeerId>): Plan
  {
    Plan([PutCertificate(c, members), PutEpoch(next, Some(c))] + (ClearSleep(d) + ClearPromise(d, next.gen.epoch)),
         rt.(leaseAcks := map[], epochAcks := map[], inbound := None, ballot := None, votes := map[]),
         EpochAccepted(next.gen))
  }

  // ----- accepting epochs -----

  predicate MayAdmit(d: Disk, sender: PeerId, e: EpochRecord) {
    && IsActive(d.roster, sender) && MayLead(d.roster, e.authority)
    && d.head.Some? && d.head.value.stateRoot == e.baseState
  }

  predicate CertifiedRecord(d: Disk, sender: PeerId, e: EpochRecord, c: RecoveryCertificate) {
    && e.mode.Recovery? && MayAdmit(d, sender, e)
    && sender == c.ballot.candidate && e.authority == c.ballot.candidate
    && e.gen == c.ballot.target && e.baseState == c.ballot.state
    && d.head.value.manifest == c.ballot.snapshot
    && d.membership == Some(c.ballot.membership)
    && RecoveryShape(c, Voters(c.ballot.membership))
  }

  /** A promise for a later round, or for another ballot of the same round, refuses the epoch. */
  predicate PromiseForbids(d: Disk, b: Ballot) {
    d.promise.Some? && (d.promise.value.round > b.round || (d.promise.value.round == b.round && d.promise.value != b))
  }

  function RecoveryEpochPlan(d: Disk, rt: LeaseRuntime, sender: PeerId, e: EpochRecord, c: RecoveryCertificate): Plan {
    if d.prepare.Some? || !CertifiedRecord(d, sender, e, c) then Deny(rt)
    else
      var filed := PutCertificate(c, Voters(c.ballot.membership));
      var cleared := ClearSleep(d) + ClearPromise(d, e.gen.epoch);
      if d.epoch == Some(e) then Plan([filed] + cleared, rt, EpochAccepted(e.gen))
      else if d.epoch.Some? && !Follows(d.epoch.value, e) then Deny(rt)
      else if PromiseForbids(d, c.ballot) then Deny(rt)
      else Plan([filed, PutEpoch(e, Some(c))] + cleared, rt.(inbound := None), EpochAccepted(e.gen))
  }

  /** Without a certificate the authority changes only along a committed transfer. */
  predicate MayChangeAuthority(d: Disk, current: EpochRecord, e: EpochRecord, transfer: Option<Transfer>,
                               soloAllowed: bool)
  {
    if e.authority == current.authority then
      e.mode.Solo? ==> soloAllowed && |Active(d.roster)| <= 1
    else
      && transfer.Some? && transfer.value.phase.Committed?
      && transfer.value.source == current.authority && transfer.value.target == e.authority
      && transfer.value.next == e.gen
  }

  function EpochPlan(d: Disk, rt: LeaseRuntime, sender: PeerId, e: EpochRecord, transfer: Option<Transfer>,
                     soloAllowed: bool): Plan
  {
    if d.prepare.Some? || e.mode.Recovery? || !MayAdmit(d, sender, e) then Deny(rt)
    else if d.epoch == Some(e) then Plan([], rt, EpochAccepted(e.gen))
    else if d.epoch.Some?
      && !(Follows(d.epoch.value, e) && MayChangeAuthority(d, d.epoch.value, e, transfer, soloAllowed)) then Deny(rt)
    else if d.epoch.None? && (e.gen.epoch < d.head.value.epoch || e.gen.token == 0) then Deny(rt)
    else Plan([PutEpoch(e, None)] + ClearSleep(d), rt, EpochAccepted(e.gen))
  }

  /** The target of a committed transfer, and whoever observes it, stores the successor directly. */
  function ManualEpochPlan(d: Disk, rt: LeaseRuntime, e: EpochRecord): Plan {
    if e.mode.Recovery? || d.epoch.None? || !Follows(d.epoch.value, e) || !MayLead(d.roster, e.authority)
       || d.head.None? || d.head.value.stateRoot != e.baseState then Deny(rt)
    else Plan([PutEpoch(e, None)] + ClearSleep(d), rt, EpochAccepted(e.gen))
  }

  const INITIAL_REASON := "initial preview authority"
  /** A launch wakes a sleeping world, or mints the first epoch of a world hosted from its creation. */
  function LaunchEpochPlan(me: PeerId, d: Disk, rt: LeaseRuntime): Plan {
    if !MayLead(d.roster, me) || d.head.None? then Deny(rt)
    else if d.sleep.Some? then
      if d.sleep.value.snapshot != d.head.value.manifest
         || d.epoch.None? || d.epoch.value.gen.CheckedNext().None? then Deny(rt)
      else
        var gen := d.epoch.value.gen.CheckedNext().value;
        var next := EpochRecord(gen, d.epoch, d.head.value.stateRoot, me, Solo, SOLO_WAKE_REASON);
        Plan([PutEpoch(next, None)] + ClearSleep(d), rt, EpochAccepted(next.gen))
    else if d.epoch.Some? || d.head.value.author != me then Deny(rt)
    else
      var gen := Generation(d.head.value.epoch, 1);
      var first := EpochRecord(gen, None, d.head.value.stateRoot, me, Solo, INITIAL_REASON);
      Plan([PutEpoch(first, None)] + ClearSleep(d), rt, EpochAccepted(first.gen))
  }

  // ----- keeping authority -----

  predicate HoldsAuthority(me: PeerId, d: Disk) {
    && d.sleep.None? && d.prepare.None?
    && IsActive(d.roster, me)
    && d.epoch.Some? && d.epoch.value.authority == me
  }

  /** The durable certificate is the one the stored recovery epoch rests on. */
  predicate CertificateBacks(d: Disk)
    requires d.epoch.Some?
  {
    && d.certificate.Some?
    && d.certificate.value.ballot.target == d.epoch.value.gen
    && d.certificate.value.ballot.candidate == d.epoch.value.authority
  }

  const RESTORE_REASON := "quorum restored after explicit solo history replication"

  /** Permit upkeep of the accepted authority: a recovery epoch needs a majority of epoch acks first. */
  function AuthorityPlan(me: PeerId, d: Disk, rt: LeaseRuntime, now: Instant): Plan {
    if !HoldsAuthority(me, d) then Deny(rt)
    else
      var e, members := d.epoch.value, Active(d.roster);
      if e.mode.Recovery? && !CertificateBacks(d) then Deny(rt)
      else if e.mode.Recovery? && !HasQuorum(|members|, |EpochConfirmed(me, d.roster, rt, e.gen)|) then
        Plan([], rt, PermitCleared)
      else PermitPlan(me, d, rt, HasQuorum(|members|, |Confirmed(me, d.roster, rt, e.gen, now)|))
  }

  /** With a fresh majority the permit is refreshed, except that a solo authority first restores quorum mode. */
  function PermitPlan(me: PeerId, d: Disk, rt: LeaseRuntime, quorate: bool): Plan
    requires d.epoch.Some?
  {
    var e := d.epoch.value;
    if !quorate then Plan(ClearPromise(d, e.gen.epoch), rt, PermitCleared)
    else if e.mode.Solo? then
      if d.head.None? || e.gen.CheckedNext().None? then Deny(rt)
      else Plan([PutEpoch(Restored(me, d), None)], rt, PermitCleared)
    else
      var beat := if rt.heartbeat == U64_MAX then U64_MAX else rt.heartbeat + 1;
      Plan(ClearPromise(d, e.gen.epoch), rt.(heartbeat := beat), PermitRefreshed(e.gen, beat))
  }

  function Restored(me: PeerId, d: Disk): EpochRecord
    requires d.epoch.Some? && d.head.Some? && d.epoch.value.gen.CheckedNext().Some?
  {
    EpochRecord(d.epoch.value.gen.CheckedNext().value, d.epoch, d.head.value.stateRoot, me, EpochMode.Quorum,
                RESTORE_REASON)
  }

  /** The new authority re-signs the same member list under its own epoch. */
  function ArtifactsPlan(me: PeerId, d: Disk, rt: LeaseRuntime): Plan {
    if !IsActive(d.roster, me) || d.epoch.None? || d.epoch.value.authority != me || d.membership.None?
       || d.membership.value.epoch > d.epoch.value.gen.epoch then Deny(rt)
    else
      var m := d.membership.value;
      if m.epoch == d.epoch.value.gen.epoch && m.authority == me then Plan([], rt, Quiet)
      else if m.sequence == U64_MAX then Deny(rt)
      else
        RefreshPlan(d, rt, MembershipRecord(d.epoch.value.gen.epoch, m.sequence + 1, Some(m), m.members, me))
  }

  function RefreshPlan(d: Disk, rt: LeaseRuntime, m: MembershipRecord): Plan {
    match SaveMembership(d, m)
    case Refused => Deny(rt)
    case Saved(writes) => Plan(writes, rt, Quiet)
  }

  // ----- leases -----

  function LeasePlan(d: Disk, rt: LeaseRuntime, sender: PeerId, gen: Generation, durationMs: nat, now: Instant): Plan {
    if d.prepare.Some? || !MayLead(d.roster, sender) || durationMs != LEASE_MS
       || d.epoch.None? || gen != d.epoch.value.gen || sender != d.epoch.value.authority then Deny(rt)
    else
      var expires := now + durationMs;
      Plan([], rt.(inbound := Some(InboundLease(gen, expires)), notBefore := Some(expires + SETTLE_MS)),
           LeaseAccepted(gen))
  }

  // ----- joint membership change -----

  function Insert(members: seq<Member>, m: Member): seq<Member> {
    if members == [] || m.id < members[0].id then [m] + members
    else [members[0]] + Insert(members[1..], m)
  }

  function Remove(members: seq<Member>, id: PeerId): seq<Member> {
    if members == [] then []
    else if members[0].id == id then Remove(members[1..], id)
    else [members[0]] + Remove(members[1..], id)
  }

  lemma {:induction false} InsertElements(members: seq<Member>, m: Member, x: Member)
    ensures x in Insert(members, m) <==> x in members || x == m
  {
    if members != [] && m.id >= members[0].id {
      InsertElements(members[1..], m, x);
      assert members == [members[0]] + members[1..];
    }
  }

  lemma {:induction false} RemoveElements(members: seq<Member>, id: PeerId, x: Member)
    ensures x in Remove(members, id) <==> x in members && x.id != id
  {
    if members != [] {
      RemoveElements(members[1..], id, x);
      assert members == [members[0]] + members[1..];
    }
  }

  /** A join adds exactly its own voter to the set. */
  lemma JoinAddsOneVoter(members: seq<Member>, m: Member)
    ensures Active(Insert(members, m)) == Active(members) + (if m.banned then {} else {m.id})
  {
    forall x
      ensures x in Insert(members, m) <==> x in members || x == m
    {
      InsertElements(members, m, x);
    }
  }

  /** A leave takes exactly its own voter away. */
  lemma LeaveTakesOneVoter(members: seq<Member>, peer: PeerId)
    ensures Active(Remove(members, peer)) == Active(members) - {peer}
  {
    forall x
      ensures x in Remove(members, peer) <==> x in members && x.id != peer
    {
      RemoveElements(members, peer, x);
    }
  }

  /** A join or leave request at the authority turns into a proposal it prepares itself. */
  datatype Change = Joining(member: Member) | Leaving(peer: PeerId)

  function ChangedRoster(d: Disk, change: Change): seq<Member> {
    match change
    case Joining(m) => Insert(d.roster, m)
    case Leaving(peer) => Remove(d.roster, peer)
  }

  /** The prepare on file already proposes this very change. */
  predicate Repeats(d: Disk, change: Change)
    requires d.prepare.Some? && d.membership.Some?
  {
    && d.prepare.value.previous == d.membership.value
    && match change
       case Joining(m) => Lookup(d.prepare.value.proposed.members, m.id) == Some(m)
       case Leaving(peer) => Lookup(d.prepare.value.proposed.members, peer).None?
  }

  function ProposePlan(me: PeerId, d: Disk, rt: LeaseRuntime, change: Change): Plan {
    if d.membership.None? || d.membership.value.authority != me || !IsActive(d.roster, me) then Deny(rt)
    else if change.Joining? && Lookup(d.roster, change.member.id).Some? then
      if IsActive(d.roster, change.member.id) then Plan([], rt, MembershipAccepted(d.membership.value.sequence))
      else Deny(rt)
    else if change.Leaving? && (change.peer == me || !IsActive(d.roster, change.peer)) then Deny(rt)
    else if d.prepare.Some? then (if Repeats(d, change) then Plan([], rt, PrepareReply(d.prepare.value)) else Deny(rt))
    else if d.membership.value.sequence == U64_MAX then Deny(rt)
    else NewProposalPlan(me, d, rt, ChangedRoster(d, change))
  }

  function NewProposalPlan(me: PeerId, d: Disk, rt: LeaseRuntime, members: seq<Member>): Plan
    requires d.membership.Some? && d.prepare.None? && d.membership.value.sequence < U64_MAX
  {
    var current := d.membership.value;
    var p := Proposal(current, MembershipRecord(current.epoch, current.sequence + 1, Some(current), members, me));
    if !ProposalShape(p) then Deny(rt)
    else Plan([PutPrepare(p)], rt.(jointVotes := rt.jointVotes[me := p], heartbeat := 0), PrepareReply(p))
  }

  /** Votes only for a change of the configuration it committed, or for its own pending join. */
  predicate ForLocal(me: PeerId, d: Disk, p: Proposal, inviteLive: bool) {
    && me in Voters(p.previous) + Voters(p.proposed)
    && if d.membership.Some? then d.membership.value == p.previous
       else
         && d.join.Some? && inviteLive && d.join.value.member.id == me
         && Lookup(p.proposed.members, me) == Some(d.join.value.member)
         && d.join.value.inviter == p.previous.authority
  }

  function PreparePlan(me: PeerId, d: Disk, rt: LeaseRuntime, sender: PeerId, p: Proposal, inviteLive: bool): Plan {
    if sender != p.proposed.authority || !ProposalShape(p) || !ForLocal(me, d, p, inviteLive) then Deny(rt)
    else match PromiseMembership(d, p)
      case Granted => Plan([PutPrepare(p)], rt.(heartbeat := 0), PrepareReply(p))
      case Idempotent => Plan([], rt.(heartbeat := 0), PrepareReply(p))
      case Rejected(_) => Deny(rt)
  }

  /** What follows a committed record: the roster, then the prepare and the join it fulfils. */
  function Settled(d: Disk, next: MembershipRecord): seq<Write> {
    [PutRoster(next.members)] + ClearPrepare(d, next) + ClearSatisfiedJoin(d, next.members)
  }

  /** The committed record and what follows it; `None` if storage refuses. */
  function ApplyJoint(d: Disk, c: JointCertificate): Option<seq<Write>> {
    var next := c.proposal.proposed;
    if !JointShape(c) || d.roster == [] then None
    else if d.membership.Some? && d.membership.value != next && d.membership.value != c.proposal.previous then None
    else if d.membership.None?
      && (d.join.None? || Lookup(next.members, d.join.value.member.id) != Some(d.join.value.member)) then None
    else match SaveMembership(d, next)
      case Refused => None
      case Saved(writes) => Some(writes + Settled(d, next))
  }

  /** File the certificate, then apply it; filing stands even if applying is refused. */
  function CommitWrites(d: Disk, c: JointCertificate): (result: (bool, seq<Write>)) {
    match SaveJoint(d, c)
    case Refused => (false, [])
    case Saved(filed) =>
      match ApplyJoint(Replay(d, filed), c)
      case None => (false, filed)
      case Some(applied) => (true, filed + applied)
  }

  predicate CommitForLocal(me: PeerId, d: Disk, c: JointCertificate, inviteLive: bool) {
    && JointShape(c)
    && (if d.membership.Some? then d.membership.value in {c.proposal.proposed, c.proposal.previous}
        else ForLocal(me, d, c.proposal, inviteLive))
    && (d.prepare.Some? ==> d.prepare.value == c.proposal)
  }

  function CommitPlan(me: PeerId, d: Disk, rt: LeaseRuntime, sender: PeerId, c: JointCertificate,
                      inviteLive: bool): Plan
  {
    if sender != c.proposal.proposed.authority || !CommitForLocal(me, d, c, inviteLive) then Deny(rt)
    else
      var (ok, writes) := CommitWrites(d, c);
      if ok then Plan(writes, rt.(heartbeat := 0, jointVotes := map[]), CommitAccepted(c.proposal.proposed.sequence))
      else Plan(writes, rt, Denied)
  }

  predicate JointCollected(rt: LeaseRuntime, p: Proposal, votes: seq<JointVote>) {
    && (forall v :: v in votes ==> v.proposal == p && v.voter in rt.jointVotes && rt.jointVotes[v.voter] == p)
    && (forall q :: q in rt.jointVotes && rt.jointVotes[q] == p ==> JointVote(q, p) in votes)
    && (forall i, j :: 0 <= i < j < |votes| ==> votes[i] != votes[j])
  }

  /** The authority's tick while it holds a prepare: commit once both majorities voted. */
  function TransitionPlan(me: PeerId, d: Disk, rt0: LeaseRuntime, votes: seq<JointVote>): Plan {
    if d.prepare.None? || d.prepare.value.proposed.authority != me || d.membership.None? then Deny(rt0)
    else
      var p, rt := d.prepare.value, rt0.(heartbeat := 0);
      if d.membership.value == p.proposed then Plan(ClearPrepare(d, p.proposed), rt, Quiet)
      else if d.membership.value != p.previous then Deny(rt)
      else JointCommitPlan(d, rt.(jointVotes := rt.jointVotes[me := p]), p, votes)
  }

  function JointCommitPlan(d: Disk, rt: LeaseRuntime, p: Proposal, votes: seq<JointVote>): Plan {
    var c := JointCertificate(p, votes);
    if !JointCollected(rt, p, votes) || !JointShape(c) then Plan([], rt, Quiet)
    else
      var (ok, writes) := CommitWrites(d, c);
      if ok then Plan(writes, rt.(jointVotes := map[]), CommitAccepted(p.proposed.sequence))
      else Plan(writes, rt, Denied)
  }

  /** Replays a certificate that was filed before a crash, unless a later record supersedes it. */
  /** Records are ordered by epoch, then by sequence. */
  predicate Later(m: MembershipRecord, n: MembershipRecord) {
    m.epoch > n.epoch || (m.epoch == n.epoch && m.sequence > n.sequence)
  }

  function RecoverMembershipPlan(me: PeerId, d: Disk, rt: LeaseRuntime, inviteLive: bool): Plan {
    if d.joint.None? then Plan([], rt, Quiet)
    else
      var c := d.joint.value;
      var next := c.proposal.proposed;
      if d.membership == Some(next) then Plan(ClearPrepare(d, next), rt, Quiet)
      else if d.membership.Some? && Later(d.membership.value, next) then Plan([], rt, Quiet)
      else if !CommitForLocal(me, d, c, inviteLive) then Deny(rt)
      else match ApplyJoint(d, c)
        case None => Deny(rt)
        case Some(writes) => Plan(writes, rt, Quiet)
  }

  predicate MembershipAdmissible(d: Disk, sender: PeerId, m: MembershipRecord) {
    && IsActive(d.roster, sender) && IsActive(d.roster, m.authority)
    && Ordered(m.members) && m.members != []
    && (d.epoch.Some? ==> m.epoch <= d.epoch.value.gen.epoch)
    && (d.epoch.Some? && m.epoch == d.epoch.value.gen.epoch ==> m.authority == d.epoch.value.authority)
  }

  /** A plain membership record may refresh the epoch and authority, never the voters. */
  predicate Refreshes(d: Disk, m: MembershipRecord) {
    if d.membership.Some? then m.members == d.membership.value.members && Extends(d.membership.value, m)
    else m.sequence == 1 && m.previous.None?
  }

  function MembershipPlan(d: Disk, rt: LeaseRuntime, sender: PeerId, m: MembershipRecord): Plan {
    if !MembershipAdmissible(d, sender, m) then Deny(rt)
    else if d.membership == Some(m) then Plan([], rt, MembershipAccepted(m.sequence))
    else if !Refreshes(d, m) then Deny(rt)
    else AdoptPlan(d, rt, m)
  }

  function AdoptPlan(d: Disk, rt: LeaseRuntime, m: MembershipRecord): Plan {
    match SaveMembership(d, m)
    case Refused => Deny(rt)
    case Saved(writes) =>
      Plan(writes + ([PutRoster(m.members)] + ClearSatisfiedJoin(d, m.members)), rt, MembershipAccepted(m.sequence))
  }

  // ----- sleep -----

  function SleepPlan(d: Disk, rt: LeaseRuntime, sender: PeerId, s: SleepRecord): Plan {
    if d.prepare.Some? || sender != s.authority || !MayLead(d.roster, sender)
       || d.epoch.None? || d.head.None? || !SleepMatches(s, d.epoch.value, d.head.value) then Deny(rt)
    else Plan([PutSleep(s)], rt, SleepAccepted(s.gen))
  }

  // ----- discovery freshness -----

  datatype Challenge = Challenge(
    membership: MembershipRecord, pending: Option<Proposal>, gen: Generation, authority: PeerId, head: Option<Snapshot>)

  /** `configMatches`: the stored world configuration is the one the challenge names. */
  predicate VouchesFresh(me: PeerId, d: Disk, ch: Challenge, configMatches: bool) {
    && d.membership == Some(ch.membership)
    && (d.promise.Some? ==> !ch.gen.Before(d.promise.value.target))
    && d.epoch.Some? && d.epoch.value.gen == ch.gen && d.epoch.value.authority == ch.authority
    && configMatches
    && d.head == ch.head
    && d.prepare == ch.pending
    && (me in Voters(ch.membership) || (ch.pending.Some? && me in Voters(ch.pending.value.proposed)))
  }

  // ----- answers that reach the asking peer -----

  function ReceiveVote(rt: LeaseRuntime, peer: PeerId, vote: Vote): LeaseRuntime {
    if rt.ballot == Some(vote.ballot) && vote.voter == peer then rt.(votes := rt.votes[peer := vote.ballot]) else rt
  }

  /** A rejection at or above the active round retires the ballot and raises the floor. */
  function ReceiveRejection(rt: LeaseRuntime, asked: Ballot, highest: U64): LeaseRuntime {
    var active := if rt.ballot == Some(asked) then asked.round else 0;
    if highest < active then rt
    else rt.(roundFloor := if highest > rt.roundFloor then highest else rt.roundFloor, ballot := None, votes := map[])
  }

  function ReceiveLeaseAck(rt: LeaseRuntime, peer: PeerId, gen: Generation, now: Instant): LeaseRuntime {
    rt.(leaseAcks := rt.leaseAcks[peer := LeaseAck(gen, now)])
  }

  function ReceiveEpochAck(rt: LeaseRuntime, peer: PeerId, gen: Generation): LeaseRuntime {
    rt.(epochAcks := rt.epochAcks[peer := gen])
  }

  function ReceiveJointVote(d: Disk, rt: LeaseRuntime, peer: PeerId, vote: JointVote): LeaseRuntime {
    if d.prepare == Some(vote.proposal) && vote.voter == peer then
      rt.(jointVotes := rt.jointVotes[peer := vote.proposal])
    else rt
  }
}
