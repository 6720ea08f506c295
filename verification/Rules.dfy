/**
  When each request is granted and what it then changes, said in terms of the
  files and of what the peer sees. Nothing here calls a plan or a check of the
  handlers: the lemmas prove that the plans decide exactly this.
*/
module Rules {
  import opened Records
  import opened Durable
  import opened Runtime
  import opened Quorum
  import opened Certificates
  import opened Plans

  // ----- who and when -----

  /** Its status, seen in the last 3,000 ms, is the local epoch and head. */
  predicate SeenAtHead(d: Disk, rt: LeaseRuntime, p: PeerId, now: Instant) {
    && d.epoch.Some? && d.head.Some? && p in rt.connected && p in rt.statuses
    && now <= rt.statuses[p].observedAt + 3_000
    && var s := rt.statuses[p].status;
       && s.epoch == d.epoch.value.gen.epoch && s.sequence == d.head.value.sequence
       && s.snapshot == Some(d.head.value.manifest) && s.state == Some(d.head.value.stateRoot)
       && s.fingerprint == d.fingerprint
  }

  /** Its report, seen in the last 3,000 ms, says that it could run this world. */
  predicate SeenAble(d: Disk, rt: LeaseRuntime, p: PeerId, now: Instant) {
    && p in rt.connected && p in rt.capabilities && now <= rt.capabilities[p].observedAt + 3_000
    && var c := rt.capabilities[p].capability;
       c.fingerprint == d.fingerprint && c.runtime == Ready && c.serverMods == ModsReady && c.conflictFree
  }

  /** The authority is away and every lease it could still hold is over: 2,000 ms past its end. */
  predicate AuthorityAway(d: Disk, rt: LeaseRuntime, now: Instant) {
    && d.epoch.Some? && d.epoch.value.authority !in rt.connected
    && var gen := d.epoch.value.gen;
       && (rt.inbound.Some? ==> !gen.Before(rt.inbound.value.gen))
       && if rt.inbound.Some? && rt.inbound.value.gen == gen then rt.inbound.value.expiresAt + 2_000 <= now
          else rt.notBefore.Some? && rt.notBefore.value <= now
  }

  /** The world sleeps at exactly the stored generation and head. */
  predicate AsleepAtHead(d: Disk) {
    && d.epoch.Some? && d.head.Some?
    && d.sleep == Some(SleepRecord(d.head.value.manifest, d.epoch.value.gen, d.epoch.value.authority))
  }

  predicate Recoverable(d: Disk, rt: LeaseRuntime, now: Instant) {
    if d.sleep.Some? then AsleepAtHead(d) else AuthorityAway(d, rt, now)
  }

  // ----- recovery ballots -----

  /** The ballot is for the direct successor of the stored generation, on the stored head and membership. */
  predicate OnLocalBase(d: Disk, b: Ballot) {
    && d.epoch.Some? && d.head.Some? && d.membership == Some(b.membership)
    && b.base == d.epoch.value.gen && Directly(b.base, b.target) && b.round > 0
    && b.snapshot == d.head.value.manifest && b.state == d.head.value.stateRoot
  }

  /** A peer votes for a ready host on its own head, once the authority is away or the world asleep. */
  ghost predicate VoteDue(d: Disk, rt: LeaseRuntime, sender: PeerId, b: Ballot, now: Instant) {
    && d.prepare.None? && sender == b.candidate && Host(d.roster, sender)
    && OnLocalBase(d, b) && Recoverable(d, rt, now)
    && SeenAtHead(d, rt, sender, now) && SeenAble(d, rt, sender, now)
  }

  /** Nothing was promised, or this very ballot, or an earlier round of it. */
  predicate PromiseAllows(promise: Option<Ballot>, b: Ballot) {
    promise.Some? ==>
      || promise.value == b
      || (promise.value.round < b.round && promise.value == b.(round := promise.value.round))
  }

  lemma VoteExactly(d: Disk, rt: LeaseRuntime, sender: PeerId, b: Ballot, now: Instant)
    requires Ordered(d.roster)
    ensures var reply := BallotPlan(d, rt, sender, b, now).reply;
            if !VoteDue(d, rt, sender, b, now) then reply == Denied
            else if PromiseAllows(d.promise, b) then reply == VoteReply(b)
            else reply == RoundRejected(d.promise.value.round)
  {
    HostExactly(d.roster, b.candidate);
  }

  // ----- who drives a recovery -----

  /** The members that count as surviving: oneself, and whoever is seen at the local head. */
  function Survivors(me: PeerId, d: Disk, rt: LeaseRuntime, now: Instant): set<PeerId> {
    {me} + set m | m in d.roster && m.id != me && !m.banned && SeenAtHead(d, rt, m.id, now) :: m.id
  }

  /** Another member that is seen to be able to take over. */
  predicate Rival(me: PeerId, d: Disk, rt: LeaseRuntime, m: Member, now: Instant) {
    && m in d.roster && m.id != me && m.eligible && !m.banned
    && SeenAtHead(d, rt, m.id, now) && SeenAble(d, rt, m.id, now) && rt.statuses[m.id].status.eligible
  }

  /** The least of all able hosts drives, with a majority in sight, a world of several that lost its authority. */
  ghost predicate DriveDue(me: PeerId, d: Disk, rt: LeaseRuntime, wake: bool, ready: bool, now: Instant) {
    && d.prepare.None? && wake == d.sleep.Some? && Host(d.roster, me) && ready
    && d.epoch.Some? && d.head.Some? && d.membership.Some?
    && d.epoch.value.gen.epoch < U64_MAX && d.epoch.value.gen.token < U64_MAX
    && Recoverable(d, rt, now) && (!wake ==> d.epoch.value.authority != me)
    && |Active(d.roster)| > 1 && 2 * |Survivors(me, d, rt, now)| > |Active(d.roster)|
    && forall m :: Rival(me, d, rt, m, now) ==> me < m.id
  }

  lemma SurvivorsAreVisible(me: PeerId, d: Disk, rt: LeaseRuntime, now: Instant)
    requires d.epoch.Some? && d.head.Some?
    ensures Visible(me, d.roster, rt, d.fingerprint, d.epoch.value.gen.epoch, d.head.value, now)
            == Survivors(me, d, rt, now)
  {
  }

  lemma RivalsAreHosts(me: PeerId, d: Disk, rt: LeaseRuntime, ready: bool, now: Instant)
    requires d.epoch.Some? && d.head.Some?
    ensures Drives(me, Hosts(me, ready, d.roster, rt, d.fingerprint, d.epoch.value.gen.epoch, d.head.value, now))
            <==> ready && forall m :: Rival(me, d, rt, m, now) ==> me < m.id
  {
    var hosts := Hosts(me, ready, d.roster, rt, d.fingerprint, d.epoch.value.gen.epoch, d.head.value, now);
    forall m | m in d.roster && m.id != me && !m.banned
      ensures CanHost(rt, m, d.fingerprint, d.epoch.value.gen.epoch, d.head.value, now) <==> Rival(me, d, rt, m, now)
    {
    }
    forall m | Rival(me, d, rt, m, now)
      ensures m.id in hosts
    {
    }
  }

  lemma QuorumExactly(members: nat, visible: nat)
    ensures HasQuorum(members, visible) <==> members > 0 && 2 * visible > members
  {
  }

  lemma RecoverableExactly(d: Disk, rt: LeaseRuntime, now: Instant)
    requires d.epoch.Some? && d.head.Some?
    ensures Recoverable(d, rt, now) <==>
              && (d.sleep.Some? ==> SleepMatches(d.sleep.value, d.epoch.value, d.head.value))
              && (d.sleep.None? ==>
                    d.epoch.value.authority !in rt.connected && WindowOpen(rt, d.epoch.value.gen, now))
  {
  }

  lemma DriveExactly(me: PeerId, d: Disk, rt: LeaseRuntime, wake: bool, ready: bool, now: Instant)
    requires Ordered(d.roster)
    ensures MayDrive(me, d, rt, wake, ready, now) <==> DriveDue(me, d, rt, wake, ready, now)
  {
    HostExactly(d.roster, me);
    if d.epoch.Some? && d.head.Some? {
      SurvivorsAreVisible(me, d, rt, now);
      RivalsAreHosts(me, d, rt, ready, now);
      RecoverableExactly(d, rt, now);
      QuorumExactly(|Active(d.roster)|, |Survivors(me, d, rt, now)|);
    }
  }

  /** The next attempt: on the local base, above every round this peer knows of. */
  ghost predicate NextAttempt(me: PeerId, d: Disk, rt: LeaseRuntime, b: Ballot) {
    && OnLocalBase(d, b) && b.candidate == me
    && b.round == 1 + (if d.promise.Some? && d.promise.value.round > rt.roundFloor then d.promise.value.round
                       else rt.roundFloor)
  }

  /** The ballot in hand is for the local base and at no round below one this peer knows of. */
  predicate InHand(me: PeerId, d: Disk, rt: LeaseRuntime) {
    && rt.ballot.Some?
    && var b := rt.ballot.value;
       && d.epoch.Some? && d.head.Some? && d.membership == Some(b.membership) && b.candidate == me
       && b.base == d.epoch.value.gen && Directly(b.base, b.target)
       && b.snapshot == d.head.value.manifest && b.state == d.head.value.stateRoot
       && b.round >= rt.roundFloor && (d.promise.Some? ==> b.round >= d.promise.value.round)
  }

  /** A peer that drives keeps the ballot in hand, or opens the next attempt and is its first voter. */
  lemma AttemptExactly(me: PeerId, d: Disk, rt: LeaseRuntime, wake: bool, ready: bool, now: Instant)
    requires Ordered(d.roster)
    ensures var plan := DrivePlan(me, d, rt, wake, ready, now);
            if !DriveDue(me, d, rt, wake, ready, now) then plan == Plan([], rt, Denied)
            else if InHand(me, d, rt) then plan == Plan([], rt, Quiet)
            else if plan.reply.VoteReply? then
              && NextAttempt(me, d, rt, plan.reply.ballot) && PromiseAllows(d.promise, plan.reply.ballot)
              && plan.writes == [PutPromise(plan.reply.ballot)]
              && plan.runtime == rt.(ballot := Some(plan.reply.ballot), votes := map[me := plan.reply.ballot])
            else
              && plan.writes == [] && (plan.reply == Denied <==> RoundsExhausted(d, rt))
              && (plan.reply.RoundRejected? ==>
                    d.promise.Some? && forall b :: NextAttempt(me, d, rt, b) ==> !PromiseAllows(d.promise, b))
  {
    DriveExactly(me, d, rt, wake, ready, now);
    if DriveDue(me, d, rt, wake, ready, now) { OpenedExactly(me, d, rt); }
  }

  predicate RoundsExhausted(d: Disk, rt: LeaseRuntime) {
    rt.roundFloor == U64_MAX || (d.promise.Some? && d.promise.value.round == U64_MAX)
  }

  lemma OpenedExactly(me: PeerId, d: Disk, rt: LeaseRuntime)
    requires CanAttempt(d)
    ensures var plan := BallotAttempt(me, d, rt);
            if InHand(me, d, rt) then plan == Plan([], rt, Quiet)
            else if plan.reply.VoteReply? then
              && NextAttempt(me, d, rt, plan.reply.ballot) && PromiseAllows(d.promise, plan.reply.ballot)
              && plan.writes == [PutPromise(plan.reply.ballot)]
              && plan.runtime == rt.(ballot := Some(plan.reply.ballot), votes := map[me := plan.reply.ballot])
            else
              && plan.writes == [] && (plan.reply == Denied <==> RoundsExhausted(d, rt))
              && (plan.reply.RoundRejected? ==>
                    d.promise.Some? && forall b :: NextAttempt(me, d, rt, b) ==> !PromiseAllows(d.promise, b))
  {
    if !InHand(me, d, rt) && !RoundsExhausted(d, rt) {
      var next := Attempt(me, d, RoundFloor(d, rt) + 1);
      assert forall b :: NextAttempt(me, d, rt, b) ==> b == next;
    }
  }

  /** Of two hosts that see each other as able to take over, at most one drives, whatever else they see. */
  lemma AtMostOneDrives(p: Member, dp: Disk, rp: LeaseRuntime, q: Member, dq: Disk, rq: LeaseRuntime, wake: bool,
                        wake': bool, ready: bool, ready': bool, now: Instant, now': Instant)
    requires Rival(p.id, dp, rp, q, now) && Rival(q.id, dq, rq, p, now')
    requires Ordered(dp.roster) && Ordered(dq.roster)
    ensures !(MayDrive(p.id, dp, rp, wake, ready, now) && MayDrive(q.id, dq, rq, wake', ready', now'))
  {
    DriveExactly(p.id, dp, rp, wake, ready, now);
    DriveExactly(q.id, dq, rq, wake', ready', now');
  }

  // ----- certified epochs -----

  /** Matching votes of members only, and a majority of them. */
  ghost predicate Elected(c: RecoveryCertificate, voters: set<PeerId>) {
    && Directly(c.ballot.base, c.ballot.target) && c.ballot.round > 0
    && (forall v :: v in c.votes ==> v.ballot == c.ballot && v.voter in voters)
    && (voters != {} ==> 2 * |VotersOf(c.votes)| > |voters|)
  }

  lemma ElectedExactly(c: RecoveryCertificate, voters: set<PeerId>)
    ensures RecoveryShape(c, voters) <==> Elected(c, voters)
  {
  }

  /** Record, ballot and local head agree on the base, and one host is sender, candidate and authority. */
  ghost predicate OnCertifiedBase(d: Disk, sender: PeerId, e: EpochRecord, c: RecoveryCertificate) {
    && e.mode.Recovery? && sender == e.authority && sender == c.ballot.candidate && Host(d.roster, sender)
    && e.gen == c.ballot.target && d.head.Some?
    && d.head.value.stateRoot == e.baseState && d.head.value.stateRoot == c.ballot.state
    && d.head.value.manifest == c.ballot.snapshot && d.membership == Some(c.ballot.membership)
    && Elected(c, Voters(c.ballot.membership))
  }

  lemma CertifiedExactly(d: Disk, sender: PeerId, e: EpochRecord, c: RecoveryCertificate)
    requires Ordered(d.roster)
    ensures CertifiedRecord(d, sender, e, c) <==> OnCertifiedBase(d, sender, e, c)
  {
    HostExactly(d.roster, sender);
    ElectedExactly(c, Voters(c.ballot.membership));
  }

  /** The record is the stored one, or its direct successor that no later or other promise forbids. */
  predicate InSequence(d: Disk, e: EpochRecord, b: Ballot) {
    || d.epoch == Some(e)
    || (&& (d.epoch.Some? ==> Directly(d.epoch.value.gen, e.gen) && e.previous == d.epoch)
        && (d.promise.Some? ==> d.promise.value.round < b.round || d.promise.value == b))
  }

  /** A promise ends with the epoch it was for. */
  function StillPromised(promise: Option<Ballot>, epoch: U64): Option<Ballot> {
    if promise.Some? && promise.value.target.epoch <= epoch then None else promise
  }

  lemma ClearedPromise(d: Disk, epoch: U64)
    ensures Replay(d, ClearPromise(d, epoch)) == d.(promise := StillPromised(d.promise, epoch))
  {
    if ClearPromise(d, epoch) != [] { ReplayOne(d, DropPromise); }
  }

  lemma CleanedFiles(d: Disk, epoch: U64)
    ensures Replay(d, ClearSleep(d) + ClearPromise(d, epoch))
            == d.(sleep := None, promise := StillPromised(d.promise, epoch))
  {
    if ClearSleep(d) != [] { ReplayOne(d, DropSleep); }
    ClearedPromise(d.(sleep := None), epoch);
    ReplayAppend(d, ClearSleep(d), ClearPromise(d, epoch));
  }

  /** The files once a certified epoch is installed. */
  function Installed(d: Disk, e: EpochRecord, c: RecoveryCertificate): Disk {
    d.(certificate := Some(c), epoch := Some(e), sleep := None, promise := StillPromised(d.promise, e.gen.epoch))
  }

  lemma InstalledFiles(d: Disk, e: EpochRecord, c: RecoveryCertificate, electorate: set<PeerId>)
    ensures Replay(d, [PutCertificate(c, electorate), PutEpoch(e, Some(c))]
                      + (ClearSleep(d) + ClearPromise(d, e.gen.epoch))) == Installed(d, e, c)
  {
    var filed, stored := PutCertificate(c, electorate), PutEpoch(e, Some(c));
    ReplayOne(d, filed);
    ReplaySnoc(d, [filed], stored);
    assert [filed] + [stored] == [filed, stored];
    var d2 := d.(certificate := Some(c), epoch := Some(e));
    CleanedFiles(d2, e.gen.epoch);
    ReplayAppend(d, [filed, stored], ClearSleep(d) + ClearPromise(d, e.gen.epoch));
  }

  lemma RefiledFiles(d: Disk, e: EpochRecord, c: RecoveryCertificate, electorate: set<PeerId>)
    requires d.epoch == Some(e)
    ensures Replay(d, [PutCertificate(c, electorate)] + (ClearSleep(d) + ClearPromise(d, e.gen.epoch)))
            == Installed(d, e, c)
  {
    var filed := PutCertificate(c, electorate);
    ReplayOne(d, filed);
    CleanedFiles(d.(certificate := Some(c)), e.gen.epoch);
    ReplayAppend(d, [filed], ClearSleep(d) + ClearPromise(d, e.gen.epoch));
  }

  ghost predicate AcceptDue(d: Disk, sender: PeerId, e: EpochRecord, c: RecoveryCertificate) {
    d.prepare.None? && OnCertifiedBase(d, sender, e, c) && InSequence(d, e, c.ballot)
  }

  lemma AcceptDecides(d: Disk, rt: LeaseRuntime, sender: PeerId, e: EpochRecord, c: RecoveryCertificate)
    requires Ordered(d.roster)
    ensures var plan := RecoveryEpochPlan(d, rt, sender, e, c);
            if AcceptDue(d, sender, e, c) then plan.reply == EpochAccepted(e.gen) else plan == Plan([], rt, Denied)
  {
    CertifiedExactly(d, sender, e, c);
  }

  /** A certified epoch is accepted exactly when it is due, and then installed. */
  lemma AcceptExactly(d: Disk, rt: LeaseRuntime, sender: PeerId, e: EpochRecord, c: RecoveryCertificate)
    requires Ordered(d.roster)
    ensures var plan := RecoveryEpochPlan(d, rt, sender, e, c);
            if AcceptDue(d, sender, e, c)
            then plan.reply == EpochAccepted(e.gen) && Replay(d, plan.writes) == Installed(d, e, c)
            else plan == Plan([], rt, Denied)
  {
    AcceptDecides(d, rt, sender, e, c);
    if AcceptDue(d, sender, e, c) {
      if d.epoch == Some(e) {
        RefiledFiles(d, e, c, Voters(c.ballot.membership));
      } else {
        InstalledFiles(d, e, c, Voters(c.ballot.membership));
      }
    }
  }

  /** Whose votes for the ballot in hand have come in. */
  function VotesInHand(rt: LeaseRuntime): set<PeerId> {
    set q | q in rt.votes && rt.ballot == Some(rt.votes[q])
  }

  /** The epoch a promotion stores. */
  predicate Successor(me: PeerId, d: Disk, wake: bool, e: EpochRecord) {
    && d.epoch.Some? && d.head.Some? && Directly(d.epoch.value.gen, e.gen) && e.previous == d.epoch
    && e.baseState == d.head.value.stateRoot && e.authority == me && e.mode.Recovery?
    && e.reason == if wake then "quorum wake from exact durable sleep boundary"
                   else "automatic crash recovery after durable quorum ballot"
  }

  lemma {:induction false} DistinctVotes(votes: seq<Vote>, ballot: Ballot)
    requires forall v :: v in votes ==> v.ballot == ballot
    requires forall i, j :: 0 <= i < j < |votes| ==> votes[i] != votes[j]
    ensures |VotersOf(votes)| == |votes|
  {
    if votes != [] {
      var k := |votes| - 1;
      DistinctVotes(votes[..k], ballot);
      assert votes == votes[..k] + [votes[k]];
      assert votes[k] in votes;
      assert votes[k].voter !in VotersOf(votes[..k]);
      assert VotersOf(votes) == VotersOf(votes[..k]) + {votes[k].voter};
    }
  }

  lemma CollectedExactly(rt: LeaseRuntime, votes: seq<Vote>)
    requires rt.ballot.Some? && Collected(rt, votes)
    ensures VotersOf(votes) == VotesInHand(rt) && |votes| == |VotesInHand(rt)|
  {
    DistinctVotes(votes, rt.ballot.value);
    forall q | q in VotesInHand(rt)
      ensures q in VotersOf(votes)
    {
      assert Vote(q, rt.ballot.value) in votes;
    }
  }

  lemma ShapeInHand(me: PeerId, d: Disk, rt: LeaseRuntime, votes: seq<Vote>)
    requires InHand(me, d, rt) && Collected(rt, votes) && d.roster != []
    ensures var c := RecoveryCertificate(rt.ballot.value, votes);
            HasQuorum(|Active(d.roster)|, |votes|) && RecoveryShape(c, Active(d.roster)) <==>
              && rt.ballot.value.round > 0 && VotesInHand(rt) <= Active(d.roster)
              && 2 * |VotesInHand(rt)| > |Active(d.roster)|
  {
    CollectedExactly(rt, votes);
    QuorumExactly(|Active(d.roster)|, |votes|);
    if VotesInHand(rt) <= Active(d.roster) { SubsetCardinality(VotesInHand(rt), Active(d.roster)); }
    var c := RecoveryCertificate(rt.ballot.value, votes);
    if RecoveryShape(c, Active(d.roster)) {
      forall q | q in VotesInHand(rt)
        ensures q in Active(d.roster)
      {
        assert Vote(q, rt.ballot.value) in votes;
      }
    }
  }

  /** The writes of a promotion, certificate first. */
  ghost predicate Promotes(me: PeerId, d: Disk, rt: LeaseRuntime, wake: bool, votes: seq<Vote>, plan: Plan)
    requires rt.ballot.Some?
  {
    var c := RecoveryCertificate(rt.ballot.value, votes);
    && plan.reply == EpochAccepted(rt.ballot.value.target) && |plan.writes| >= 2
    && plan.writes[0] == PutCertificate(c, Active(d.roster))
    && plan.writes[1].PutEpoch? && plan.writes[1].proof == Some(c) && Successor(me, d, wake, plan.writes[1].epoch)
    && Replay(d, plan.writes) == Installed(d, plan.writes[1].epoch, c)
  }

  lemma InHandPromotes(me: PeerId, d: Disk, rt: LeaseRuntime, wake: bool, votes: seq<Vote>)
    requires CanAttempt(d) && InHand(me, d, rt) && Collected(rt, votes) && d.roster != []
    ensures var plan := PromotionPlan(me, d, rt, wake, RecoveryCertificate(rt.ballot.value, votes));
            if && rt.ballot.value.round > 0 && VotesInHand(rt) <= Active(d.roster)
               && 2 * |VotesInHand(rt)| > |Active(d.roster)|
            then Promotes(me, d, rt, wake, votes, plan)
            else plan.writes == [] && plan.runtime == rt && plan.reply in {Denied, Quiet}
  {
    ShapeInHand(me, d, rt, votes);
    InstalledFiles(d, Promoted(me, d, wake), RecoveryCertificate(rt.ballot.value, votes), Active(d.roster));
  }

  lemma InHandExactly(me: PeerId, d: Disk, rt: LeaseRuntime)
    requires CanAttempt(d)
    ensures BallotUsable(me, d, rt) <==> InHand(me, d, rt)
  {
  }

  /** The ballot in hand has a majority of the members behind it, and nobody else. */
  predicate MajorityInHand(me: PeerId, d: Disk, rt: LeaseRuntime) {
    && InHand(me, d, rt) && rt.ballot.value.round > 0
    && VotesInHand(rt) <= Active(d.roster) && 2 * |VotesInHand(rt)| > |Active(d.roster)|
  }

  lemma PromotionNeedsBallot(me: PeerId, d: Disk, rt: LeaseRuntime, wake: bool, ready: bool, now: Instant,
                             votes: seq<Vote>)
    requires !MayDrive(me, d, rt, wake, ready, now) || !BallotUsable(me, d, rt)
    ensures PromotePlan(me, d, rt, wake, ready, now, votes) == Plan([], rt, Denied)
  {
  }

  lemma PromotionUsesBallot(me: PeerId, d: Disk, rt: LeaseRuntime, wake: bool, ready: bool, now: Instant,
                            votes: seq<Vote>)
    requires MayDrive(me, d, rt, wake, ready, now) && BallotUsable(me, d, rt) && Collected(rt, votes)
    ensures CanAttempt(d)
    ensures PromotePlan(me, d, rt, wake, ready, now, votes)
            == PromotionPlan(me, d, rt, wake, RecoveryCertificate(rt.ballot.value, votes))
  {
  }

  lemma DriverPromotes(me: PeerId, d: Disk, rt: LeaseRuntime, wake: bool, ready: bool, now: Instant, votes: seq<Vote>)
    requires d.roster != [] && MayDrive(me, d, rt, wake, ready, now) && InHand(me, d, rt) && Collected(rt, votes)
    ensures var plan := PromotePlan(me, d, rt, wake, ready, now, votes);
            if MajorityInHand(me, d, rt) then Promotes(me, d, rt, wake, votes, plan)
            else plan.writes == [] && plan.runtime == rt && plan.reply in {Denied, Quiet}
  {
    InHandExactly(me, d, rt);
    PromotionUsesBallot(me, d, rt, wake, ready, now, votes);
    InHandPromotes(me, d, rt, wake, votes);
  }

  /** A driver promotes itself exactly with a majority of votes in hand. */
  lemma PromotionExactly(me: PeerId, d: Disk, rt: LeaseRuntime, wake: bool, ready: bool, now: Instant,
                         votes: seq<Vote>)
    requires Ordered(d.roster) && (rt.ballot.Some? ==> Collected(rt, votes))
    ensures var plan := PromotePlan(me, d, rt, wake, ready, now, votes);
            if DriveDue(me, d, rt, wake, ready, now) && MajorityInHand(me, d, rt)
            then Promotes(me, d, rt, wake, votes, plan)
            else plan.writes == [] && plan.runtime == rt && plan.reply in {Denied, Quiet}
  {
    DriveExactly(me, d, rt, wake, ready, now);
    if DriveDue(me, d, rt, wake, ready, now) { InHandExactly(me, d, rt); }
    if DriveDue(me, d, rt, wake, ready, now) && InHand(me, d, rt) {
      assert d.roster != [];
      DriverPromotes(me, d, rt, wake, ready, now, votes);
    } else {
      PromotionNeedsBallot(me, d, rt, wake, ready, now, votes);
    }
  }

  // ----- epochs without a certificate -----

  lemma StoredFiles(d: Disk, e: EpochRecord)
    ensures Replay(d, [PutEpoch(e, None)] + ClearSleep(d)) == d.(epoch := Some(e), sleep := None)
  {
    ReplayOne(d, PutEpoch(e, None));
    var d1 := d.(epoch := Some(e));
    if ClearSleep(d) != [] { ReplayOne(d1, DropSleep); }
    ReplayAppend(d, [PutEpoch(e, None)], ClearSleep(d));
  }

  /** The record continues the local head, from a member, for a host. */
  ghost predicate FromMember(d: Disk, sender: PeerId, e: EpochRecord) {
    && !e.mode.Recovery? && sender in Active(d.roster) && Host(d.roster, e.authority)
    && d.head.Some? && d.head.value.stateRoot == e.baseState
  }

  /** The authority keeps its epochs going, alone only with leave, or hands over along a committed transfer. */
  predicate HandsOver(d: Disk, current: EpochRecord, e: EpochRecord, transfer: Option<Transfer>, soloAllowed: bool) {
    if e.authority == current.authority then e.mode.Solo? ==> soloAllowed && |Active(d.roster)| <= 1
    else
      && transfer.Some?
      && var t := transfer.value;
         t.phase.Committed? && t.source == current.authority && t.target == e.authority && t.next == e.gen
  }

  ghost predicate EpochDue(d: Disk, sender: PeerId, e: EpochRecord, transfer: Option<Transfer>, soloAllowed: bool) {
    && d.prepare.None? && FromMember(d, sender, e)
    && (if d.epoch.None? then e.gen.epoch >= d.head.value.epoch && e.gen.token > 0
        else
          || d.epoch == Some(e)
          || (&& Directly(d.epoch.value.gen, e.gen) && e.previous == d.epoch
              && HandsOver(d, d.epoch.value, e, transfer, soloAllowed)))
  }

  lemma EpochDecides(d: Disk, rt: LeaseRuntime, sender: PeerId, e: EpochRecord, transfer: Option<Transfer>,
                     soloAllowed: bool)
    requires Ordered(d.roster)
    ensures EpochPlan(d, rt, sender, e, transfer, soloAllowed)
            == if !EpochDue(d, sender, e, transfer, soloAllowed) then Plan([], rt, Denied)
               else Plan(if d.epoch == Some(e) then [] else [PutEpoch(e, None)] + ClearSleep(d), rt,
                         EpochAccepted(e.gen))
  {
    HostExactly(d.roster, sender);
    HostExactly(d.roster, e.authority);
  }

  lemma EpochExactly(d: Disk, rt: LeaseRuntime, sender: PeerId, e: EpochRecord, transfer: Option<Transfer>,
                     soloAllowed: bool)
    requires Ordered(d.roster)
    ensures var plan := EpochPlan(d, rt, sender, e, transfer, soloAllowed);
            if EpochDue(d, sender, e, transfer, soloAllowed) then
              && plan.reply == EpochAccepted(e.gen) && plan.runtime == rt
              && Replay(d, plan.writes) == if d.epoch == Some(e) then d else d.(epoch := Some(e), sleep := None)
            else plan == Plan([], rt, Denied)
  {
    EpochDecides(d, rt, sender, e, transfer, soloAllowed);
    StoredFiles(d, e);
  }

  ghost predicate ManualDue(d: Disk, e: EpochRecord) {
    && !e.mode.Recovery? && d.epoch.Some? && Directly(d.epoch.value.gen, e.gen) && e.previous == d.epoch
    && Host(d.roster, e.authority) && d.head.Some? && d.head.value.stateRoot == e.baseState
  }

  lemma ManualExactly(d: Disk, rt: LeaseRuntime, e: EpochRecord)
    requires Ordered(d.roster)
    ensures var plan := ManualEpochPlan(d, rt, e);
            if ManualDue(d, e) then
              && plan.reply == EpochAccepted(e.gen) && plan.runtime == rt
              && Replay(d, plan.writes) == d.(epoch := Some(e), sleep := None)
            else plan == Plan([], rt, Denied)
  {
    HostExactly(d.roster, e.authority);
    StoredFiles(d, e);
  }

  /** The epoch a launch mints: the next one of a world asleep at its head, or the first of a world of one's own. */
  ghost predicate LaunchMints(me: PeerId, d: Disk, e: EpochRecord) {
    && Host(d.roster, me) && d.head.Some? && e.baseState == d.head.value.stateRoot
    && e.authority == me && e.mode.Solo? && e.previous == d.epoch
    && if d.sleep.Some? then
         && d.sleep.value.snapshot == d.head.value.manifest && d.epoch.Some? && Directly(d.epoch.value.gen, e.gen)
         && e.reason == "wake from durable sleep"
       else
         && d.epoch.None? && d.head.value.author == me && e.gen == Generation(d.head.value.epoch, 1)
         && e.reason == "initial preview authority"
  }

  /** A launch mints such an epoch whenever there is one, and otherwise changes nothing. */
  lemma LaunchExactly(me: PeerId, d: Disk, rt: LeaseRuntime)
    requires Ordered(d.roster)
    ensures var plan := LaunchEpochPlan(me, d, rt);
            if plan.reply.EpochAccepted? then
              && plan.writes != [] && plan.writes[0].PutEpoch? && plan.runtime == rt
              && var e := plan.writes[0].epoch;
                 && LaunchMints(me, d, e) && plan.reply == EpochAccepted(e.gen)
                 && Replay(d, plan.writes) == d.(epoch := Some(e), sleep := None)
            else plan == Plan([], rt, Denied) && forall e :: !LaunchMints(me, d, e)
  {
    HostExactly(d.roster, me);
    var plan := LaunchEpochPlan(me, d, rt);
    if plan.writes != [] { StoredFiles(d, plan.writes[0].epoch); }
  }

  // ----- leases and permits -----

  /** A lease of 5,000 ms goes to the host that holds the stored generation, outside any prepare. */
  ghost predicate LeaseDue(d: Disk, sender: PeerId, gen: Generation, durationMs: nat) {
    && d.prepare.None? && Host(d.roster, sender) && durationMs == 5_000
    && d.epoch.Some? && d.epoch.value.gen == gen && d.epoch.value.authority == sender
  }

  lemma LeaseExactly(d: Disk, rt: LeaseRuntime, sender: PeerId, gen: Generation, durationMs: nat, now: Instant)
    requires Ordered(d.roster)
    ensures LeasePlan(d, rt, sender, gen, durationMs, now)
            == if LeaseDue(d, sender, gen, durationMs)
               then Plan([], rt.(inbound := Some(InboundLease(gen, now + 5_000)), notBefore := Some(now + 7_000)),
                         LeaseAccepted(gen))
               else Plan([], rt, Denied)
  {
    HostExactly(d.roster, sender);
  }

  /** Whoever acknowledged a lease of the stored generation in the last 5,000 ms, and oneself. */
  function LeaseBackers(me: PeerId, d: Disk, rt: LeaseRuntime, now: Instant): set<PeerId> {
    {me} +
    set m | && m in d.roster && m.id != me && !m.banned && m.id in rt.connected && m.id in rt.leaseAcks
            && d.epoch.Some? && rt.leaseAcks[m.id].gen == d.epoch.value.gen
            && now < rt.leaseAcks[m.id].observedAt + 5_000 :: m.id
  }

  /** Whoever acknowledged the stored epoch, and oneself. */
  function EpochBackers(me: PeerId, d: Disk, rt: LeaseRuntime): set<PeerId> {
    {me} +
    set m | && m in d.roster && m.id != me && !m.banned && m.id in rt.connected && m.id in rt.epochAcks
            && d.epoch.Some? && rt.epochAcks[m.id] == d.epoch.value.gen :: m.id
  }

  /** The authority is awake, a member, and free of prepares; a recovered one has its certificate and majority. */
  ghost predicate InOffice(me: PeerId, d: Disk, rt: LeaseRuntime) {
    && d.sleep.None? && d.prepare.None? && me in Active(d.roster)
    && d.epoch.Some? && d.epoch.value.authority == me
    && (d.epoch.value.mode.Recovery? ==>
          && d.certificate.Some? && d.certificate.value.ballot.target == d.epoch.value.gen
          && d.certificate.value.ballot.candidate == me
          && 2 * |EpochBackers(me, d, rt)| > |Active(d.roster)|)
  }

  ghost predicate PermitDue(me: PeerId, d: Disk, rt: LeaseRuntime, now: Instant) {
    && InOffice(me, d, rt) && !d.epoch.value.mode.Solo?
    && 2 * |LeaseBackers(me, d, rt, now)| > |Active(d.roster)|
  }

  lemma BackersExactly(me: PeerId, d: Disk, rt: LeaseRuntime, now: Instant)
    requires d.epoch.Some?
    ensures Confirmed(me, d.roster, rt, d.epoch.value.gen, now) == LeaseBackers(me, d, rt, now)
    ensures EpochConfirmed(me, d.roster, rt, d.epoch.value.gen) == EpochBackers(me, d, rt)
  {
  }

  lemma InOfficeExactly(me: PeerId, d: Disk, rt: LeaseRuntime, now: Instant)
    requires Ordered(d.roster)
    ensures InOffice(me, d, rt) <==>
              && HoldsAuthority(me, d)
              && (d.epoch.value.mode.Recovery? ==>
                    && CertificateBacks(d)
                    && HasQuorum(|Active(d.roster)|, |EpochConfirmed(me, d.roster, rt, d.epoch.value.gen)|))
  {
    HostExactly(d.roster, me);
    if d.epoch.Some? {
      BackersExactly(me, d, rt, now);
      QuorumExactly(|Active(d.roster)|, |EpochBackers(me, d, rt)|);
    }
  }

  /** What the tick does in office, and that it does nothing out of it. */
  lemma OfficeDecides(me: PeerId, d: Disk, rt: LeaseRuntime, now: Instant)
    requires Ordered(d.roster)
    ensures var plan := AuthorityPlan(me, d, rt, now);
            if InOffice(me, d, rt)
            then plan == PermitPlan(me, d, rt, 2 * |LeaseBackers(me, d, rt, now)| > |Active(d.roster)|)
            else plan.writes == [] && plan.runtime == rt && plan.reply in {Denied, PermitCleared}
  {
    InOfficeExactly(me, d, rt, now);
    if d.epoch.Some? {
      BackersExactly(me, d, rt, now);
      QuorumExactly(|Active(d.roster)|, |LeaseBackers(me, d, rt, now)|);
    }
  }

  /** The permit is refreshed exactly when it is due, and the heartbeat then moves unless it is at its end. */
  lemma PermitExactly(me: PeerId, d: Disk, rt: LeaseRuntime, now: Instant)
    requires Ordered(d.roster)
    ensures var plan := AuthorityPlan(me, d, rt, now);
            if PermitDue(me, d, rt, now) then
              var beat := if rt.heartbeat < U64_MAX then rt.heartbeat + 1 else U64_MAX;
              plan.reply == PermitRefreshed(d.epoch.value.gen, beat) && plan.runtime == rt.(heartbeat := beat)
            else !plan.reply.PermitRefreshed? && plan.runtime == rt
  {
    OfficeDecides(me, d, rt, now);
  }

  /** A solo authority with a majority of leases goes back to quorum mode, one generation on, on the local head. */
  ghost predicate RestoreDue(me: PeerId, d: Disk, rt: LeaseRuntime, now: Instant, e: EpochRecord) {
    && InOffice(me, d, rt) && d.epoch.value.mode.Solo? && d.head.Some?
    && 2 * |LeaseBackers(me, d, rt, now)| > |Active(d.roster)|
    && Directly(d.epoch.value.gen, e.gen) && e.previous == d.epoch && e.authority == me && e.mode == EpochMode.Quorum
    && e.baseState == d.head.value.stateRoot && e.reason == "quorum restored after explicit solo history replication"
  }

  lemma RestoreExactly(me: PeerId, d: Disk, rt: LeaseRuntime, now: Instant, e: EpochRecord)
    requires Ordered(d.roster)
    ensures PutEpoch(e, None) in AuthorityPlan(me, d, rt, now).writes <==> RestoreDue(me, d, rt, now, e)
  {
    OfficeDecides(me, d, rt, now);
  }

  // ----- sleep -----

  ghost predicate SleepDue(d: Disk, sender: PeerId, s: SleepRecord) {
    && d.prepare.None? && Host(d.roster, sender) && d.epoch.Some? && d.head.Some?
    && sender == d.epoch.value.authority && s == SleepRecord(d.head.value.manifest, d.epoch.value.gen, sender)
  }

  lemma SleepExactly(d: Disk, rt: LeaseRuntime, sender: PeerId, s: SleepRecord)
    requires Ordered(d.roster)
    ensures SleepPlan(d, rt, sender, s)
            == if SleepDue(d, sender, s) then Plan([PutSleep(s)], rt, SleepAccepted(s.gen)) else Plan([], rt, Denied)
  {
    HostExactly(d.roster, sender);
  }

  // ----- answers that reach the asking peer -----

  /** A vote is counted exactly if it is the voter's own and for the ballot in hand. */
  lemma VoteCounts(rt: LeaseRuntime, peer: PeerId, vote: Vote)
    ensures VotesInHand(ReceiveVote(rt, peer, vote))
            == VotesInHand(rt) + (if vote.voter == peer && rt.ballot == Some(vote.ballot) then {peer} else {})
    ensures ReceiveVote(rt, peer, vote).ballot == rt.ballot
  {
  }

  /** A lease acknowledgement of the stored generation counts from now on, and only for its sender. */
  lemma LeaseAckCounts(me: PeerId, d: Disk, rt: LeaseRuntime, peer: PeerId, gen: Generation, now: Instant, q: PeerId)
    ensures q in LeaseBackers(me, d, ReceiveLeaseAck(rt, peer, gen, now), now) <==>
              if q == peer && q != me then
                q in Active(d.roster) && q in rt.connected && d.epoch.Some? && gen == d.epoch.value.gen
              else q in LeaseBackers(me, d, rt, now)
  {
    var rt' := ReceiveLeaseAck(rt, peer, gen, now);
    if q == peer && q != me && q in Active(d.roster) {
      var m :| m in d.roster && !m.banned && m.id == q;
      assert rt'.leaseAcks[m.id] == LeaseAck(gen, now);
    }
  }

  lemma EpochAckCounts(me: PeerId, d: Disk, rt: LeaseRuntime, peer: PeerId, gen: Generation, q: PeerId)
    ensures q in EpochBackers(me, d, ReceiveEpochAck(rt, peer, gen)) <==>
              if q == peer && q != me then
                q in Active(d.roster) && q in rt.connected && d.epoch.Some? && gen == d.epoch.value.gen
              else q in EpochBackers(me, d, rt)
  {
    if q == peer && q != me && q in Active(d.roster) {
      var m :| m in d.roster && !m.banned && m.id == q;
      assert ReceiveEpochAck(rt, peer, gen).epochAcks[m.id] == gen;
    }
  }

  /** A rejection at or above the round in hand ends the attempt and is never undercut; a lower one is ignored. */
  lemma RejectionExactly(rt: LeaseRuntime, asked: Ballot, highest: U64)
    ensures var rt' := ReceiveRejection(rt, asked, highest);
            if rt.ballot == Some(asked) && highest < asked.round then rt' == rt
            else
              && rt'.ballot.None? && rt'.votes == map[] && rt'.roundFloor >= highest && rt'.roundFloor >= rt.roundFloor
              && rt'.roundFloor in {highest, rt.roundFloor}
  {
  }
}
