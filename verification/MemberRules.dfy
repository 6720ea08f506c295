/**
  When each request about the membership is granted and what it then changes,
  said in terms of the files and the votes in hand. Nothing here calls a plan or
  a check of the handlers: the lemmas prove that the plans decide exactly this.
*/
module MemberRules {
  import opened Records
  import opened Durable
  import opened Runtime
  import opened Certificates
  import opened Plans
  import opened Rules

  // ----- proposals and certificates -----

  /** The proposed record is one step on, in the same epoch, under an authority that votes before and after. */
  predicate OneStep(p: Proposal) {
    && p.proposed.epoch == p.previous.epoch && p.proposed.sequence == p.previous.sequence + 1
    && p.proposed.previous == Some(p.previous) && p.proposed.authority == p.previous.authority
    && Ordered(p.previous.members) && Ordered(p.proposed.members)
    && p.proposed.authority in Voters(p.previous) && p.proposed.authority in Voters(p.proposed)
  }

  lemma OneStepExactly(p: Proposal)
    ensures ProposalShape(p) <==> OneStep(p)
  {
  }

  /** `group` holds a majority of the voters before and of those after the change, and nobody else. */
  predicate BothMajorities(p: Proposal, group: set<PeerId>) {
    && group <= Voters(p.previous) + Voters(p.proposed)
    && 2 * |group * Voters(p.previous)| > |Voters(p.previous)|
    && 2 * |group * Voters(p.proposed)| > |Voters(p.proposed)|
  }

  ghost predicate Carried(c: JointCertificate) {
    && OneStep(c.proposal) && (forall v :: v in c.votes ==> v.proposal == c.proposal)
    && BothMajorities(c.proposal, JointVotersOf(c.votes))
  }

  lemma CarriedExactly(c: JointCertificate)
    ensures JointShape(c) <==> Carried(c)
  {
    var before, after, group := Voters(c.proposal.previous), Voters(c.proposal.proposed), JointVotersOf(c.votes);
    OneStepExactly(c.proposal);
    if OneStep(c.proposal) {
      QuorumExactly(|before|, |group * before|);
      QuorumExactly(|after|, |group * after|);
    }
    assert (forall v :: v in c.votes ==> v.voter in before + after) <==> group <= before + after by {
      assert forall v :: v in c.votes ==> v.voter in group;
    }
  }

  // ----- the authority's own proposal -----

  lemma {:induction false} InsertOrdered(members: seq<Member>, m: Member)
    requires Ordered(members) && forall x :: x in members ==> x.id != m.id
    ensures Ordered(Insert(members, m))
  {
    if members != [] && members[0].id < m.id {
      var rest := members[1..];
      InsertOrdered(rest, m);
      forall x | x in Insert(rest, m)
        ensures members[0].id < x.id
      {
        InsertElements(rest, m, x);
      }
    }
  }

  lemma {:induction false} RemoveOrdered(members: seq<Member>, id: PeerId)
    requires Ordered(members)
    ensures Ordered(Remove(members, id))
  {
    if members != [] {
      var rest := members[1..];
      RemoveOrdered(rest, id);
      forall x | x in Remove(rest, id)
        ensures members[0].id < x.id
      {
        RemoveElements(rest, id, x);
      }
    }
  }

  /** The members after the change are those of the descriptor, with the one who joins or without the one who leaves. */
  ghost predicate ChangedBy(before: seq<Member>, after: seq<Member>, change: Change) {
    && Ordered(after)
    && match change
       case Joining(m) => forall x :: x in after <==> x in before || x == m
       case Leaving(peer) => forall x :: x in after <==> x in before && x.id != peer
  }

  /** The change makes sense for the descriptor: a newcomer joins, another voter leaves. */
  predicate Changes(me: PeerId, roster: seq<Member>, change: Change) {
    match change
    case Joining(m) => forall x :: x in roster ==> x.id != m.id
    case Leaving(peer) => peer != me && peer in Active(roster)
  }

  lemma ChangedExactly(me: PeerId, d: Disk, change: Change)
    requires Ordered(d.roster) && Changes(me, d.roster, change)
    ensures ChangedBy(d.roster, ChangedRoster(d, change), change)
  {
    match change {
      case Joining(m) =>
        InsertOrdered(d.roster, m);
        forall x
          ensures x in Insert(d.roster, m) <==> x in d.roster || x == m
        {
          InsertElements(d.roster, m, x);
        }
      case Leaving(peer) =>
        RemoveOrdered(d.roster, peer);
        forall x
          ensures x in Remove(d.roster, peer) <==> x in d.roster && x.id != peer
        {
          RemoveElements(d.roster, peer, x);
        }
    }
  }

  /** The local authority holds a record under which it may propose. */
  ghost predicate MayPropose(me: PeerId, d: Disk) {
    d.membership.Some? && d.membership.value.authority == me && me in Active(d.roster)
  }

  /** A proposal of its own: the stored record, one step on, changed by exactly this request. */
  ghost predicate Proposes(me: PeerId, d: Disk, change: Change, p: Proposal) {
    && d.membership == Some(p.previous) && p.proposed.previous == Some(p.previous)
    && p.proposed.epoch == p.previous.epoch && p.proposed.sequence == p.previous.sequence + 1
    && p.proposed.authority == me && ChangedBy(d.roster, p.proposed.members, change)
  }

  ghost predicate ProposalDue(me: PeerId, d: Disk, change: Change) {
    && MayPropose(me, d) && Changes(me, d.roster, change) && d.prepare.None?
    && d.membership.value.sequence < U64_MAX
    && Ordered(d.membership.value.members) && me in Voters(d.membership.value)
  }

  lemma StaysVoter(me: PeerId, before: seq<Member>, after: seq<Member>, change: Change)
    requires ChangedBy(before, after, change) && me in Active(before) && (change.Leaving? ==> change.peer != me)
    ensures me in Active(after)
  {
    var m :| m in before && !m.banned && m.id == me;
    assert m in after;
  }

  lemma ProposalIsNew(me: PeerId, d: Disk, rt: LeaseRuntime, change: Change)
    requires Ordered(d.roster) && ProposalDue(me, d, change)
    ensures var plan := NewProposalPlan(me, d, rt, ChangedRoster(d, change));
            && plan.reply.PrepareReply? && Proposes(me, d, change, plan.reply.proposal)
            && plan.writes == [PutPrepare(plan.reply.proposal)]
            && plan.runtime == rt.(jointVotes := rt.jointVotes[me := plan.reply.proposal], heartbeat := 0)
  {
    ChangedExactly(me, d, change);
    StaysVoter(me, d.roster, ChangedRoster(d, change), change);
    var current := d.membership.value;
    var p := Proposal(current, MembershipRecord(current.epoch, current.sequence + 1, Some(current),
                                                ChangedRoster(d, change), me));
    OneStepExactly(p);
  }

  /** A request becomes exactly this prepare when it is due; otherwise nothing is written. */
  lemma ProposeExactly(me: PeerId, d: Disk, rt: LeaseRuntime, change: Change)
    requires Ordered(d.roster)
    ensures var plan := ProposePlan(me, d, rt, change);
            if ProposalDue(me, d, change) then
              && plan.reply.PrepareReply? && Proposes(me, d, change, plan.reply.proposal)
              && plan.writes == [PutPrepare(plan.reply.proposal)]
              && plan.runtime == rt.(jointVotes := rt.jointVotes[me := plan.reply.proposal], heartbeat := 0)
            else
              && plan.writes == [] && plan.runtime == rt
              && (plan.reply.PrepareReply? ==> d.prepare == Some(plan.reply.proposal) && MayPropose(me, d))
  {
    HostExactly(d.roster, me);
    if change.Leaving? { HostExactly(d.roster, change.peer); }
    if ProposalDue(me, d, change) {
      ProposalIsNew(me, d, rt, change);
    } else if MayPropose(me, d) && Changes(me, d.roster, change) && d.prepare.None?
              && d.membership.value.sequence < U64_MAX
    {
      assert !ProposalShape(Proposal(d.membership.value,
                                     MembershipRecord(d.membership.value.epoch, d.membership.value.sequence + 1,
                                                      d.membership, ChangedRoster(d, change), me)));
    }
  }

  // ----- voting for a proposal -----

  /** The change leaves the committed configuration, or is the one by which the local peer joins. */
  predicate Concerns(me: PeerId, d: Disk, p: Proposal, inviteLive: bool) {
    && me in Voters(p.previous) + Voters(p.proposed)
    && if d.membership.Some? then d.membership.value == p.previous
       else
         && inviteLive && d.join.Some? && d.join.value.member.id == me && d.join.value.member in p.proposed.members
         && d.join.value.inviter == p.previous.authority
  }

  lemma {:induction false} OnlyEntry(members: seq<Member>, m: Member)
    requires Ordered(members)
    ensures Lookup(members, m.id) == Some(m) <==> m in members
  {
    if m in members {
      var found := Lookup(members, m.id);
      var i :| 0 <= i < |members| && members[i] == m;
      var j :| 0 <= j < |members| && members[j] == found.value;
    }
  }

  lemma ConcernsExactly(me: PeerId, d: Disk, p: Proposal, inviteLive: bool)
    requires OneStep(p)
    ensures ForLocal(me, d, p, inviteLive) <==> Concerns(me, d, p, inviteLive)
  {
    if d.join.Some? { OnlyEntry(p.proposed.members, d.join.value.member); }
  }

  predicate PrepareDue(me: PeerId, d: Disk, sender: PeerId, p: Proposal, inviteLive: bool) {
    && sender == p.proposed.authority && OneStep(p) && Concerns(me, d, p, inviteLive)
    && (d.prepare.None? || d.prepare == Some(p))
  }

  lemma PrepareExactly(me: PeerId, d: Disk, rt: LeaseRuntime, sender: PeerId, p: Proposal, inviteLive: bool)
    ensures PreparePlan(me, d, rt, sender, p, inviteLive)
            == if PrepareDue(me, d, sender, p, inviteLive)
               then Plan(if d.prepare.None? then [PutPrepare(p)] else [], rt.(heartbeat := 0), PrepareReply(p))
               else Plan([], rt, Denied)
  {
    OneStepExactly(p);
    if OneStep(p) { ConcernsExactly(me, d, p, inviteLive); }
  }

  /** While a prepare is held, the request it already carries out is answered with it again, and no other. */
  lemma RepeatExactly(me: PeerId, d: Disk, rt: LeaseRuntime, change: Change)
    requires Ordered(d.roster) && d.prepare.Some? && Ordered(d.prepare.value.proposed.members)
    ensures ProposePlan(me, d, rt, change).reply == PrepareReply(d.prepare.value) <==>
              && MayPropose(me, d) && Changes(me, d.roster, change) && d.prepare.value.previous == d.membership.value
              && match change
                 case Joining(m) => m in d.prepare.value.proposed.members
                 case Leaving(peer) => forall x :: x in d.prepare.value.proposed.members ==> x.id != peer
  {
    HostExactly(d.roster, me);
    match change {
      case Joining(m) => OnlyEntry(d.prepare.value.proposed.members, m);
      case Leaving(peer) => HostExactly(d.roster, peer);
    }
  }

  // ----- committing a change -----

  /** A staged join waits until its member is a voter. */
  function StillJoining(join: Option<PendingJoin>, members: seq<Member>): Option<PendingJoin> {
    if join.Some? && join.value.member.id in Active(members) then None else join
  }

  /** The files once the current certificate is applied: record, descriptor, and what it fulfils cleared. */
  function Applied(d: Disk, c: JointCertificate): Disk {
    var next := c.proposal.proposed;
    d.(membership := Some(next), roster := next.members, prepare := StillPrepared(d.prepare, next),
       join := StillJoining(d.join, next.members))
  }

  function StillPrepared(prepare: Option<Proposal>, next: MembershipRecord): Option<Proposal> {
    if prepare.Some? && prepare.value.proposed == next then None else prepare
  }

  /** The files once a certificate is filed, as the one of its sequence number and as the current one. */
  function Filing(d: Disk, c: JointCertificate): Disk {
    d.(joint := Some(c), jointHistory := d.jointHistory[c.proposal.proposed.sequence := c])
  }

  /** No other certificate is filed for the sequence number. */
  predicate Unfiled(d: Disk, c: JointCertificate) {
    c.proposal.proposed.sequence in d.jointHistory ==> d.jointHistory[c.proposal.proposed.sequence] == c
  }

  /** Storage takes the record: it is stored already, or the next one of the stored epoch and its authority. */
  predicate Storable(d: Disk, c: JointCertificate) {
    var next := c.proposal.proposed;
    && d.roster != []
    && (d.membership == Some(next)
        || (&& (d.membership.Some? ==> d.membership.value == c.proposal.previous)
            && (d.membership.None? ==>
                  && d.join.Some? && d.join.value.member in next.members
                  && d.join.value.inviter == c.proposal.previous.authority)
            && (d.epoch.Some? ==> next.epoch == d.epoch.value.gen.epoch && next.authority == d.epoch.value.authority)))
  }

  lemma FilingExactly(d: Disk, c: JointCertificate)
    ensures SaveJoint(d, c).Saved? <==> Unfiled(d, c)
    ensures SaveJoint(d, c).Saved? ==> Replay(d, SaveJoint(d, c).writes) == Filing(d, c)
  {
    if c.proposal.proposed.sequence in d.jointHistory {
      ReplayOne(d, PutJoint(c));
      if d.jointHistory[c.proposal.proposed.sequence] == c {
        assert d.jointHistory[c.proposal.proposed.sequence := c] == d.jointHistory;
      }
    } else {
      ReplayOne(d, PutJointHistory(c));
      ReplaySnoc(d, [PutJointHistory(c)], PutJoint(c));
      assert [PutJointHistory(c)] + [PutJoint(c)] == [PutJointHistory(c), PutJoint(c)];
    }
  }

  lemma ClearedPrepare(d: Disk, next: MembershipRecord)
    ensures Replay(d, ClearPrepare(d, next)) == d.(prepare := StillPrepared(d.prepare, next))
  {
    if ClearPrepare(d, next) != [] { ReplayOne(d, DropPrepare); }
  }

  lemma ClearedJoin(d: Disk, members: seq<Member>)
    requires Ordered(members)
    ensures Replay(d, ClearSatisfiedJoin(d, members)) == d.(join := StillJoining(d.join, members))
  {
    if d.join.Some? { HostExactly(members, d.join.value.member.id); }
    if ClearSatisfiedJoin(d, members) != [] { ReplayOne(d, DropJoin); }
  }

  lemma SettledFiles(d: Disk, next: MembershipRecord)
    requires Ordered(next.members)
    ensures Replay(d, Settled(d, next))
            == d.(roster := next.members, prepare := StillPrepared(d.prepare, next),
                  join := StillJoining(d.join, next.members))
  {
    var roster, cleared := [PutRoster(next.members)], ClearPrepare(d, next);
    var d1 := d.(roster := next.members);
    var d2 := d1.(prepare := StillPrepared(d.prepare, next));
    ReplayOne(d, PutRoster(next.members));
    ClearedPrepare(d1, next);
    ClearedJoin(d2, next.members);
    ReplayAppend(d, roster, cleared);
    ReplayAppend(d, roster + cleared, ClearSatisfiedJoin(d, next.members));
  }

  lemma RecordExactly(d: Disk, c: JointCertificate)
    requires OneStep(c.proposal) && d.joint == Some(c)
    requires d.membership.Some? ==> d.membership.value in {c.proposal.previous, c.proposal.proposed}
    requires d.membership.None? ==> d.join.Some? && d.join.value.member in c.proposal.proposed.members
    ensures SaveMembership(d, c.proposal.proposed).Saved? <==>
              || d.membership == Some(c.proposal.proposed)
              || (&& (d.membership.None? ==> d.join.value.inviter == c.proposal.previous.authority)
                  && (d.epoch.Some? ==>
                        && c.proposal.proposed.epoch == d.epoch.value.gen.epoch
                        && c.proposal.proposed.authority == d.epoch.value.authority))
  {
  }

  lemma AppliesExactly(d: Disk, c: JointCertificate)
    requires Carried(c) && d.joint == Some(c)
    ensures ApplyJoint(d, c).Some? <==> Storable(d, c)
    ensures ApplyJoint(d, c).Some? ==>
              && SaveMembership(d, c.proposal.proposed).Saved?
              && ApplyJoint(d, c).value
                 == SaveMembership(d, c.proposal.proposed).writes + Settled(d, c.proposal.proposed)
  {
    var next := c.proposal.proposed;
    CarriedExactly(c);
    if d.join.Some? { OnlyEntry(next.members, d.join.value.member); }
    if && (d.membership.Some? ==> d.membership.value in {c.proposal.previous, next})
       && (d.membership.None? ==> d.join.Some? && d.join.value.member in next.members)
    {
      RecordExactly(d, c);
    }
  }

  lemma AppliedFiles(d: Disk, next: MembershipRecord)
    requires SaveMembership(d, next).Saved? && Ordered(next.members)
    ensures Replay(d, SaveMembership(d, next).writes + Settled(d, next))
            == d.(membership := Some(next), roster := next.members, prepare := StillPrepared(d.prepare, next),
                  join := StillJoining(d.join, next.members))
  {
    var saved := SaveMembership(d, next).writes;
    SavedMembership(d, next);
    SettledFiles(Replay(d, saved), next);
    ReplayAppend(d, saved, Settled(d, next));
  }

  lemma ApplyExactly(d: Disk, c: JointCertificate)
    requires Carried(c) && d.joint == Some(c)
    ensures ApplyJoint(d, c).Some? <==> Storable(d, c)
    ensures ApplyJoint(d, c).Some? ==> Replay(d, ApplyJoint(d, c).value) == Applied(d, c)
  {
    AppliesExactly(d, c);
    if ApplyJoint(d, c).Some? { AppliedFiles(d, c.proposal.proposed); }
  }

  /** A carried certificate is filed and applied exactly if storage takes certificate and record. */
  lemma CommitWritesExactly(d: Disk, c: JointCertificate)
    requires Carried(c)
    ensures CommitWrites(d, c).0 <==> Unfiled(d, c) && Storable(d, c)
    ensures Replay(d, CommitWrites(d, c).1)
            == if !Unfiled(d, c) then d else if !Storable(d, c) then Filing(d, c) else Applied(Filing(d, c), c)
  {
    FilingExactly(d, c);
    if SaveJoint(d, c).Saved? {
      ApplyExactly(Filing(d, c), c);
      if ApplyJoint(Filing(d, c), c).Some? {
        ReplayAppend(d, SaveJoint(d, c).writes, ApplyJoint(Filing(d, c), c).value);
      }
    }
  }

  ghost predicate CommitDue(me: PeerId, d: Disk, sender: PeerId, c: JointCertificate, inviteLive: bool) {
    && sender == c.proposal.proposed.authority && Carried(c) && Unfiled(d, c) && Storable(d, c)
    && (d.membership.None? ==> Concerns(me, d, c.proposal, inviteLive))
    && (d.prepare.Some? ==> d.prepare.value == c.proposal)
  }

  lemma CommitExactly(me: PeerId, d: Disk, rt: LeaseRuntime, sender: PeerId, c: JointCertificate, inviteLive: bool)
    ensures var plan := CommitPlan(me, d, rt, sender, c, inviteLive);
            if CommitDue(me, d, sender, c, inviteLive) then
              && plan.reply == CommitAccepted(c.proposal.proposed.sequence)
              && Replay(d, plan.writes) == Applied(Filing(d, c), c)
              && plan.runtime == rt.(heartbeat := 0, jointVotes := map[])
            else
              plan.reply == Denied && plan.runtime == rt && Replay(d, plan.writes) in {d, Filing(d, c)}
  {
    CarriedExactly(c);
    if Carried(c) {
      CommitWritesExactly(d, c);
      ConcernsExactly(me, d, c.proposal, inviteLive);
    }
  }

  // ----- the authority commits its own change -----

  /** Whose votes for the prepare have come in, one's own included. */
  function JointVotesInHand(me: PeerId, rt: LeaseRuntime, p: Proposal): set<PeerId> {
    {me} + set q | q in rt.jointVotes && q != me && rt.jointVotes[q] == p
  }

  lemma JointCollectedExactly(me: PeerId, rt: LeaseRuntime, p: Proposal, votes: seq<JointVote>)
    requires JointCollected(rt.(jointVotes := rt.jointVotes[me := p]), p, votes)
    ensures JointVotersOf(votes) == JointVotesInHand(me, rt, p)
  {
    var jv := rt.jointVotes[me := p];
    forall q | q in JointVotesInHand(me, rt, p)
      ensures q in JointVotersOf(votes)
    {
      assert q in jv && jv[q] == p;
      assert JointVote(q, p) in votes;
    }
  }

  /** A joint vote is counted exactly if it is the voter's own and for the prepare on file. */
  lemma JointVoteCounts(me: PeerId, d: Disk, rt: LeaseRuntime, peer: PeerId, vote: JointVote)
    requires d.prepare.Some? && peer != me
    ensures JointVotesInHand(me, ReceiveJointVote(d, rt, peer, vote), d.prepare.value)
            == JointVotesInHand(me, rt, d.prepare.value)
               + (if vote.voter == peer && vote.proposal == d.prepare.value then {peer} else {})
  {
  }

  /** The local authority holds a prepare out of the stored record. */
  predicate Leads(me: PeerId, d: Disk) {
    && d.prepare.Some? && d.prepare.value.proposed.authority == me
    && d.membership == Some(d.prepare.value.previous) && d.membership != Some(d.prepare.value.proposed)
  }

  /** Both majorities are in hand for a change that is one step on. */
  predicate MajoritiesInHand(me: PeerId, d: Disk, rt: LeaseRuntime) {
    && d.prepare.Some? && OneStep(d.prepare.value)
    && BothMajorities(d.prepare.value, JointVotesInHand(me, rt, d.prepare.value))
  }

  lemma JointCommitExactly(d: Disk, rt: LeaseRuntime, p: Proposal, votes: seq<JointVote>)
    requires JointCollected(rt, p, votes)
    ensures var plan, c := JointCommitPlan(d, rt, p, votes), JointCertificate(p, votes);
            if !Carried(c) then plan == Plan([], rt, Quiet)
            else if Unfiled(d, c) && Storable(d, c) then
              && plan.reply == CommitAccepted(p.proposed.sequence)
              && Replay(d, plan.writes) == Applied(Filing(d, c), c) && plan.runtime.jointVotes == map[]
            else plan.reply == Denied && Replay(d, plan.writes) in {d, Filing(d, c)}
  {
    var c := JointCertificate(p, votes);
    CarriedExactly(c);
    if Carried(c) { CommitWritesExactly(d, c); }
  }

  lemma CarriedInHand(me: PeerId, d: Disk, rt: LeaseRuntime, votes: seq<JointVote>)
    requires d.prepare.Some?
    requires JointCollected(rt.(jointVotes := rt.jointVotes[me := d.prepare.value]), d.prepare.value, votes)
    ensures Carried(JointCertificate(d.prepare.value, votes)) <==> MajoritiesInHand(me, d, rt)
  {
    JointCollectedExactly(me, rt, d.prepare.value, votes);
  }

  /** The authority commits exactly when both majorities are in hand and storage takes the record. */
  lemma TransitionExactly(me: PeerId, d: Disk, rt: LeaseRuntime, votes: seq<JointVote>)
    requires Leads(me, d)
    requires JointCollected(rt.(jointVotes := rt.jointVotes[me := d.prepare.value]), d.prepare.value, votes)
    ensures var plan, c := TransitionPlan(me, d, rt, votes), JointCertificate(d.prepare.value, votes);
            if !MajoritiesInHand(me, d, rt) then plan.reply == Quiet && plan.writes == []
            else if Unfiled(d, c) && Storable(d, c) then
              && plan.reply == CommitAccepted(c.proposal.proposed.sequence)
              && Replay(d, plan.writes) == Applied(Filing(d, c), c) && plan.runtime.jointVotes == map[]
            else plan.reply == Denied && Replay(d, plan.writes) in {d, Filing(d, c)}
  {
    var p := d.prepare.value;
    CarriedInHand(me, d, rt, votes);
    JointCommitExactly(d, rt.(heartbeat := 0, jointVotes := rt.jointVotes[me := p]), p, votes);
  }

  /** Once the record is stored the prepare is dropped; without a prepare of its own the authority does nothing. */
  lemma TransitionOtherwise(me: PeerId, d: Disk, rt: LeaseRuntime, votes: seq<JointVote>)
    requires !Leads(me, d)
    ensures var plan := TransitionPlan(me, d, rt, votes);
            if && d.prepare.Some? && d.prepare.value.proposed.authority == me
               && d.membership == Some(d.prepare.value.proposed)
            then plan.writes == [DropPrepare] else plan.writes == [] && plan.reply == Denied
  {
  }

  // ----- replay after a crash -----

  /** Nothing is filed, or what is filed is stored or superseded by a record of a later epoch or sequence. */
  predicate UpToDate(d: Disk) {
    d.joint.Some? && d.membership.Some? ==>
      var m, next := d.membership.value, d.joint.value.proposal.proposed;
      m == next || next.epoch < m.epoch || (next.epoch == m.epoch && next.sequence < m.sequence)
  }

  /** The current certificate still fits: it is carried, concerns the local peer, and no other prepare is held. */
  ghost predicate ReplayDue(me: PeerId, d: Disk, inviteLive: bool) {
    && d.joint.Some?
    && var c := d.joint.value;
       && Carried(c) && Storable(d, c) && (d.membership.None? ==> Concerns(me, d, c.proposal, inviteLive))
       && (d.prepare.Some? ==> d.prepare.value == c.proposal)
  }

  /** A filed certificate that is not yet applied is applied exactly if it still fits. */
  lemma ReplayExactly(me: PeerId, d: Disk, rt: LeaseRuntime, inviteLive: bool)
    ensures var plan := RecoverMembershipPlan(me, d, rt, inviteLive);
            if d.joint.None? || (d.membership.Some? && UpToDate(d)) then
              && plan.reply == Quiet
              && plan.writes == if d.joint.Some? && d.membership == Some(d.joint.value.proposal.proposed)
                                   && d.prepare.Some? && d.prepare.value.proposed == d.membership.value
                                then [DropPrepare] else []
            else if ReplayDue(me, d, inviteLive) then
              plan.reply == Quiet && Replay(d, plan.writes) == Applied(d, d.joint.value)
            else plan.reply == Denied && plan.writes == []
  {
    if d.joint.Some? {
      var c := d.joint.value;
      CarriedExactly(c);
      if Carried(c) {
        ApplyExactly(d, c);
        ConcernsExactly(me, d, c.proposal, inviteLive);
      }
    }
  }

  // ----- bare records -----

  /** A member's record with the stored members, one step on, of the stored epoch and its authority. */
  ghost predicate Refresh(d: Disk, m: MembershipRecord) {
    && d.membership.Some? && m.previous == d.membership && m.sequence == d.membership.value.sequence + 1
    && m.members == d.membership.value.members && d.membership.value.epoch <= m.epoch
    && if d.epoch.Some? then m.epoch == d.epoch.value.gen.epoch && m.authority == d.epoch.value.authority
       else m.epoch == d.membership.value.epoch && m.authority == d.membership.value.authority
  }

  ghost predicate BareDue(d: Disk, sender: PeerId, m: MembershipRecord) {
    && sender in Active(d.roster) && m.authority in Active(d.roster) && Ordered(m.members) && m.members != []
    && (d.epoch.Some? ==>
          && m.epoch <= d.epoch.value.gen.epoch
          && (m.epoch == d.epoch.value.gen.epoch ==> m.authority == d.epoch.value.authority))
    && (d.membership == Some(m) || Refresh(d, m))
  }

  lemma BareExactly(d: Disk, rt: LeaseRuntime, sender: PeerId, m: MembershipRecord)
    requires Ordered(d.roster)
    ensures var plan := MembershipPlan(d, rt, sender, m);
            if !BareDue(d, sender, m) then plan == Plan([], rt, Denied)
            else
              && plan.reply == MembershipAccepted(m.sequence) && plan.runtime == rt
              && Replay(d, plan.writes)
                 == if d.membership == Some(m) then d
                    else d.(membership := Some(m), roster := m.members,
                            join := StillJoining(d.join, m.members))
  {
    HostExactly(d.roster, sender);
    HostExactly(d.roster, m.authority);
    if BareDue(d, sender, m) && d.membership != Some(m) { AdoptedFiles(d, rt, m); }
  }

  lemma AdoptedFiles(d: Disk, rt: LeaseRuntime, m: MembershipRecord)
    requires Ordered(m.members) && SaveMembership(d, m) == Saved([PutMembership(m)])
    ensures Replay(d, AdoptPlan(d, rt, m).writes)
            == d.(membership := Some(m), roster := m.members,
                  join := StillJoining(d.join, m.members))
  {
    var joined := ClearSatisfiedJoin(d, m.members);
    ReplayOne(d, PutMembership(m));
    var d1 := d.(membership := Some(m));
    ReplayOne(d1, PutRoster(m.members));
    var d2 := d1.(roster := m.members);
    if joined != [] { ReplayOne(d2, DropJoin); }
    ReplayAppend(d1, [PutRoster(m.members)], joined);
    ReplayAppend(d, [PutMembership(m)], [PutRoster(m.members)] + joined);
    if d.join.Some? { HostExactly(m.members, d.join.value.member.id); }
  }

  /** A new authority signs the stored members again, under its own epoch. */
  ghost predicate Resigns(me: PeerId, d: Disk, m: MembershipRecord) {
    && me in Active(d.roster) && d.epoch.Some? && d.epoch.value.authority == me && d.membership.Some?
    && (d.membership.value.epoch < d.epoch.value.gen.epoch
        || (d.membership.value.epoch == d.epoch.value.gen.epoch && d.membership.value.authority != me))
    && Ordered(d.membership.value.members) && d.membership.value.members != []
    && m.epoch == d.epoch.value.gen.epoch && m.authority == me && m.members == d.membership.value.members
    && m.previous == d.membership && m.sequence == d.membership.value.sequence + 1
  }

  /** Whenever there is such a record it is the one stored, and otherwise none is. */
  lemma ResignsExactly(me: PeerId, d: Disk, rt: LeaseRuntime)
    requires Ordered(d.roster)
    ensures var plan := ArtifactsPlan(me, d, rt);
            && plan.runtime == rt
            && if plan.writes == [] then forall m :: !Resigns(me, d, m)
               else
                 && |plan.writes| == 1 && plan.writes[0].PutMembership? && plan.reply == Quiet
                 && Resigns(me, d, plan.writes[0].membership)
                 && Replay(d, plan.writes) == d.(membership := Some(plan.writes[0].membership))
                 && forall m :: Resigns(me, d, m) ==> m == plan.writes[0].membership
  {
    HostExactly(d.roster, me);
    var plan := ArtifactsPlan(me, d, rt);
    if plan.writes != [] { ReplayOne(d, plan.writes[0]); }
  }

  // ----- discovery freshness -----

  /** A voter whose stored state is exactly the one challenged, and that promised nothing beyond it. */
  predicate VouchDue(me: PeerId, d: Disk, ch: Challenge, configMatches: bool) {
    && configMatches && d.membership == Some(ch.membership) && d.head == ch.head && d.prepare == ch.pending
    && d.epoch.Some? && ch.gen == d.epoch.value.gen && ch.authority == d.epoch.value.authority
    && (d.promise.Some? ==> !ch.gen.Before(d.promise.value.target))
    && me in Voters(ch.membership) + (if ch.pending.Some? then Voters(ch.pending.value.proposed) else {})
  }

  lemma VouchExactly(me: PeerId, d: Disk, ch: Challenge, configMatches: bool)
    ensures VouchesFresh(me, d, ch, configMatches) <==> VouchDue(me, d, ch, configMatches)
  {
  }
}
