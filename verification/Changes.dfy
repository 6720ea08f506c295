/** How far a proposed voter set lies from the one it leaves, and what a crash does to that distance. */
module Changes {
  import opened Records
  import opened Durable
  import opened Runtime
  import opened Certificates
  import opened Plans
  import opened Safety

  /** A voter new to both sets keeps them adjacent exactly if they are equal. */
  lemma JoinedAdjacent(v: set<PeerId>, r: set<PeerId>, x: PeerId)
    requires x !in r
    ensures Adjacent(v, r + {x}) <==> if x in v then Adjacent(v - {x}, r) else v == r
  {
    if x in v {
      assert v == (v - {x}) + {x};
      AdjacentTogether(v - {x}, r, x);
    } else {
      assert v == r ==> r + {x} == v + {x};
      if Adjacent(v, r + {x}) {
        var y :| y !in v && r + {x} == v + {y};
        assert v == r + {x} - {x};
      }
    }
  }

  /** Adding one voter to both of two sets keeps them as far apart as they are. */
  lemma AdjacentTogether(a: set<PeerId>, b: set<PeerId>, x: PeerId)
    requires x !in a && x !in b
    ensures Adjacent(a + {x}, b + {x}) <==> Adjacent(a, b)
  {
    assert a == a + {x} - {x} && b == b + {x} - {x};
    if y :| y !in a && b == a + {y} { assert b + {x} == (a + {x}) + {y}; }
    if y :| y !in b && a == b + {y} { assert a + {x} == (b + {x}) + {y}; }
    if y :| y !in a + {x} && b + {x} == a + {x} + {y} { assert b == a + {y}; }
    if y :| y !in b + {x} && a + {x} == b + {x} + {y} { assert a == b + {y}; }
  }

  lemma LeftAdjacent(v: set<PeerId>, r: set<PeerId>, x: PeerId)
    requires x in r
    ensures Adjacent(v, r - {x}) <==> if x in v then v == r else Adjacent(v + {x}, r)
  {
    var rest := r - {x};
    assert r == rest + {x};
    if x !in v {
      AdjacentTogether(v, rest, x);
    } else {
      assert v == r ==> v == rest + {x};
      if Adjacent(v, rest) {
        var y :| y !in rest && v == rest + {y};
        assert y == x;
      }
    }
  }

  lemma JoinerIsProposed(me: PeerId, d: Disk, rt: LeaseRuntime, m: Member)
    requires ProposePlan(me, d, rt, Joining(m)).writes != [] && !m.banned
    ensures m.id !in Active(d.roster) && d.membership.Some? && ProposePlan(me, d, rt, Joining(m)).writes[0].PutPrepare?
    ensures var p := ProposePlan(me, d, rt, Joining(m)).writes[0].proposal;
            p.previous == d.membership.value && Voters(p.proposed) == Active(d.roster) + {m.id}
  {
    JoinAddsOneVoter(d.roster, m);
  }

  lemma LeaverIsDropped(me: PeerId, d: Disk, rt: LeaseRuntime, peer: PeerId)
    requires ProposePlan(me, d, rt, Leaving(peer)).writes != []
    ensures peer in Active(d.roster) && d.membership.Some?
    ensures ProposePlan(me, d, rt, Leaving(peer)).writes[0].PutPrepare?
    ensures var p := ProposePlan(me, d, rt, Leaving(peer)).writes[0].proposal;
            p.previous == d.membership.value && Voters(p.proposed) == Active(d.roster) - {peer}
  {
    LeaveTakesOneVoter(d.roster, peer);
  }

  lemma BannedIsNoVoter(me: PeerId, d: Disk, rt: LeaseRuntime, m: Member)
    requires ProposePlan(me, d, rt, Joining(m)).writes != [] && m.banned
    ensures d.membership.Some? && ProposePlan(me, d, rt, Joining(m)).writes[0].PutPrepare?
    ensures var p := ProposePlan(me, d, rt, Joining(m)).writes[0].proposal;
            p.previous == d.membership.value && Voters(p.proposed) == Active(d.roster)
  {
    JoinAddsOneVoter(d.roster, m);
  }

  /** The condition on the committed voters `v` and the voters `r` of the descriptor. */
  ghost predicate InReach(v: set<PeerId>, r: set<PeerId>, change: Change) {
    match change
    case Joining(m) =>
      if m.banned then Adjacent(v, r)
      else if m.id in v then Adjacent(v - {m.id}, r)
      else v == r
    case Leaving(peer) => if peer in v then v == r else Adjacent(v + {peer}, r)
  }

  /**
    Exactly when a proposal is one voter away from the configuration it leaves:
    for a change the committed record does not have yet, when the descriptor
    names the voters of that record; for a change the record already has, when
    they agree up to one voter apart from it.
  */
  lemma ProposalIsAdjacentExactly(me: PeerId, d: Disk, rt: LeaseRuntime, change: Change)
    requires ProposePlan(me, d, rt, change).writes != []
    ensures d.membership.Some? && ProposePlan(me, d, rt, change).writes[0].PutPrepare?
    ensures var p := ProposePlan(me, d, rt, change).writes[0].proposal;
            && p.previous == d.membership.value
            && (Adjacent(Voters(p.previous), Voters(p.proposed)) <==>
                InReach(Voters(p.previous), Active(d.roster), change))
  {
    match change {
      case Joining(m) =>
        if m.banned {
          BannedIsNoVoter(me, d, rt, m);
        } else {
          JoinerIsProposed(me, d, rt, m);
          JoinedAdjacent(Voters(d.membership.value), Active(d.roster), m.id);
        }
      case Leaving(peer) =>
        LeaverIsDropped(me, d, rt, peer);
        LeftAdjacent(Voters(d.membership.value), Active(d.roster), peer);
    }
  }

  // ----- a crash between the committed record and the descriptor -----

  /** The disk when the first certificate of a change is complete at a member of the configuration it leaves. */
  ghost predicate Committing(d: Disk, c: JointCertificate) {
    && JointShape(c) && d.membership == Some(c.proposal.previous) && d.prepare == Some(c.proposal)
    && d.roster != [] && d.joint.None? && d.jointHistory == map[] && SaveMembership(d, c.proposal.proposed).Saved?
  }

  /** What the crash leaves: the certificate and the record are stored, the descriptor and the prepare are not. */
  function Crashed(d: Disk, c: JointCertificate): Disk {
    var filed := map[c.proposal.proposed.sequence := c];
    d.(jointHistory := filed, joint := Some(c), membership := Some(c.proposal.proposed))
  }

  lemma CommitFiles(d: Disk, c: JointCertificate)
    requires Committing(d, c)
    ensures SaveJoint(d, c) == Saved([PutJointHistory(c), PutJoint(c)])
    ensures Replay(d, [PutJointHistory(c), PutJoint(c)]) == Crashed(d, c).(membership := d.membership)
  {
    ReplayOne(d, PutJointHistory(c));
    ReplaySnoc(d, [PutJointHistory(c)], PutJoint(c));
    assert [PutJointHistory(c)] + [PutJoint(c)] == [PutJointHistory(c), PutJoint(c)];
  }

  /** Killed after the third write, the commit has left exactly `Crashed`. */
  lemma CommitCrashes(d: Disk, c: JointCertificate)
    requires Committing(d, c)
    ensures |CommitWrites(d, c).1| > 3 && Replay(d, CommitWrites(d, c).1[..3]) == Crashed(d, c)
  {
    var filed, next := [PutJointHistory(c), PutJoint(c)], c.proposal.proposed;
    CommitFiles(d, c);
    var d' := Replay(d, filed);
    assert SaveMembership(d', next) == Saved([PutMembership(next)]);
    assert CommitWrites(d, c).1 == filed + ([PutMembership(next)] + Settled(d', next));
    assert CommitWrites(d, c).1[..3] == filed + [PutMembership(next)];
    ReplaySnoc(d, filed, PutMembership(next));
  }

  /** The restart finds the record committed: it clears the prepare and leaves the descriptor as it is. */
  lemma RestartKeepsDescriptor(me: PeerId, d: Disk, c: JointCertificate, rt: LeaseRuntime, inviteLive: bool)
    requires Committing(d, c)
    ensures RecoverMembershipPlan(me, Crashed(d, c), rt, inviteLive).writes == [DropPrepare]
    ensures Replay(Crashed(d, c), [DropPrepare]) == Crashed(d, c).(prepare := None)
  {
    ReplayOne(Crashed(d, c), DropPrepare);
  }

  /** The disk of the restarted daemon. */
  ghost predicate Restarted(x: Disk, d: Disk, c: JointCertificate) {
    Committing(d, c) && x == Crashed(d, c).(prepare := None)
  }

  /**
    After such a crash every proposal for a newcomer leaves the committed
    record by more than one voter, unless the descriptor named its voters already.
  */
  lemma CrashedProposal(me: PeerId, x: Disk, d: Disk, c: JointCertificate, rt: LeaseRuntime, m: Member)
    requires Restarted(x, d, c) && !m.banned && m.id !in Voters(c.proposal.proposed)
    requires ProposePlan(me, x, rt, Joining(m)).writes != []
    ensures ProposePlan(me, x, rt, Joining(m)).writes[0].PutPrepare?
    ensures var p := ProposePlan(me, x, rt, Joining(m)).writes[0].proposal;
            && p.previous == c.proposal.proposed && Voters(p.proposed) == Active(d.roster) + {m.id}
            && (Adjacent(Voters(p.previous), Voters(p.proposed)) <==> Active(d.roster) == Voters(c.proposal.proposed))
  {
    JoinerIsProposed(me, x, rt, m);
    JoinedAdjacent(Voters(c.proposal.proposed), Active(d.roster), m.id);
  }

  const HOST: Member := Member(1, true, false)
  const FRIEND: Member := Member(2, true, false)
  const NEWCOMER: Member := Member(3, true, false)

  /** The host alone, and the change by which a friend joins, voted for by both. */
  const ALONE: MembershipRecord := MembershipRecord(1, 0, None, [HOST], 1)
  const TOGETHER: MembershipRecord := MembershipRecord(1, 1, Some(ALONE), [HOST, FRIEND], 1)
  const JOIN: Proposal := Proposal(ALONE, TOGETHER)
  const VOTED: JointCertificate := JointCertificate(JOIN, [JointVote(1, JOIN), JointVote(2, JOIN)])

  /** The host launched its world from its first snapshot. */
  const FIRST: Snapshot := Snapshot(7, 8, 1, 1, 1)
  const LAUNCHED: EpochRecord := EpochRecord(Generation(1, 1), None, 8, 1, EpochMode.Solo, INITIAL_REASON)
  const READY: Disk :=
    Disk(Some(LAUNCHED), None, None, Some(ALONE), [HOST], Some(JOIN), None, map[], None, Some(FIRST), None, 0)

  lemma VotersByName()
    ensures Voters(ALONE) == {1} && Active([HOST]) == {1}
    ensures Voters(TOGETHER) == {1, 2}
  {
    assert HOST in ALONE.members && HOST in TOGETHER.members && FRIEND in TOGETHER.members;
  }

  lemma JoinIsVoted()
    ensures Committing(READY, VOTED)
  {
    VotersByName();
    assert JointVote(1, JOIN) in VOTED.votes && JointVote(2, JOIN) in VOTED.votes;
    assert JointVotersOf(VOTED.votes) == {1, 2};
    assert {1, 2} * {1} == {1} && {1, 2} * {1, 2} == {1, 2};
  }

  /** From the descriptor the crash left behind, the host proposes itself and the newcomer. */
  lemma NewcomerIsProposed()
    ensures var p := Proposal(TOGETHER, MembershipRecord(1, 2, Some(TOGETHER), [HOST, NEWCOMER], 1));
            ProposePlan(1, Crashed(READY, VOTED).(prepare := None), BLANK, Joining(NEWCOMER)).writes == [PutPrepare(p)]
  {
    var p := Proposal(TOGETHER, MembershipRecord(1, 2, Some(TOGETHER), [HOST, NEWCOMER], 1));
    assert [HOST][1..] == [] && Insert([HOST], NEWCOMER) == [HOST, NEWCOMER];
    assert HOST in p.previous.members && HOST in p.proposed.members;
    assert ProposalShape(p);
  }

  /**
    The host is killed between the committed record and the descriptor, restarts,
    and lets a newcomer join: two voters away, without the friend who just joined.
  */
  lemma CrashDropsAVoter()
    ensures var writes := CommitWrites(READY, VOTED).1;
            && |writes| > 3
            && var crashed := Replay(READY, writes[..3]);
               var restarted := Replay(crashed, RecoverMembershipPlan(1, crashed, BLANK, false).writes);
               var plan := ProposePlan(1, restarted, BLANK, Joining(NEWCOMER));
               && plan.writes != [] && plan.writes[0].PutPrepare?
               && var p := plan.writes[0].proposal;
                  Voters(p.previous) == {1, 2} && Voters(p.proposed) == {1, 3} && !Adjacent({1, 2}, {1, 3})
  {
    JoinIsVoted();
    VotersByName();
    CommitCrashes(READY, VOTED);
    RestartKeepsDescriptor(1, READY, VOTED, BLANK, false);
    NewcomerIsProposed();
    CrashedProposal(1, Crashed(READY, VOTED).(prepare := None), READY, VOTED, BLANK, NEWCOMER);
    assert {1} + {3} == {1, 3};
  }
}
