/** The quorum rules of recovery and membership certificates, counted vote by vote. */
module Certificates {
  import opened Records
  import opened Quorum

  /** A recovery certificate: matching votes of members only, a majority of distinct ones. */
  predicate RecoveryShape(c: RecoveryCertificate, members: set<PeerId>) {
    && c.ballot.WellFormed()
    && (forall v :: v in c.votes ==> v.ballot == c.ballot && v.voter in members)
    && |VotersOf(c.votes)| >= QuorumSize(|members|)
  }

  method ValidateRecoveryShape(c: RecoveryCertificate, members: set<PeerId>) returns (ok: bool)
    ensures ok == RecoveryShape(c, members)
  {
    if !c.ballot.WellFormed() {
      return false;
    }
    var voters: set<PeerId> := {};
    for i := 0 to |c.votes|
      invariant voters == VotersOf(c.votes[..i])
      invariant forall v :: v in c.votes[..i] ==> v.ballot == c.ballot && v.voter in members
    {
      var vote := c.votes[i];
      assert vote in c.votes;
      if vote.ballot != c.ballot || vote.voter !in members {
        return false;
      }
      voters := voters + {vote.voter};
      assert c.votes[..i + 1] == c.votes[..i] + [vote];
    }
    assert c.votes[..|c.votes|] == c.votes;
    return |voters| >= QuorumSize(|members|);
  }

  /** An accepted certificate of a non-empty electorate carries one of its majorities. */
  lemma RecoveryShapeIsMajority(c: RecoveryCertificate, members: set<PeerId>)
    requires RecoveryShape(c, members) && members != {}
    ensures Majority(VotersOf(c.votes), members)
  {
    assert VotersOf(c.votes) * members == VotersOf(c.votes);
  }

  /** A joint certificate: matching votes, each from a voter of the old or the new set, both majorities. */
  predicate JointShape(c: JointCertificate) {
    var old_, new_ := Voters(c.proposal.previous), Voters(c.proposal.proposed);
    && ProposalShape(c.proposal)
    && (forall v :: v in c.votes ==> v.proposal == c.proposal && v.voter in old_ + new_)
    && |JointVotersOf(c.votes) * old_| >= QuorumSize(|old_|)
    && |JointVotersOf(c.votes) * new_| >= QuorumSize(|new_|)
  }

  method ValidateJointShape(c: JointCertificate) returns (ok: bool)
    ensures ok == JointShape(c)
  {
    if !ProposalShape(c.proposal) {
      return false;
    }
    var before, after := Voters(c.proposal.previous), Voters(c.proposal.proposed);
    var valid, oldVotes, newVotes := CountJointVotes(c, before, after);
    return valid && oldVotes >= QuorumSize(|before|) && newVotes >= QuorumSize(|after|);
  }

  /** Counts distinct voters in both sets; a repeated voter is skipped, a stranger invalidates. */
  method CountJointVotes(c: JointCertificate, before: set<PeerId>, after: set<PeerId>)
    returns (valid: bool, oldVotes: nat, newVotes: nat)
    ensures valid == forall v :: v in c.votes ==> v.proposal == c.proposal && v.voter in before + after
    ensures valid ==> oldVotes == |JointVotersOf(c.votes) * before| && newVotes == |JointVotersOf(c.votes) * after|
  {
    var seen: set<PeerId> := {};
    oldVotes, newVotes := 0, 0;
    for i := 0 to |c.votes|
      invariant seen == JointVotersOf(c.votes[..i]) && seen <= before + after
      invariant forall v :: v in c.votes[..i] ==> v.proposal == c.proposal
      invariant oldVotes == |seen * before| && newVotes == |seen * after|
    {
      var vote := c.votes[i];
      assert vote in c.votes;
      assert c.votes[..i + 1] == c.votes[..i] + [vote];
      if vote.proposal != c.proposal {
        return false, 0, 0;
      }
      if vote.voter in seen {
        assert seen + {vote.voter} == seen;
        continue;
      }
      if vote.voter !in before && vote.voter !in after {
        return false, 0, 0;
      }
      CountOne(seen, vote.voter, before);
      CountOne(seen, vote.voter, after);
      if vote.voter in before { oldVotes := oldVotes + 1; }
      if vote.voter in after { newVotes := newVotes + 1; }
      seen := seen + {vote.voter};
    }
    assert c.votes[..|c.votes|] == c.votes;
    valid := true;
  }

  lemma CountOne(seen: set<PeerId>, voter: PeerId, group: set<PeerId>)
    requires voter !in seen
    ensures |(seen + {voter}) * group| == |seen * group| + (if voter in group then 1 else 0)
  {
    if voter in group {
      assert (seen + {voter}) * group == seen * group + {voter};
    } else {
      assert (seen + {voter}) * group == seen * group;
    }
  }

  /** A joint certificate's voters meet every majority of the old and of the new voter set. */
  lemma JointMeetsBothMajorities(c: JointCertificate, backers: set<PeerId>) returns (shared: PeerId)
    requires JointShape(c)
    requires Majority(backers, Voters(c.proposal.previous)) || Majority(backers, Voters(c.proposal.proposed))
    ensures shared in backers && shared in JointVotersOf(c.votes)
  {
    var voters := JointVotersOf(c.votes);
    if Majority(backers, Voters(c.proposal.previous)) {
      shared := MajoritiesMeet(backers, voters, Voters(c.proposal.previous));
    } else {
      shared := MajoritiesMeet(backers, voters, Voters(c.proposal.proposed));
    }
  }
}
