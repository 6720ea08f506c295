/** The quorum a newcomer demands before it believes that an announced world is current. */
module Freshness {
  import opened Records
  import opened Quorum
  import opened Certificates

  const MAX_SIGNERS: nat := 1_024

  /** Signers come strictly ordered by id. */
  predicate Canonical(signers: seq<PeerId>) {
    |signers| <= MAX_SIGNERS && forall i, j :: 0 <= i < j < |signers| ==> signers[i] < signers[j]
  }

  function SignerSet(signers: seq<PeerId>): set<PeerId> { set s | s in signers }

  /** A majority of the current voters; with a change pending, of the old and of the new ones. */
  predicate FreshnessQuorum(current: MembershipRecord, pending: Option<Proposal>, signers: seq<PeerId>) {
    var before := Voters(current);
    var after := if pending.Some? then Voters(pending.value.proposed) else before;
    && Canonical(signers)
    && (pending.Some? ==> ProposalShape(pending.value) && pending.value.previous == current)
    && SignerSet(signers) <= before + after
    && |SignerSet(signers) * before| >= QuorumSize(|before|)
    && |SignerSet(signers) * after| >= QuorumSize(|after|)
  }

  method CheckOrder(signers: seq<PeerId>) returns (ok: bool)
    ensures ok == Canonical(signers)
  {
    if |signers| > MAX_SIGNERS {
      return false;
    }
    for i := 0 to |signers|
      invariant forall a, b :: 0 <= a < b < i ==> signers[a] < signers[b]
    {
      if i > 0 && signers[i] <= signers[i - 1] {
        return false;
      }
    }
    return true;
  }

  /** What one more signer adds to the three tallies. */
  lemma OneMoreSigner(signers: seq<PeerId>, i: nat, group: set<PeerId>)
    requires Canonical(signers) && i < |signers|
    ensures SignerSet(signers[..i + 1]) == SignerSet(signers[..i]) + {signers[i]}
    ensures |SignerSet(signers[..i + 1]) * group|
            == |SignerSet(signers[..i]) * group| + (if signers[i] in group then 1 else 0)
  {
    assert signers[..i + 1] == signers[..i] + [signers[i]];
    CountOne(SignerSet(signers[..i]), signers[i], group);
  }

  /** Counts distinct signers in both voter sets; a stranger invalidates. */
  method CountSigners(signers: seq<PeerId>, before: set<PeerId>, after: set<PeerId>)
    returns (known: bool, oldVotes: nat, newVotes: nat)
    requires Canonical(signers)
    ensures known == (SignerSet(signers) <= before + after)
    ensures known ==> oldVotes == |SignerSet(signers) * before| && newVotes == |SignerSet(signers) * after|
  {
    oldVotes, newVotes := 0, 0;
    for i := 0 to |signers|
      invariant SignerSet(signers[..i]) <= before + after
      invariant oldVotes == |SignerSet(signers[..i]) * before| && newVotes == |SignerSet(signers[..i]) * after|
    {
      var s := signers[i];
      if s !in before && s !in after {
        assert s in SignerSet(signers);
        return false, 0, 0;
      }
      OneMoreSigner(signers, i, before);
      OneMoreSigner(signers, i, after);
      if s in before { oldVotes := oldVotes + 1; }
      if s in after { newVotes := newVotes + 1; }
    }
    assert signers[..|signers|] == signers;
    known := true;
  }

  method ValidateFreshnessQuorum(current: MembershipRecord, pending: Option<Proposal>, signers: seq<PeerId>)
    returns (ok: bool)
    ensures ok == FreshnessQuorum(current, pending, signers)
  {
    if pending.Some? && (!ProposalShape(pending.value) || pending.value.previous != current) {
      return false;
    }
    var before := Voters(current);
    var after := if pending.Some? then Voters(pending.value.proposed) else before;
    var ordered := CheckOrder(signers);
    if !ordered {
      return false;
    }
    var known, oldVotes, newVotes := CountSigners(signers, before, after);
    return known && oldVotes >= QuorumSize(|before|) && newVotes >= QuorumSize(|after|);
  }

  /** `group` is a majority of `voters`, or there are none. */
  predicate Backs(group: set<PeerId>, voters: set<PeerId>) {
    voters == {} || 2 * |group * voters| > |voters|
  }

  /** What a list must be: ascending, at most 1,024 voters' ids, a majority of the voters now and after the change. */
  lemma FreshnessExactly(current: MembershipRecord, pending: Option<Proposal>, signers: seq<PeerId>)
    ensures FreshnessQuorum(current, pending, signers) <==>
              && |signers| <= 1_024 && (forall i, j :: 0 <= i < j < |signers| ==> signers[i] < signers[j])
              && (pending.Some? ==> ProposalShape(pending.value) && pending.value.previous == current)
              && var after := if pending.Some? then Voters(pending.value.proposed) else Voters(current);
                 && (forall s :: s in signers ==> s in Voters(current) || s in after)
                 && Backs(SignerSet(signers), Voters(current)) && Backs(SignerSet(signers), after)
  {
    var before := Voters(current);
    var after := if pending.Some? then Voters(pending.value.proposed) else before;
    assert SignerSet(signers) * {} == {};
    assert (forall s :: s in signers ==> s in before || s in after) <==> SignerSet(signers) <= before + after by {
      assert forall s :: s in signers ==> s in SignerSet(signers);
    }
  }

  /** Whether or not a change is pending, a fresh world has a majority of its current voters behind it. */
  lemma FreshnessIsMajority(current: MembershipRecord, pending: Option<Proposal>, signers: seq<PeerId>)
    requires FreshnessQuorum(current, pending, signers) && Voters(current) != {}
    ensures Majority(SignerSet(signers), Voters(current))
  {
  }
}
