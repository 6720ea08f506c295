/** Counting members, acknowledgements and survivors, member by member, and who drives a recovery. */
module Survey {
  import opened Records
  import opened Runtime
  import opened Election

  // ----- counting members in a loop -----

  lemma FreshMember(roster: seq<Member>, i: nat)
    requires Ordered(roster) && i < |roster|
    ensures roster[..i + 1] == roster[..i] + [roster[i]]
    ensures forall m :: m in roster[..i] ==> m.id != roster[i].id
  {
  }

  /** A member list without duplicates has as many voters as unbanned entries. */
  method CountActive(roster: seq<Member>) returns (n: nat)
    requires Ordered(roster)
    ensures n == |Active(roster)|
  {
    n := 0;
    for i := 0 to |roster|
      invariant n == |Active(roster[..i])|
    {
      FreshMember(roster, i);
      if !roster[i].banned {
        assert Active(roster[..i + 1]) == Active(roster[..i]) + {roster[i].id};
        n := n + 1;
      } else {
        assert Active(roster[..i + 1]) == Active(roster[..i]);
      }
    }
    assert roster[..|roster|] == roster;
  }

  lemma ConfirmedGrows(me: PeerId, roster: seq<Member>, m: Member, rt: LeaseRuntime, gen: Generation, now: Instant)
    requires forall x :: x in roster ==> x.id != m.id
    ensures var counts := m.id != me && !m.banned && Confirms(rt, m.id, gen, now);
            Confirmed(me, roster + [m], rt, gen, now)
              == Confirmed(me, roster, rt, gen, now) + (if counts then {m.id} else {})
    ensures m.id != me ==> m.id !in Confirmed(me, roster, rt, gen, now)
  {
  }

  lemma ConfirmedCount(me: PeerId, roster: seq<Member>, i: nat, rt: LeaseRuntime, gen: Generation, now: Instant)
    requires Ordered(roster) && i < |roster|
    ensures var counts := roster[i].id != me && !roster[i].banned && Confirms(rt, roster[i].id, gen, now);
            |Confirmed(me, roster[..i + 1], rt, gen, now)|
              == |Confirmed(me, roster[..i], rt, gen, now)| + (if counts then 1 else 0)
  {
    FreshMember(roster, i);
    ConfirmedGrows(me, roster[..i], roster[i], rt, gen, now);
  }

  /** The fresh acknowledgements of the lease, one's own included. */
  method CountConfirmed(me: PeerId, roster: seq<Member>, rt: LeaseRuntime, gen: Generation, now: Instant)
    returns (n: nat)
    requires Ordered(roster)
    ensures n == |Confirmed(me, roster, rt, gen, now)|
  {
    n := 1;
    assert Confirmed(me, [], rt, gen, now) == {me};
    for i := 0 to |roster|
      invariant n == |Confirmed(me, roster[..i], rt, gen, now)|
    {
      var m := roster[i];
      ConfirmedCount(me, roster, i, rt, gen, now);
      if m.id != me && !m.banned && Confirms(rt, m.id, gen, now) {
        n := n + 1;
      }
    }
    assert roster[..|roster|] == roster;
  }

  lemma EpochConfirmedGrows(me: PeerId, roster: seq<Member>, m: Member, rt: LeaseRuntime, gen: Generation)
    requires forall x :: x in roster ==> x.id != m.id
    ensures var counts := m.id != me && !m.banned && ConfirmsEpoch(rt, m.id, gen);
            EpochConfirmed(me, roster + [m], rt, gen)
              == EpochConfirmed(me, roster, rt, gen) + (if counts then {m.id} else {})
    ensures m.id != me ==> m.id !in EpochConfirmed(me, roster, rt, gen)
  {
  }

  lemma EpochConfirmedCount(me: PeerId, roster: seq<Member>, i: nat, rt: LeaseRuntime, gen: Generation)
    requires Ordered(roster) && i < |roster|
    ensures var counts := roster[i].id != me && !roster[i].banned && ConfirmsEpoch(rt, roster[i].id, gen);
            |EpochConfirmed(me, roster[..i + 1], rt, gen)|
              == |EpochConfirmed(me, roster[..i], rt, gen)| + (if counts then 1 else 0)
  {
    FreshMember(roster, i);
    EpochConfirmedGrows(me, roster[..i], roster[i], rt, gen);
  }

  method CountEpochConfirmed(me: PeerId, roster: seq<Member>, rt: LeaseRuntime, gen: Generation) returns (n: nat)
    requires Ordered(roster)
    ensures n == |EpochConfirmed(me, roster, rt, gen)|
  {
    n := 1;
    assert EpochConfirmed(me, [], rt, gen) == {me};
    for i := 0 to |roster|
      invariant n == |EpochConfirmed(me, roster[..i], rt, gen)|
    {
      var m := roster[i];
      EpochConfirmedCount(me, roster, i, rt, gen);
      if m.id != me && !m.banned && ConfirmsEpoch(rt, m.id, gen) {
        n := n + 1;
      }
    }
    assert roster[..|roster|] == roster;
  }

  // ----- surveying the survivors -----

  function Running(peer: PeerId, epoch: U64, sequence: U64): Candidate {
    Candidate(peer, epoch, sequence, true, true, true, false)
  }

  /** The candidates of one attempt are the hosts, all at the local epoch and sequence. */
  ghost predicate Stands(candidates: seq<Candidate>, hosts: set<PeerId>, epoch: U64, sequence: U64) {
    && (forall c :: c in candidates ==> c.peer in hosts && c == Running(c.peer, epoch, sequence))
    && (forall h :: h in hosts ==> Running(h, epoch, sequence) in candidates)
  }

  lemma VisibleGrows(me: PeerId, roster: seq<Member>, m: Member, rt: LeaseRuntime, fingerprint: Digest, epoch: U64,
                     head: Snapshot, now: Instant)
    requires forall x :: x in roster ==> x.id != m.id
    ensures var counts := m.id != me && !m.banned && SeenCanonical(rt, m.id, fingerprint, epoch, head, now);
            Visible(me, roster + [m], rt, fingerprint, epoch, head, now)
              == Visible(me, roster, rt, fingerprint, epoch, head, now) + (if counts then {m.id} else {})
    ensures m.id != me ==> m.id !in Visible(me, roster, rt, fingerprint, epoch, head, now)
  {
  }

  lemma VisibleCount(me: PeerId, roster: seq<Member>, m: Member, rt: LeaseRuntime, fingerprint: Digest, epoch: U64,
                     head: Snapshot, now: Instant)
    requires forall x :: x in roster ==> x.id != m.id
    ensures var counts := m.id != me && !m.banned && SeenCanonical(rt, m.id, fingerprint, epoch, head, now);
            |Visible(me, roster + [m], rt, fingerprint, epoch, head, now)|
              == |Visible(me, roster, rt, fingerprint, epoch, head, now)| + (if counts then 1 else 0)
  {
    VisibleGrows(me, roster, m, rt, fingerprint, epoch, head, now);
  }

  lemma HostsGrow(me: PeerId, ready: bool, roster: seq<Member>, m: Member, rt: LeaseRuntime, fingerprint: Digest,
                  epoch: U64, head: Snapshot, now: Instant)
    ensures var counts := m.id != me && !m.banned && CanHost(rt, m, fingerprint, epoch, head, now);
            Hosts(me, ready, roster + [m], rt, fingerprint, epoch, head, now)
              == Hosts(me, ready, roster, rt, fingerprint, epoch, head, now) + (if counts then {m.id} else {})
  {
  }

  /** Fills the visible peers and the candidates, member by member. */
  method SurveyMembers(me: PeerId, ready: bool, roster: seq<Member>, rt: LeaseRuntime, fingerprint: Digest, epoch: U64,
                       head: Snapshot, now: Instant)
    returns (visible: nat, candidates: seq<Candidate>)
    requires Ordered(roster)
    ensures visible == |Visible(me, roster, rt, fingerprint, epoch, head, now)|
    ensures Stands(candidates, Hosts(me, ready, roster, rt, fingerprint, epoch, head, now), epoch, head.sequence)
  {
    visible, candidates := 1, if ready then [Running(me, epoch, head.sequence)] else [];
    assert Visible(me, [], rt, fingerprint, epoch, head, now) == {me};
    for i := 0 to |roster|
      invariant visible == |Visible(me, roster[..i], rt, fingerprint, epoch, head, now)|
      invariant Stands(candidates, Hosts(me, ready, roster[..i], rt, fingerprint, epoch, head, now), epoch,
                       head.sequence)
    {
      var m := roster[i];
      FreshMember(roster, i);
      VisibleCount(me, roster[..i], m, rt, fingerprint, epoch, head, now);
      HostsGrow(me, ready, roster[..i], m, rt, fingerprint, epoch, head, now);
      if m.id != me && !m.banned && SeenCanonical(rt, m.id, fingerprint, epoch, head, now) {
        visible := visible + 1;
        if m.eligible && rt.statuses[m.id].status.eligible && CandidateReady(rt, m.id, fingerprint, now) {
          candidates := candidates + [Running(m.id, epoch, head.sequence)];
        }
      }
    }
    assert roster[..|roster|] == roster;
  }

  /** Among equals the election picks the least id, so exactly the least host drives. */
  lemma ElectedDrives(me: PeerId, candidates: seq<Candidate>, hosts: set<PeerId>, epoch: U64, sequence: U64,
                      w: Candidate)
    requires Stands(candidates, hosts, epoch, sequence) && Wins(w, candidates)
    ensures w.peer == me <==> Drives(me, hosts)
  {
  }

  // ----- votes in hand -----

  /** The votes in memory for one ballot, listed once each in the order the table yields them. */
  method CollectVotes(votes: map<PeerId, Ballot>, b: Ballot) returns (list: seq<Vote>)
    ensures forall v :: v in list ==> v.ballot == b && v.voter in votes && votes[v.voter] == b
    ensures forall q :: q in votes && votes[q] == b ==> Vote(q, b) in list
    ensures forall i, j :: 0 <= i < j < |list| ==> list[i] != list[j]
  {
    list := [];
    var rest := votes.Keys;
    while rest != {}
      invariant rest <= votes.Keys
      invariant forall v :: v in list ==> v.ballot == b && v.voter in votes && votes[v.voter] == b && v.voter !in rest
      invariant forall q :: q in votes && votes[q] == b && q !in rest ==> Vote(q, b) in list
      invariant forall i, j :: 0 <= i < j < |list| ==> list[i] != list[j]
    {
      var q :| q in rest;
      rest := rest - {q};
      if votes[q] == b {
        assert Vote(q, b) !in list;
        list := list + [Vote(q, b)];
      }
    }
  }

  method CollectJointVotes(votes: map<PeerId, Proposal>, p: Proposal) returns (list: seq<JointVote>)
    ensures forall v :: v in list ==> v.proposal == p && v.voter in votes && votes[v.voter] == p
    ensures forall q :: q in votes && votes[q] == p ==> JointVote(q, p) in list
    ensures forall i, j :: 0 <= i < j < |list| ==> list[i] != list[j]
  {
    list := [];
    var rest := votes.Keys;
    while rest != {}
      invariant rest <= votes.Keys
      invariant forall v :: v in list ==> v.proposal == p && v.voter in votes && votes[v.voter] == p && v.voter !in rest
      invariant forall q :: q in votes && votes[q] == p && q !in rest ==> JointVote(q, p) in list
      invariant forall i, j :: 0 <= i < j < |list| ==> list[i] != list[j]
    {
      var q :| q in rest;
      rest := rest - {q};
      if votes[q] == p {
        assert JointVote(q, p) !in list;
        list := list + [JointVote(q, p)];
      }
    }
  }
}
