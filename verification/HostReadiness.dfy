/**
  The answer to "may this computer be shut down?": which members could take
  over, and whether the survivors would still reach the recovery quorum.
*/
module HostReadiness {
  import opened Records
  import opened Runtime
  import opened Quorum
  import opened Survey

  datatype Observation = Observation(
    peer: PeerId, reachable: bool, status: Option<WorldStatus>, capability: Option<HostCapability>)

  function FreshStatusOf(rt: LeaseRuntime, peer: PeerId, now: Instant): Option<WorldStatus> {
    if peer in rt.statuses && Elapsed(now, rt.statuses[peer].observedAt) <= STATUS_FRESH_MS
    then Some(rt.statuses[peer].status) else None
  }

  function FreshCapabilityOf(rt: LeaseRuntime, peer: PeerId, now: Instant): Option<HostCapability> {
    if peer in rt.capabilities && Elapsed(now, rt.capabilities[peer].observedAt) <= STATUS_FRESH_MS
    then Some(rt.capabilities[peer].capability) else None
  }

  function ObservationOf(rt: LeaseRuntime, peer: PeerId, now: Instant): Observation {
    Observation(peer, peer in rt.connected, FreshStatusOf(rt, peer, now), FreshCapabilityOf(rt, peer, now))
  }

  /** What the daemon knows of the other members right now, in roster order. */
  function Observe(me: PeerId, roster: seq<Member>, rt: LeaseRuntime, now: Instant): seq<Observation> {
    if roster == [] then []
    else
      (if roster[0].id != me && !roster[0].banned then [ObservationOf(rt, roster[0].id, now)] else [])
        + Observe(me, roster[1..], rt, now)
  }

  lemma {:induction false} ObservesEveryOtherMember(me: PeerId, roster: seq<Member>, rt: LeaseRuntime, now: Instant,
                                                    o: Observation)
    ensures o in Observe(me, roster, rt, now)
      <==> o == ObservationOf(rt, o.peer, now) && exists m :: m in roster && m.id == o.peer && m.id != me && !m.banned
  {
    if roster != [] {
      ObservesEveryOtherMember(me, roster[1..], rt, now, o);
      assert roster == [roster[0]] + roster[1..];
    }
  }

  // ----- the quorum that survives the authority -----

  predicate Survives(o: Observation, local: PeerId, authority: PeerId, roster: seq<Member>, fingerprint: Digest,
                     epoch: U64, head: Snapshot)
  {
    && o.reachable && o.peer != authority && o.peer != local && IsActive(roster, o.peer)
    && o.status.Some? && StatusMatches(o.status.value, fingerprint, epoch, head)
  }

  function Survivors(local: PeerId, authority: PeerId, roster: seq<Member>, fingerprint: Digest, epoch: U64,
                     head: Snapshot, observations: seq<Observation>): set<PeerId>
  {
    {local} + (set o | o in observations && Survives(o, local, authority, roster, fingerprint, epoch, head) :: o.peer)
  }

  method SurvivingRecoveryQuorum(roster: seq<Member>, fingerprint: Digest, epoch: EpochRecord, head: Snapshot,
                                 local: PeerId, observations: seq<Observation>)
    returns (ok: bool)
    requires Ordered(roster)
    ensures ok == (
      && local != epoch.authority && MayLead(roster, local)
      && HasQuorum(|Active(roster)|,
                   |Survivors(local, epoch.authority, roster, fingerprint, epoch.gen.epoch, head, observations)|))
  {
    if local == epoch.authority || !MayLead(roster, local) {
      return false;
    }
    var survivors := {local};
    for i := 0 to |observations|
      invariant survivors == Survivors(local, epoch.authority, roster, fingerprint, epoch.gen.epoch, head,
                                       observations[..i])
    {
      var o := observations[i];
      assert observations[..i + 1] == observations[..i] + [o];
      if !o.reachable || o.peer == epoch.authority || o.peer == local || !IsActive(roster, o.peer) || o.status.None? {
        continue;
      }
      if StatusMatches(o.status.value, fingerprint, epoch.gen.epoch, head) {
        survivors := survivors + {o.peer};
      }
    }
    assert observations[..|observations|] == observations;
    var members := CountActive(roster);
    return HasQuorum(members, |survivors|);
  }

  /** The daemon's runtime once the authority is gone. */
  function Without(rt: LeaseRuntime, authority: PeerId): LeaseRuntime {
    rt.(connected := rt.connected - {authority})
  }

  /** Readiness counts exactly the peers that recovery would count with the authority gone. */
  lemma ReadinessCountsWhatRecoveryCounts(me: PeerId, authority: PeerId, roster: seq<Member>, rt: LeaseRuntime,
                                          fingerprint: Digest, epoch: U64, head: Snapshot, now: Instant)
    requires Ordered(roster) && me != authority
    ensures Survivors(me, authority, roster, fingerprint, epoch, head, Observe(me, roster, rt, now))
         == Visible(me, roster, Without(rt, authority), fingerprint, epoch, head, now)
  {
    var survivors := Survivors(me, authority, roster, fingerprint, epoch, head, Observe(me, roster, rt, now));
    var visible := Visible(me, roster, Without(rt, authority), fingerprint, epoch, head, now);
    forall q
      ensures q in survivors <==> q in visible
    {
      SurvivorIsVisible(me, authority, roster, rt, fingerprint, epoch, head, now, q);
    }
  }

  lemma SurvivorIsVisible(me: PeerId, authority: PeerId, roster: seq<Member>, rt: LeaseRuntime, fingerprint: Digest,
                          epoch: U64, head: Snapshot, now: Instant, q: PeerId)
    requires Ordered(roster) && me != authority
    ensures q in Survivors(me, authority, roster, fingerprint, epoch, head, Observe(me, roster, rt, now))
       <==> q in Visible(me, roster, Without(rt, authority), fingerprint, epoch, head, now)
  {
    var o := ObservationOf(rt, q, now);
    ObservesEveryOtherMember(me, roster, rt, now, o);
    OrderedLookup(roster, q);
    forall x | x in Observe(me, roster, rt, now) && x.peer == q
      ensures x == o
    {
      ObservesEveryOtherMember(me, roster, rt, now, x);
    }
  }

  // ----- the verdict -----

  datatype PeerReadiness = PeerReadiness(
    peer: PeerId, reachable: bool, current: bool, eligible: bool, capabilityFresh: bool,
    runtime: HostRuntime, serverMods: ServerMods, conflictFree: bool, quorumWithoutAuthority: bool)

  datatype State =
    | Unknown | NotCurrentHost | Conflict | DegradedSafety | Safe
    | BlockedByQuorum | BlockedByRuntime | BlockedByMods | Syncing | WorldWillStop

  datatype Report = Report(
    state: State, safe: bool, successor: Option<PeerId>, handoff: Option<PeerId>, replicated: bool,
    peers: seq<PeerReadiness>)

  /** The first observation of a peer is the one that counts. */
  function Find(observations: seq<Observation>, peer: PeerId): (found: Option<Observation>)
    ensures found.Some? ==> found.value in observations && found.value.peer == peer
    ensures found.None? ==> forall o :: o in observations ==> o.peer != peer
  {
    if observations == [] then None
    else if observations[0].peer == peer then Some(observations[0])
    else Find(observations[1..], peer)
  }

  function Assess(m: Member, found: Option<Observation>, fingerprint: Digest, epoch: U64,
                  head: Snapshot): PeerReadiness
  {
    var status := if found.Some? then found.value.status else None;
    var capability := if found.Some? then found.value.capability else None;
    var matches := capability.Some? && capability.value.fingerprint == fingerprint;
    PeerReadiness(
      m.id,
      found.Some? && found.value.reachable,
      status.Some? && StatusMatches(status.value, fingerprint, epoch, head),
      m.eligible && status.Some? && status.value.eligible,
      capability.Some?,
      if matches then capability.value.runtime else if capability.Some? then Incompatible else Unverified,
      if matches then capability.value.serverMods else if capability.Some? then ModsIncompatible else ModsUnverified,
      matches && capability.value.conflictFree,
      matches && capability.value.quorumWithoutAuthority)
  }

  function Assessed(local: PeerId, roster: seq<Member>, observations: seq<Observation>, fingerprint: Digest,
                    epoch: U64, head: Snapshot): set<PeerReadiness>
  {
    set m | m in roster && m.id != local && !m.banned :: Assess(m, Find(observations, m.id), fingerprint, epoch, head)
  }

  predicate InPlace(p: PeerReadiness) { p.reachable && p.current && p.eligible }
  predicate CanTakeOver(p: PeerReadiness) {
    InPlace(p) && p.runtime == Ready && p.serverMods == ModsReady && p.conflictFree
  }
  predicate CanSucceed(p: PeerReadiness) { CanTakeOver(p) && p.quorumWithoutAuthority }

  /** Whom readiness counts on to take over is exactly whom a survivor of the authority would elect from. */
  lemma TakeOverMeansHost(me: PeerId, roster: seq<Member>, rt: LeaseRuntime, m: Member, fingerprint: Digest, epoch: U64,
                          head: Snapshot, now: Instant)
    requires m in roster && m.id != me && !m.banned
    ensures var found := Find(Observe(me, roster, rt, now), m.id);
            && found == Some(ObservationOf(rt, m.id, now))
            && (CanTakeOver(Assess(m, found, fingerprint, epoch, head)) <==>
                CanHost(rt, m, fingerprint, epoch, head, now))
  {
    var o := ObservationOf(rt, m.id, now);
    ObservesEveryOtherMember(me, roster, rt, now, o);
    var found := Find(Observe(me, roster, rt, now), m.id);
    ObservesEveryOtherMember(me, roster, rt, now, found.value);
  }

  /** What is known of a member: connection, place, and a fresh report for this very configuration. */
  lemma AssessExactly(rt: LeaseRuntime, m: Member, fingerprint: Digest, epoch: U64, head: Snapshot, now: Instant)
    ensures var p := Assess(m, Some(ObservationOf(rt, m.id, now)), fingerprint, epoch, head);
            var reported := m.id in rt.capabilities && now <= rt.capabilities[m.id].observedAt + 3_000;
            var status := m.id in rt.statuses && now <= rt.statuses[m.id].observedAt + 3_000;
            && p.peer == m.id && (p.reachable <==> m.id in rt.connected) && (p.capabilityFresh <==> reported)
            && (p.current <==>
                  status && rt.statuses[m.id].status
                            == WorldStatus(epoch, head.sequence, Some(head.manifest), Some(head.stateRoot), fingerprint,
                                           rt.statuses[m.id].status.eligible))
            && (p.eligible <==> m.eligible && status && rt.statuses[m.id].status.eligible)
            && if reported && rt.capabilities[m.id].capability.fingerprint == fingerprint then
                 var c := rt.capabilities[m.id].capability;
                 && p.runtime == c.runtime && p.serverMods == c.serverMods && p.conflictFree == c.conflictFree
                 && p.quorumWithoutAuthority == c.quorumWithoutAuthority
               else
                 && p.runtime == (if reported then Incompatible else Unverified)
                 && p.serverMods == (if reported then ModsIncompatible else ModsUnverified)
                 && !p.conflictFree && !p.quorumWithoutAuthority
  {
  }

  /** `id` is the least peer of which `p` holds. */
  ghost predicate Least(id: PeerId, peers: set<PeerReadiness>, holds: PeerReadiness -> bool) {
    && (exists p :: p in peers && holds(p) && p.peer == id)
    && (forall p :: p in peers && holds(p) ==> id <= p.peer)
  }

  /** The verdict as a property of what is known of each peer, with no order in it. */
  ghost predicate Answers(r: Report, isHost: bool, conflicts: bool, solo: bool, peers: set<PeerReadiness>) {
    && (r.safe <==> r.state.Safe?)
    && (r.replicated <==> exists p :: p in peers && p.current)
    && (r.state.Safe? <==> isHost && !conflicts && !solo && exists p :: p in peers && CanSucceed(p))
    && (r.state.NotCurrentHost? <==> !isHost)
    && (r.state.Conflict? <==> isHost && conflicts)
    && (r.state.BlockedByQuorum?
        <==> isHost && !conflicts && !solo && !r.safe && exists p :: p in peers && CanTakeOver(p))
    && (r.successor.Some? <==> r.safe)
    && (r.handoff.Some? <==> r.safe || r.state.BlockedByQuorum?)
    && (r.safe ==> Least(r.successor.value, peers, CanSucceed) && r.handoff == r.successor)
    && (r.state.BlockedByQuorum? ==> Least(r.handoff.value, peers, CanTakeOver))
    && (isHost && !conflicts && !solo && !r.handoff.Some? ==> r.state == Obstacle(peers))
    && (isHost && !conflicts && solo ==> r.state == DegradedSafety)
  }

  /** Why nobody could take over. */
  ghost function Obstacle(peers: set<PeerReadiness>): State {
    if exists p :: p in peers && InPlace(p) && p.runtime != Ready then BlockedByRuntime
    else if exists p :: p in peers && InPlace(p) && p.serverMods != ModsReady then BlockedByMods
    else if exists p :: p in peers && InPlace(p) && !p.conflictFree then DegradedSafety
    else if exists p :: p in peers && p.reachable && !p.current then Syncing
    else WorldWillStop
  }

  ghost function Elements(peers: seq<PeerReadiness>): set<PeerReadiness> { set p | p in peers }

  predicate SortedByPeer(peers: seq<PeerReadiness>) {
    forall i, j :: 0 <= i < j < |peers| ==> peers[i].peer <= peers[j].peer
  }

  lemma InsertedElements(peers: seq<PeerReadiness>, i: nat, p: PeerReadiness)
    requires i <= |peers|
    ensures Elements(peers[..i] + [p] + peers[i..]) == Elements(peers) + {p}
  {
  }

  lemma InsertedSorted(peers: seq<PeerReadiness>, i: nat, p: PeerReadiness)
    requires SortedByPeer(peers) && i <= |peers|
    requires i > 0 ==> peers[i - 1].peer <= p.peer
    requires i < |peers| ==> p.peer <= peers[i].peer
    ensures SortedByPeer(peers[..i] + [p] + peers[i..])
  {
  }

  /** Puts one peer after every entry that is not above it. */
  method InsertByPeer(peers: seq<PeerReadiness>, p: PeerReadiness) returns (r: seq<PeerReadiness>)
    requires SortedByPeer(peers)
    ensures SortedByPeer(r) && Elements(r) == Elements(peers) + {p}
  {
    var i := |peers|;
    while i > 0 && peers[i - 1].peer > p.peer
      invariant 0 <= i <= |peers|
      invariant forall j :: i <= j < |peers| ==> peers[j].peer > p.peer
    {
      i := i - 1;
    }
    InsertedElements(peers, i, p);
    InsertedSorted(peers, i, p);
    r := peers[..i] + [p] + peers[i..];
  }

  method AssessMembers(local: PeerId, roster: seq<Member>, observations: seq<Observation>, fingerprint: Digest,
                       epoch: U64, head: Snapshot)
    returns (peers: seq<PeerReadiness>)
    ensures SortedByPeer(peers) && Elements(peers) == Assessed(local, roster, observations, fingerprint, epoch, head)
  {
    peers := [];
    for i := 0 to |roster|
      invariant SortedByPeer(peers)
      invariant Elements(peers) == Assessed(local, roster[..i], observations, fingerprint, epoch, head)
    {
      var m := roster[i];
      assert roster[..i + 1] == roster[..i] + [m];
      if m.id != local && !m.banned {
        peers := InsertByPeer(peers, Assess(m, Find(observations, m.id), fingerprint, epoch, head));
      }
    }
    assert roster[..|roster|] == roster;
  }

  /** The first match in a sorted list has the least id of all matches. */
  method FindFirst(peers: seq<PeerReadiness>, holds: PeerReadiness -> bool) returns (found: Option<PeerId>)
    requires SortedByPeer(peers)
    ensures found.None? <==> forall p :: p in peers ==> !holds(p)
    ensures found.Some? ==> Least(found.value, Elements(peers), holds)
  {
    for i := 0 to |peers|
      invariant forall j :: 0 <= j < i ==> !holds(peers[j])
    {
      if holds(peers[i]) {
        return Some(peers[i].peer);
      }
    }
    return None;
  }

  method EvaluateHostReadiness(local: PeerId, roster: seq<Member>, fingerprint: Digest, epoch: EpochRecord,
                               head: Snapshot, conflicts: bool, observations: seq<Observation>)
    returns (r: Report)
    ensures Answers(r, local == epoch.authority, conflicts, epoch.mode.Solo?,
                    Assessed(local, roster, observations, fingerprint, epoch.gen.epoch, head))
    ensures SortedByPeer(r.peers)
    ensures Elements(r.peers) == Assessed(local, roster, observations, fingerprint, epoch.gen.epoch, head)
  {
    var peers := AssessMembers(local, roster, observations, fingerprint, epoch.gen.epoch, head);
    ghost var all := Assessed(local, roster, observations, fingerprint, epoch.gen.epoch, head);
    assert forall p :: p in all <==> p in peers;
    var replicated := exists p :: p in peers && p.current;
    if local != epoch.authority {
      return Report(NotCurrentHost, false, None, None, replicated, peers);
    }
    if conflicts {
      return Report(Conflict, false, None, None, replicated, peers);
    }
    if epoch.mode.Solo? {
      return Report(DegradedSafety, false, None, None, replicated, peers);
    }
    var successor := FindFirst(peers, CanSucceed);
    if successor.Some? {
      return Report(Safe, true, successor, successor, replicated, peers);
    }
    var handoff := FindFirst(peers, CanTakeOver);
    if handoff.Some? {
      return Report(BlockedByQuorum, false, None, handoff, replicated, peers);
    }
    var obstacle := FindObstacle(peers, all);
    return Report(obstacle, false, None, None, replicated, peers);
  }

  method FindObstacle(peers: seq<PeerReadiness>, ghost all: set<PeerReadiness>) returns (state: State)
    requires forall p :: p in all <==> p in peers
    ensures state == Obstacle(all)
  {
    if exists p :: p in peers && InPlace(p) && p.runtime != Ready {
      return BlockedByRuntime;
    }
    if exists p :: p in peers && InPlace(p) && p.serverMods != ModsReady {
      return BlockedByMods;
    }
    if exists p :: p in peers && InPlace(p) && !p.conflictFree {
      return DegradedSafety;
    }
    if exists p :: p in peers && p.reachable && !p.current {
      return Syncing;
    }
    return WorldWillStop;
  }

  // ----- order does not matter -----

  predicate OnePerPeer(observations: seq<Observation>) {
    forall a, b :: a in observations && b in observations && a.peer == b.peer ==> a == b
  }

  /** With one observation per peer, reordering members or observations changes nothing that is assessed. */
  lemma AssessmentIgnoresOrder(local: PeerId, roster: seq<Member>, roster': seq<Member>,
                               observations: seq<Observation>, observations': seq<Observation>, fingerprint: Digest,
                               epoch: U64, head: Snapshot)
    requires forall m :: m in roster <==> m in roster'
    requires forall o :: o in observations <==> o in observations'
    requires OnePerPeer(observations)
    ensures Assessed(local, roster, observations, fingerprint, epoch, head)
            == Assessed(local, roster', observations', fingerprint, epoch, head)
  {
  }

  /** Hence the whole verdict, named successor included, is the same. */
  lemma VerdictIsUnique(a: Report, b: Report, isHost: bool, conflicts: bool, solo: bool, peers: set<PeerReadiness>)
    requires Answers(a, isHost, conflicts, solo, peers) && Answers(b, isHost, conflicts, solo, peers)
    ensures a.state == b.state && a.safe == b.safe && a.successor == b.successor && a.handoff == b.handoff
            && a.replicated == b.replicated
  {
  }

  // ----- a report read back -----

  const MAX_AGE_MS: nat := 6_000

  /** What is left of a peer's entry in a stale report. */
  function Faded(p: PeerReadiness): PeerReadiness {
    p.(reachable := false, current := false, capabilityFresh := false, quorumWithoutAuthority := false)
  }

  class StoredReport {
    const generatedAt: Instant
    const peers: array<PeerReadiness>
    var state: State
    var safe: bool
    var successor: Option<PeerId>
    var handoff: Option<PeerId>

    constructor (r: Report, at: Instant)
      ensures generatedAt == at && peers[..] == r.peers && fresh(peers)
      ensures state == r.state && safe == r.safe && successor == r.successor && handoff == r.handoff
    {
      generatedAt, state, safe, successor, handoff := at, r.state, r.safe, r.successor, r.handoff;
      peers := new PeerReadiness[|r.peers|](i requires 0 <= i < |r.peers| => r.peers[i]);
    }

    /** Reading a report older than six seconds withdraws every promise it made. */
    method Load(now: Instant)
      modifies this, peers
      ensures now > generatedAt + 6_000 ==>
                && state == Unknown && !safe && successor.None? && handoff.None?
                && forall i :: 0 <= i < peers.Length ==>
                     && peers[i] == Faded(old(peers[i])) && peers[i].peer == old(peers[i]).peer
                     && !peers[i].reachable && !peers[i].current && !peers[i].capabilityFresh
                     && !peers[i].quorumWithoutAuthority
      ensures now <= generatedAt + 6_000 ==>
                && state == old(state) && safe == old(safe) && successor == old(successor) && handoff == old(handoff)
                && peers[..] == old(peers[..])
    {
      if Elapsed(now, generatedAt) > MAX_AGE_MS {
        state, safe, successor, handoff := Unknown, false, None, None;
        for i := 0 to peers.Length
          modifies peers
          invariant forall j :: 0 <= j < i ==> peers[j] == Faded(old(peers[j]))
          invariant forall j :: i <= j < peers.Length ==> peers[j] == old(peers[j])
        {
          peers[i] := Faded(peers[i]);
        }
      }
    }
  }
}
