/** The daemon's volatile state for one world, and the checks that read only it. */
module Runtime {
  import opened Records

  const LEASE_MS: nat := 5_000
  const SETTLE_MS: nat := 2_000
  const STATUS_FRESH_MS: nat := 3_000

  datatype LeaseAck = LeaseAck(gen: Generation, observedAt: Instant)
  datatype InboundLease = InboundLease(gen: Generation, expiresAt: Instant)

  datatype WorldStatus = WorldStatus(
    epoch: U64, sequence: U64, snapshot: Option<Digest>, state: Option<Digest>,
    fingerprint: Digest, eligible: bool)
  datatype ObservedStatus = ObservedStatus(status: WorldStatus, observedAt: Instant)

  datatype HostRuntime =
    | Ready | MissingConfiguration | EulaRequired | MissingJava | MissingServerJar
    | MissingSwarmCraftMod | Unverified | Incompatible
  datatype ServerMods = ModsReady | ModsMissing | ModsIncompatible | ModsUnverified
  datatype HostCapability = HostCapability(
    fingerprint: Digest, runtime: HostRuntime, serverMods: ServerMods,
    conflictFree: bool, quorumWithoutAuthority: bool)
  datatype ObservedCapability = ObservedCapability(capability: HostCapability, observedAt: Instant)

  /** `connected` are the application peers authenticated right now. */
  datatype LeaseRuntime = LeaseRuntime(
    connected: set<PeerId>,
    leaseAcks: map<PeerId, LeaseAck>,
    ballot: Option<Ballot>,
    votes: map<PeerId, Ballot>,
    jointVotes: map<PeerId, Proposal>,
    roundFloor: U64,
    epochAcks: map<PeerId, Generation>,
    heartbeat: U64,
    inbound: Option<InboundLease>,
    notBefore: Option<Instant>,
    statuses: map<PeerId, ObservedStatus>,
    capabilities: map<PeerId, ObservedCapability>)

  /** What a restart leaves. */
  const BLANK: LeaseRuntime :=
    LeaseRuntime({}, map[], None, map[], map[], 0, map[], 0, None, None, map[], map[])

  /** The part of the runtime a sleeping world drops. */
  function ClearSleeping(rt: LeaseRuntime): LeaseRuntime {
    BLANK.(connected := rt.connected, statuses := rt.statuses, capabilities := rt.capabilities)
  }

  /** The part dropped when the sleep boundary is unreadable. */
  function ClearWorld(rt: LeaseRuntime): LeaseRuntime {
    BLANK.(connected := rt.connected)
  }

  /** Every tick starts the recovery delay if it is not running. */
  function StartDelay(rt: LeaseRuntime, now: Instant): LeaseRuntime {
    if rt.notBefore.Some? then rt else rt.(notBefore := Some(now + LEASE_MS + SETTLE_MS))
  }

  predicate WindowOpen(rt: LeaseRuntime, gen: Generation, now: Instant) {
    if rt.inbound.Some? && gen.Before(rt.inbound.value.gen) then false
    else if rt.inbound.Some? && rt.inbound.value.gen == gen then now >= rt.inbound.value.expiresAt + SETTLE_MS
    else rt.notBefore.Some? && now >= rt.notBefore.value
  }

  // ----- observations of other peers -----

  predicate StatusMatches(status: WorldStatus, fingerprint: Digest, epoch: U64, head: Snapshot) {
    && status.epoch == epoch
    && status.sequence == head.sequence
    && status.snapshot == Some(head.manifest)
    && status.state == Some(head.stateRoot)
    && status.fingerprint == fingerprint
  }

  predicate FreshStatus(rt: LeaseRuntime, peer: PeerId, now: Instant) {
    peer in rt.statuses && Elapsed(now, rt.statuses[peer].observedAt) <= STATUS_FRESH_MS
  }

  predicate CapabilityReady(c: HostCapability, fingerprint: Digest) {
    c.fingerprint == fingerprint && c.runtime == Ready && c.serverMods == ModsReady && c.conflictFree
  }

  predicate CandidateReady(rt: LeaseRuntime, peer: PeerId, fingerprint: Digest, now: Instant) {
    && peer in rt.connected
    && peer in rt.capabilities
    && Elapsed(now, rt.capabilities[peer].observedAt) <= STATUS_FRESH_MS
    && CapabilityReady(rt.capabilities[peer].capability, fingerprint)
  }

  /** Another member whose fresh status is exactly the local canonical state. */
  predicate SeenCanonical(rt: LeaseRuntime, peer: PeerId, fingerprint: Digest, epoch: U64, head: Snapshot,
                          now: Instant)
  {
    && peer in rt.connected
    && FreshStatus(rt, peer, now)
    && StatusMatches(rt.statuses[peer].status, fingerprint, epoch, head)
  }

  /** The members a recovery attempt counts: oneself and everyone seen canonical. */
  function Visible(me: PeerId, roster: seq<Member>, rt: LeaseRuntime, fingerprint: Digest, epoch: U64, head: Snapshot,
                   now: Instant): set<PeerId>
  {
    {me} + (set m | m in roster && m.id != me && !m.banned && SeenCanonical(rt, m.id, fingerprint, epoch, head, now) ::
            m.id)
  }

  /** Seen canonical, and fresh word of it that it could host. */
  predicate CanHost(rt: LeaseRuntime, m: Member, fingerprint: Digest, epoch: U64, head: Snapshot, now: Instant) {
    && m.eligible
    && SeenCanonical(rt, m.id, fingerprint, epoch, head, now)
    && rt.statuses[m.id].status.eligible
    && CandidateReady(rt, m.id, fingerprint, now)
  }

  /** The visible members that could host; `meReady` is the local capability. */
  function Hosts(me: PeerId, meReady: bool, roster: seq<Member>, rt: LeaseRuntime, fingerprint: Digest, epoch: U64,
                 head: Snapshot, now: Instant): set<PeerId>
  {
    (if meReady then {me} else {}) +
    (set m | m in roster && m.id != me && !m.banned && CanHost(rt, m, fingerprint, epoch, head, now) :: m.id)
  }

  /** Everyone named survives the authority: the driver of recovery is the least able host. */
  predicate Drives(me: PeerId, hosts: set<PeerId>) {
    me in hosts && forall h :: h in hosts ==> me <= h
  }

  predicate Confirms(rt: LeaseRuntime, peer: PeerId, gen: Generation, now: Instant) {
    && peer in rt.connected && peer in rt.leaseAcks
    && rt.leaseAcks[peer].gen == gen && Elapsed(now, rt.leaseAcks[peer].observedAt) < LEASE_MS
  }

  /** The members whose acknowledgement of the current lease is fresh, oneself included. */
  function Confirmed(me: PeerId, roster: seq<Member>, rt: LeaseRuntime, gen: Generation, now: Instant): set<PeerId> {
    {me} + (set m | m in roster && m.id != me && !m.banned && Confirms(rt, m.id, gen, now) :: m.id)
  }

  predicate ConfirmsEpoch(rt: LeaseRuntime, peer: PeerId, gen: Generation) {
    peer in rt.connected && peer in rt.epochAcks && rt.epochAcks[peer] == gen
  }

  /** The members that acknowledged the recovery epoch, oneself included. */
  function EpochConfirmed(me: PeerId, roster: seq<Member>, rt: LeaseRuntime, gen: Generation): set<PeerId> {
    {me} + (set m | m in roster && m.id != me && !m.banned && ConfirmsEpoch(rt, m.id, gen) :: m.id)
  }
}
