/**
  The daemon's code is a step of the cluster: what a handler does to the files
  and the runtime is the completed step, and what a kill leaves of it, after any
  of its writes, is a crashed one.
*/
module Service {
  import opened Records
  import opened Durable
  import opened Runtime
  import opened Plans
  import opened Cluster
  import opened Steps
  import D = Daemon

  /** The same action; the list of votes is whatever the code collects. */
  predicate SameAction(action: Action, done: Action) {
    match action
    case Promote(wake, ready, _) => done.Promote? && done.wake == wake && done.meReady == ready
    case Transition(_) => done.Transition?
    case _ => done == action
  }

  ghost function AsPeer(daemon: D.Daemon): Peer
    reads daemon, daemon.storage
  {
    Peer(daemon.storage.Files(), daemon.Runtime())
  }

  predicate ForRecovery(action: Action) {
    action.OnBallot? || action.Drive? || action.Promote? || action.OnRecoveryEpoch?
  }

  predicate ForEpochs(action: Action) {
    action.OnEpoch? || action.ManualEpoch? || action.LaunchEpoch? || action.StoreLocally?
  }

  predicate ForAuthority(action: Action) {
    action.Upkeep? || action.Artifacts? || action.OnLease? || action.OnSleep?
  }

  method ServeRecovery(daemon: D.Daemon, action: Action, now: Instant) returns (reply: Reply, done: Action)
    requires daemon.Valid() && Ordered(daemon.storage.roster) && ForRecovery(action)
    modifies daemon, daemon.storage
    ensures SameAction(action, done)
    ensures var plan := PlanOf(daemon.me, old(AsPeer(daemon)), done, now); daemon.Did(plan) && reply == plan.reply
  {
    done := action;
    match action {
      case OnBallot(sender, b) => reply := daemon.HandleRecoveryBallot(sender, b, now);
      case Drive(wake, ready) => reply := daemon.DriveRecoveryBallot(wake, ready, now);
      case OnRecoveryEpoch(sender, e, c) => reply := daemon.HandleRecoveryEpoch(sender, e, c);
      case Promote(wake, ready, _) =>
        var votes;
        reply, votes := daemon.PromoteBallot(wake, ready, now);
        done := Promote(wake, ready, votes);
    }
  }

  method ServeEpochs(daemon: D.Daemon, action: Action, now: Instant) returns (reply: Reply)
    requires daemon.Valid() && ForEpochs(action)
    modifies daemon, daemon.storage
    ensures var plan := PlanOf(daemon.me, old(AsPeer(daemon)), action, now); daemon.Did(plan) && reply == plan.reply
  {
    match action {
      case OnEpoch(sender, e, transfer, solo) => reply := daemon.HandleEpoch(sender, e, transfer, solo);
      case ManualEpoch(e) => reply := daemon.StoreManualEpoch(e);
      case LaunchEpoch => reply := daemon.PrepareAuthorityEpoch();
      case StoreLocally(w) => reply := daemon.StoreLocal(w);
    }
  }

  method ServeAuthority(daemon: D.Daemon, action: Action, now: Instant) returns (reply: Reply)
    requires daemon.Valid() && Ordered(daemon.storage.roster) && ForAuthority(action)
    modifies daemon, daemon.storage
    ensures var plan := PlanOf(daemon.me, old(AsPeer(daemon)), action, now); daemon.Did(plan) && reply == plan.reply
  {
    match action {
      case Upkeep => reply := daemon.MaintainLocalAuthority(now);
      case Artifacts => reply := daemon.EnsureArtifacts();
      case OnLease(sender, gen, ms) => reply := daemon.HandleLeaseGrant(sender, gen, ms, now);
      case OnSleep(sender, s) => reply := daemon.HandleSleep(sender, s);
    }
  }

  method ServeMembership(daemon: D.Daemon, action: Action, now: Instant) returns (reply: Reply, done: Action)
    requires daemon.Valid() && !ForRecovery(action) && !ForEpochs(action) && !ForAuthority(action)
    modifies daemon, daemon.storage
    ensures SameAction(action, done)
    ensures var plan := PlanOf(daemon.me, old(AsPeer(daemon)), done, now); daemon.Did(plan) && reply == plan.reply
  {
    done := action;
    match action {
      case Propose(change) => reply := daemon.HandleChange(change);
      case OnProposal(sender, p, live) => reply := daemon.HandleMembershipProposal(sender, p, live);
      case OnCommit(sender, c, live) => reply := daemon.HandleMembershipCommit(sender, c, live);
      case RecoverMembership(live) => reply := daemon.RecoverCommittedMembership(live);
      case OnMembership(sender, m) => reply := daemon.HandleMembership(sender, m);
      case Transition(_) =>
        var votes;
        reply, votes := daemon.MaintainMembershipTransition();
        done := Transition(votes);
    }
  }

  /** The cluster after a kill that let only `written` reach the disk. */
  ghost function Killed(c: Cluster, me: PeerId, d: Disk, written: seq<Write>): Cluster {
    SetPeer(c, me, Peer(Replay(d, written), BLANK), Writes(me, written))
  }

  /** A kill after the first `k` writes leaves a crashed step, and the invariant of all peers. */
  ghost predicate SurvivesKill(c: Cluster, me: PeerId, action: Action, d: Disk, written: seq<Write>, k: nat) {
    && k <= |written|
    && Next(c, Killed(c, me, d, written[..k]), Crash(me, action, k)) && Inv(Killed(c, me, d, written[..k]))
  }

  lemma KillIsStep(c: Cluster, me: PeerId, action: Action, plan: Plan, k: nat)
    requires me in c.peers && Authentic(c.log, me, action)
    requires plan == PlanOf(me, c.peers[me], action, c.now) && k <= |plan.writes|
    ensures Next(c, Killed(c, me, c.peers[me].disk, plan.writes[..k]), Crash(me, action, k))
  {
  }

  lemma KillSurvives(c: Cluster, me: PeerId, action: Action, plan: Plan, k: nat)
    requires Inv(c) && me in c.peers && Authentic(c.log, me, action)
    requires plan == PlanOf(me, c.peers[me], action, c.now) && k <= |plan.writes|
    ensures SurvivesKill(c, me, action, c.peers[me].disk, plan.writes, k)
  {
    KillIsStep(c, me, action, plan, k);
    CrashKeeps(c, me, action, plan.writes, k);
  }

  /** The cluster after the handler completed. */
  ghost function Served(c: Cluster, me: PeerId, action: Action, plan: Plan): Cluster
    requires me in c.peers
  {
    SetPeer(c, me, Peer(Replay(c.peers[me].disk, plan.writes), plan.runtime),
            Writes(me, plan.writes) + Answers(me, c.peers[me], action, plan.reply, c.now))
  }

  lemma HandlerIsStep(c: Cluster, me: PeerId, action: Action, plan: Plan)
    requires Inv(c) && me in c.peers && Authentic(c.log, me, action) && plan == PlanOf(me, c.peers[me], action, c.now)
    ensures Next(c, Served(c, me, action, plan), Complete(me, action)) && Inv(Served(c, me, action, plan))
    ensures forall k :: 0 <= k <= |plan.writes| ==> SurvivesKill(c, me, action, c.peers[me].disk, plan.writes, k)
  {
    CompleteKeeps(c, me, c.peers[me], action, plan);
    forall k | 0 <= k <= |plan.writes|
      ensures SurvivesKill(c, me, action, c.peers[me].disk, plan.writes, k)
    {
      KillSurvives(c, me, action, plan, k);
    }
  }

  lemma OrderedRoster(c: Cluster, me: PeerId)
    requires Inv(c) && me in c.peers
    ensures Ordered(c.peers[me].disk.roster)
  {
    assert PeerInv(c.log, me, c.peers[me]);
  }

  method Dispatch(daemon: D.Daemon, action: Action, now: Instant) returns (reply: Reply, done: Action)
    requires daemon.Valid() && Ordered(daemon.storage.roster)
    modifies daemon, daemon.storage
    ensures SameAction(action, done)
    ensures var plan := PlanOf(daemon.me, old(AsPeer(daemon)), done, now); daemon.Did(plan) && reply == plan.reply
  {
    if ForRecovery(action) {
      reply, done := ServeRecovery(daemon, action, now);
    } else if ForEpochs(action) {
      reply := ServeEpochs(daemon, action, now);
      done := action;
    } else if ForAuthority(action) {
      reply := ServeAuthority(daemon, action, now);
      done := action;
    } else {
      reply, done := ServeMembership(daemon, action, now);
    }
  }

  /**
    Whatever the daemon of one peer does in a reachable cluster is a step of
    that cluster, killed after any of its writes or not, and the invariant of
    all peers holds again.
  */
  method Serve(daemon: D.Daemon, action: Action, now: Instant, ghost c: Cluster)
    returns (reply: Reply, done: Action, ghost c': Cluster)
    requires daemon.Valid() && Inv(c) && c.now == now && Authentic(c.log, daemon.me, action)
    requires daemon.me in c.peers && c.peers[daemon.me] == AsPeer(daemon)
    modifies daemon, daemon.storage
    ensures SameAction(action, done) && daemon.Valid()
    ensures Next(c, c', Complete(daemon.me, done)) && Inv(c') && c'.peers[daemon.me] == AsPeer(daemon)
    ensures old(daemon.storage.journal) <= daemon.storage.journal
    ensures var written := daemon.storage.journal[|old(daemon.storage.journal)|..];
            forall k :: 0 <= k <= |written| ==>
              SurvivesKill(c, daemon.me, done, old(daemon.storage.Files()), written, k)
  {
    OrderedRoster(c, daemon.me);
    reply, done := Dispatch(daemon, action, now);
    ghost var plan := PlanOf(daemon.me, c.peers[daemon.me], done, now);
    HandlerIsStep(c, daemon.me, done, plan);
    c' := Served(c, daemon.me, done, plan);
    assert daemon.storage.journal[|old(daemon.storage.journal)|..] == plan.writes;
  }
}
