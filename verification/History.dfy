/**
  A record holds its predecessor, so what a peer stores tells its own history.
  Whatever a peer stored once remains an ancestor of what it stores ever after.
*/
module History {
  import opened Records
  import opened Durable
  import opened Cluster
  import opened Discipline
  import opened Invariant
  import opened Steps

  /** `later` is `earlier` or descends from it, each link one checked generation further. */
  ghost predicate EpochLineage(later: EpochRecord, earlier: EpochRecord) {
    || later == earlier
    || (later.previous.Some? && Follows(later.previous.value, later) && EpochLineage(later.previous.value, earlier))
  }

  /** Along a lineage epoch and token advance together, and only the same record has the same epoch. */
  lemma {:induction false} LineageAdvancesTogether(later: EpochRecord, earlier: EpochRecord)
    requires EpochLineage(later, earlier)
    ensures later.gen.Skew() == earlier.gen.Skew()
    ensures earlier.gen.epoch <= later.gen.epoch
    ensures later.gen.epoch == earlier.gen.epoch ==> later == earlier
    ensures earlier.gen.Before(later.gen) <==> earlier.gen.epoch < later.gen.epoch
  {
    if later != earlier { LineageAdvancesTogether(later.previous.value, earlier); }
  }

  lemma {:induction false} EpochLineageChains(a: EpochRecord, b: EpochRecord, c: EpochRecord)
    requires EpochLineage(a, b) && EpochLineage(b, c)
    ensures EpochLineage(a, c)
  {
    if a != b { EpochLineageChains(a.previous.value, b, c); }
  }

  /** `next` extends `m` directly, and with other voters only behind a joint certificate of exactly this change. */
  ghost predicate Successor(log: seq<Event>, m: MembershipRecord, next: MembershipRecord) {
    Extends(m, next) && (next.members == m.members || JointBacked(log, Proposal(m, next)))
  }

  ghost predicate MemberLineage(log: seq<Event>, later: MembershipRecord, earlier: MembershipRecord) {
    || later == earlier
    || (later.previous.Some? && Successor(log, later.previous.value, later)
        && MemberLineage(log, later.previous.value, earlier))
  }

  /** A lineage never goes back: the sequence counts its links, and the epoch does not fall. */
  lemma {:induction false} MemberLineageAdvances(log: seq<Event>, later: MembershipRecord, earlier: MembershipRecord)
    requires MemberLineage(log, later, earlier)
    ensures earlier.sequence <= later.sequence && earlier.epoch <= later.epoch
    ensures later.sequence == earlier.sequence ==> later == earlier
  {
    if later != earlier { MemberLineageAdvances(log, later.previous.value, earlier); }
  }

  lemma BackingGrows(log: seq<Event>, more: seq<Event>, q: Proposal)
    requires JointBacked(log, q)
    ensures JointBacked(log + more, q)
  {
  }

  lemma {:induction false} MemberLineageGrows(log: seq<Event>, more: seq<Event>, a: MembershipRecord,
                                              b: MembershipRecord)
    requires MemberLineage(log, a, b)
    ensures MemberLineage(log + more, a, b)
  {
    if a != b {
      var m := a.previous.value;
      MemberLineageGrows(log, more, m, b);
      if a.members != m.members { BackingGrows(log, more, Proposal(m, a)); }
    }
  }

  lemma {:induction false} MemberLineageChains(log: seq<Event>, a: MembershipRecord, b: MembershipRecord,
                                               c: MembershipRecord)
    requires MemberLineage(log, a, b) && MemberLineage(log, b, c)
    ensures MemberLineage(log, a, c)
  {
    if a != b { MemberLineageChains(log, a.previous.value, b, c); }
  }

  /** `d'` continues both histories of `d`. */
  ghost predicate Continues(log: seq<Event>, d: Disk, d': Disk) {
    && (d.epoch.Some? ==> d'.epoch.Some? && EpochLineage(d'.epoch.value, d.epoch.value))
    && (d.membership.Some? ==> d'.membership.Some? && MemberLineage(log, d'.membership.value, d.membership.value))
  }

  lemma ContinuesChains(log: seq<Event>, more: seq<Event>, d: Disk, d1: Disk, d2: Disk)
    requires Continues(log, d, d1) && Continues(log + more, d1, d2)
    ensures Continues(log + more, d, d2)
  {
    if d.epoch.Some? { EpochLineageChains(d2.epoch.value, d1.epoch.value, d.epoch.value); }
    if d.membership.Some? {
      MemberLineageGrows(log, more, d1.membership.value, d.membership.value);
      MemberLineageChains(log + more, d2.membership.value, d1.membership.value, d.membership.value);
    }
  }

  lemma WriteContinues(log: seq<Event>, p: PeerId, d: Disk, w: Write)
    requires Obeys(log, p, d, w)
    ensures Continues(log + [Wrote(p, w)], d, Apply(d, w))
  {
  }

  lemma {:induction false} WritesContinue(log: seq<Event>, p: PeerId, d: Disk, writes: seq<Write>)
    requires ObeysAll(log, p, d, writes)
    ensures Continues(log + Writes(p, writes), d, Replay(d, writes))
  {
    if writes == [] {
      assert log + Writes(p, writes) == log;
    } else {
      var k := |writes| - 1;
      var body, w := writes[..k], writes[k];
      assert Obeys(log + Writes(p, body), p, Replay(d, body), w);
      ObeysPrefix(log, p, d, writes, k);
      WritesContinue(log, p, d, body);
      WriteContinues(log + Writes(p, body), p, Replay(d, body), w);
      assert writes == body + [w];
      WritesSnoc(log, p, d, body, w);
      ContinuesChains(log + Writes(p, body), [Wrote(p, w)], d, Replay(d, body), Replay(d, writes));
    }
  }

  lemma SelfContinues(log: seq<Event>, d: Disk)
    ensures Continues(log, d, d)
  {
  }

  lemma ContinuesGrows(log: seq<Event>, more: seq<Event>, d: Disk, d': Disk)
    requires Continues(log, d, d')
    ensures Continues(log + more, d, d')
  {
    if d.membership.Some? { MemberLineageGrows(log, more, d'.membership.value, d.membership.value); }
  }

  /** The log only grows, and the peers stay the same. */
  lemma NextGrows(c: Cluster, c': Cluster, step: Step) returns (more: seq<Event>)
    requires Next(c, c', step)
    ensures c'.log == c.log + more && c'.peers.Keys == c.peers.Keys
  {
    more := c'.log[|c.log|..];
  }

  lemma DoneContinues(log: seq<Event>, me: PeerId, d: Disk, done: seq<Write>, answers: seq<Event>)
    requires ObeysAll(log, me, d, done)
    ensures Continues(log + (Writes(me, done) + answers), d, Replay(d, done))
  {
    WritesContinue(log, me, d, done);
    ContinuesGrows(log + Writes(me, done), answers, d, Replay(d, done));
    assert log + Writes(me, done) + answers == log + (Writes(me, done) + answers);
  }

  lemma HandlerContinues(c: Cluster, me: PeerId, peer: Peer, action: Action, writes: seq<Write>, after: nat,
                         answers: seq<Event>)
    requires Inv(c) && me in c.peers && peer == c.peers[me] && Authentic(c.log, me, action)
    requires writes == PlanOf(me, peer, action, c.now).writes && after <= |writes|
    ensures Continues(c.log + (Writes(me, writes[..after]) + answers), peer.disk, Replay(peer.disk, writes[..after]))
  {
    PlanObeys(c.log, me, peer, action, c.now);
    ObeysPrefix(c.log, me, peer.disk, writes, after);
    DoneContinues(c.log, me, peer.disk, writes[..after], answers);
  }

  /** No step at all, crash or replay, rolls a peer's records back. */
  lemma NextContinues(c: Cluster, c': Cluster, step: Step, p: PeerId)
    requires Inv(c) && Next(c, c', step) && p in c.peers
    ensures p in c'.peers && Continues(c'.log, c.peers[p].disk, c'.peers[p].disk)
  {
    var peer := c.peers[p];
    if step.Complete? && step.who == p {
      var plan := PlanOf(p, peer, step.action, c.now);
      HandlerContinues(c, p, peer, step.action, plan.writes, |plan.writes|,
                       Answers(p, peer, step.action, plan.reply, c.now));
      assert plan.writes[..|plan.writes|] == plan.writes;
    } else if step.Crash? && step.who == p {
      var writes := PlanOf(p, peer, step.action, c.now).writes;
      HandlerContinues(c, p, peer, step.action, writes, step.after, []);
      assert Writes(p, writes[..step.after]) + [] == Writes(p, writes[..step.after]);
    } else {
      SelfContinues(c'.log, peer.disk);
    }
  }

  /** `c'` is a later state: the log grew, and every peer continues its own history. */
  ghost predicate Later(c: Cluster, c': Cluster) {
    && c.log <= c'.log && c.peers.Keys == c'.peers.Keys
    && forall p :: p in c.peers ==> Continues(c'.log, c.peers[p].disk, c'.peers[p].disk)
  }

  lemma NextIsLater(c: Cluster, c': Cluster, step: Step)
    requires Inv(c) && Next(c, c', step)
    ensures Later(c, c')
  {
    var more := NextGrows(c, c', step);
    forall p | p in c.peers
      ensures Continues(c'.log, c.peers[p].disk, c'.peers[p].disk)
    {
      NextContinues(c, c', step, p);
    }
  }

  lemma RunIsLater(run: Run, i: nat)
    requires run.Valid() && i < |run.steps|
    ensures Later(run.states[i], run.states[i + 1])
  {
    RunStep(run, i);
    NextIsLater(run.states[i], run.states[i + 1], run.steps[i]);
  }

  lemma {:induction false} LaterChains(states: seq<Cluster>, i: nat, j: nat, p: PeerId)
    requires forall k :: 0 <= k < |states| - 1 ==> Later(states[k], states[k + 1])
    requires i <= j < |states| && p in states[i].peers
    ensures p in states[j].peers && Continues(states[j].log, states[i].peers[p].disk, states[j].peers[p].disk)
    decreases j
  {
    if i == j {
      SelfContinues(states[i].log, states[i].peers[p].disk);
    } else {
      LaterChains(states, i, j - 1, p);
      var c, c' := states[j - 1], states[j];
      assert Later(c, states[j - 1 + 1]);
      var more := c'.log[|c.log|..];
      assert c'.log == c.log + more;
      ContinuesChains(c.log, more, states[i].peers[p].disk, c.peers[p].disk, c'.peers[p].disk);
    }
  }

  /** Over a whole run each peer's epochs and memberships form one unbroken lineage. */
  lemma RunContinues(run: Run, i: nat, j: nat, p: PeerId)
    requires run.Valid() && i <= j < |run.states| && p in run.states[i].peers
    ensures p in run.states[j].peers
    ensures Continues(run.states[j].log, run.states[i].peers[p].disk, run.states[j].peers[p].disk)
  {
    forall k | 0 <= k < |run.states| - 1
      ensures Later(run.states[k], run.states[k + 1])
    {
      RunIsLater(run, k);
    }
    LaterChains(run.states, i, j, p);
  }

  /** So epoch and fencing token advance together, and the order of generations is the order of epochs. */
  lemma EpochAndTokenAdvanceTogether(run: Run, i: nat, j: nat, p: PeerId)
    requires run.Valid() && i <= j < |run.states| && p in run.states[i].peers && run.states[i].peers[p].disk.epoch.Some?
    ensures p in run.states[j].peers && run.states[j].peers[p].disk.epoch.Some?
    ensures var earlier, later := run.states[i].peers[p].disk.epoch.value, run.states[j].peers[p].disk.epoch.value;
            && EpochLineage(later, earlier) && later.gen.Skew() == earlier.gen.Skew()
            && earlier.gen.epoch <= later.gen.epoch
            && (later.gen.epoch == earlier.gen.epoch ==> later == earlier)
            && (earlier.gen.Before(later.gen) <==> earlier.gen.epoch < later.gen.epoch)
  {
    RunContinues(run, i, j, p);
    LineageAdvancesTogether(run.states[j].peers[p].disk.epoch.value, run.states[i].peers[p].disk.epoch.value);
  }

  /** And no restart, replayed certificate or repeated message takes a peer's membership back. */
  lemma MembershipNeverRollsBack(run: Run, i: nat, j: nat, p: PeerId)
    requires run.Valid() && i <= j < |run.states| && p in run.states[i].peers
             && run.states[i].peers[p].disk.membership.Some?
    ensures p in run.states[j].peers && run.states[j].peers[p].disk.membership.Some?
    ensures var earlier := run.states[i].peers[p].disk.membership.value;
            var later := run.states[j].peers[p].disk.membership.value;
            && MemberLineage(run.states[j].log, later, earlier)
            && earlier.sequence <= later.sequence && earlier.epoch <= later.epoch
            && (later.sequence == earlier.sequence ==> later == earlier)
  {
    RunContinues(run, i, j, p);
    MemberLineageAdvances(run.states[j].log, run.states[j].peers[p].disk.membership.value,
                          run.states[i].peers[p].disk.membership.value);
  }
}
