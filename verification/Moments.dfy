/**
  What a peer's files and runtime were at the very moment of each write and of
  each answer, over every run.
*/
module Moments {
  import opened Records
  import opened Durable
  import opened Runtime
  import opened Plans
  import opened Rules
  import opened MemberRules
  import opened Cluster
  import opened Discipline
  import opened Invariant
  import opened Steps
  import opened Safety

  // ----- the fence of a prepare -----

  lemma {:induction false} OpenUntilDropped(log: seq<Event>, p: PeerId, q: Proposal, i: nat, k: nat)
    requires i < k <= |log| && log[i] == Wrote(p, PutPrepare(q))
    requires forall j :: i < j < k ==> log[j] != Wrote(p, DropPrepare)
    ensures Held(log[..k], p).Some?
  {
    var past := log[..k - 1];
    assert log[..k] == past + [log[k - 1]];
    HeldSnoc(past, p, log[k - 1]);
    if i < k - 1 { OpenUntilDropped(log, p, q, i, k - 1); }
  }

  /** What a peer that holds a prepare does not do: lease, permit, vote, promise or accept a recovery. */
  predicate Fenced(ev: Event) {
    || ev.LeaseGranted? || ev.PermitGranted? || ev.VoteCast?
    || (ev.Wrote? && (ev.write.PutPromise? || (ev.write.PutEpoch? && ev.write.proof.Some?)))
  }

  /** Between a prepare and what a fence forbids, the prepare was dropped. */
  lemma FenceHolds(c: Cluster, p: PeerId, q: Proposal, i: nat, k: nat) returns (j: nat)
    requires Reachable(c) && i < k < |c.log| && c.log[i] == Wrote(p, PutPrepare(q))
    requires c.log[k].who == p && Fenced(c.log[k])
    ensures i < j < k && c.log[j] == Wrote(p, DropPrepare)
  {
    EventJustified(c, k);
    if forall j :: i < j < k ==> c.log[j] != Wrote(p, DropPrepare) {
      OpenUntilDropped(c.log, p, q, i, k);
      assert false;
    }
    j :| i < j < k && c.log[j] == Wrote(p, DropPrepare);
  }

  // ----- the moment of a write -----

  /** The writes of a step that reach the disk. */
  ghost function Performed(c: Cluster, step: Step): seq<Write>
    requires !step.Elapse? ==> step.who in c.peers
  {
    match step
    case Complete(me, action) => PlanOf(me, c.peers[me], action, c.now).writes
    case Crash(me, action, after) =>
      var writes := PlanOf(me, c.peers[me], action, c.now).writes;
      if after <= |writes| then writes[..after] else writes
    case _ => []
  }

  /** Step `i` is one of `p`, which writes `before` and then `w`. */
  ghost predicate WritesAt(run: Run, i: nat, p: PeerId, before: seq<Write>, w: Write) {
    && run.Valid() && i < |run.steps| && (run.steps[i].Complete? || run.steps[i].Crash?)
    && run.steps[i].who == p && p in run.states[i].peers
    && before + [w] <= Performed(run.states[i], run.steps[i])
  }

  /** The files of `p` when it has done `before` in step `i`. */
  function FilesAt(run: Run, i: nat, p: PeerId, before: seq<Write>): Disk
    requires i < |run.states| && p in run.states[i].peers
  {
    Replay(run.states[i].peers[p].disk, before)
  }

  lemma LogGrows(c: Cluster, c': Cluster, step: Step) returns (answers: seq<Event>)
    requires Next(c, c', step)
    ensures (!step.Elapse? ==> step.who in c.peers) && forall ev :: ev in answers ==> !ev.Wrote?
    ensures c'.log == c.log + (if step.Elapse? then [] else Writes(step.who, Performed(c, step))) + answers
  {
    match step {
      case Complete(me, action) =>
        answers := Answers(me, c.peers[me], action, PlanOf(me, c.peers[me], action, c.now).reply, c.now);
        assert c'.log == c.log + Writes(me, Performed(c, step)) + answers;
      case Crash(_, _, _) => answers := [];
      case GetLeaseAck(me, backer, gen, grantedAt) => answers := [AckSeen(me, backer, gen, grantedAt, c.now)];
      case VoteFresh(me, ch, _) => answers := [FreshVoted(me, ch)];
      case _ => answers := [];
    }
  }

  lemma NewWrite(log: seq<Event>, who: PeerId, writes: seq<Write>, answers: seq<Event>, p: PeerId, w: Write)
    returns (before: seq<Write>)
    requires Wrote(p, w) in log + Writes(who, writes) + answers && Wrote(p, w) !in log
    requires forall ev :: ev in answers ==> !ev.Wrote?
    ensures who == p && before + [w] <= writes
  {
    var k :| 0 <= k < |writes| && Writes(who, writes)[k] == Wrote(p, w);
    before := writes[..k];
    assert before + [w] == writes[..k + 1];
  }

  lemma {:induction false} WriteHasMoment(run: Run, j: nat, p: PeerId, w: Write) returns (i: nat, before: seq<Write>)
    requires run.Valid() && j < |run.states| && Wrote(p, w) in run.states[j].log
    ensures i < j && WritesAt(run, i, p, before, w)
  {
    i := j - 1;
    if Wrote(p, w) in run.states[i].log {
      i, before := WriteHasMoment(run, i, p, w);
    } else {
      var answers := LogGrows(run.states[i], run.states[j], run.steps[i]);
      assert !run.steps[i].Elapse?;
      before := NewWrite(run.states[i].log, run.steps[i].who, Performed(run.states[i], run.steps[i]), answers, p, w);
    }
  }

  lemma OneObeys(log: seq<Event>, p: PeerId, d: Disk, writes: seq<Write>, before: seq<Write>, w: Write)
    requires ObeysAll(log, p, d, writes) && before + [w] <= writes
    ensures Obeys(log + Writes(p, before), p, Replay(d, before), w)
  {
    var k := |before|;
    assert writes[..k] == before && writes[k] == w;
  }

  lemma PerformedObeys(c: Cluster, c': Cluster, step: Step)
    requires Inv(c) && Next(c, c', step) && (step.Complete? || step.Crash?)
    ensures ObeysAll(c.log, step.who, c.peers[step.who].disk, Performed(c, step))
  {
    var peer := c.peers[step.who];
    assert PeerInv(c.log, step.who, peer);
    PlanObeys(c.log, step.who, peer, step.action, c.now);
    if step.Crash? {
      ObeysPrefix(c.log, step.who, peer.disk, PlanOf(step.who, peer, step.action, c.now).writes, step.after);
    }
  }

  /** Every write obeys the discipline on the files it finds. */
  lemma MomentObeys(run: Run, i: nat, p: PeerId, before: seq<Write>, w: Write)
    requires WritesAt(run, i, p, before, w)
    ensures Obeys(run.states[i].log + Writes(p, before), p, FilesAt(run, i, p, before), w)
  {
    RunStep(run, i);
    PerformedObeys(run.states[i], run.states[i + 1], run.steps[i]);
    OneObeys(run.states[i].log, p, run.states[i].peers[p].disk, Performed(run.states[i], run.steps[i]), before, w);
  }

  /** Whoever promised a ballot had its snapshot and state as head when the promise was written. */
  lemma PromisedOnHead(run: Run, j: nat, p: PeerId, b: Ballot) returns (i: nat, before: seq<Write>)
    requires run.Valid() && j < |run.states| && HasPromised(run.states[j].log, p, b)
    ensures i < j && WritesAt(run, i, p, before, PutPromise(b))
    ensures HeadIs(FilesAt(run, i, p, before), b.snapshot, b.state)
  {
    i, before := WriteHasMoment(run, j, p, PutPromise(b));
    MomentObeys(run, i, p, before, PutPromise(b));
  }

  /** So every voter of a certificate held the certified snapshot when it promised. */
  lemma VoterHeldTheSnapshot(run: Run, j: nat, cert: RecoveryCertificate, voters: set<PeerId>, v: PeerId)
    returns (i: nat, before: seq<Write>)
    requires run.Valid() && j < |run.states| && Certified(run.states[j], cert, voters) && v in VotersOf(cert.votes)
    ensures i < j && WritesAt(run, i, v, before, PutPromise(cert.ballot))
    ensures HeadIs(FilesAt(run, i, v, before), cert.ballot.snapshot, cert.ballot.state)
  {
    RunReaches(run, j);
    VoterPromised(run.states[j], cert, voters, v);
    i, before := PromisedOnHead(run, j, v, cert.ballot);
  }

  lemma RunReaches(run: Run, j: nat)
    requires run.Valid() && j < |run.states|
    ensures Reachable(run.states[j])
  {
    var shorter := Run(run.states[..j + 1], run.steps[..j]);
    assert shorter.Valid() && shorter.Last() == run.states[j];
  }

  /** A certified epoch continues the certified state, and its acceptor had the certified snapshot as head. */
  lemma AcceptedOnCertifiedState(run: Run, j: nat, p: PeerId, e: EpochRecord, c: RecoveryCertificate)
    returns (i: nat, before: seq<Write>)
    requires run.Valid() && j < |run.states| && Wrote(p, PutEpoch(e, Some(c))) in run.states[j].log
    ensures e.baseState == c.ballot.state && i < j && WritesAt(run, i, p, before, PutEpoch(e, Some(c)))
    ensures HeadIs(FilesAt(run, i, p, before), c.ballot.snapshot, c.ballot.state)
  {
    i, before := WriteHasMoment(run, j, p, PutEpoch(e, Some(c)));
    MomentObeys(run, i, p, before, PutEpoch(e, Some(c)));
  }

  /** Every epoch, certified or not, continues the state its peer had as head. */
  lemma StoredOnHead(run: Run, j: nat, p: PeerId, e: EpochRecord, proof: Option<RecoveryCertificate>)
    returns (i: nat, before: seq<Write>)
    requires run.Valid() && j < |run.states| && Wrote(p, PutEpoch(e, proof)) in run.states[j].log
    ensures i < j && WritesAt(run, i, p, before, PutEpoch(e, proof))
    ensures var d := FilesAt(run, i, p, before); d.head.Some? && d.head.value.stateRoot == e.baseState
  {
    i, before := WriteHasMoment(run, j, p, PutEpoch(e, proof));
    MomentObeys(run, i, p, before, PutEpoch(e, proof));
  }

  // ----- the moment of an answer -----

  /** Step `i` adds the event. */
  ghost predicate Adds(run: Run, i: nat, ev: Event) {
    && run.Valid() && i < |run.steps| && |run.states[i].log| <= |run.states[i + 1].log|
    && ev in run.states[i + 1].log[|run.states[i].log|..]
  }

  lemma {:induction false} EventHasMoment(run: Run, j: nat, ev: Event) returns (i: nat)
    requires run.Valid() && j < |run.states| && ev in run.states[j].log
    ensures i < j && Adds(run, i, ev)
  {
    i := j - 1;
    var answers := LogGrows(run.states[i], run.states[j], run.steps[i]);
    if ev in run.states[i].log { i := EventHasMoment(run, i, ev); }
  }

  lemma LeaseComesFromHandler(run: Run, i: nat, p: PeerId, to: PeerId, gen: Generation, at: Instant)
    requires Adds(run, i, LeaseGranted(p, to, gen, at))
    ensures p in run.states[i].peers && at == run.states[i].now
    ensures exists ms: nat ::
              LeasePlan(run.states[i].peers[p].disk, run.states[i].peers[p].rt, to, gen, ms, at).reply.LeaseAccepted?
  {
    var c, c', step := run.states[i], run.states[i + 1], run.steps[i];
    assert Next(c, c', step);
    assert step.Complete? && step.action.OnLease?;
    assert LeasePlan(c.peers[p].disk, c.peers[p].rt, to, gen, step.action.durationMs, at).reply.LeaseAccepted?;
  }

  /** Every lease granted was due on the granter's files. */
  lemma LeaseWasDue(run: Run, j: nat, p: PeerId, to: PeerId, gen: Generation, at: Instant) returns (i: nat)
    requires run.Valid() && j < |run.states| && LeaseGranted(p, to, gen, at) in run.states[j].log
    ensures i < j && p in run.states[i].peers && run.states[i].now == at
    ensures LeaseDue(run.states[i].peers[p].disk, to, gen, 5_000)
  {
    i := EventHasMoment(run, j, LeaseGranted(p, to, gen, at));
    LeaseComesFromHandler(run, i, p, to, gen, at);
    OrderedAt(run, i, p);
    var peer := run.states[i].peers[p];
    var ms: nat :| LeasePlan(peer.disk, peer.rt, to, gen, ms, at).reply.LeaseAccepted?;
    LeaseExactly(peer.disk, peer.rt, to, gen, ms, at);
  }

  lemma VoteComesFromHandler(run: Run, i: nat, p: PeerId, b: Ballot, wake: bool, at: Instant)
    requires Adds(run, i, VoteCast(p, b, wake, at))
    ensures p in run.states[i].peers && at == run.states[i].now
    ensures var d, rt := run.states[i].peers[p].disk, run.states[i].peers[p].rt;
            || (exists sender :: BallotPlan(d, rt, sender, b, at).reply == VoteReply(b))
            || (exists w, ready :: DrivePlan(p, d, rt, w, ready, at).reply == VoteReply(b))
  {
    var c, c', step := run.states[i], run.states[i + 1], run.steps[i];
    assert Next(c, c', step);
    assert step.Complete? && (step.action.OnBallot? || step.action.Drive?);
    var d, rt := c.peers[p].disk, c.peers[p].rt;
    if step.action.OnBallot? {
      assert BallotPlan(d, rt, step.action.sender, step.action.ballot, at).reply == VoteReply(b);
      assert BallotPlan(d, rt, step.action.sender, b, at).reply == VoteReply(b);
    } else {
      assert DrivePlan(p, d, rt, step.action.wake, step.action.meReady, at).reply == VoteReply(b);
    }
  }

  /** Every vote cast was due: for a ready candidate on the voter's own head, or as driver for its own attempt. */
  lemma VoteWasDue(run: Run, j: nat, p: PeerId, b: Ballot, wake: bool, at: Instant) returns (i: nat)
    requires run.Valid() && j < |run.states| && VoteCast(p, b, wake, at) in run.states[j].log
    ensures i < j && p in run.states[i].peers && run.states[i].now == at
    ensures var d, rt := run.states[i].peers[p].disk, run.states[i].peers[p].rt;
            || VoteDue(d, rt, b.candidate, b, at)
            || (b.candidate == p && OnLocalBase(d, b) && exists w, ready :: DriveDue(p, d, rt, w, ready, at))
  {
    i := EventHasMoment(run, j, VoteCast(p, b, wake, at));
    VoteComesFromHandler(run, i, p, b, wake, at);
    OrderedAt(run, i, p);
    var d, rt := run.states[i].peers[p].disk, run.states[i].peers[p].rt;
    if sender :| BallotPlan(d, rt, sender, b, at).reply == VoteReply(b) {
      VoteExactly(d, rt, sender, b, at);
    } else {
      var w, ready :| DrivePlan(p, d, rt, w, ready, at).reply == VoteReply(b);
      AttemptExactly(p, d, rt, w, ready, at);
    }
  }

  lemma PermitComesFromTick(run: Run, i: nat, p: PeerId, gen: Generation, electorate: set<PeerId>,
                            backers: set<PeerId>, at: Instant)
    requires Adds(run, i, PermitGranted(p, gen, electorate, backers, at))
    ensures p in run.states[i].peers && at == run.states[i].now
    ensures var d, rt := run.states[i].peers[p].disk, run.states[i].peers[p].rt;
            && AuthorityPlan(p, d, rt, at).reply.PermitRefreshed? && AuthorityPlan(p, d, rt, at).reply.gen == gen
            && electorate == Active(d.roster) && backers == Confirmed(p, d.roster, rt, gen, at)
  {
    var c, c', step := run.states[i], run.states[i + 1], run.steps[i];
    assert Next(c, c', step);
    assert step.Complete? && step.action.Upkeep?;
  }

  /** Every permit was due, on the lease acknowledgements it names. */
  lemma PermitWasDue(run: Run, j: nat, p: PeerId, gen: Generation, electorate: set<PeerId>, backers: set<PeerId>,
                     at: Instant) returns (i: nat)
    requires run.Valid() && j < |run.states| && PermitGranted(p, gen, electorate, backers, at) in run.states[j].log
    ensures i < j && p in run.states[i].peers && run.states[i].now == at
    ensures var d, rt := run.states[i].peers[p].disk, run.states[i].peers[p].rt;
            && PermitDue(p, d, rt, at) && d.epoch.value.gen == gen
            && electorate == Active(d.roster) && backers == LeaseBackers(p, d, rt, at)
  {
    i := EventHasMoment(run, j, PermitGranted(p, gen, electorate, backers, at));
    PermitComesFromTick(run, i, p, gen, electorate, backers, at);
    OrderedAt(run, i, p);
    var d, rt := run.states[i].peers[p].disk, run.states[i].peers[p].rt;
    PermitExactly(p, d, rt, at);
    BackersExactly(p, d, rt, at);
  }

  /** Every freshness vote was due: the voucher's files were exactly the state it vouched for. */
  lemma VouchWasDue(run: Run, j: nat, p: PeerId, ch: Challenge) returns (i: nat)
    requires run.Valid() && j < |run.states| && FreshVoted(p, ch) in run.states[j].log
    ensures i < j && p in run.states[i].peers && VouchDue(p, run.states[i].peers[p].disk, ch, true)
  {
    i := EventHasMoment(run, j, FreshVoted(p, ch));
    VouchComesFromDisk(run, i, p, ch);
    VouchExactly(p, run.states[i].peers[p].disk, ch, true);
  }

  lemma VouchComesFromDisk(run: Run, i: nat, p: PeerId, ch: Challenge)
    requires Adds(run, i, FreshVoted(p, ch))
    ensures p in run.states[i].peers && VouchesFresh(p, run.states[i].peers[p].disk, ch, true)
  {
    var c, c', step := run.states[i], run.states[i + 1], run.steps[i];
    assert Next(c, c', step);
    assert step.VoteFresh?;
  }

  lemma OrderedAt(run: Run, i: nat, p: PeerId)
    requires run.Valid() && i < |run.states| && p in run.states[i].peers
    ensures Ordered(run.states[i].peers[p].disk.roster)
  {
    RunKeeps(run, i);
    assert PeerInv(run.states[i].log, p, run.states[i].peers[p]);
  }
}
