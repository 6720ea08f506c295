/**
  Manual transfers over whole runs of all peers: one signed transfer and one
  manual successor per generation, and exactly when a launch can start beside a
  transfer.
*/
module Succession {
  import opened Records
  import opened Handover

  // ----- all peers together -----

  /**
    `tokens` are the transfers some peer ever had on file, `published` the epochs
    their authorities stored, `manual` the epochs some peer moved to along a transfer.
  */
  datatype World = World(
    roster: seq<Member>, nodes: map<PeerId, Node>, tokens: set<Transfer>,
    published: set<EpochRecord>, manual: set<EpochRecord>)

  /** Signed content comes from its signer's files; an epoch of one's own needs no token. */
  predicate Signed(w: World, me: PeerId, op: Op) {
    match op
    case Accept(t, _) => t in w.tokens
    case Commit(t, _) => t in w.tokens
    case Activate(t, _) => t in w.tokens
    case OnTransfer(t) => t in w.tokens
    case Observe(e) => e in w.published
    case OnEpoch(e) => e in w.published
    case OtherEpoch(e) => e.authority == me || e in w.published
    case _ => true
  }

  /** The form of an activated successor: the authority changed hands in quorum mode. */
  predicate IsManual(e: EpochRecord) {
    e.previous.Some? && e.authority != e.previous.value.authority && e.mode.Quorum?
  }

  /** The step took over an epoch of another authority that is neither recovered nor one's own solo wake. */
  predicate Adopts(me: PeerId, n: Node, n': Node) {
    && n'.epoch != n.epoch && n'.epoch.authority != n.epoch.authority && !n'.epoch.mode.Recovery?
    && !(n'.epoch.mode.Solo? && n'.epoch.authority == me)
  }

  function After(w: World, me: PeerId, n: Node): World
    requires me in w.nodes
  {
    w.(nodes := w.nodes[me := n],
       tokens := w.tokens + (if n.transfer.Some? then {n.transfer.value} else {}),
       published := w.published + (if n.epoch.authority == me then {n.epoch} else {}),
       manual := w.manual + (if Adopts(me, w.nodes[me], n) then {n.epoch} else {}))
  }

  predicate Next(w: World, w': World, me: PeerId, op: Op) {
    me in w.nodes && Signed(w, me, op) && w' == After(w, me, Perform(me, w.roster, w.nodes[me], op))
  }

  /** Every peer starts without a transfer, in an epoch that did not come from one. */
  predicate Init(w: World) {
    && w.tokens == {} && w.manual == {}
    && (forall p :: p in w.nodes ==>
          && !IsManual(w.nodes[p].epoch) && w.nodes[p].transfer.None? && w.nodes[p].running.None?
          && w.nodes[p].checks == 0)
    && (forall e :: e in w.published ==> e.authority in w.nodes && w.nodes[e.authority].epoch == e)
  }

  // ----- epochs -----

  /** Whatever a peer does, its epoch stays or moves one generation on. */
  lemma EpochMovesOn(me: PeerId, roster: seq<Member>, n: Node, op: Op)
    ensures var n' := Perform(me, roster, n, op); n'.epoch == n.epoch || Follows(n.epoch, n'.epoch)
  {
  }

  /** An authority's published record of a generation is the only one it ever stores. */
  ghost predicate PublishInv(w: World) {
    && (forall e :: e in w.published ==> e.authority in w.nodes && NotAhead(e, w.nodes[e.authority].epoch))
    && (forall e, f :: e in w.published && f in w.published ==> Consistent(e, f))
  }

  predicate NotAhead(e: EpochRecord, current: EpochRecord) {
    e.gen.epoch <= current.gen.epoch && (e.gen.epoch == current.gen.epoch ==> e == current)
  }

  predicate Consistent(e: EpochRecord, f: EpochRecord) {
    e.authority == f.authority && e.gen.epoch == f.gen.epoch ==> e == f
  }

  lemma PublishAfter(w: World, me: PeerId, n': Node)
    requires PublishInv(w) && me in w.nodes
    requires n'.epoch == w.nodes[me].epoch || Follows(w.nodes[me].epoch, n'.epoch)
    ensures PublishInv(After(w, me, n'))
  {
  }

  lemma PublishKept(w: World, w': World, me: PeerId, op: Op)
    requires PublishInv(w) && Next(w, w', me, op)
    ensures PublishInv(w')
  {
    EpochMovesOn(me, w.roster, w.nodes[me], op);
    PublishAfter(w, me, Perform(me, w.roster, w.nodes[me], op));
  }

  // ----- transfers on file -----

  /** The source still stands where it signed: same generation, and its file holds a transfer out of it. */
  predicate Pending(t: Transfer, n: Node) {
    && n.epoch.authority == t.source && n.epoch.gen.CheckedNext() == Some(t.next)
    && n.transfer.Some? && n.transfer.value.source == t.source && n.transfer.value.next == t.next
  }

  predicate Past(t: Transfer, n: Node) { t.next.epoch <= n.epoch.gen.epoch }

  ghost predicate TokenInv(w: World) {
    && (forall p :: p in w.nodes && w.nodes[p].transfer.Some? ==> w.nodes[p].transfer.value in w.tokens)
    && (forall t :: t in w.tokens ==>
          && t.source in w.nodes && t.source != t.target
          && t.(phase := Prepared) in w.tokens && (t.phase.Committed? ==> t.(phase := Accepted) in w.tokens)
          && (Past(t, w.nodes[t.source]) || Pending(t, w.nodes[t.source])))
  }

  /** While the source stands, nothing but a transfer out of the same generation replaces what it has on file. */
  lemma PendingStays(w: World, me: PeerId, op: Op, t: Transfer)
    requires TokenInv(w) && me in w.nodes && Signed(w, me, op) && t in w.tokens && t.source == me
    ensures var n' := Perform(me, w.roster, w.nodes[me], op); Past(t, n') || Pending(t, n')
  {
    EpochMovesOn(me, w.roster, w.nodes[me], op);
  }

  /** A transfer new to the record was prepared by its source, accepted by its target or committed by its source. */
  lemma NewTokenIsSound(w: World, me: PeerId, op: Op)
    requires TokenInv(w) && me in w.nodes && Signed(w, me, op)
    requires var n' := Perform(me, w.roster, w.nodes[me], op); n'.transfer.Some? && n'.transfer.value !in w.tokens
    ensures var n' := Perform(me, w.roster, w.nodes[me], op);
            var t := n'.transfer.value;
            && t.source != t.target
            && (t.phase.Prepared? || t.(phase := Prepared) in w.tokens)
            && (t.phase.Committed? ==> t.(phase := Accepted) in w.tokens)
            && (t.phase.Prepared? ==> t.source == me && Pending(t, n') && n'.epoch == w.nodes[me].epoch)
  {
  }

  lemma TokenKept(w: World, w': World, me: PeerId, op: Op)
    requires TokenInv(w) && Next(w, w', me, op)
    ensures TokenInv(w')
  {
    var n' := Perform(me, w.roster, w.nodes[me], op);
    forall t | t in w.tokens
      ensures Past(t, w'.nodes[t.source]) || Pending(t, w'.nodes[t.source])
    {
      if t.source == me { PendingStays(w, me, op, t); }
    }
    if n'.transfer.Some? && n'.transfer.value !in w.tokens {
      NewTokenIsSound(w, me, op);
      var t := n'.transfer.value;
      if !t.phase.Prepared? { SameSourceSameStanding(w', t, t.(phase := Prepared)); }
    }
  }

  lemma SameSourceSameStanding(w: World, t: Transfer, u: Transfer)
    requires SameTransfer(t, u) && u.source in w.nodes && (Past(u, w.nodes[u.source]) || Pending(u, w.nodes[u.source]))
    ensures t.source in w.nodes && (Past(t, w.nodes[t.source]) || Pending(t, w.nodes[t.source]))
  {
  }

  // ----- checks that passed -----

  /** No transfer out of the generation is on file when a passed check could start a runtime. */
  predicate FreshChecks(roster: seq<Member>, p: PeerId, n: Node) {
    n.checks > 0 && n.epoch.authority == p && n.sleep.None? ==> Current(roster, n) == Nothing
  }

  /** What is on file leaves the present generation, or one before it. */
  predicate FileInTime(n: Node) {
    n.transfer.Some? ==> n.transfer.value.next.epoch <= n.epoch.gen.epoch + 1
  }

  lemma FileStaysInTime(me: PeerId, roster: seq<Member>, n: Node, op: Op)
    requires FileInTime(n)
    ensures FileInTime(Perform(me, roster, n, op))
  {
    EpochMovesOn(me, roster, n, op);
  }

  /** The one careless step: a runtime leaves and signs its transfer while a check has passed and is not used. */
  predicate SignsChecked(roster: seq<Member>, me: PeerId, n: Node, op: Op) {
    op.Finish? && n.checks > 0 && MayLeave(me, roster, n)
  }

  predicate TakesTransfer(op: Op) { op.Accept? || op.Commit? || op.Activate? || op.OnTransfer? }

  /** A transfer that arrives is none of one's own that would not already be on file. */
  lemma ArrivalsKeepFresh(w: World, me: PeerId, op: Op)
    requires TokenInv(w) && me in w.nodes && Signed(w, me, op) && FileInTime(w.nodes[me])
    requires FreshChecks(w.roster, me, w.nodes[me]) && TakesTransfer(op)
    ensures FreshChecks(w.roster, me, Perform(me, w.roster, w.nodes[me], op))
  {
    var t := op.transfer;
    assert t.source != t.target && (t.source == me ==> Past(t, w.nodes[me]) || Pending(t, w.nodes[me]));
  }

  lemma LocalStepsKeepFresh(me: PeerId, roster: seq<Member>, n: Node, op: Op)
    requires FileInTime(n) && FreshChecks(roster, me, n) && !TakesTransfer(op) && !SignsChecked(roster, me, n, op)
    ensures FreshChecks(roster, me, Perform(me, roster, n, op))
  {
    EpochMovesOn(me, roster, n, op);
  }

  /** Every other step leaves passed checks fresh. */
  lemma ChecksStayFresh(w: World, me: PeerId, op: Op)
    requires TokenInv(w) && me in w.nodes && Signed(w, me, op) && FileInTime(w.nodes[me])
    requires FreshChecks(w.roster, me, w.nodes[me]) && !SignsChecked(w.roster, me, w.nodes[me], op)
    ensures FreshChecks(w.roster, me, Perform(me, w.roster, w.nodes[me], op))
  {
    if TakesTransfer(op) { ArrivalsKeepFresh(w, me, op); } else { LocalStepsKeepFresh(me, w.roster, w.nodes[me], op); }
  }

  // ----- one transfer per generation -----

  /** A launch is fresh if no transfer out of the current generation is on file when it could start a runtime. */
  predicate FreshLaunch(w: World, me: PeerId, op: Op) {
    op.Launch? && me in w.nodes ==> FreshChecks(w.roster, me, w.nodes[me])
  }

  /** A source never signs two transfers out of one generation, and does not run beside one it signed. */
  ghost predicate UniqueInv(w: World) {
    && (forall t, u :: t in w.tokens && u in w.tokens && t.source == u.source && t.next == u.next ==>
        SameTransfer(t, u))
    && (forall t :: t in w.tokens && t.source in w.nodes && w.nodes[t.source].running.Some? ==>
        Past(t, w.nodes[t.source]))
    && (forall p :: p in w.nodes && w.nodes[p].running.Some? ==> w.nodes[p].sleep.None?)
  }

  /** A transfer is newly prepared only where none out of this generation is on record. */
  lemma PreparesOnce(w: World, me: PeerId, op: Op, u: Transfer)
    requires TokenInv(w) && UniqueInv(w) && me in w.nodes && Signed(w, me, op)
    requires var n' := Perform(me, w.roster, w.nodes[me], op);
             n'.transfer.Some? && n'.transfer.value !in w.tokens && n'.transfer.value.phase.Prepared?
    requires u in w.tokens && u.source == me
    ensures u.next != Perform(me, w.roster, w.nodes[me], op).transfer.value.next
  {
  }

  lemma SignsOnce(w: World, me: PeerId, op: Op, u: Transfer)
    requires TokenInv(w) && UniqueInv(w) && me in w.nodes && Signed(w, me, op)
    requires var n' := Perform(me, w.roster, w.nodes[me], op); n'.transfer.Some? && n'.transfer.value !in w.tokens
    requires u in w.tokens
    ensures var t := Perform(me, w.roster, w.nodes[me], op).transfer.value;
            u.source == t.source && u.next == t.next ==> SameTransfer(t, u)
  {
    var t := Perform(me, w.roster, w.nodes[me], op).transfer.value;
    NewTokenIsSound(w, me, op);
    if t.phase.Prepared? {
      if u.source == me { PreparesOnce(w, me, op, u); }
    } else if u.source == t.source && u.next == t.next {
      assert SameTransfer(t.(phase := Prepared), u);
    }
  }

  lemma UniqueAfter(w: World, w': World, me: PeerId, n': Node)
    requires UniqueInv(w) && me in w.nodes && w' == After(w, me, n')
    requires n'.transfer.Some? && n'.transfer.value !in w.tokens ==>
               forall u :: u in w.tokens ==>
                 (u.source == n'.transfer.value.source && u.next == n'.transfer.value.next ==>
                  SameTransfer(n'.transfer.value, u))
    requires forall t :: t in w'.tokens && t.source in w'.nodes && w'.nodes[t.source].running.Some? ==>
             Past(t, w'.nodes[t.source])
    requires forall p :: p in w'.nodes && w'.nodes[p].running.Some? ==> w'.nodes[p].sleep.None?
    ensures UniqueInv(w')
  {
  }

  lemma UniqueKept(w: World, w': World, me: PeerId, op: Op)
    requires TokenInv(w) && UniqueInv(w) && Next(w, w', me, op) && FreshLaunch(w, me, op)
    ensures UniqueInv(w')
  {
    var n' := Perform(me, w.roster, w.nodes[me], op);
    if n'.transfer.Some? && n'.transfer.value !in w.tokens {
      forall u | u in w.tokens
        ensures u.source == n'.transfer.value.source && u.next == n'.transfer.value.next ==>
                SameTransfer(n'.transfer.value, u)
      {
        SignsOnce(w, me, op, u);
      }
    }
    RunningAlone(w, w', me, op);
    UniqueAfter(w, w', me, n');
  }

  lemma RunningAlone(w: World, w': World, me: PeerId, op: Op)
    requires TokenInv(w) && UniqueInv(w) && Next(w, w', me, op) && FreshLaunch(w, me, op)
    ensures forall t :: t in w'.tokens && t.source in w'.nodes && w'.nodes[t.source].running.Some? ==>
            Past(t, w'.nodes[t.source])
    ensures forall p :: p in w'.nodes && w'.nodes[p].running.Some? ==> w'.nodes[p].sleep.None?
  {
    RunnerIsAwake(w, me, op);
    forall t | t in w'.tokens && t.source in w'.nodes && w'.nodes[t.source].running.Some?
      ensures Past(t, w'.nodes[t.source])
    {
      if t in w.tokens {
        if t.source == me { RunsPast(w, me, op, t); }
      } else {
        NewTokenIsSound(w, me, op);
        if t.source == me { NewTokenEndsRuntime(w, me, op); }
        else { assert Past(t.(phase := Prepared), w.nodes[t.source]); }
      }
    }
  }

  lemma RunnerIsAwake(w: World, me: PeerId, op: Op)
    requires UniqueInv(w) && me in w.nodes
    ensures var n' := Perform(me, w.roster, w.nodes[me], op); n'.running.Some? ==> n'.sleep.None?
  {
  }

  /** Whoever runs, after a fresh launch or since before, has left every generation it signed a transfer out of. */
  lemma RunsPast(w: World, me: PeerId, op: Op, t: Transfer)
    requires TokenInv(w) && UniqueInv(w) && me in w.nodes && Signed(w, me, op) && FreshLaunch(w, me, op)
    requires t in w.tokens && t.source == me
    ensures var n' := Perform(me, w.roster, w.nodes[me], op); n'.running.Some? ==> Past(t, n')
  {
    EpochMovesOn(me, w.roster, w.nodes[me], op);
  }

  lemma NewTokenEndsRuntime(w: World, me: PeerId, op: Op)
    requires TokenInv(w) && UniqueInv(w) && me in w.nodes && Signed(w, me, op)
    requires var n' := Perform(me, w.roster, w.nodes[me], op);
             n'.transfer.Some? && n'.transfer.value !in w.tokens && n'.transfer.value.source == me
    ensures Perform(me, w.roster, w.nodes[me], op).running.None?
  {
  }

  // ----- manual successors -----

  /** The transfer that carries an epoch: committed, out of its predecessor, to its authority, at its base. */
  predicate Carries(t: Transfer, e: EpochRecord) {
    && t.phase.Committed? && e.previous.Some? && Leaves(t, e.previous.value)
    && t.target == e.authority && t.next == e.gen && (e.mode.Quorum? ==> e.baseState == t.checkpoint.stateRoot)
  }

  ghost predicate ManualInv(w: World) {
    && (forall e :: e in w.manual ==> e in w.published && exists t :: t in w.tokens && Carries(t, e))
    && (forall e :: e in w.published && IsManual(e) ==> e in w.manual)
    && (forall p :: p in w.nodes && IsManual(w.nodes[p].epoch) ==> w.nodes[p].epoch in w.manual)
  }

  /** An epoch in the activated form is on record, unless its own authority activates it right now. */
  lemma ObservedIsKnown(w: World, me: PeerId, op: Op)
    requires ManualInv(w) && me in w.nodes && Signed(w, me, op) && !op.Activate?
    ensures var n' := Perform(me, w.roster, w.nodes[me], op); IsManual(n'.epoch) ==> n'.epoch in w.manual
  {
  }

  lemma ActivationCarries(me: PeerId, roster: seq<Member>, n: Node, t: Transfer, half: bool)
    ensures var n' := Activates(me, roster, n, t, half);
            n'.epoch == n.epoch || (n'.epoch.authority == me && Carries(t, n'.epoch))
  {
  }

  lemma OthersNeverAdopt(me: PeerId, roster: seq<Member>, n: Node, op: Op)
    requires !op.Activate? && !op.Observe? && !op.OnEpoch?
    ensures !Adopts(me, n, Perform(me, roster, n, op))
  {
  }

  /** An observed epoch, and a solo one from the network, is carried by the transfer on file. */
  lemma ObservedIsCarried(me: PeerId, roster: seq<Member>, n: Node, op: Op)
    requires op.Observe? || op.OnEpoch?
    ensures var n' := Perform(me, roster, n, op);
            Adopts(me, n, n') ==>
              && n'.epoch == op.epoch && n.transfer.Some?
              && (op.Observe? || !IsManual(op.epoch) ==> Carries(n.transfer.value, op.epoch))
  {
  }

  /** What a step adopts is published, and carried by a transfer on record. */
  lemma AdoptedIsCarried(w: World, me: PeerId, op: Op)
    requires TokenInv(w) && ManualInv(w) && me in w.nodes && Signed(w, me, op)
    requires Adopts(me, w.nodes[me], Perform(me, w.roster, w.nodes[me], op))
    ensures var e := Perform(me, w.roster, w.nodes[me], op).epoch;
            && (e in w.published || e.authority == me)
            && exists t :: t in w.tokens && Carries(t, e)
  {
    if op.Activate? {
      ActivationCarries(me, w.roster, w.nodes[me], op.transfer, op.half);
    } else if op.Observe? || op.OnEpoch? {
      ObservedIsCarried(me, w.roster, w.nodes[me], op);
      if op.OnEpoch? && IsManual(op.epoch) { assert op.epoch in w.manual; }
    } else {
      OthersNeverAdopt(me, w.roster, w.nodes[me], op);
    }
  }

  lemma ManualKept(w: World, w': World, me: PeerId, op: Op)
    requires TokenInv(w) && ManualInv(w) && Next(w, w', me, op)
    ensures ManualInv(w')
  {
    var n, n' := w.nodes[me], Perform(me, w.roster, w.nodes[me], op);
    if Adopts(me, n, n') { AdoptedIsCarried(w, me, op); }
    ActivatedIsAdopted(w, me, op);
    ManualAfter(w, w', me, n');
  }

  lemma ActivatedIsAdopted(w: World, me: PeerId, op: Op)
    requires ManualInv(w) && me in w.nodes && Signed(w, me, op)
    ensures var n' := Perform(me, w.roster, w.nodes[me], op);
            IsManual(n'.epoch) ==> n'.epoch in w.manual || Adopts(me, w.nodes[me], n')
  {
    if !op.Activate? { ObservedIsKnown(w, me, op); }
  }

  lemma ManualAfter(w: World, w': World, me: PeerId, n': Node)
    requires ManualInv(w) && me in w.nodes && w' == After(w, me, n')
    requires Adopts(me, w.nodes[me], n') ==>
               && (n'.epoch in w.published || n'.epoch.authority == me)
               && exists t :: t in w.tokens && Carries(t, n'.epoch)
    requires IsManual(n'.epoch) ==> n'.epoch in w.manual || Adopts(me, w.nodes[me], n')
    ensures ManualInv(w')
  {
  }

  // ----- whole runs -----

  ghost predicate Run(worlds: seq<World>, who: seq<PeerId>, ops: seq<Op>) {
    && |worlds| == |ops| + 1 && |who| == |ops| && Init(worlds[0])
    && forall i :: 0 <= i < |ops| ==> Next(worlds[i], worlds[i + 1], who[i], ops[i])
  }

  ghost predicate BaseInv(w: World) {
    PublishInv(w) && TokenInv(w) && ManualInv(w) && forall p :: p in w.nodes ==> FileInTime(w.nodes[p])
  }

  lemma NextKeepsBase(w: World, w': World, me: PeerId, op: Op)
    requires BaseInv(w) && Next(w, w', me, op)
    ensures BaseInv(w')
  {
    PublishKept(w, w', me, op);
    TokenKept(w, w', me, op);
    ManualKept(w, w', me, op);
    FileStaysInTime(me, w.roster, w.nodes[me], op);
  }

  lemma {:induction false} RunKeeps(worlds: seq<World>, who: seq<PeerId>, ops: seq<Op>, i: nat)
    requires Run(worlds, who, ops) && i < |worlds|
    ensures BaseInv(worlds[i])
  {
    if i > 0 {
      RunKeeps(worlds, who, ops, i - 1);
      NextKeepsBase(worlds[i - 1], worlds[i], who[i - 1], ops[i - 1]);
    }
  }

  /** In step `i` peer `p` signed a transfer with a passed check outstanding, in the generation it has at `j`. */
  ghost predicate StaleAt(worlds: seq<World>, who: seq<PeerId>, ops: seq<Op>, p: PeerId, i: nat, j: nat) {
    && i < j < |worlds| && i < |who| && i < |ops| && who[i] == p && p in worlds[i].nodes && p in worlds[j].nodes
    && SignsChecked(worlds[i].roster, p, worlds[i].nodes[p], ops[i])
    && worlds[i].nodes[p].epoch == worlds[j].nodes[p].epoch
  }

  /**
    A passed check is stale only by a careless step: if a transfer out of the
    generation is on file while a passed check could start the runtime, then the
    peer signed one in this generation with the check outstanding.
  */
  lemma {:induction false} StaleOnlyByCarelessness(worlds: seq<World>, who: seq<PeerId>, ops: seq<Op>, p: PeerId,
                                                   j: nat)
    requires Run(worlds, who, ops) && j < |worlds| && p in worlds[j].nodes
    ensures FreshChecks(worlds[j].roster, p, worlds[j].nodes[p]) || exists i: nat :: StaleAt(worlds, who, ops, p, i, j)
  {
    if j > 0 {
      var k := j - 1;
      var w, w', op := worlds[k], worlds[j], ops[k];
      RunKeeps(worlds, who, ops, k);
      StaleOnlyByCarelessness(worlds, who, ops, p, k);
      if who[k] == p {
        StaleStep(w, p, op);
        if SignsChecked(w.roster, p, w.nodes[p], op) { assert StaleAt(worlds, who, ops, p, k, j); }
      }
      if i: nat :| StaleAt(worlds, who, ops, p, i, k) {
        if w.nodes[p].epoch == w'.nodes[p].epoch { assert StaleAt(worlds, who, ops, p, i, j); }
      }
    }
  }

  /** One step of it: a new generation starts fresh, and within one only the careless step spoils a check. */
  lemma StaleStep(w: World, me: PeerId, op: Op)
    requires BaseInv(w) && me in w.nodes && Signed(w, me, op)
    ensures var n, n' := w.nodes[me], Perform(me, w.roster, w.nodes[me], op);
            && (n'.epoch != n.epoch ==> FreshChecks(w.roster, me, n'))
            && (FreshChecks(w.roster, me, n) && !SignsChecked(w.roster, me, n, op) ==> FreshChecks(w.roster, me, n'))
            && (SignsChecked(w.roster, me, n, op) ==> n'.epoch == n.epoch)
  {
    var n := w.nodes[me];
    NewGenerationIsFresh(w, me, op);
    if FreshChecks(w.roster, me, n) && !SignsChecked(w.roster, me, n, op) { ChecksStayFresh(w, me, op); }
  }

  lemma NewGenerationIsFresh(w: World, me: PeerId, op: Op)
    requires TokenInv(w) && me in w.nodes && Signed(w, me, op) && FileInTime(w.nodes[me])
    ensures var n, n' := w.nodes[me], Perform(me, w.roster, w.nodes[me], op);
            n'.epoch != n.epoch ==> FreshChecks(w.roster, me, n')
  {
    EpochMovesOn(me, w.roster, w.nodes[me], op);
  }

  // ----- schedules that are careful -----

  /** No runtime signs its transfer while a passed check is outstanding. */
  ghost predicate Careful(worlds: seq<World>, who: seq<PeerId>, ops: seq<Op>) {
    && Run(worlds, who, ops)
    && forall i :: 0 <= i < |ops| ==>
         who[i] in worlds[i].nodes && !SignsChecked(worlds[i].roster, who[i], worlds[i].nodes[who[i]], ops[i])
  }

  /** So in a careful run every launch is fresh. */
  lemma CarefulLaunchesAreFresh(worlds: seq<World>, who: seq<PeerId>, ops: seq<Op>, i: nat)
    requires Careful(worlds, who, ops) && i < |ops|
    ensures FreshLaunch(worlds[i], who[i], ops[i])
  {
    if who[i] in worlds[i].nodes { StaleOnlyByCarelessness(worlds, who, ops, who[i], i); }
  }

  lemma {:induction false} CarefulRunKeeps(worlds: seq<World>, who: seq<PeerId>, ops: seq<Op>, i: nat)
    requires Careful(worlds, who, ops) && i < |worlds|
    ensures UniqueInv(worlds[i])
  {
    if i > 0 {
      CarefulRunKeeps(worlds, who, ops, i - 1);
      RunKeeps(worlds, who, ops, i - 1);
      CarefulLaunchesAreFresh(worlds, who, ops, i - 1);
      UniqueKept(worlds[i - 1], worlds[i], who[i - 1], ops[i - 1]);
    }
  }

  /** Both records take the authority over from the same peer, in the same generation. */
  predicate SameSource(e: EpochRecord, f: EpochRecord) {
    e.gen == f.gen && e.previous.Some? && f.previous.Some? && e.previous.value.authority == f.previous.value.authority
  }

  /** Two carried successors of one source and generation are one record. */
  lemma CarriedAgree(w: World, e: EpochRecord, f: EpochRecord)
    requires PublishInv(w) && ManualInv(w) && UniqueInv(w)
    requires e in w.manual && f in w.manual && SameSource(e, f)
    ensures e == f
  {
    var t :| t in w.tokens && Carries(t, e);
    var u :| u in w.tokens && Carries(u, f);
    assert SameTransfer(t, u);
    assert Consistent(e, f);
  }

  /** All peers that activate or observe a manual successor of one source and generation store the identical record. */
  lemma OneManualSuccessor(worlds: seq<World>, who: seq<PeerId>, ops: seq<Op>, i: nat, e: EpochRecord, f: EpochRecord)
    requires Careful(worlds, who, ops) && i < |worlds|
    requires e in worlds[i].manual && f in worlds[i].manual && SameSource(e, f)
    ensures e == f
    ensures exists t :: t in worlds[i].tokens && Carries(t, e)
  {
    RunKeeps(worlds, who, ops, i);
    CarefulRunKeeps(worlds, who, ops, i);
    CarriedAgree(worlds[i], e, f);
  }

  /** From the preparation until the generation changes, the source's runtime does not run, whatever phase follows. */
  lemma NoRuntimeBesideTransfer(worlds: seq<World>, who: seq<PeerId>, ops: seq<Op>, i: nat, t: Transfer)
    requires Careful(worlds, who, ops) && i < |worlds| && t in worlds[i].tokens
    ensures t.source in worlds[i].nodes
    ensures var n := worlds[i].nodes[t.source];
            n.epoch.gen.CheckedNext() == Some(t.next) ==> n.running.None? && Pending(t, n)
  {
    RunKeeps(worlds, who, ops, i);
    CarefulRunKeeps(worlds, who, ops, i);
  }

  // ----- how to be careful -----

  /** The slot is taken before the check: nobody checks while a runtime is up or another check is outstanding. */
  ghost predicate SlotFirst(worlds: seq<World>, who: seq<PeerId>, ops: seq<Op>) {
    && Run(worlds, who, ops)
    && forall i :: 0 <= i < |ops| && ops[i] == Check && who[i] in worlds[i].nodes ==>
         worlds[i].nodes[who[i]].running.None? && worlds[i].nodes[who[i]].checks == 0
  }

  /** A passed check and a runtime are never there together. */
  ghost predicate SlotInv(w: World) {
    forall p :: p in w.nodes ==> w.nodes[p].checks <= 1 && (w.nodes[p].checks > 0 ==> w.nodes[p].running.None?)
  }

  lemma {:induction false} SlotFirstKeeps(worlds: seq<World>, who: seq<PeerId>, ops: seq<Op>, i: nat)
    requires SlotFirst(worlds, who, ops) && i < |worlds|
    ensures SlotInv(worlds[i])
  {
    if i > 0 {
      SlotFirstKeeps(worlds, who, ops, i - 1);
      assert Next(worlds[i - 1], worlds[i], who[i - 1], ops[i - 1]);
      SlotStep(worlds[i - 1], who[i - 1], ops[i - 1]);
    }
  }

  lemma SlotStep(w: World, me: PeerId, op: Op)
    requires SlotInv(w) && me in w.nodes
    requires op == Check ==> w.nodes[me].running.None? && w.nodes[me].checks == 0
    ensures var n' := Perform(me, w.roster, w.nodes[me], op); n'.checks <= 1 && (n'.checks > 0 ==> n'.running.None?)
  {
  }

  /** Taking the slot before checking is careful. */
  lemma SlotFirstIsCareful(worlds: seq<World>, who: seq<PeerId>, ops: seq<Op>)
    requires SlotFirst(worlds, who, ops)
    ensures Careful(worlds, who, ops)
  {
    forall i | 0 <= i < |ops|
      ensures who[i] in worlds[i].nodes && !SignsChecked(worlds[i].roster, who[i], worlds[i].nodes[who[i]], ops[i])
    {
      SlotFirstKeeps(worlds, who, ops, i);
      assert Next(worlds[i], worlds[i + 1], who[i], ops[i]);
    }
  }

  // ----- exactly when a launch starts beside a transfer -----

  /** `p` signed a transfer out of its present generation. */
  ghost predicate HasSigned(w: World, p: PeerId) {
    p in w.nodes && exists t :: t in w.tokens && t.source == p && Leaves(t, w.nodes[p].epoch)
  }

  /** A transfer blocks a launch check of its source exactly when one was signed out of the generation. */
  lemma BlockedExactlyWhenSigned(w: World, p: PeerId)
    requires TokenInv(w) && p in w.nodes && w.nodes[p].epoch.authority == p
    ensures Current(w.roster, w.nodes[p]) != Nothing <==> HasSigned(w, p)
  {
  }

  /** The launch starts a runtime of `p`, and `p` has signed a transfer out of the generation it starts in. */
  ghost predicate StartsBeside(w: World, w': World, p: PeerId) {
    p in w.nodes && p in w'.nodes && w.nodes[p].running.None? && w'.nodes[p].running.Some? && HasSigned(w', p)
  }

  /** A launch beside a transfer needs a careless step in its generation, and the head at the epoch's base state. */
  lemma BesideOnlyIfStale(worlds: seq<World>, who: seq<PeerId>, ops: seq<Op>, j: nat) returns (i: nat)
    requires Run(worlds, who, ops) && j < |ops| && ops[j].Launch? && StartsBeside(worlds[j], worlds[j + 1], who[j])
    ensures StaleAt(worlds, who, ops, who[j], i, j)
    ensures var n := worlds[j].nodes[who[j]]; n.head.stateRoot == n.epoch.baseState
  {
    var w, w', p := worlds[j], worlds[j + 1], who[j];
    RunKeeps(worlds, who, ops, j);
    assert Next(w, w', p, ops[j]);
    BesideIsStale(w, w', p, ops[j]);
    StaleOnlyByCarelessness(worlds, who, ops, p, j);
    i :| StaleAt(worlds, who, ops, p, i, j);
  }

  /** A launch that starts a runtime does so in the present generation, at its base, or wakes into a new one. */
  lemma LaunchStarts(me: PeerId, roster: seq<Member>, n: Node, manifest: Digest)
    requires n.running.None? && Launches(me, roster, n, manifest).running.Some?
    ensures var n' := Launches(me, roster, n, manifest); n'.transfer == n.transfer && StartedFrom(me, n, n'.epoch)
  {
  }

  predicate StartedFrom(me: PeerId, n: Node, e: EpochRecord) {
    || Follows(n.epoch, e)
    || (&& e == n.epoch && n.checks > 0 && n.epoch.authority == me && n.sleep.None?
        && n.head.stateRoot == n.epoch.baseState)
  }

  lemma BesideNode(w: World, p: PeerId, e: EpochRecord, t: Transfer)
    requires TokenInv(w) && p in w.nodes && StartedFrom(p, w.nodes[p], e)
    requires t in w.tokens && t.source == p && Leaves(t, e)
    ensures !FreshChecks(w.roster, p, w.nodes[p]) && w.nodes[p].head.stateRoot == w.nodes[p].epoch.baseState
  {
    assert Past(t, w.nodes[p]) || Pending(t, w.nodes[p]);
  }

  lemma BesideIsStale(w: World, w': World, p: PeerId, launch: Op)
    requires TokenInv(w) && launch.Launch? && p in w.nodes
    requires w' == After(w, p, Launches(p, w.roster, w.nodes[p], launch.manifest)) && StartsBeside(w, w', p)
    ensures !FreshChecks(w.roster, p, w.nodes[p]) && w.nodes[p].head.stateRoot == w.nodes[p].epoch.baseState
  {
    var n' := Launches(p, w.roster, w.nodes[p], launch.manifest);
    LaunchStarts(p, w.roster, w.nodes[p], launch.manifest);
    var t :| t in w'.tokens && t.source == p && Leaves(t, n'.epoch);
    BesideNode(w, p, n'.epoch, t);
  }

  /**
    And the careless step is enough: the launch that uses the check next starts
    beside the transfer exactly when the last checkpoint left the state at the
    epoch's base.
  */
  lemma CarelessnessIsEnough(w: World, w1: World, w2: World, p: PeerId, finish: Op, launch: Op)
    requires p in w.nodes && finish.Finish? && launch.Launch? && SignsChecked(w.roster, p, w.nodes[p], finish)
    requires Next(w, w1, p, finish) && Next(w1, w2, p, launch)
    requires MayLead(w.roster, p) && w.nodes[p].sleep.None?
    ensures HasSigned(w1, p) && HasSigned(w2, p)
    ensures StartsBeside(w1, w2, p) <==> finish.stateRoot == w.nodes[p].epoch.baseState
  {
    var t := w1.nodes[p].transfer.value;
    assert t in w1.tokens && t in w2.tokens && Leaves(t, w1.nodes[p].epoch) && w2.nodes[p].epoch == w1.nodes[p].epoch;
  }

  /** The operations of one peer that lead there, from any idle authority with a possible target. */
  function StaleOps(target: PeerId, manifest: Digest, root: Digest): seq<Op> {
    [Check, Launch(manifest), Check, Prepare(target), ReadIntent, Finish(manifest, root, true), Launch(manifest)]
  }

  function Performs(me: PeerId, roster: seq<Member>, n: Node, ops: seq<Op>): Node {
    if ops == [] then n else Perform(me, roster, Performs(me, roster, n, ops[..|ops| - 1]), ops[|ops| - 1])
  }

  predicate Idle(me: PeerId, roster: seq<Member>, n: Node) {
    && n.epoch.authority == me && n.sleep.None? && n.transfer.None? && n.running.None? && n.checks == 0
    && n.epoch.gen.CheckedNext().Some? && MayLead(roster, me) && Fits(me, n.epoch, n.head)
    && n.head.sequence < U64_MAX - 1
  }

  /**
    A check that passes while the runtime is up outlives the transfer this
    runtime leaves behind. The second launch starts beside it exactly when the
    runtime left the state as its epoch found it.
  */
  lemma StaleCheckRelaunches(me: PeerId, roster: seq<Member>, n: Node, target: PeerId, manifest: Digest, root: Digest)
    requires Idle(me, roster, n) && MayTarget(roster, me, target)
    ensures var ops := StaleOps(target, manifest, root);
            && Current(roster, Performs(me, roster, n, ops[..6])).Active?
            && (Performs(me, roster, n, ops).running.Some? <==> root == n.epoch.baseState)
  {
    var ops := StaleOps(target, manifest, root);
    var up := StaleUp(me, roster, n, target, manifest, root);
    var left := up.(running := Some(Running(n.epoch.gen, Some(target))), intent := Some(target));
    assert ops[..4] == ops[..3] + [Prepare(target)] && ops[..5] == ops[..4] + [ReadIntent];
    PerformsSnoc(me, roster, n, ops[..3], Prepare(target));
    PerformsSnoc(me, roster, n, ops[..4], ReadIntent);
    assert Performs(me, roster, n, ops[..5]) == left;
    assert ops[..6] == ops[..5] + [ops[5]] && ops == ops[..6] + [ops[6]];
    PerformsSnoc(me, roster, n, ops[..5], ops[5]);
    PerformsSnoc(me, roster, n, ops[..6], ops[6]);
  }

  lemma StaleUp(me: PeerId, roster: seq<Member>, n: Node, target: PeerId, manifest: Digest, root: Digest)
    returns (up: Node)
    requires Idle(me, roster, n)
    ensures up == n.(checks := 1, running := Some(Running(n.epoch.gen, None)),
                     head := Promoted(me, n.epoch, n.head, manifest))
    ensures up.head.sequence < U64_MAX
    ensures Performs(me, roster, n, StaleOps(target, manifest, root)[..3]) == up
  {
    var ops := StaleOps(target, manifest, root);
    assert ops[..0] == [] && ops[..1] == [] + [Check] && ops[..2] == ops[..1] + [ops[1]]
           && ops[..3] == ops[..2] + [Check];
    PerformsSnoc(me, roster, n, [], Check);
    PerformsSnoc(me, roster, n, ops[..1], ops[1]);
    PerformsSnoc(me, roster, n, ops[..2], Check);
    up := Performs(me, roster, n, ops[..3]);
  }

  lemma PerformsSnoc(me: PeerId, roster: seq<Member>, n: Node, ops: seq<Op>, op: Op)
    ensures Performs(me, roster, n, ops + [op]) == Perform(me, roster, Performs(me, roster, n, ops), op)
  {
    assert (ops + [op])[..|ops|] == ops;
  }

  // ----- a transfer that nothing disturbs -----

  /** Source and target agree, the world sleeps at its head, and nothing is on file. */
  ghost predicate Agreed(roster: seq<Member>, source: PeerId, target: PeerId, s: Node, t: Node) {
    && Ordered(roster) && source != target && source in Records.Active(roster) && Host(roster, target)
    && s.epoch == t.epoch && s.head == t.head && s.epoch.authority == source
    && s.epoch.gen.epoch < U64_MAX && s.epoch.gen.token < U64_MAX
    && s.sleep == Some(SleepRecord(s.head.manifest, s.epoch.gen, source)) && OnFile(s).None? && OnFile(t).None?
  }

  /**
    Prepared by the source, accepted by the target, committed by the source and
    activated by the target, the transfer ends with both in the target's epoch,
    on the state they had.
  */
  lemma TransferCompletes(roster: seq<Member>, source: PeerId, target: PeerId, s: Node, t: Node)
    returns (offer: Transfer, next: EpochRecord)
    requires Agreed(roster, source, target, s, t)
    ensures offer.phase.Prepared? && Leaves(offer, s.epoch) && offer.target == target
    ensures Follows(s.epoch, next) && next.authority == target && next.baseState == s.head.stateRoot
    ensures var accepted, committed := offer.(phase := Accepted), offer.(phase := Committed);
            var s' := Performs(source, roster, s, [Prepare(target), Commit(accepted, false), Observe(next)]);
            var t' := Performs(target, roster, t, [Accept(offer, false), Activate(committed, false)]);
            s'.epoch == next && t'.epoch == next && s'.sleep.None? && t'.sleep.None?
  {
    var gen := s.epoch.gen.CheckedNext().value;
    offer := Fresh(source, target, s.head, gen);
    var accepted, committed := offer.(phase := Accepted), offer.(phase := Committed);
    next := EpochRecord(gen, Some(s.epoch), s.head.stateRoot, target, Quorum, MANUAL_REASON);
    SourceFollows(roster, source, target, s, offer, next);
    TargetLeads(roster, source, target, t, offer, next);
  }

  lemma SourceFollows(roster: seq<Member>, source: PeerId, target: PeerId, s: Node, offer: Transfer, next: EpochRecord)
    requires Agreed(roster, source, target, s, s)
    requires offer == Fresh(source, target, s.head, s.epoch.gen.CheckedNext().value)
    requires next == EpochRecord(offer.next, Some(s.epoch), s.head.stateRoot, target, Quorum, MANUAL_REASON)
    ensures var ops := [Prepare(target), Commit(offer.(phase := Accepted), false), Observe(next)];
            Performs(source, roster, s, ops).epoch == next && Performs(source, roster, s, ops).sleep.None?
  {
    var prepare, commit := Prepare(target), Commit(offer.(phase := Accepted), false);
    HostExactly(roster, source);
    HostExactly(roster, target);
    CurrentExactly(roster, s);
    PerformsSnoc(source, roster, s, [], prepare);
    PerformsSnoc(source, roster, s, [prepare], commit);
    PerformsSnoc(source, roster, s, [prepare, commit], Observe(next));
    assert [] + [prepare] == [prepare] && [prepare] + [commit] == [prepare, commit];
    assert [prepare, commit] + [Observe(next)] == [prepare, commit, Observe(next)];
    var s1 := s.(transfer := Some(offer));
    assert Performs(source, roster, s, [prepare]) == s1;
    assert Performs(source, roster, s, [prepare, commit]) == s1.(transfer := Some(offer.(phase := Committed)));
  }

  lemma TargetLeads(roster: seq<Member>, source: PeerId, target: PeerId, t: Node, offer: Transfer, next: EpochRecord)
    requires Ordered(roster) && source in Records.Active(roster) && Host(roster, target)
    requires t.epoch.authority == source && OnFile(t).None? && t.epoch.gen.CheckedNext().Some?
    requires offer == Fresh(source, target, t.head, t.epoch.gen.CheckedNext().value)
    requires next == EpochRecord(offer.next, Some(t.epoch), t.head.stateRoot, target, Quorum, MANUAL_REASON)
    ensures var ops := [Accept(offer, false), Activate(offer.(phase := Committed), false)];
            Performs(target, roster, t, ops).epoch == next && Performs(target, roster, t, ops).sleep.None?
  {
    var accept, activate := Accept(offer, false), Activate(offer.(phase := Committed), false);
    HostExactly(roster, source);
    HostExactly(roster, target);
    CurrentExactly(roster, t);
    PerformsSnoc(target, roster, t, [], accept);
    PerformsSnoc(target, roster, t, [accept], activate);
    assert [] + [accept] == [accept] && [accept] + [activate] == [accept, activate];
    assert Performs(target, roster, t, [accept]) == t.(transfer := Some(offer.(phase := Accepted)));
  }

  // ----- the code in place is a step -----

  predicate HasMethod(op: Op) {
    op.Prepare? || op.Finish? || op.Check? || op.Launch? || op.Accept? || op.Commit? || op.Activate? || op.Observe?
  }

  /** Whatever a participant's own code does, run to its end or cut between two writes, is a step of the world. */
  method Act(peer: Participant, op: Op, ghost w: World) returns (ghost w': World)
    requires BaseInv(w) && HasMethod(op) && Signed(w, peer.me, op)
    requires peer.me in w.nodes && w.nodes[peer.me] == peer.State() && w.roster == peer.roster
    modifies peer
    ensures Next(w, w', peer.me, op) && w'.nodes[peer.me] == peer.State() && BaseInv(w')
  {
    match op {
      case Prepare(target) => var _ := peer.PrepareManualTransfer(target);
      case Finish(manifest, root, clears) => peer.FinishTransfer(manifest, root, !clears);
      case Check => var _ := peer.CheckLaunch();
      case Launch(manifest) => var _ := peer.LaunchRuntime(manifest);
      case Accept(t, half) => var _ := peer.AcceptManualTransfer(t, half);
      case Commit(t, half) => var _ := peer.CommitManualTransfer(t, half);
      case Activate(t, half) => var _ := peer.ActivateManualTransfer(t, half);
      case Observe(e) => var _ := peer.ObserveManualTransferEpoch(e);
    }
    w' := After(w, peer.me, peer.State());
    NextKeepsBase(w, w', peer.me, op);
  }
}
