/**
  Manual transfer of authority between members: prepared by the source, accepted
  by the target, committed by the source, activated by the target, observed by
  everyone else; and the launches of the source's runtime around it. The roster
  is fixed and has more than one voter.
*/
module Handover {
  import opened Records

  predicate SameTransfer(a: Transfer, b: Transfer) { a == b.(phase := a.phase) }

  /** A runtime under way, and the target it read from the transfer intent, if it did. */
  datatype Running = Running(gen: Generation, leaving: Option<PeerId>)

  /** One peer's files, its hosting slot, and how many launch checks passed but have not been used. */
  datatype Node = Node(
    epoch: EpochRecord, head: Snapshot, transfer: Option<Transfer>, intent: Option<PeerId>,
    sleep: Option<SleepRecord>, running: Option<Running>, checks: nat)

  // ----- the checks of every operation -----

  /** The transfer leaves exactly the accepted generation. */
  predicate Leaves(t: Transfer, e: EpochRecord) {
    t.source == e.authority && e.gen.CheckedNext() == Some(t.next)
  }

  predicate Validates(roster: seq<Member>, n: Node, t: Transfer) {
    IsActive(roster, t.source) && MayLead(roster, t.target) && Leaves(t, n.epoch) && n.head == t.checkpoint
  }

  /** The transfer on file for the current generation: none, a valid one, or one that no longer validates. */
  datatype Standing = Nothing | Active(transfer: Transfer) | Broken

  function Current(roster: seq<Member>, n: Node): Standing {
    if n.transfer.None? || !Leaves(n.transfer.value, n.epoch) then Nothing
    else if Validates(roster, n, n.transfer.value) then Active(n.transfer.value)
    else Broken
  }

  predicate MayTarget(roster: seq<Member>, me: PeerId, target: PeerId) {
    target != me && MayLead(roster, target)
  }

  function Fresh(me: PeerId, target: PeerId, checkpoint: Snapshot, next: Generation): Transfer {
    Transfer(me, target, checkpoint, next, Prepared)
  }

  const MANUAL_REASON := "manual authority transfer committed after final canonical checkpoint"

  function Successor(me: PeerId, n: Node, t: Transfer): EpochRecord {
    EpochRecord(t.next, Some(n.epoch), n.head.stateRoot, me, Quorum, MANUAL_REASON)
  }

  // ----- launching -----

  /** A launch goes on only from a head that is the epoch's base: its own, or the last one before it. */
  predicate Fits(me: PeerId, e: EpochRecord, head: Snapshot) {
    && head.stateRoot == e.baseState
    && if head.epoch < e.gen.epoch then head.epoch + 1 == e.gen.epoch && head.sequence < U64_MAX
       else head.epoch == e.gen.epoch && head.author == me
  }

  /** A head from before the epoch is signed again under it; the state stays the same. */
  function Promoted(me: PeerId, e: EpochRecord, head: Snapshot, manifest: Digest): (promoted: Snapshot)
    requires Fits(me, e, head)
    ensures promoted.stateRoot == head.stateRoot && promoted.epoch == e.gen.epoch && promoted.author == me
  {
    if head.epoch < e.gen.epoch then Snapshot(manifest, head.stateRoot, e.gen.epoch, head.sequence + 1, me) else head
  }

  /** The world was put to sleep since the check: the launch mints a solo epoch. */
  predicate MayWake(n: Node) {
    n.sleep.Some? && n.sleep.value.snapshot == n.head.manifest && n.epoch.gen.CheckedNext().Some?
  }

  function Woken(me: PeerId, n: Node): EpochRecord
    requires MayWake(n)
  {
    EpochRecord(n.epoch.gen.CheckedNext().value, Some(n.epoch), n.head.stateRoot, me, Solo, SOLO_WAKE_REASON)
  }

  /** The launch itself uses up a passed check; it needs the exclusive slot and reads the files again. */
  function Launches(me: PeerId, roster: seq<Member>, n: Node, manifest: Digest): Node {
    if n.checks == 0 then n
    else
      var used := n.(checks := n.checks - 1);
      if n.running.Some? || !MayLead(roster, me) then used
      else if n.sleep.Some? then
        if MayWake(n) then Started(me, used.(epoch := Woken(me, n), sleep := None), manifest) else used
      else if n.epoch.authority == me then Started(me, used, manifest)
      else used
  }

  function Started(me: PeerId, n: Node, manifest: Digest): Node {
    if Fits(me, n.epoch, n.head)
    then n.(head := Promoted(me, n.epoch, n.head, manifest), running := Some(Running(n.epoch.gen, None)))
    else n
  }

  // ----- what one operation does to one peer -----

  datatype Op =
    | Prepare(target: PeerId)
    | ReadIntent
    | Finish(manifest: Digest, stateRoot: Digest, clears: bool)
    | FallAsleep(manifest: Digest, stateRoot: Digest)
    | Stop
    | Check
    | Launch(manifest: Digest)
    | Accept(transfer: Transfer, half: bool)
    | Commit(transfer: Transfer, half: bool)
    | Activate(transfer: Transfer, half: bool)
    | Observe(epoch: EpochRecord)
    | OnTransfer(transfer: Transfer)
    | OnEpoch(epoch: EpochRecord)
    | OtherEpoch(epoch: EpochRecord)
    | NewHead(head: Snapshot)

  /** With the world asleep the transfer is prepared at once; otherwise the runtime is asked to leave. */
  function Prepares(me: PeerId, roster: seq<Member>, n: Node, target: PeerId): Node {
    if n.epoch.authority != me || !MayTarget(roster, me, target) || Current(roster, n) != Nothing then n
    else if n.sleep.Some? then
      if n.sleep.value.snapshot != n.head.manifest || n.sleep.value.gen != n.epoch.gen
         || n.epoch.gen.CheckedNext().None? then n
      else n.(transfer := Some(Fresh(me, target, n.head, n.epoch.gen.CheckedNext().value)))
    else n.(intent := Some(target))
  }

  /** The last checkpoint of a runtime: signed under its own epoch. */
  predicate MayCheckpoint(me: PeerId, n: Node) {
    && n.running.Some? && n.epoch.gen == n.running.value.gen && n.epoch.authority == me
    && n.head.sequence < U64_MAX
  }

  function Checkpoint(me: PeerId, n: Node, manifest: Digest, stateRoot: Digest): Snapshot
    requires MayCheckpoint(me, n)
  {
    Snapshot(manifest, stateRoot, n.epoch.gen.epoch, n.head.sequence + 1, me)
  }

  /** A runtime that was asked to leave commits its last checkpoint and prepares the transfer. */
  predicate MayLeave(me: PeerId, roster: seq<Member>, n: Node) {
    && MayCheckpoint(me, n) && n.running.value.leaving.Some?
    && MayTarget(roster, me, n.running.value.leaving.value) && n.epoch.gen.CheckedNext().Some?
  }

  function Finishes(me: PeerId, roster: seq<Member>, n: Node, manifest: Digest, stateRoot: Digest, clears: bool): Node {
    if n.running.None? || n.running.value.leaving.None? then n
    else if !MayCheckpoint(me, n) then n.(running := None)
    else
      var checkpoint := Checkpoint(me, n, manifest, stateRoot);
      var stopped := n.(head := checkpoint, running := None);
      if !MayLeave(me, roster, n) then stopped
      else
        var next := n.epoch.gen.CheckedNext().value;
        stopped.(intent := if clears then None else n.intent,
                 transfer := Some(Fresh(me, n.running.value.leaving.value, checkpoint, next)))
  }

  function FallsAsleep(me: PeerId, n: Node, manifest: Digest, stateRoot: Digest): Node {
    if n.running.None? then n
    else if !MayCheckpoint(me, n) then n.(running := None)
    else n.(head := Checkpoint(me, n, manifest, stateRoot), running := None,
            sleep := Some(SleepRecord(manifest, n.epoch.gen, me)))
  }

  /** Only the target accepts, and only a transfer that continues what it holds. */
  function Accepts(me: PeerId, roster: seq<Member>, n: Node, t: Transfer, half: bool): Node {
    var held := Current(roster, n);
    if !t.phase.Prepared? || !Validates(roster, n, t) || t.target != me || held.Broken? then n
    else if held.Active? && (!SameTransfer(held.transfer, t) || !held.transfer.phase.Prepared?) then n
    else n.(transfer := Some(if half then t else t.(phase := Accepted)))
  }

  function Commits(me: PeerId, roster: seq<Member>, n: Node, t: Transfer, half: bool): Node {
    var held := Current(roster, n);
    if !t.phase.Accepted? || !Validates(roster, n, t) || t.source != me || held.Broken? then n
    else if held.Active? && (!SameTransfer(held.transfer, t) || held.transfer.phase.Committed?) then n
    else n.(transfer := Some(if half then t else t.(phase := Committed)))
  }

  function Activates(me: PeerId, roster: seq<Member>, n: Node, t: Transfer, half: bool): Node {
    var held := Current(roster, n);
    if !t.phase.Committed? || !Validates(roster, n, t) || t.target != me || held.Broken? then n
    else if held.Active? && (!SameTransfer(held.transfer, t) || held.transfer.phase.Prepared?) then n
    else if half then n.(transfer := Some(t))
    else n.(transfer := Some(t), epoch := Successor(me, n, t), sleep := None)
  }

  function Observes(roster: seq<Member>, n: Node, e: EpochRecord): Node {
    if e.mode.Recovery? || n.transfer.None? then n
    else
      var t := n.transfer.value;
      if !Validates(roster, n, t) || !t.phase.Committed? || t.target != e.authority || t.next != e.gen
         || !Follows(n.epoch, e) || !MayLead(roster, e.authority) || n.head.stateRoot != e.baseState then n
      else n.(epoch := e, sleep := None)
  }

  /** A transfer from the network must continue the one on file, and begin in the prepared phase. */
  function ReceivesTransfer(roster: seq<Member>, n: Node, t: Transfer): Node {
    var held := n.transfer;
    if !IsActive(roster, t.source) || !MayLead(roster, t.target) || n.head != t.checkpoint
       || n.epoch.gen.CheckedNext() != Some(t.next) then n
    else if held.None? then (if t.phase.Prepared? then n.(transfer := Some(t)) else n)
    else if SameTransfer(held.value, t)
         && ((held.value.phase.Prepared? && t.phase.Accepted?) || (held.value.phase.Accepted? && t.phase.Committed?))
    then n.(transfer := Some(t))
    else n
  }

  /** An epoch from the network changes the authority only along the committed transfer on file. */
  function ReceivesEpoch(roster: seq<Member>, n: Node, e: EpochRecord): Node {
    if e.mode.Recovery? || !Follows(n.epoch, e) || !MayLead(roster, e.authority)
       || n.head.stateRoot != e.baseState then n
    else if e.authority == n.epoch.authority then n.(epoch := e, sleep := None)
    else if n.transfer.None? || !n.transfer.value.phase.Committed? || n.transfer.value.source != n.epoch.authority
         || n.transfer.value.target != e.authority || n.transfer.value.next != e.gen then n
    else n.(epoch := e, sleep := None)
  }

  /** Recovery, or the authority's own next epoch. */
  function Moves(n: Node, e: EpochRecord): Node {
    if Follows(n.epoch, e) && (e.mode.Recovery? || e.authority == n.epoch.authority)
    then n.(epoch := e, sleep := None) else n
  }

  function Perform(me: PeerId, roster: seq<Member>, n: Node, op: Op): Node {
    match op
    case Prepare(target) => Prepares(me, roster, n, target)
    case ReadIntent => if n.running.Some? then n.(running := Some(n.running.value.(leaving := n.intent))) else n
    case Finish(manifest, root, clears) => Finishes(me, roster, n, manifest, root, clears)
    case FallAsleep(manifest, root) => FallsAsleep(me, n, manifest, root)
    case Stop => n.(running := None)
    // The launch check: the local peer holds the epoch, nothing is being transferred.
    case Check =>
      if n.epoch.authority == me && n.sleep.None? && Current(roster, n) == Nothing then n.(checks := n.checks + 1)
      else n
    case Launch(manifest) => Launches(me, roster, n, manifest)
    case Accept(t, half) => Accepts(me, roster, n, t, half)
    case Commit(t, half) => Commits(me, roster, n, t, half)
    case Activate(t, half) => Activates(me, roster, n, t, half)
    case Observe(e) => Observes(roster, n, e)
    case OnTransfer(t) => ReceivesTransfer(roster, n, t)
    case OnEpoch(e) => ReceivesEpoch(roster, n, e)
    case OtherEpoch(e) => Moves(n, e)
    case NewHead(s) => n.(head := s)
  }

  // ----- when an operation is granted -----

  /** The transfer on file that leaves the stored generation, if there is one. */
  function OnFile(n: Node): Option<Transfer> {
    if n.transfer.Some? && n.transfer.value.source == n.epoch.authority && Directly(n.epoch.gen, n.transfer.value.next)
    then n.transfer else None
  }

  /** The transfer goes from the stored authority, a member, to a host, one generation on, at the local head. */
  ghost predicate Proper(roster: seq<Member>, n: Node, t: Transfer) {
    && t.source == n.epoch.authority && t.source in Records.Active(roster) && Host(roster, t.target)
    && Directly(n.epoch.gen, t.next) && n.head == t.checkpoint
  }

  lemma ProperExactly(roster: seq<Member>, n: Node, t: Transfer)
    requires Ordered(roster)
    ensures Validates(roster, n, t) <==> Proper(roster, n, t)
  {
    HostExactly(roster, t.source);
    HostExactly(roster, t.target);
  }

  lemma CurrentExactly(roster: seq<Member>, n: Node)
    requires Ordered(roster)
    ensures Current(roster, n)
            == if OnFile(n).None? then Nothing
               else if Proper(roster, n, OnFile(n).value) then Active(OnFile(n).value) else Broken
  {
    if n.transfer.Some? { ProperExactly(roster, n, n.transfer.value); }
  }

  /** What is handed over at once: the prepared transfer on file, or a new one of a world asleep at its head. */
  ghost predicate HandsOut(me: PeerId, roster: seq<Member>, n: Node, target: PeerId) {
    && n.epoch.authority == me && target != me && Host(roster, target)
    && if OnFile(n).Some? then
         Proper(roster, n, OnFile(n).value) && OnFile(n).value.target == target && OnFile(n).value.phase.Prepared?
       else
         && n.sleep.Some? && n.sleep.value.snapshot == n.head.manifest && n.sleep.value.gen == n.epoch.gen
         && n.epoch.gen.epoch < U64_MAX && n.epoch.gen.token < U64_MAX
  }

  /** The target takes a proper transfer to itself that its file does not contradict. */
  ghost predicate MayAccept(me: PeerId, roster: seq<Member>, n: Node, t: Transfer) {
    && t.phase.Prepared? && t.target == me && Proper(roster, n, t)
    && (OnFile(n).None? || OnFile(n).value == t)
  }

  /** The source commits its own proper transfer, once accepted, that its file does not contradict. */
  ghost predicate MayCommit(me: PeerId, roster: seq<Member>, n: Node, t: Transfer) {
    && t.phase.Accepted? && t.source == me && Proper(roster, n, t)
    && (OnFile(n).None? || OnFile(n).value == t || OnFile(n).value == t.(phase := Prepared))
  }

  /** The target activates a proper committed transfer that its file accepts. */
  ghost predicate MayActivate(me: PeerId, roster: seq<Member>, n: Node, t: Transfer) {
    && t.phase.Committed? && t.target == me && Proper(roster, n, t)
    && (OnFile(n).None? || OnFile(n).value == t || OnFile(n).value == t.(phase := Accepted))
  }

  /** An observer follows the committed transfer on its file, at its own head. */
  ghost predicate MayObserve(roster: seq<Member>, n: Node, e: EpochRecord) {
    && !e.mode.Recovery? && n.transfer.Some? && n.transfer.value.phase.Committed? && Proper(roster, n, n.transfer.value)
    && e.authority == n.transfer.value.target && e.gen == n.transfer.value.next && e.previous == Some(n.epoch)
    && e.baseState == n.head.stateRoot
  }

  /** A runtime may start in `e`: the head is its base, its own or the last one before it. */
  predicate Startable(me: PeerId, e: EpochRecord, head: Snapshot) {
    && head.stateRoot == e.baseState
    && ((head.epoch == e.gen.epoch && head.author == me)
        || (head.epoch + 1 == e.gen.epoch && head.sequence < U64_MAX))
  }

  /** A launch starts a runtime behind a passed check, alone, of a host, in its epoch or out of its sleep. */
  ghost predicate MayStart(me: PeerId, roster: seq<Member>, n: Node) {
    && n.checks > 0 && n.running.None? && Host(roster, me)
    && if n.sleep.None? then n.epoch.authority == me && Startable(me, n.epoch, n.head)
       else
         && n.sleep.value.snapshot == n.head.manifest
         && n.epoch.gen.epoch < U64_MAX && n.epoch.gen.token < U64_MAX
         && ((n.head.epoch == n.epoch.gen.epoch + 1 && n.head.author == me)
             || (n.head.epoch == n.epoch.gen.epoch && n.head.sequence < U64_MAX))
  }

  /** A runtime that leaves signs a transfer exactly if its generation and target still stand. */
  ghost predicate SignsOnLeaving(me: PeerId, roster: seq<Member>, n: Node) {
    && n.running.Some? && n.running.value.leaving.Some? && n.running.value.leaving.value != me
    && Host(roster, n.running.value.leaving.value)
    && n.epoch.gen == n.running.value.gen && n.epoch.authority == me && n.head.sequence < U64_MAX
    && n.epoch.gen.epoch < U64_MAX && n.epoch.gen.token < U64_MAX
  }

  // ----- the operations in place -----

  /** One peer at its files: each operation reads, checks and saves as its specification above says. */
  class Participant {
    const me: PeerId
    const roster: seq<Member>
    var epoch: EpochRecord
    var head: Snapshot
    var transfer: Option<Transfer>
    var intent: Option<PeerId>
    var sleep: Option<SleepRecord>
    var running: Option<Running>
    var checks: nat

    function State(): Node
      reads this
    {
      Node(epoch, head, transfer, intent, sleep, running, checks)
    }

    constructor (me: PeerId, roster: seq<Member>, n: Node)
      ensures this.me == me && this.roster == roster && State() == n
    {
      this.me, this.roster := me, roster;
      epoch, head, transfer, intent := n.epoch, n.head, n.transfer, n.intent;
      sleep, running, checks := n.sleep, n.running, n.checks;
    }

    /** Returns the transfer to hand over, which may be one prepared before. */
    method PrepareManualTransfer(target: PeerId) returns (token: Option<Transfer>)
      modifies this
      ensures State() == Prepares(me, roster, old(State()), target)
      ensures token.Some? ==>
                && transfer == token && Leaves(token.value, epoch)
                && token.value.target == target && token.value.phase.Prepared?
      ensures Ordered(roster) ==> (token.Some? <==> HandsOut(me, roster, old(State()), target))
      ensures Ordered(roster) && token.None? ==> transfer == old(transfer)
      ensures Ordered(roster) ==>
                intent == if && old(epoch).authority == me && target != me && Host(roster, target)
                             && OnFile(old(State())).None? && old(sleep).None?
                          then Some(target) else old(intent)
    {
      if Ordered(roster) {
        CurrentExactly(roster, State());
        HostExactly(roster, target);
      }
      if epoch.authority != me || !MayTarget(roster, me, target) {
        return None;
      }
      var held := Current(roster, State());
      if held != Nothing {
        var same := held.Active? && held.transfer.target == target && held.transfer.phase.Prepared?;
        return if same then Some(held.transfer) else None;
      }
      if sleep.Some? {
        if sleep.value.snapshot != head.manifest || sleep.value.gen != epoch.gen || epoch.gen.CheckedNext().None? {
          return None;
        }
        transfer := Some(Fresh(me, target, head, epoch.gen.CheckedNext().value));
        return transfer;
      }
      intent := Some(target);
      return None;
    }

    /**
      The tail of a runtime that was asked to leave; `crash` strikes between its
      last two writes. A transfer is signed only on the checkpoint just committed.
    */
    method FinishTransfer(manifest: Digest, stateRoot: Digest, crash: bool)
      modifies this
      ensures State() == Finishes(me, roster, old(State()), manifest, stateRoot, !crash)
      ensures old(running).Some? && old(running).value.leaving.Some? ==> running.None?
      ensures transfer != old(transfer) ==>
                && transfer.Some? && transfer.value.source == me && Leaves(transfer.value, epoch)
                && transfer.value.checkpoint == head && head.author == me && head.epoch == epoch.gen.epoch
      ensures epoch == old(epoch) && sleep == old(sleep) && checks == old(checks)
      ensures Ordered(roster) ==>
                if SignsOnLeaving(me, roster, old(State())) then
                  && transfer.Some? && transfer.value.target == old(running).value.leaving.value
                  && transfer.value.phase.Prepared? && transfer.value.checkpoint == head
                  && head.manifest == manifest && head.stateRoot == stateRoot && head.sequence == old(head).sequence + 1
                else transfer == old(transfer)
    {
      if Ordered(roster) && running.Some? && running.value.leaving.Some? {
        HostExactly(roster, running.value.leaving.value);
      }
      if running.None? || running.value.leaving.None? {
        return;
      }
      var target, gen := running.value.leaving.value, running.value.gen;
      if epoch.gen != gen || epoch.authority != me || head.sequence == U64_MAX {
        running := None;
        return;
      }
      head := Snapshot(manifest, stateRoot, epoch.gen.epoch, head.sequence + 1, me);
      running := None;
      if !MayTarget(roster, me, target) || epoch.gen.CheckedNext().None? {
        return;
      }
      transfer := Some(Fresh(me, target, head, epoch.gen.CheckedNext().value));
      if !crash {
        intent := None;
      }
    }

    /** The check a supervisor tick or a direct launch waits for. */
    method CheckLaunch() returns (safe: bool)
      modifies this
      ensures State() == Perform(me, roster, old(State()), Check)
      ensures safe ==> Current(roster, State()) == Nothing && epoch.authority == me && sleep.None?
      ensures checks == old(checks) + (if safe then 1 else 0)
      ensures safe <==> epoch.authority == me && sleep.None? && OnFile(State()).None?
    {
      if epoch.authority != me || sleep.Some? || Current(roster, State()) != Nothing {
        return false;
      }
      checks := checks + 1;
      return true;
    }

    /** A runtime starts only from its epoch's base state, and never in the generation of another authority. */
    method LaunchRuntime(manifest: Digest) returns (started: bool)
      modifies this
      ensures State() == Launches(me, roster, old(State()), manifest)
      ensures started ==> old(checks) > 0 && old(running).None? && running == Some(Running(epoch.gen, None))
      ensures started ==> epoch.authority == me && Fits(me, epoch, head) && sleep.None?
      ensures !started ==> running == old(running)
      ensures Ordered(roster) ==> (started <==> MayStart(me, roster, old(State())))
    {
      if Ordered(roster) { HostExactly(roster, me); }
      if checks == 0 {
        return false;
      }
      checks := checks - 1;
      if running.Some? || !MayLead(roster, me) {
        return false;
      }
      if sleep.Some? {
        if sleep.value.snapshot != head.manifest || epoch.gen.CheckedNext().None? {
          return false;
        }
        epoch := EpochRecord(epoch.gen.CheckedNext().value, Some(epoch), head.stateRoot, me, Solo, SOLO_WAKE_REASON);
        sleep := None;
      } else if epoch.authority != me {
        return false;
      }
      if !Fits(me, epoch, head) {
        return false;
      }
      head := Promoted(me, epoch, head, manifest);
      running := Some(Running(epoch.gen, None));
      return true;
    }

    method AcceptManualTransfer(t: Transfer, crash: bool) returns (token: Option<Transfer>)
      modifies this
      ensures State() == Accepts(me, roster, old(State()), t, crash)
      ensures token.Some? ==> transfer == token && SameTransfer(token.value, t) && token.value.phase.Accepted?
      ensures Ordered(roster) ==>
                (token.Some? <==>
                   || (MayAccept(me, roster, old(State()), t) && !crash)
                   || (t.phase.Prepared? && t.target == me && Proper(roster, old(State()), t)
                       && OnFile(old(State())) == Some(t.(phase := Accepted))))
    {
      if Ordered(roster) {
        CurrentExactly(roster, State());
        ProperExactly(roster, State(), t);
      }
      if !t.phase.Prepared? || !Validates(roster, State(), t) || t.target != me {
        return None;
      }
      var held := Current(roster, State());
      if held.Broken? || (held.Active? && !SameTransfer(held.transfer, t)) {
        return None;
      }
      if held.Active? && !held.transfer.phase.Prepared? {
        return if held.transfer.phase.Accepted? then Some(held.transfer) else None;
      }
      transfer := Some(t);
      if crash {
        return None;
      }
      transfer := Some(t.(phase := Accepted));
      return transfer;
    }

    method CommitManualTransfer(t: Transfer, crash: bool) returns (token: Option<Transfer>)
      modifies this
      ensures State() == Commits(me, roster, old(State()), t, crash)
      ensures token.Some? ==> transfer == token && SameTransfer(token.value, t) && token.value.phase.Committed?
      ensures Ordered(roster) ==>
                (token.Some? <==>
                   || (MayCommit(me, roster, old(State()), t) && !crash)
                   || (t.phase.Accepted? && t.source == me && Proper(roster, old(State()), t)
                       && OnFile(old(State())) == Some(t.(phase := Committed))))
    {
      if Ordered(roster) {
        CurrentExactly(roster, State());
        ProperExactly(roster, State(), t);
      }
      if !t.phase.Accepted? || !Validates(roster, State(), t) || t.source != me {
        return None;
      }
      var held := Current(roster, State());
      if held.Broken? || (held.Active? && !SameTransfer(held.transfer, t)) {
        return None;
      }
      if held.Active? && held.transfer.phase.Committed? {
        return Some(held.transfer);
      }
      transfer := Some(t);
      if crash {
        return None;
      }
      transfer := Some(t.(phase := Committed));
      return transfer;
    }

    method ActivateManualTransfer(t: Transfer, crash: bool) returns (token: Option<EpochRecord>)
      modifies this
      ensures State() == Activates(me, roster, old(State()), t, crash)
      ensures token.Some? ==> token.value == epoch && Follows(old(epoch), epoch) && epoch.authority == me
      ensures Ordered(roster) ==> (token.Some? <==> MayActivate(me, roster, old(State()), t) && !crash)
      ensures token.Some? ==> epoch.baseState == head.stateRoot && epoch.mode == EpochMode.Quorum && sleep.None?
      ensures token.None? ==> epoch == old(epoch)
    {
      if Ordered(roster) {
        CurrentExactly(roster, State());
        ProperExactly(roster, State(), t);
      }
      if !t.phase.Committed? || !Validates(roster, State(), t) || t.target != me {
        return None;
      }
      var held := Current(roster, State());
      if held.Broken? || (held.Active? && (!SameTransfer(held.transfer, t) || held.transfer.phase.Prepared?)) {
        return None;
      }
      transfer := Some(t);
      if crash {
        return None;
      }
      epoch := EpochRecord(t.next, Some(epoch), head.stateRoot, me, Quorum, MANUAL_REASON);
      sleep := None;
      return Some(epoch);
    }

    method ObserveManualTransferEpoch(e: EpochRecord) returns (ok: bool)
      modifies this
      ensures State() == Observes(roster, old(State()), e)
      ensures ok ==> epoch == e && Follows(old(epoch), e)
      ensures Ordered(roster) ==> (ok <==> MayObserve(roster, old(State()), e))
      ensures !ok ==> State() == old(State())
    {
      if Ordered(roster) && transfer.Some? {
        ProperExactly(roster, State(), transfer.value);
        HostExactly(roster, transfer.value.target);
      }
      if e.mode.Recovery? || transfer.None? {
        return false;
      }
      var t := transfer.value;
      if !Validates(roster, State(), t) || !t.phase.Committed? || t.target != e.authority || t.next != e.gen
         || !Follows(epoch, e)
      {
        return false;
      }
      if !MayLead(roster, e.authority) || head.stateRoot != e.baseState {
        return false;
      }
      epoch, sleep := e, None;
      return true;
    }
  }
}
