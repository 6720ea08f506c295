/**
  What every reachable cluster keeps. The per-peer part speaks about one peer's
  files and the writes that peer made; it is proved one obedient write at a
  time, so it holds at every crash point of every handler.
*/
module Invariant {
  import opened Records
  import opened Durable
  import opened Runtime
  import opened Certificates
  import opened Quorum
  import opened Cluster
  import opened Discipline

  // ----- epochs -----

  /** `e` is `current` or lies strictly below it on the same diagonal of generations. */
  predicate NotAfter(e: EpochRecord, current: EpochRecord) {
    && e.gen.Skew() == current.gen.Skew()
    && e.gen.epoch <= current.gen.epoch
    && (e.gen.epoch == current.gen.epoch ==> e == current)
  }

  ghost predicate EpochInv(log: seq<Event>, p: PeerId, d: Disk) {
    && (d.epoch.Some? ==> HasStored(log, p, d.epoch.value))
    && (forall e, proof :: Wrote(p, PutEpoch(e, proof)) in log ==>
          && d.epoch.Some? && NotAfter(e, d.epoch.value) && Published(log, e)
          && e.mode.Recovery? == proof.Some?)
    && (forall e1, e2, p1, p2 :: Wrote(p, PutEpoch(e1, p1)) in log && Wrote(p, PutEpoch(e2, p2)) in log ==>
          (e1.gen.epoch == e2.gen.epoch ==> e1 == e2))
  }

  /** Events that are no epoch write of `p` leave its epochs alone. */
  lemma EpochUntouched(log: seq<Event>, p: PeerId, d: Disk, d': Disk, more: seq<Event>)
    requires EpochInv(log, p, d) && d'.epoch == d.epoch
    requires forall e, proof :: Wrote(p, PutEpoch(e, proof)) !in more
    ensures EpochInv(log + more, p, d')
  {
  }

  lemma EpochKept(log: seq<Event>, p: PeerId, d: Disk, w: Write)
    requires EpochInv(log, p, d) && Obeys(log, p, d, w)
    ensures EpochInv(log + [Wrote(p, w)], p, Apply(d, w))
  {
  }

  // ----- recovery promises -----

  /** Everything the peer ever promised on the present base has the held value, in a round not above. */
  predicate HeldFor(d: Disk, b: Ballot) {
    && d.promise.Some? && SameValue(d.promise.value, b)
    && b.round <= d.promise.value.round
    && (b.round == d.promise.value.round ==> b == d.promise.value)
  }

  predicate PromiseSound(d: Disk, b: Ballot) {
    && b.WellFormed()
    && d.epoch.Some?
    && b.base.Skew() == d.epoch.value.gen.Skew()
    && b.base.epoch <= d.epoch.value.gen.epoch
    && (b.base.epoch == d.epoch.value.gen.epoch ==> HeldFor(d, b))
  }

  /** One value per base: a voter's promises on one base differ in their round only. */
  predicate Locked(a: Ballot, b: Ballot) {
    a.base == b.base ==> SameValue(a, b) && (a.round == b.round ==> a == b)
  }

  ghost predicate VoteInv(log: seq<Event>, p: PeerId, d: Disk) {
    && (d.promise.Some? ==> HasPromised(log, p, d.promise.value))
    && (forall b :: HasPromised(log, p, b) ==> PromiseSound(d, b))
    && (forall a, b :: HasPromised(log, p, a) && HasPromised(log, p, b) ==> Locked(a, b))
    && (forall b, wake, at :: VoteCast(p, b, wake, at) in log ==> HasPromised(log, p, b))
  }

  lemma VoteKept(log: seq<Event>, p: PeerId, d: Disk, w: Write)
    requires VoteInv(log, p, d) && Obeys(log, p, d, w)
    ensures VoteInv(log + [Wrote(p, w)], p, Apply(d, w))
  {
    var log', d' := log + [Wrote(p, w)], Apply(d, w);
    assert forall b :: HasPromised(log', p, b) <==> HasPromised(log, p, b) || w == PutPromise(b);
    forall b | HasPromised(log', p, b)
      ensures PromiseSound(d', b)
    {
      if HasPromised(log, p, b) { PromiseStaysSound(log, p, d, w, b); }
    }
    if w.PutPromise? {
      forall a | HasPromised(log, p, a)
        ensures Locked(a, w.ballot) && Locked(w.ballot, a)
      {
        assert PromiseSound(d, a);
      }
    }
  }

  lemma PromiseStaysSound(log: seq<Event>, p: PeerId, d: Disk, w: Write, b: Ballot)
    requires PromiseSound(d, b) && Obeys(log, p, d, w)
    ensures PromiseSound(Apply(d, w), b)
  {
  }

  // ----- certified acceptance -----

  /** Whoever stored an epoch on certificate `c` had filed `c`, and never promised its base in a later round. */
  ghost predicate Closed(log: seq<Event>, p: PeerId, c: RecoveryCertificate) {
    && HasFiled(log, p, c)
    && forall b :: HasPromised(log, p, b) && b.base == c.ballot.base ==> b.round <= c.ballot.round
  }

  ghost predicate AcceptInv(log: seq<Event>, p: PeerId) {
    forall e, c :: Wrote(p, PutEpoch(e, Some(c))) in log ==> Certifies(c, e) && Closed(log, p, c)
  }

  lemma AcceptKept(log: seq<Event>, p: PeerId, d: Disk, w: Write)
    requires EpochInv(log, p, d) && VoteInv(log, p, d) && AcceptInv(log, p) && Obeys(log, p, d, w)
    ensures AcceptInv(log + [Wrote(p, w)], p)
  {
    var log' := log + [Wrote(p, w)];
    forall e, c | Wrote(p, PutEpoch(e, Some(c))) in log'
      ensures Certifies(c, e) && Closed(log', p, c)
    {
      if w == PutEpoch(e, Some(c)) {
        AcceptCloses(log, p, d, e, c);
      } else {
        StaysClosed(log, p, d, w, e, c);
      }
    }
  }

  lemma AcceptCloses(log: seq<Event>, p: PeerId, d: Disk, e: EpochRecord, c: RecoveryCertificate)
    requires VoteInv(log, p, d) && Obeys(log, p, d, PutEpoch(e, Some(c)))
    ensures Closed(log + [Wrote(p, PutEpoch(e, Some(c)))], p, c)
  {
    var log' := log + [Wrote(p, PutEpoch(e, Some(c)))];
    FiledGrows(log, [Wrote(p, PutEpoch(e, Some(c)))], p, c);
    forall b | HasPromised(log', p, b) && b.base == c.ballot.base
      ensures b.round <= c.ballot.round
    {
      assert HasPromised(log, p, b) && PromiseSound(d, b);
    }
  }

  lemma StaysClosed(log: seq<Event>, p: PeerId, d: Disk, w: Write, e: EpochRecord, c: RecoveryCertificate)
    requires EpochInv(log, p, d) && Obeys(log, p, d, w)
    requires Wrote(p, PutEpoch(e, Some(c))) in log && Certifies(c, e) && Closed(log, p, c)
    ensures Closed(log + [Wrote(p, w)], p, c)
  {
  }

  lemma FiledGrows(log: seq<Event>, more: seq<Event>, p: PeerId, c: RecoveryCertificate)
    requires HasFiled(log, p, c)
    ensures HasFiled(log + more, p, c)
  {
  }

  /** Certificates on file are valid, and the one on disk is never older than the stored recovery epoch. */
  ghost predicate CertificateInv(log: seq<Event>, p: PeerId, d: Disk) {
    && (forall c, electorate :: Wrote(p, PutCertificate(c, electorate)) in log ==>
          RecoveryShape(c, electorate) && VotesSigned(log, c.votes))
    && (d.epoch.Some? && d.epoch.value.mode.Recovery? ==>
          && d.certificate.Some?
          && (|| d.certificate.value.ballot.target == d.epoch.value.gen
              || d.epoch.value.gen.CheckedNext() == Some(d.certificate.value.ballot.target)))
  }

  lemma CertificateKept(log: seq<Event>, p: PeerId, d: Disk, w: Write)
    requires CertificateInv(log, p, d) && Obeys(log, p, d, w)
    ensures CertificateInv(log + [Wrote(p, w)], p, Apply(d, w))
  {
  }

  // ----- membership and prepares -----

  ghost predicate MemberInv(log: seq<Event>, p: PeerId, d: Disk) {
    && Ordered(d.roster)
    && (forall m :: Wrote(p, PutMembership(m)) in log ==>
          d.membership.Some? && m.sequence <= d.membership.value.sequence && m.epoch <= d.membership.value.epoch
          && (m.sequence == d.membership.value.sequence ==> m == d.membership.value))
    && (forall m, n :: Wrote(p, PutMembership(m)) in log && Wrote(p, PutMembership(n)) in log ==>
          (m.sequence == n.sequence ==> m == n))
  }

  lemma MemberKept(log: seq<Event>, p: PeerId, d: Disk, w: Write)
    requires MemberInv(log, p, d) && Obeys(log, p, d, w)
    ensures MemberInv(log + [Wrote(p, w)], p, Apply(d, w))
  {
    var log' := log + [Wrote(p, w)];
    if !w.PutMembership? {
      assert forall m :: Wrote(p, PutMembership(m)) in log' ==> Wrote(p, PutMembership(m)) in log;
    }
  }

  /** A prepare is held until the peer's committed configuration has left the one it changes. */
  ghost predicate PrepareInv(log: seq<Event>, p: PeerId, d: Disk) {
    && (d.prepare.Some? ==> HasPrepared(log, p, d.prepare.value))
    && (forall q :: HasPrepared(log, p, q) ==>
          && ProposalShape(q)
          && (d.prepare == Some(q) || (d.membership.Some? && d.membership.value.sequence > q.previous.sequence)))
    && (forall q, r :: HasPrepared(log, p, q) && HasPrepared(log, p, r) && q.previous == r.previous ==> q == r)
  }

  lemma PrepareKept(log: seq<Event>, p: PeerId, d: Disk, w: Write)
    requires PrepareInv(log, p, d) && Obeys(log, p, d, w)
    ensures PrepareInv(log + [Wrote(p, w)], p, Apply(d, w))
  {
    var log' := log + [Wrote(p, w)];
    if w.PutPrepare? {
      assert forall q :: HasPrepared(log', p, q) <==> HasPrepared(log, p, q) || q == w.proposal;
    } else {
      assert forall q :: HasPrepared(log', p, q) <==> HasPrepared(log, p, q);
    }
  }

  /** The prepare that is open after the events of `log`: the last one written, unless it was dropped since. */
  function Held(log: seq<Event>, p: PeerId): Option<Proposal> {
    if log == [] then None
    else
      var last := log[|log| - 1];
      if last.Wrote? && last.who == p && last.write.PutPrepare? then Some(last.write.proposal)
      else if last.Wrote? && last.who == p && last.write.DropPrepare? then None
      else Held(log[..|log| - 1], p)
  }

  lemma HeldSnoc(log: seq<Event>, p: PeerId, ev: Event)
    ensures Held(log + [ev], p)
            == if ev.Wrote? && ev.who == p && ev.write.PutPrepare? then Some(ev.write.proposal)
               else if ev.Wrote? && ev.who == p && ev.write.DropPrepare? then None
               else Held(log, p)
  {
    assert (log + [ev])[..|log|] == log;
  }

  lemma {:induction false} HeldAside(log: seq<Event>, p: PeerId, more: seq<Event>)
    requires forall ev :: ev in more && ev.who == p ==> !ev.Wrote?
    ensures Held(log + more, p) == Held(log, p)
  {
    if more == [] {
      assert log + more == log;
    } else {
      var k := |more| - 1;
      HeldAside(log, p, more[..k]);
      HeldSnoc(log + more[..k], p, more[k]);
      assert log + more == log + more[..k] + [more[k]];
      assert more[k] in more;
    }
  }

  /** What is on disk as prepare is what is open in the log. */
  ghost predicate FenceInv(log: seq<Event>, p: PeerId, d: Disk) {
    d.prepare == Held(log, p)
  }

  lemma FenceKept(log: seq<Event>, p: PeerId, d: Disk, w: Write)
    requires FenceInv(log, p, d)
    ensures FenceInv(log + [Wrote(p, w)], p, Apply(d, w))
  {
    HeldSnoc(log, p, Wrote(p, w));
  }

  ghost predicate JointInv(log: seq<Event>, d: Disk) {
    d.joint.Some? ==> JointShape(d.joint.value) && JointVotesSigned(log, d.joint.value.votes)
  }

  /** Everything one peer's files keep, write by write. */
  ghost predicate DiskInv(log: seq<Event>, p: PeerId, d: Disk) {
    && EpochInv(log, p, d) && VoteInv(log, p, d) && AcceptInv(log, p) && CertificateInv(log, p, d)
    && MemberInv(log, p, d) && PrepareInv(log, p, d) && JointInv(log, d) && FenceInv(log, p, d)
  }

  lemma WriteKeepsDiskInv(log: seq<Event>, p: PeerId, d: Disk, w: Write)
    requires DiskInv(log, p, d) && Obeys(log, p, d, w)
    ensures DiskInv(log + [Wrote(p, w)], p, Apply(d, w))
  {
    EpochKept(log, p, d, w);
    VoteKept(log, p, d, w);
    AcceptKept(log, p, d, w);
    CertificateKept(log, p, d, w);
    MemberKept(log, p, d, w);
    PrepareKept(log, p, d, w);
    FenceKept(log, p, d, w);
  }

  // ----- what each event has behind it -----

  /** No change out of configuration `m` has been prepared by `p`. */
  ghost predicate Unfenced(log: seq<Event>, p: PeerId, m: MembershipRecord) {
    forall q :: HasPrepared(log, p, q) ==> q.previous != m
  }

  /** `p` stored a record of generation `gen` that names `authority`. */
  ghost predicate StoredFor(log: seq<Event>, p: PeerId, gen: Generation, authority: PeerId) {
    exists e :: HasStored(log, p, e) && e.gen == gen && e.authority == authority
  }

  /** `p` saw, less than a lease ago, that `q` granted it a lease for `gen`. */
  ghost predicate FreshAck(log: seq<Event>, p: PeerId, q: PeerId, gen: Generation, now: Instant) {
    exists t, seen :: AckSeen(p, q, gen, t, seen) in log && Elapsed(now, seen) < LEASE_MS
  }

  ghost function Acknowledged(log: seq<Event>, p: PeerId, gen: Generation, electorate: set<PeerId>): set<PeerId> {
    set q | q in electorate && (q == p || EpochAcked(q, p, gen) in log)
  }

  /** `p` stored no record of an epoch after `epoch`. */
  ghost predicate Latest(log: seq<Event>, p: PeerId, epoch: U64) {
    forall e :: HasStored(log, p, e) ==> e.gen.epoch <= epoch
  }

  /** `p` stored no membership after `m`. */
  ghost predicate Standing(log: seq<Event>, p: PeerId, m: MembershipRecord) {
    forall n :: Wrote(p, PutMembership(n)) in log ==> n.sequence <= m.sequence
  }

  function At(ev: Event): Instant {
    if ev.VoteCast? || ev.LeaseGranted? || ev.AckSeen? || ev.PermitGranted? then ev.at else 0
  }

  /** What the past must hold for an event to happen. */
  ghost predicate Justified(past: seq<Event>, ev: Event) {
    && (ev.VoteCast? || ev.PermitGranted? ==> forall e :: e in past ==> At(e) <= ev.at)
    && match ev
       case Wrote(p, w) =>
         && (w.PutPromise? ==> Unfenced(past, p, w.ballot.membership) && Held(past, p).None?)
         && (w.PutEpoch? && w.proof.Some? ==>
             && Unfenced(past, p, w.proof.value.ballot.membership) && HasFiled(past, p, w.proof.value)
             && Standing(past, p, w.proof.value.ballot.membership) && Certifies(w.proof.value, w.epoch)
             && Held(past, p).None?)
         && (w.PutMembership? ==> Latest(past, p, w.membership.epoch))
       case VoteCast(p, b, wake, at) =>
         && HasPromised(past, p, b) && Unfenced(past, p, b.membership) && Held(past, p).None?
         && (!wake ==> forall to, gen, t: Instant :: LeaseGranted(p, to, gen, t) in past ==>
             t + LEASE_MS + SETTLE_MS <= at)
       case LeaseGranted(p, to, gen, _) =>
         StoredFor(past, p, gen, to) && Latest(past, p, gen.epoch) && Held(past, p).None?
       case AckSeen(p, q, gen, t, at) => LeaseGranted(q, p, gen, t) in past && t <= at
       case EpochAcked(p, to, gen) => StoredFor(past, p, gen, to)
       case PermitGranted(p, gen, electorate, backers, at) =>
         && Majority(backers, electorate) && StoredFor(past, p, gen, p) && Latest(past, p, gen.epoch)
         && Held(past, p).None?
         && (forall q :: q in backers && q != p ==> FreshAck(past, p, q, gen, at))
         && (forall e :: HasStored(past, p, e) && e.gen == gen && e.mode.Recovery? ==>
               Majority(Acknowledged(past, p, gen, electorate), electorate))
       case FreshVoted(p, ch) => forall b :: HasPromised(past, p, b) ==> !ch.gen.Before(b.target)
  }

  /** Every event of the log was justified by the events before it. */
  ghost predicate Orderly(log: seq<Event>) {
    forall i :: 0 <= i < |log| ==> Justified(log[..i], log[i])
  }

  lemma OrderlySnoc(log: seq<Event>, ev: Event)
    requires Orderly(log) && Justified(log, ev)
    ensures Orderly(log + [ev])
  {
    var log' := log + [ev];
    forall i | 0 <= i < |log'|
      ensures Justified(log'[..i], log'[i])
    {
      assert log'[..i] == log[..i];
      assert log[..|log|] == log;
    }
  }

  lemma WriteJustified(log: seq<Event>, p: PeerId, d: Disk, w: Write)
    requires EpochInv(log, p, d) && MemberInv(log, p, d) && PrepareInv(log, p, d) && FenceInv(log, p, d)
    requires Obeys(log, p, d, w)
    ensures Justified(log, Wrote(p, w))
  {
  }

  lemma WriteKeeps(log: seq<Event>, p: PeerId, d: Disk, w: Write)
    requires DiskInv(log, p, d) && Orderly(log) && Obeys(log, p, d, w)
    ensures DiskInv(log + [Wrote(p, w)], p, Apply(d, w)) && Orderly(log + [Wrote(p, w)])
  {
    WriteKeepsDiskInv(log, p, d, w);
    WriteJustified(log, p, d, w);
    OrderlySnoc(log, Wrote(p, w));
  }

  lemma WritesSnoc(log: seq<Event>, p: PeerId, d: Disk, body: seq<Write>, w: Write)
    ensures log + Writes(p, body + [w]) == log + Writes(p, body) + [Wrote(p, w)]
    ensures Replay(d, body + [w]) == Apply(Replay(d, body), w)
  {
  }

  lemma NoWrites(log: seq<Event>, p: PeerId, d: Disk)
    ensures log + Writes(p, []) == log && Replay(d, []) == d
  {
  }

  lemma LastWriteKeeps(log: seq<Event>, p: PeerId, d: Disk, body: seq<Write>, w: Write)
    requires DiskInv(log + Writes(p, body), p, Replay(d, body)) && Orderly(log + Writes(p, body))
    requires Obeys(log + Writes(p, body), p, Replay(d, body), w)
    ensures DiskInv(log + Writes(p, body + [w]), p, Replay(d, body + [w])) && Orderly(log + Writes(p, body + [w]))
  {
    WriteKeeps(log + Writes(p, body), p, Replay(d, body), w);
    WritesSnoc(log, p, d, body, w);
  }

  lemma LastObeys(log: seq<Event>, p: PeerId, d: Disk, writes: seq<Write>, body: seq<Write>, w: Write)
    requires ObeysAll(log, p, d, writes) && writes == body + [w]
    ensures ObeysAll(log, p, d, body) && Obeys(log + Writes(p, body), p, Replay(d, body), w)
  {
    var k := |body|;
    assert writes[..k] == body && writes[k] == w;
    ObeysPrefix(log, p, d, writes, k);
  }

  /** Hence every prefix of an obedient run of writes keeps the files sound and the log orderly. */
  lemma {:induction false} WritesKeep(log: seq<Event>, p: PeerId, d: Disk, writes: seq<Write>)
    requires DiskInv(log, p, d) && Orderly(log) && ObeysAll(log, p, d, writes)
    ensures DiskInv(log + Writes(p, writes), p, Replay(d, writes)) && Orderly(log + Writes(p, writes))
  {
    if writes == [] {
      NoWrites(log, p, d);
    } else {
      var body, w := writes[..|writes| - 1], writes[|writes| - 1];
      assert writes == body + [w];
      LastObeys(log, p, d, writes, body, w);
      WritesKeep(log, p, d, body);
      LastWriteKeeps(log, p, d, body, w);
    }
  }

  // ----- events that leave a peer's files alone -----

  ghost predicate Aside(log: seq<Event>, p: PeerId, more: seq<Event>) {
    forall ev :: ev in more && ev.who == p ==> !ev.Wrote? && (ev.VoteCast? ==> HasPromised(log, p, ev.ballot))
  }

  lemma VoteFrame(log: seq<Event>, p: PeerId, d: Disk, more: seq<Event>)
    requires VoteInv(log, p, d) && Aside(log, p, more)
    ensures VoteInv(log + more, p, d)
  {
  }

  lemma CertificateFrame(log: seq<Event>, p: PeerId, d: Disk, more: seq<Event>)
    requires CertificateInv(log, p, d) && AcceptInv(log, p) && Aside(log, p, more)
    ensures CertificateInv(log + more, p, d) && AcceptInv(log + more, p)
  {
  }

  lemma MemberFrame(log: seq<Event>, p: PeerId, d: Disk, more: seq<Event>)
    requires MemberInv(log, p, d) && PrepareInv(log, p, d) && JointInv(log, d) && Aside(log, p, more)
    ensures MemberInv(log + more, p, d) && PrepareInv(log + more, p, d) && JointInv(log + more, d)
  {
  }

  lemma DiskFrame(log: seq<Event>, p: PeerId, d: Disk, more: seq<Event>)
    requires DiskInv(log, p, d) && Aside(log, p, more)
    ensures DiskInv(log + more, p, d)
  {
    EpochUntouched(log, p, d, d, more);
    VoteFrame(log, p, d, more);
    CertificateFrame(log, p, d, more);
    MemberFrame(log, p, d, more);
    HeldAside(log, p, more);
  }
}
