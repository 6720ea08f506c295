/** The deterministic choice of the peer that drives a recovery. */
module Election {
  import opened Records

  datatype Candidate = Candidate(
    peer: PeerId, acceptedEpoch: U64, sequence: U64,
    complete: bool, compatible: bool, eligible: bool, banned: bool)

  predicate Qualifies(c: Candidate) {
    c.compatible && c.eligible && c.complete && !c.banned
  }

  /** Higher epoch, then longer history, then the smaller id. */
  predicate Outranks(a: Candidate, b: Candidate) {
    || a.acceptedEpoch > b.acceptedEpoch
    || (a.acceptedEpoch == b.acceptedEpoch && a.sequence > b.sequence)
    || (a.acceptedEpoch == b.acceptedEpoch && a.sequence == b.sequence && a.peer < b.peer)
  }

  predicate Wins(c: Candidate, candidates: seq<Candidate>) {
    c in candidates && Qualifies(c) && forall o :: o in candidates && Qualifies(o) ==> !Outranks(o, c)
  }

  /** A complete, compatible replica on an eligible peer that is not banned. */
  predicate Fit(c: Candidate) { c.complete && c.compatible && c.eligible && !c.banned }

  /** No fit candidate has a later epoch, nor a longer history in the same one, nor, at a tie, a smaller id. */
  predicate Foremost(c: Candidate, candidates: seq<Candidate>) {
    forall o :: o in candidates && Fit(o) ==>
      && o.acceptedEpoch <= c.acceptedEpoch
      && (o.acceptedEpoch == c.acceptedEpoch ==> o.sequence <= c.sequence)
      && (o.acceptedEpoch == c.acceptedEpoch && o.sequence == c.sequence ==> c.peer <= o.peer)
  }

  method ElectAuthority(candidates: seq<Candidate>) returns (elected: Option<PeerId>)
    ensures elected.None? <==> forall c :: c in candidates ==> !Qualifies(c)
    ensures elected.Some? ==> exists c :: Wins(c, candidates) && c.peer == elected.value
    ensures elected.Some? ==>
              exists c :: c in candidates && c.peer == elected.value && Fit(c) && Foremost(c, candidates)
    ensures elected.None? ==> forall c :: c in candidates ==> !Fit(c)
  {
    var best: Option<Candidate> := None;
    for i := 0 to |candidates|
      invariant best.None? ==> forall c :: c in candidates[..i] ==> !Qualifies(c)
      invariant best.Some? ==> Wins(best.value, candidates[..i])
    {
      var c := candidates[i];
      assert candidates[..i + 1] == candidates[..i] + [c];
      if Qualifies(c) && (best.None? || !Outranks(best.value, c)) {
        best := Some(c);
      }
    }
    assert candidates[..|candidates|] == candidates;
    return if best.Some? then Some(best.value.peer) else None;
  }

  /** Survivors that hold the same candidates, in whatever order and multiplicity, elect the same peer. */
  lemma SameCandidatesSameWinner(a: seq<Candidate>, b: seq<Candidate>, wa: Candidate, wb: Candidate)
    requires forall c :: c in a <==> c in b
    requires Wins(wa, a) && Wins(wb, b)
    ensures wa.peer == wb.peer
  {
  }
}
