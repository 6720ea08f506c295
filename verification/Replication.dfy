/** Resumable replication of a snapshot's blobs to one peer, chunk by chunk. */
module Replication {
  import opened Records

  type Byte = bv8
  const MAX_CHUNK: nat := 256 * 1024
  const BACKOFF_MS: nat := 11_000

  /** The encoded blobs the snapshot refers to, by hash. */
  type Blobs = map<Digest, seq<Byte>>

  datatype Resume = Resume(hash: Digest, offset: nat)
  datatype Chunk = Chunk(hash: Digest, offset: nat, data: seq<Byte>, finished: bool)

  /** The sender's record of one negotiated transfer; `flight` is the chunk it awaits an answer for. */
  datatype Session = Closed | Open(pending: seq<Resume>, flight: Option<Chunk>, retryAt: Option<Instant>)

  /** Every pending blob is of this snapshot, once, and not past its end. */
  ghost predicate Negotiated(blobs: Blobs, pending: seq<Resume>) {
    && (forall r :: r in pending ==> r.hash in blobs && r.offset <= |blobs[r.hash]|)
    && (forall i, j :: 0 <= i < j < |pending| ==> pending[i].hash != pending[j].hash)
  }

  function ChunkEnd(size: nat, offset: nat): (end: nat)
    requires offset <= size
    ensures offset <= end <= size && (offset < size ==> offset < end)
  {
    if size - offset <= MAX_CHUNK then size else offset + MAX_CHUNK
  }

  function NextChunk(blobs: Blobs, r: Resume): Chunk
    requires r.hash in blobs && r.offset <= |blobs[r.hash]|
  {
    var blob := blobs[r.hash];
    var end := ChunkEnd(|blob|, r.offset);
    Chunk(r.hash, r.offset, blob[r.offset..end], end == |blob|)
  }

  function Sent(blobs: Blobs, s: Session, now: Instant): (s': Session)
    requires s.Open? ==> Negotiated(blobs, s.pending)
    decreases if s.Open? then |s.pending| else 0
  {
    if s.Closed? || s.flight.Some? || (s.retryAt.Some? && s.retryAt.value > now) then s
    else if s.pending == [] then Closed
    else if s.pending[0].offset == |blobs[s.pending[0].hash]| then Sent(blobs, s.(pending := s.pending[1..]), now)
    else Open(s.pending, Some(NextChunk(blobs, s.pending[0])), None)
  }

  /**
    The answer to `chunk`, which need not be the one in flight; one that does
    not match it or does not advance the first blob ends the session.
  */
  function Acknowledged(s: Session, chunk: Chunk, hash: Digest, offset: nat): Session {
    if s.Closed? || hash != chunk.hash || offset != chunk.offset + |chunk.data| then Closed
    else if s.pending == [] || s.pending[0].hash != hash || offset <= s.pending[0].offset then Closed
    else Open(if chunk.finished then s.pending[1..] else [Resume(hash, offset)] + s.pending[1..], None, None)
  }

  function Refused(s: Session, now: Instant): Session {
    if s.Closed? then Closed else Open(s.pending, None, Some(now + BACKOFF_MS))
  }

  /** The periodic retry: a due back-off sends again, unless the peer is gone. */
  function Retried(blobs: Blobs, s: Session, connected: bool, now: Instant): Session
    requires s.Open? ==> Negotiated(blobs, s.pending)
  {
    if s.Closed? || s.flight.Some? || s.retryAt.None? || s.retryAt.value > now then s
    else if connected then Sent(blobs, s, now)
    else Closed
  }

  /** What is in flight is always the next chunk of the first pending blob. */
  ghost predicate InStep(blobs: Blobs, s: Session) {
    s.Open? ==>
      && Negotiated(blobs, s.pending)
      && (s.flight.Some? ==>
            && s.pending != [] && s.pending[0] in s.pending && s.flight.value == NextChunk(blobs, s.pending[0])
            && s.pending[0].offset < |blobs[s.pending[0].hash]|)
  }

  // ----- the sender -----

  class Sender {
    const blobs: Blobs
    var open: bool
    var pending: seq<Resume>
    var flight: Option<Chunk>
    var retryAt: Option<Instant>

    function State(): Session
      reads this
    {
      if open then Open(pending, flight, retryAt) else Closed
    }

    ghost predicate Valid()
      reads this
    {
      InStep(blobs, State())
    }

    /** The peer's answer to the manifest: which blobs it lacks, from which offset. */
    constructor (blobs: Blobs, missing: seq<Resume>, now: Instant)
      requires Negotiated(blobs, missing)
      ensures Valid() && this.blobs == blobs && State() == Sent(blobs, Open(missing, None, None), now)
    {
      this.blobs := blobs;
      open, pending, flight, retryAt := true, missing, None, None;
      new;
      SendNextChunk(now);
    }

    /** Sends the next chunk unless one is in flight or a back-off runs; skips blobs that are complete. */
    method SendNextChunk(now: Instant)
      requires Valid()
      modifies this
      ensures Valid() && State() == Sent(blobs, old(State()), now)
    {
      while open && flight.None? && !(retryAt.Some? && retryAt.value > now)
        invariant Valid() && Sent(blobs, State(), now) == Sent(blobs, old(State()), now)
        decreases open, |pending|, flight.None?
      {
        if pending == [] {
          open := false;
          return;
        }
        var r := pending[0];
        assert r in pending;
        if r.offset == |blobs[r.hash]| {
          assert forall x :: x in pending[1..] ==> x in pending;
          pending := pending[1..];
        } else {
          flight, retryAt := Some(NextChunk(blobs, r)), None;
          return;
        }
      }
    }

    method HandleAccepted(chunk: Chunk, hash: Digest, offset: nat, now: Instant)
      requires Valid() && Genuine(blobs, chunk)
      modifies this
      ensures Valid() && State() == Sent(blobs, Acknowledged(old(State()), chunk, hash, offset), now)
    {
      if !open {
        return;
      }
      if hash != chunk.hash || offset != chunk.offset + |chunk.data|
         || pending == [] || pending[0].hash != hash || offset <= pending[0].offset
      {
        open := false;
        return;
      }
      AcknowledgedStaysNegotiated(blobs, State(), chunk);
      flight, retryAt := None, None;
      if chunk.finished {
        pending := pending[1..];
      } else {
        pending := [Resume(hash, offset)] + pending[1..];
      }
      SendNextChunk(now);
    }

    method HandleRateLimited(now: Instant)
      requires Valid()
      modifies this
      ensures Valid() && State() == Refused(old(State()), now)
    {
      if open {
        flight, retryAt := None, Some(now + BACKOFF_MS);
      }
    }

    method RetryDue(connected: bool, now: Instant)
      requires Valid()
      modifies this
      ensures Valid() && State() == Retried(blobs, old(State()), connected, now)
    {
      if open && flight.None? && retryAt.Some? && retryAt.value <= now {
        if connected {
          SendNextChunk(now);
        } else {
          open := false;
        }
      }
    }
  }

  // ----- steps of the sender -----

  /** Sending only takes blobs out of the queue. */
  lemma {:induction false} SentSkips(blobs: Blobs, s: Session, now: Instant)
    requires s.Open? && Negotiated(blobs, s.pending)
    ensures var s' := Sent(blobs, s, now); s'.Open? ==> forall x :: x in s'.pending ==> x in s.pending
    decreases |s.pending|
  {
    if s.flight.None? && !(s.retryAt.Some? && s.retryAt.value > now) && s.pending != [] {
      TailNegotiated(blobs, s.pending);
      assert s.pending[0] in s.pending;
      if s.pending[0].offset == |blobs[s.pending[0].hash]| { SentSkips(blobs, s.(pending := s.pending[1..]), now); }
    }
  }

  /** A chunk the sender put on the wire: the next one of some blob at some offset before its end. */
  predicate Genuine(blobs: Blobs, chunk: Chunk) {
    && chunk.hash in blobs && chunk.offset < |blobs[chunk.hash]|
    && chunk == NextChunk(blobs, Resume(chunk.hash, chunk.offset))
  }

  /** The session after the chunk in flight is acknowledged and the next one sent. */
  function AckedSession(blobs: Blobs, s: Session, now: Instant): (s': Session)
    requires InStep(blobs, s) && s.Open? && s.flight.Some?
  {
    var chunk := s.flight.value;
    var after := Acknowledged(s, chunk, chunk.hash, chunk.offset + |chunk.data|);
    AcknowledgedStaysNegotiated(blobs, s, chunk);
    Sent(blobs, after, now)
  }

  lemma TailNegotiated(blobs: Blobs, pending: seq<Resume>)
    requires Negotiated(blobs, pending) && pending != []
    ensures Negotiated(blobs, pending[1..])
    ensures forall x :: x in pending[1..] ==> x in pending && x.hash != pending[0].hash
  {
  }

  /** Whichever chunk an acknowledgement answers, what it leaves of the queue is of this snapshot and in range. */
  lemma AcknowledgedStaysNegotiated(blobs: Blobs, s: Session, chunk: Chunk)
    requires InStep(blobs, s) && s.Open? && Genuine(blobs, chunk)
    ensures var after := Acknowledged(s, chunk, chunk.hash, chunk.offset + |chunk.data|);
            after.Open? ==>
              && s.pending != [] && s.pending[0].hash == chunk.hash && after.flight.None? && after.retryAt.None?
              && Negotiated(blobs, after.pending)
              && after.pending == if chunk.finished then s.pending[1..]
                 else [Resume(chunk.hash, chunk.offset + |chunk.data|)] + s.pending[1..]
    ensures s.flight == Some(chunk) ==> Acknowledged(s, chunk, chunk.hash, chunk.offset + |chunk.data|).Open?
  {
    if s.pending != [] { TailNegotiated(blobs, s.pending); }
  }

  // ----- progress -----

  function Remaining(blobs: Blobs, pending: seq<Resume>): (n: nat)
    requires forall r :: r in pending ==> r.hash in blobs && r.offset <= |blobs[r.hash]|
  {
    if pending == [] then 0
    else
      assert pending[0] in pending && forall r :: r in pending[1..] ==> r in pending;
      |blobs[pending[0].hash]| - pending[0].offset + 1 + Remaining(blobs, pending[1..])
  }

  function Measure(blobs: Blobs, s: Session): nat
    requires InStep(blobs, s)
  {
    if s.Closed? then 0 else Remaining(blobs, s.pending)
  }

  lemma {:induction false} SentNeverGrows(blobs: Blobs, s: Session, now: Instant)
    requires InStep(blobs, s)
    ensures InStep(blobs, Sent(blobs, s, now)) && Measure(blobs, Sent(blobs, s, now)) <= Measure(blobs, s)
    decreases if s.Open? then |s.pending| else 0
  {
    if s.Open? && s.flight.None? && s.pending != [] && !(s.retryAt.Some? && s.retryAt.value > now) {
      assert s.pending[0] in s.pending;
      if s.pending[0].offset == |blobs[s.pending[0].hash]| {
        TailNegotiated(blobs, s.pending);
        SentNeverGrows(blobs, s.(pending := s.pending[1..]), now);
      }
    }
  }

  /** Every acknowledgement strictly shrinks what remains; a refusal never grows it. */
  lemma AckMakesProgress(blobs: Blobs, s: Session, now: Instant)
    requires InStep(blobs, s) && s.Open? && s.flight.Some?
    ensures InStep(blobs, AckedSession(blobs, s, now))
    ensures Measure(blobs, AckedSession(blobs, s, now)) < Measure(blobs, s)
    ensures Measure(blobs, Refused(s, now)) == Measure(blobs, s)
  {
    var chunk := s.flight.value;
    var after := Acknowledged(s, chunk, chunk.hash, chunk.offset + |chunk.data|);
    AcknowledgedStaysNegotiated(blobs, s, chunk);
    assert after.pending != [] && !chunk.finished ==> after.pending[1..] == s.pending[1..];
    SentNeverGrows(blobs, after, now);
  }

  /** A refused chunk is sent again unchanged, from the same offset, and not before the back-off is over. */
  lemma RefusedIsResent(blobs: Blobs, s: Session, refusedAt: Instant, now: Instant)
    requires InStep(blobs, s) && s.Open? && s.flight.Some?
    ensures var retried := Retried(blobs, Refused(s, refusedAt), true, now);
            retried == if now < refusedAt + BACKOFF_MS then Refused(s, refusedAt) else Open(s.pending, s.flight, None)
  {
  }
}
