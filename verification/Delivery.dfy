/**
  Replication end to end: what one undisturbed session achieves, and what holds
  over any number of sessions with delayed and repeated messages and kills.
*/
module Delivery {
  import opened Records
  import opened Replication
  import opened Replica

  // ----- what a negotiation has settled -----

  ghost predicate Queued(pending: seq<Resume>, hash: Digest) {
    exists x :: x in pending && x.hash == hash
  }

  /** Installed if something was left to send at the negotiation, and stuck for good otherwise. */
  predicate Decided(blobs: Blobs, f: Files, r: Resume) {
    r.hash in blobs && if r.offset < |blobs[r.hash]| then Complete(blobs, f, r.hash) else Stuck(blobs, f, r.hash)
  }

  /** Every negotiated blob is still queued or decided; one queued at its end was so from the start. */
  ghost predicate Settled(blobs: Blobs, missing: seq<Resume>, pending: seq<Resume>, f: Files) {
    && (forall r :: r in missing ==> Queued(pending, r.hash) || Decided(blobs, f, r))
    && (forall x :: x in pending ==> Queued(missing, x.hash))
    && (forall x :: x in pending && x.hash in blobs && x.offset == |blobs[x.hash]| ==> x in missing)
  }

  /** A blob negotiated at its end is stuck. */
  ghost predicate EndsStuck(blobs: Blobs, missing: seq<Resume>, f: Files) {
    forall r :: r in missing && r.hash in blobs && r.offset == |blobs[r.hash]| ==> Stuck(blobs, f, r.hash)
  }

  lemma NegotiationIsSound(blobs: Blobs, f: Files, manifest: seq<Digest>, missing: seq<Resume>)
    requires FilesSound(blobs, f) && Lists(blobs, f, manifest, missing) && forall h :: h in manifest ==> h in blobs
    ensures Negotiated(blobs, missing) && EndsStuck(blobs, missing, f) && Settled(blobs, missing, missing, f)
  {
    forall r | r in missing
      ensures r.hash in blobs && r.offset <= |blobs[r.hash]| && Queued(missing, r.hash) && r.hash !in f.installed
    {
      assert !Complete(blobs, f, r.hash);
    }
  }

  /** Skipping what needs nothing more and sending decides only what is stuck. */
  lemma {:induction false} SentSettles(blobs: Blobs, missing: seq<Resume>, s: Session, f: Files, now: Instant)
    requires s.Open? && s.flight.None? && Negotiated(blobs, s.pending)
    requires Negotiated(blobs, missing) && EndsStuck(blobs, missing, f) && Settled(blobs, missing, s.pending, f)
    ensures var s' := Sent(blobs, s, now);
            && InStep(blobs, s')
            && Settled(blobs, missing, if s'.Open? then s'.pending else [], f)
    decreases |s.pending|
  {
    if !(s.retryAt.Some? && s.retryAt.value > now) && s.pending != [] {
      assert s.pending[0] in s.pending;
      if s.pending[0].offset == |blobs[s.pending[0].hash]| {
        TailNegotiated(blobs, s.pending);
        SkipSettles(blobs, missing, s.pending, f);
        SentSettles(blobs, missing, s.(pending := s.pending[1..]), f, now);
      }
    }
  }

  lemma SkipSettles(blobs: Blobs, missing: seq<Resume>, pending: seq<Resume>, f: Files)
    requires Negotiated(blobs, missing) && Negotiated(blobs, pending) && pending != []
    requires EndsStuck(blobs, missing, f) && Settled(blobs, missing, pending, f)
    requires pending[0] in pending && pending[0].offset == |blobs[pending[0].hash]|
    ensures Settled(blobs, missing, pending[1..], f)
  {
    TailNegotiated(blobs, pending);
    var first := pending[0];
    forall r | r in missing
      ensures Queued(pending[1..], r.hash) || Decided(blobs, f, r)
    {
      if r.hash == first.hash { OneEntry(missing, r, first); }
      else if Queued(pending, r.hash) { StillQueued(pending, r.hash); }
    }
  }

  lemma OneEntry(missing: seq<Resume>, r: Resume, x: Resume)
    requires forall i, j :: 0 <= i < j < |missing| ==> missing[i].hash != missing[j].hash
    requires r in missing && x in missing && r.hash == x.hash
    ensures r == x
  {
  }

  lemma StillQueued(pending: seq<Resume>, hash: Digest)
    requires pending != [] && Queued(pending, hash) && pending[0].hash != hash
    ensures Queued(pending[1..], hash)
  {
    var x :| x in pending && x.hash == hash;
    assert x in pending[1..];
  }

  /** A finishing chunk that was stored decides its blob. */
  lemma FinishSettles(blobs: Blobs, missing: seq<Resume>, pending: seq<Resume>, f: Files)
    requires Negotiated(blobs, missing) && Negotiated(blobs, pending) && pending != []
    requires EndsStuck(blobs, missing, f) && Settled(blobs, missing, pending, f)
    requires Complete(blobs, f, pending[0].hash)
    ensures Settled(blobs, missing, pending[1..], f)
  {
    TailNegotiated(blobs, pending);
    forall r | r in missing
      ensures Queued(pending[1..], r.hash) || Decided(blobs, f, r)
    {
      if r.hash != pending[0].hash && Queued(pending, r.hash) { StillQueued(pending, r.hash); }
    }
  }

  /** An advance keeps the blob queued, before its end. */
  lemma AdvanceSettles(blobs: Blobs, missing: seq<Resume>, pending: seq<Resume>, offset: nat, f: Files)
    requires Negotiated(blobs, pending) && pending != [] && Settled(blobs, missing, pending, f)
    requires pending[0].hash in blobs && offset < |blobs[pending[0].hash]|
    ensures Settled(blobs, missing, [Resume(pending[0].hash, offset)] + pending[1..], f)
  {
    var advanced := [Resume(pending[0].hash, offset)] + pending[1..];
    assert pending[0] in pending && advanced[0] in advanced;
    forall r | r in missing && Queued(pending, r.hash)
      ensures Queued(advanced, r.hash)
    {
      if r.hash != pending[0].hash {
        StillQueued(pending, r.hash);
        var x :| x in pending[1..] && x.hash == r.hash;
        assert x in advanced;
      }
    }
  }

  /** The acknowledgement of a stored chunk, whichever it is, and the chunk sent next. */
  lemma AckSettles(blobs: Blobs, missing: seq<Resume>, s: Session, chunk: Chunk, f: Files, now: Instant)
    requires InStep(blobs, s) && s.Open? && Genuine(blobs, chunk) && (chunk.finished ==> Complete(blobs, f, chunk.hash))
    requires Negotiated(blobs, missing) && EndsStuck(blobs, missing, f) && Settled(blobs, missing, s.pending, f)
    requires Acknowledged(s, chunk, chunk.hash, chunk.offset + |chunk.data|).Open?
    ensures var after := Acknowledged(s, chunk, chunk.hash, chunk.offset + |chunk.data|);
            && Negotiated(blobs, after.pending)
            && var s' := Sent(blobs, after, now);
               InStep(blobs, s') && Settled(blobs, missing, if s'.Open? then s'.pending else [], f)
  {
    AcknowledgedStaysNegotiated(blobs, s, chunk);
    if chunk.finished {
      FinishSettles(blobs, missing, s.pending, f);
    } else {
      AdvanceSettles(blobs, missing, s.pending, chunk.offset + |chunk.data|, f);
    }
    SentSettles(blobs, missing, Acknowledged(s, chunk, chunk.hash, chunk.offset + |chunk.data|), f, now);
  }

  /** What is decided stays decided while chunks are stored. */
  lemma ReceivedSettles(blobs: Blobs, missing: seq<Resume>, pending: seq<Resume>, f: Files, chunk: Chunk)
    requires FilesSound(blobs, f) && Genuine(blobs, chunk) && Settled(blobs, missing, pending, f)
    ensures Settled(blobs, missing, pending, Received(blobs, f, chunk).0)
  {
    ReceivedKeeps(blobs, f, chunk);
    forall r | r in missing && Decided(blobs, f, r)
      ensures Decided(blobs, Received(blobs, f, chunk).0, r)
    {
      ReceivedStuckSame(blobs, f, chunk, r.hash);
    }
  }

  lemma ReceivedEndsStuck(blobs: Blobs, missing: seq<Resume>, f: Files, chunk: Chunk)
    requires FilesSound(blobs, f) && Genuine(blobs, chunk) && EndsStuck(blobs, missing, f)
    ensures EndsStuck(blobs, missing, Received(blobs, f, chunk).0)
  {
    forall r | r in missing
      ensures Stuck(blobs, Received(blobs, f, chunk).0, r.hash) <==> Stuck(blobs, f, r.hash)
    {
      ReceivedStuckSame(blobs, f, chunk, r.hash);
    }
  }

  // ----- one undisturbed session -----

  predicate AllComplete(blobs: Blobs, f: Files, manifest: seq<Digest>) {
    forall h :: h in manifest ==> Complete(blobs, f, h)
  }

  /**
    The session and the receiver's files; `answered` says the chunk in flight
    was stored there, `finalized` that the snapshot was committed.
  */
  datatype Exchange = Exchange(session: Session, files: Files, answered: bool, dropped: bool, finalized: bool)

  datatype Step = Receive | Ack(now: Instant) | Limit(now: Instant) | Retry(now: Instant) | Drop

  /** A finishing chunk after which nothing is missing commits the snapshot, and no chunk is expected any more. */
  predicate Finalizes(blobs: Blobs, f: Files, chunk: Chunk, manifest: seq<Digest>) {
    var (g, next) := Received(blobs, f, chunk);
    next.Some? && chunk.finished && AllComplete(blobs, g, manifest)
  }

  ghost predicate Next(blobs: Blobs, manifest: seq<Digest>, t: Exchange, t': Exchange, step: Step) {
    InStep(blobs, t.session) && match step
    case Receive =>
      && t.session.Open? && t.session.flight.Some? && !t.answered
      && var chunk := t.session.flight.value;
      && var (g, next) := Received(blobs, t.files, chunk);
         t' == if t.finalized || chunk.hash !in manifest then t.(session := Closed, dropped := true)
               else if next.None? then t.(files := g, session := Closed, dropped := true)
               else t.(files := g, answered := true, finalized := Finalizes(blobs, t.files, chunk, manifest))
    case Ack(now) =>
      && t.session.Open? && t.session.flight.Some? && t.answered
      && t' == t.(session := AckedSession(blobs, t.session, now), answered := false)
    case Limit(now) =>
      && t.session.Open? && t.session.flight.Some? && !t.answered
      && t' == t.(session := Refused(t.session, now))
    case Retry(now) => t' == t.(session := Retried(blobs, t.session, true, now))
    case Drop => t' == t.(session := Closed, dropped := true)
  }

  /** The receiver holds, of every pending blob, exactly its first `offset` bytes, and not yet the blob. */
  ghost predicate Aligned(blobs: Blobs, pending: seq<Resume>, f: Files) {
    forall r :: r in pending ==> |Part(f, r.hash)| == r.offset && !Complete(blobs, f, r.hash)
  }

  /** What is waited for: everything pending, but for a first chunk that is stored and not yet acknowledged. */
  ghost predicate Waiting(blobs: Blobs, t: Exchange)
    requires t.session.Open? && (t.answered ==> t.session.pending != [] && t.session.flight.Some?)
  {
    if !t.answered then Aligned(blobs, t.session.pending, t.files)
    else
      var chunk := t.session.flight.value;
      && Aligned(blobs, t.session.pending[1..], t.files)
      && (if chunk.finished then Complete(blobs, t.files, chunk.hash)
          else |Part(t.files, chunk.hash)| == chunk.offset + |chunk.data| && !Complete(blobs, t.files, chunk.hash))
  }

  ghost predicate Sound(blobs: Blobs, manifest: seq<Digest>, missing: seq<Resume>, t: Exchange) {
    && FilesSound(blobs, t.files) && InStep(blobs, t.session) && EndsStuck(blobs, missing, t.files)
    && (t.finalized <==> AllComplete(blobs, t.files, manifest))
    && (forall h :: h in manifest ==> Complete(blobs, t.files, h) || Queued(missing, h))
    && (!t.dropped ==> Settled(blobs, missing, if t.session.Open? then t.session.pending else [], t.files))
    && (t.session.Open? ==>
          && (t.answered ==> t.session.flight.Some? && t.session.pending != [])
          && Waiting(blobs, t))
  }

  /** The negotiation of a session: a sound receiver, a manifest, and its answer. */
  ghost predicate Negotiation(blobs: Blobs, f: Files, manifest: seq<Digest>, missing: seq<Resume>) {
    FilesSound(blobs, f) && (forall h :: h in manifest ==> h in blobs) && Lists(blobs, f, manifest, missing)
  }

  function Start(blobs: Blobs, f: Files, missing: seq<Resume>, now: Instant): Exchange
    requires Negotiated(blobs, missing)
  {
    Exchange(Sent(blobs, Open(missing, None, None), now), f, false, false, missing == [])
  }

  lemma SentAligned(blobs: Blobs, s: Session, f: Files, now: Instant)
    requires s.Open? && Negotiated(blobs, s.pending) && Aligned(blobs, s.pending, f)
    ensures var s' := Sent(blobs, s, now); s'.Open? ==> Aligned(blobs, s'.pending, f)
  {
    SentSkips(blobs, s, now);
  }

  lemma StartIsSound(blobs: Blobs, f: Files, manifest: seq<Digest>, missing: seq<Resume>, now: Instant)
    requires Negotiation(blobs, f, manifest, missing)
    ensures Negotiated(blobs, missing) && Sound(blobs, manifest, missing, Start(blobs, f, missing, now))
  {
    NegotiationIsSound(blobs, f, manifest, missing);
    SentSettles(blobs, missing, Open(missing, None, None), f, now);
    var s := Sent(blobs, Open(missing, None, None), now);
    assert Aligned(blobs, missing, f) by { NothingMissingIsThere(blobs, f, manifest, missing); }
    SentAligned(blobs, Open(missing, None, None), f, now);
    assert missing == [] <==> AllComplete(blobs, f, manifest) by { EmptyMeansComplete(blobs, f, manifest, missing); }
  }

  lemma NothingMissingIsThere(blobs: Blobs, f: Files, manifest: seq<Digest>, missing: seq<Resume>)
    requires Lists(blobs, f, manifest, missing)
    ensures Aligned(blobs, missing, f)
  {
  }

  lemma EmptyMeansComplete(blobs: Blobs, f: Files, manifest: seq<Digest>, missing: seq<Resume>)
    requires Lists(blobs, f, manifest, missing)
    ensures missing == [] <==> AllComplete(blobs, f, manifest)
  {
    if missing != [] {
      assert missing[0] in missing;
      assert !Complete(blobs, f, missing[0].hash);
    }
  }

  lemma NextChunkFits(blobs: Blobs, manifest: seq<Digest>, missing: seq<Resume>, t: Exchange)
    requires (forall r :: r in missing ==> r.hash in manifest) && Sound(blobs, manifest, missing, t) && !t.dropped
    requires t.session.Open? && t.session.flight.Some? && !t.answered
    ensures var chunk := t.session.flight.value;
            && Genuine(blobs, chunk) && Fits(blobs, t.files, chunk) && chunk.hash in manifest && !t.finalized
            && !Complete(blobs, t.files, chunk.hash) && t.session.pending != []
            && t.session.pending[0] == Resume(chunk.hash, chunk.offset)
  {
    var pending, chunk := t.session.pending, t.session.flight.value;
    assert pending[0] in pending && Queued(missing, chunk.hash) && !Complete(blobs, t.files, chunk.hash);
  }

  lemma StoredStillWaits(blobs: Blobs, pending: seq<Resume>, f: Files, chunk: Chunk)
    requires FilesSound(blobs, f) && Genuine(blobs, chunk) && Fits(blobs, f, chunk) && Aligned(blobs, pending, f)
    requires pending != [] && pending[0] == Resume(chunk.hash, chunk.offset) && Negotiated(blobs, pending)
    ensures var g := Received(blobs, f, chunk).0;
            && Aligned(blobs, pending[1..], g)
            && if chunk.finished then Complete(blobs, g, chunk.hash)
               else |Part(g, chunk.hash)| == chunk.offset + |chunk.data| && !Complete(blobs, g, chunk.hash)
  {
    ReceivedKeeps(blobs, f, chunk);
    TailNegotiated(blobs, pending);
    assert pending[0] in pending;
  }

  lemma ReceiveKeeps(blobs: Blobs, manifest: seq<Digest>, missing: seq<Resume>, t: Exchange, t': Exchange)
    requires Negotiated(blobs, missing) && (forall r :: r in missing ==> r.hash in manifest)
    requires Sound(blobs, manifest, missing, t) && !t.dropped && Next(blobs, manifest, t, t', Receive)
    ensures Sound(blobs, manifest, missing, t') && !t'.dropped
  {
    var pending, chunk := t.session.pending, t.session.flight.value;
    NextChunkFits(blobs, manifest, missing, t);
    ReceivedKeeps(blobs, t.files, chunk);
    ReceivedSettles(blobs, missing, pending, t.files, chunk);
    ReceivedEndsStuck(blobs, missing, t.files, chunk);
    StoredStillWaits(blobs, pending, t.files, chunk);
    if !chunk.finished { assert !AllComplete(blobs, t'.files, manifest); }
  }

  /** The answer to the stored chunk leaves what is then pending in step with the files. */
  lemma AckAligned(blobs: Blobs, t: Exchange)
    requires InStep(blobs, t.session) && t.session.Open? && t.session.flight.Some? && t.answered && Waiting(blobs, t)
    ensures var chunk := t.session.flight.value;
            var after := Acknowledged(t.session, chunk, chunk.hash, chunk.offset + |chunk.data|);
            after.Open? && Negotiated(blobs, after.pending) && Aligned(blobs, after.pending, t.files)
  {
    var chunk, rest := t.session.flight.value, t.session.pending[1..];
    AcknowledgedStaysNegotiated(blobs, t.session, chunk);
    if !chunk.finished {
      assert forall r :: r in [Resume(chunk.hash, chunk.offset + |chunk.data|)] + rest ==>
               r == Resume(chunk.hash, chunk.offset + |chunk.data|) || r in rest;
    }
  }

  lemma AckSends(blobs: Blobs, missing: seq<Resume>, t: Exchange, now: Instant)
    requires Negotiated(blobs, missing) && EndsStuck(blobs, missing, t.files) && InStep(blobs, t.session)
    requires t.session.Open? && t.session.flight.Some? && t.answered && Waiting(blobs, t)
    requires Settled(blobs, missing, t.session.pending, t.files)
    ensures var s' := AckedSession(blobs, t.session, now);
            && InStep(blobs, s') && Settled(blobs, missing, if s'.Open? then s'.pending else [], t.files)
            && (s'.Open? ==> Aligned(blobs, s'.pending, t.files))
  {
    var chunk := t.session.flight.value;
    AckAligned(blobs, t);
    AckSettles(blobs, missing, t.session, chunk, t.files, now);
    SentAligned(blobs, Acknowledged(t.session, chunk, chunk.hash, chunk.offset + |chunk.data|), t.files, now);
  }

  lemma AckKeeps(blobs: Blobs, manifest: seq<Digest>, missing: seq<Resume>, t: Exchange, t': Exchange, now: Instant)
    requires Negotiated(blobs, missing)
    requires Sound(blobs, manifest, missing, t) && !t.dropped && Next(blobs, manifest, t, t', Ack(now))
    ensures Sound(blobs, manifest, missing, t')
  {
    AckSends(blobs, missing, t, now);
  }

  /** Every step keeps an undisturbed session sound, and none of its own ends it early. */
  lemma SessionKeeps(blobs: Blobs, manifest: seq<Digest>, missing: seq<Resume>, t: Exchange, t': Exchange, step: Step)
    requires Negotiated(blobs, missing) && (forall r :: r in missing ==> r.hash in manifest)
    requires Sound(blobs, manifest, missing, t) && !t.dropped && Next(blobs, manifest, t, t', step)
    ensures Sound(blobs, manifest, missing, t') && (t'.dropped ==> step.Drop?)
  {
    match step {
      case Receive => ReceiveKeeps(blobs, manifest, missing, t, t');
      case Ack(now) => AckKeeps(blobs, manifest, missing, t, t', now);
      case Limit(_) =>
      case Retry(now) =>
        if t.session.Open? && t.session.flight.None? {
          SentSettles(blobs, missing, t.session, t.files, now);
          SentAligned(blobs, t.session, t.files, now);
        }
      case Drop =>
    }
  }

  ghost predicate Session(blobs: Blobs, f: Files, manifest: seq<Digest>, missing: seq<Resume>, ts: seq<Exchange>,
                          steps: seq<Step>, now: Instant)
    requires Negotiated(blobs, missing)
  {
    && |ts| == |steps| + 1 && ts[0] == Start(blobs, f, missing, now)
    && forall i :: 0 <= i < |steps| ==> Next(blobs, manifest, ts[i], ts[i + 1], steps[i]) && steps[i] != Drop
  }

  lemma {:induction false} SessionStaysSound(blobs: Blobs, f: Files, manifest: seq<Digest>, missing: seq<Resume>,
                                             ts: seq<Exchange>, steps: seq<Step>, now: Instant, k: nat)
    requires Negotiation(blobs, f, manifest, missing) && Negotiated(blobs, missing)
    requires Session(blobs, f, manifest, missing, ts, steps, now) && k < |ts|
    ensures Sound(blobs, manifest, missing, ts[k]) && !ts[k].dropped
  {
    if k == 0 {
      StartIsSound(blobs, f, manifest, missing, now);
    } else {
      SessionStaysSound(blobs, f, manifest, missing, ts, steps, now, k - 1);
      SessionKeeps(blobs, manifest, missing, ts[k - 1], ts[k], steps[k - 1]);
    }
  }

  /** Something was left to send of every negotiated blob. */
  ghost predicate AllUnfinished(blobs: Blobs, missing: seq<Resume>)
    requires Negotiated(blobs, missing)
  {
    forall r :: r in missing ==> r.offset < |blobs[r.hash]|
  }

  /**
    A session that ends on its own has installed, byte for byte, exactly the
    negotiated blobs of which something was left to send, and the snapshot is
    committed exactly if that holds of all of them.
  */
  lemma SessionDelivers(blobs: Blobs, f: Files, manifest: seq<Digest>, missing: seq<Resume>, ts: seq<Exchange>,
                        steps: seq<Step>, now: Instant)
    requires Negotiation(blobs, f, manifest, missing) && Negotiated(blobs, missing)
    requires Session(blobs, f, manifest, missing, ts, steps, now) && ts[|steps|].session.Closed?
    ensures forall r :: r in missing ==>
              (Complete(blobs, ts[|steps|].files, r.hash) <==> r.offset < |blobs[r.hash]|)
    ensures ts[|steps|].finalized <==> AllUnfinished(blobs, missing)
  {
    var last := ts[|steps|];
    SessionStaysSound(blobs, f, manifest, missing, ts, steps, now, |steps|);
    forall r | r in missing
      ensures Complete(blobs, last.files, r.hash) <==> r.offset < |blobs[r.hash]|
    {
      assert Decided(blobs, last.files, r);
    }
    ClosedIsFinalized(blobs, manifest, missing, last);
  }

  lemma ClosedIsFinalized(blobs: Blobs, manifest: seq<Digest>, missing: seq<Resume>, t: Exchange)
    requires Negotiated(blobs, missing) && Sound(blobs, manifest, missing, t)
    requires forall r :: r in missing ==>
               r.hash in manifest && (Complete(blobs, t.files, r.hash) <==> r.offset < |blobs[r.hash]|)
    ensures t.finalized <==> AllUnfinished(blobs, missing)
  {
    if AllUnfinished(blobs, missing) {
      forall h | h in manifest
        ensures Complete(blobs, t.files, h)
      {
        if Queued(missing, h) { var r :| r in missing && r.hash == h; }
      }
    }
  }
}
