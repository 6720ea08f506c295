/**
  Replication between two peers over any number of manifests and sessions.
  Chunks and answers are delayed, repeated, reordered and lost, the sender takes
  up old answers, and the receiver is killed anywhere.
*/
module Resumption {
  import opened Records
  import opened Replication
  import opened Replica
  import opened Delivery

  datatype Offer = Offer(manifest: seq<Digest>, missing: seq<Resume>)
  datatype Request = Request(manifest: seq<Digest>, chunk: Chunk)

  /**
    The receiver's files, the manifest it expects chunks for and the snapshots
    it committed; the sender's session, the offer it came from and whether it
    was cut short; and what is on the wire: offers, chunks, stored chunks.
  */
  datatype Link = Link(
    files: Files, expected: Option<seq<Digest>>, finalized: set<seq<Digest>>,
    session: Session, offer: Option<Offer>, dropped: bool,
    offers: set<Offer>, sent: set<Request>, stored: set<Request>)

  datatype Move =
    | Manifest(manifest: seq<Digest>, missing: seq<Resume>)
    | Begin(offer: Offer, now: Instant)
    | Arrive(request: Request)
    | GetAck(request: Request, now: Instant)
    | Limit(request: Request, now: Instant)
    | Retry(connected: bool, now: Instant)
    | Drop
    | Kill(request: Request, death: Death)
    | Restart

  /** The session moves on, and what it has in flight is on the wire. */
  function Post(l: Link, s: Session): Link
    requires s.Open? ==> l.offer.Some?
  {
    l.(session := s,
       sent := l.sent + if s.Open? && s.flight.Some? then {Request(l.offer.value.manifest, s.flight.value)} else {})
  }

  function Cut(l: Link): Link {
    l.(session := Closed, dropped := l.dropped || l.session.Open?)
  }

  function Offered(l: Link, manifest: seq<Digest>, missing: seq<Resume>): Link {
    l.(expected := if missing == [] then None else Some(manifest),
       finalized := l.finalized + (if missing == [] then {manifest} else {}),
       offers := l.offers + {Offer(manifest, missing)})
  }

  function Begun(blobs: Blobs, l: Link, o: Offer, now: Instant): Link
    requires Negotiated(blobs, o.missing)
  {
    var begun := l.(offer := Some(o), dropped := false);
    if o.missing == [] then begun.(session := Closed) else Post(begun, Sent(blobs, Open(o.missing, None, None), now))
  }

  /** A chunk is stored only for the manifest expected; one that completes it commits the snapshot. */
  function Arrived(blobs: Blobs, l: Link, q: Request): Link {
    if l.expected.None? || q.chunk.hash !in l.expected.value then l
    else
      var m := l.expected.value;
      var (g, next) := Received(blobs, l.files, q.chunk);
      var final := Finalizes(blobs, l.files, q.chunk, m);
      l.(files := g,
         stored := l.stored + (if next.Some? then {q} else {}),
         finalized := l.finalized + (if final then {m} else {}),
         expected := if final then None else l.expected)
  }

  /** The answer to a stored chunk, of this session or an earlier one. */
  function Answered(blobs: Blobs, l: Link, q: Request, now: Instant): Link
    requires InStep(blobs, l.session) && Genuine(blobs, q.chunk) && (l.session.Open? ==> l.offer.Some?)
  {
    if l.session.Closed? then l
    else if l.offer.value.manifest != q.manifest then Cut(l)
    else
      var after := Acknowledged(l.session, q.chunk, q.chunk.hash, q.chunk.offset + |q.chunk.data|);
      AcknowledgedStaysNegotiated(blobs, l.session, q.chunk);
      if after.Closed? then Cut(l) else Post(l, Sent(blobs, after, now))
  }

  function Limited(l: Link, q: Request, now: Instant): Link {
    if l.session.Open? && l.offer.Some? && l.offer.value.manifest == q.manifest then
      l.(session := Refused(l.session, now))
    else l
  }

  function RetriedLink(blobs: Blobs, l: Link, connected: bool, now: Instant): Link
    requires InStep(blobs, l.session) && (l.session.Open? ==> l.offer.Some?)
  {
    var s := Retried(blobs, l.session, connected, now);
    if s.Closed? && !connected then Cut(l) else Post(l, s)
  }

  /** The receiver's process ends, and with it the connection and what it held in memory. */
  function Ended(l: Link, f: Files): Link {
    l.(files := f, expected := None, session := Closed, dropped := true, offers := {}, sent := {}, stored := {})
  }

  ghost predicate Next(blobs: Blobs, l: Link, l': Link, move: Move) {
    InStep(blobs, l.session) && (l.session.Open? ==> l.offer.Some?) && match move
    case Manifest(m, missing) =>
      && (forall h :: h in m ==> h in blobs) && Lists(blobs, l.files, m, missing)
      && l' == Offered(l, m, missing)
    case Begin(o, now) => o in l.offers && Negotiated(blobs, o.missing) && l' == Begun(blobs, l, o, now)
    case Arrive(q) => q in l.sent && l' == Arrived(blobs, l, q)
    case GetAck(q, now) => q in l.stored && Genuine(blobs, q.chunk) && l' == Answered(blobs, l, q, now)
    case Limit(q, now) => q in l.sent && l' == Limited(l, q, now)
    case Retry(connected, now) => l' == RetriedLink(blobs, l, connected, now)
    case Drop => l' == Cut(l)
    case Kill(q, death) =>
      && q in l.sent && l.expected.Some? && q.chunk.hash in l.expected.value
      && l' == Ended(l, KilledAt(blobs, l.files, q.chunk, death))
    case Restart => l' == Ended(l, l.files)
  }

  // ----- what every state keeps -----

  /** What is on the wire is genuine; a finishing chunk that was stored is installed; offers at their end are stuck. */
  ghost predicate WireInv(blobs: Blobs, l: Link) {
    && (forall q :: q in l.sent ==> Genuine(blobs, q.chunk))
    && (forall q :: q in l.stored ==> Genuine(blobs, q.chunk))
    && (forall q :: q in l.stored && q.chunk.finished ==> Complete(blobs, l.files, q.chunk.hash))
    && (forall o :: o in l.offers ==> Negotiated(blobs, o.missing) && EndsStuck(blobs, o.missing, l.files))
  }

  ghost predicate SessionInv(blobs: Blobs, l: Link) {
    && InStep(blobs, l.session) && (l.session.Open? ==> l.offer.Some? && !l.dropped)
    && (l.offer.Some? && !l.dropped ==>
          var missing := l.offer.value.missing;
          && Negotiated(blobs, missing) && EndsStuck(blobs, missing, l.files)
          && Settled(blobs, missing, if l.session.Open? then l.session.pending else [], l.files))
  }

  ghost predicate LinkInv(blobs: Blobs, l: Link) {
    FilesSound(blobs, l.files) && WireInv(blobs, l) && SessionInv(blobs, l)
  }

  /** Nothing on the wire, no session, and a receiver without files. */
  predicate Init(l: Link) {
    && l.files == Files(map[], map[]) && l.expected.None? && l.finalized == {}
    && l.session.Closed? && l.offer.None? && l.offers == {} && l.sent == {} && l.stored == {}
  }

  lemma FlightIsGenuine(blobs: Blobs, s: Session)
    requires InStep(blobs, s) && s.Open? && s.flight.Some?
    ensures Genuine(blobs, s.flight.value)
  {
    assert s.pending[0] in s.pending;
  }

  lemma PostKeepsWire(blobs: Blobs, l: Link, s: Session)
    requires WireInv(blobs, l) && InStep(blobs, s) && (s.Open? ==> l.offer.Some?)
    ensures WireInv(blobs, Post(l, s))
  {
    if s.Open? && s.flight.Some? { FlightIsGenuine(blobs, s); }
  }

  lemma ManifestKeeps(blobs: Blobs, l: Link, m: seq<Digest>, missing: seq<Resume>)
    requires LinkInv(blobs, l) && (forall h :: h in m ==> h in blobs) && Lists(blobs, l.files, m, missing)
    ensures LinkInv(blobs, Offered(l, m, missing))
  {
    NegotiationIsSound(blobs, l.files, m, missing);
  }

  lemma BeginKeeps(blobs: Blobs, l: Link, o: Offer, now: Instant)
    requires LinkInv(blobs, l) && o in l.offers
    ensures LinkInv(blobs, Begun(blobs, l, o, now))
  {
    if o.missing != [] {
      assert Settled(blobs, o.missing, o.missing, l.files) by { SelfSettled(blobs, o.missing, l.files); }
      SentSettles(blobs, o.missing, Open(o.missing, None, None), l.files, now);
      PostKeepsWire(blobs, l.(offer := Some(o), dropped := false), Sent(blobs, Open(o.missing, None, None), now));
    }
  }

  lemma SelfSettled(blobs: Blobs, missing: seq<Resume>, f: Files)
    ensures Settled(blobs, missing, missing, f)
  {
    assert forall r :: r in missing ==> Queued(missing, r.hash);
  }

  lemma ArriveKeepsOffers(blobs: Blobs, l: Link, chunk: Chunk)
    requires LinkInv(blobs, l) && Genuine(blobs, chunk)
    ensures forall o :: o in l.offers ==> EndsStuck(blobs, o.missing, Received(blobs, l.files, chunk).0)
  {
    forall o | o in l.offers
      ensures EndsStuck(blobs, o.missing, Received(blobs, l.files, chunk).0)
    {
      ReceivedEndsStuck(blobs, o.missing, l.files, chunk);
    }
  }

  lemma ArriveKeeps(blobs: Blobs, l: Link, q: Request)
    requires LinkInv(blobs, l) && q in l.sent
    ensures LinkInv(blobs, Arrived(blobs, l, q))
  {
    ReceivedKeeps(blobs, l.files, q.chunk);
    ArriveKeepsOffers(blobs, l, q.chunk);
    if l.offer.Some? && !l.dropped {
      var missing := l.offer.value.missing;
      ReceivedSettles(blobs, missing, if l.session.Open? then l.session.pending else [], l.files, q.chunk);
      ReceivedEndsStuck(blobs, missing, l.files, q.chunk);
    }
  }

  lemma AdvanceKeeps(blobs: Blobs, l: Link, chunk: Chunk, now: Instant)
    requires LinkInv(blobs, l) && l.session.Open? && Genuine(blobs, chunk)
    requires chunk.finished ==> Complete(blobs, l.files, chunk.hash)
    requires Acknowledged(l.session, chunk, chunk.hash, chunk.offset + |chunk.data|).Open?
    ensures var after := Acknowledged(l.session, chunk, chunk.hash, chunk.offset + |chunk.data|);
            Negotiated(blobs, after.pending) && LinkInv(blobs, Post(l, Sent(blobs, after, now)))
  {
    AckSettles(blobs, l.offer.value.missing, l.session, chunk, l.files, now);
    PostKeepsWire(blobs, l, Sent(blobs, Acknowledged(l.session, chunk, chunk.hash, chunk.offset + |chunk.data|), now));
  }

  lemma AnswerKeeps(blobs: Blobs, l: Link, q: Request, now: Instant)
    requires LinkInv(blobs, l) && q in l.stored
    ensures LinkInv(blobs, Answered(blobs, l, q, now))
  {
    if l.session.Open? && l.offer.value.manifest == q.manifest {
      if Acknowledged(l.session, q.chunk, q.chunk.hash, q.chunk.offset + |q.chunk.data|).Open? {
        AdvanceKeeps(blobs, l, q.chunk, now);
      }
    }
  }

  lemma RetryKeeps(blobs: Blobs, l: Link, connected: bool, now: Instant)
    requires LinkInv(blobs, l)
    ensures LinkInv(blobs, RetriedLink(blobs, l, connected, now))
  {
    var s := Retried(blobs, l.session, connected, now);
    if s != l.session && connected { SentSettles(blobs, l.offer.value.missing, l.session, l.files, now); }
    if InStep(blobs, s) { PostKeepsWire(blobs, l, s); }
  }

  /** Every move, a kill included, keeps files, wire and session sound. */
  lemma NextKeeps(blobs: Blobs, l: Link, l': Link, move: Move)
    requires LinkInv(blobs, l) && Next(blobs, l, l', move)
    ensures LinkInv(blobs, l')
  {
    match move {
      case Manifest(m, missing) => ManifestKeeps(blobs, l, m, missing);
      case Begin(o, now) => BeginKeeps(blobs, l, o, now);
      case Arrive(q) => ArriveKeeps(blobs, l, q);
      case GetAck(q, now) => AnswerKeeps(blobs, l, q, now);
      case Limit(_, _) =>
      case Retry(connected, now) => RetryKeeps(blobs, l, connected, now);
      case Drop =>
      case Kill(q, death) => KillKeeps(blobs, l.files, q.chunk, death);
      case Restart =>
    }
  }

  ghost predicate Run(blobs: Blobs, links: seq<Link>, moves: seq<Move>) {
    && |links| == |moves| + 1 && Init(links[0])
    && forall i :: 0 <= i < |moves| ==> Next(blobs, links[i], links[i + 1], moves[i])
  }

  /** So partial files are prefixes and installed blobs are exact in every state of every run. */
  lemma {:induction false} RunKeeps(blobs: Blobs, links: seq<Link>, moves: seq<Move>, i: nat)
    requires Run(blobs, links, moves) && i < |links|
    ensures LinkInv(blobs, links[i])
  {
    if i > 0 {
      RunKeeps(blobs, links, moves, i - 1);
      NextKeeps(blobs, links[i - 1], links[i], moves[i - 1]);
    }
  }

  /**
    A session that was not cut short has installed exactly the negotiated blobs
    of which something was left to send, whatever else was on the wire.
  */
  lemma ResumedSessionDelivers(blobs: Blobs, links: seq<Link>, moves: seq<Move>, i: nat, r: Resume)
    requires Run(blobs, links, moves) && i < |links|
    requires links[i].session.Closed? && !links[i].dropped && links[i].offer.Some? && r in links[i].offer.value.missing
    ensures r.hash in blobs && (Complete(blobs, links[i].files, r.hash) <==> r.offset < |blobs[r.hash]|)
  {
    RunKeeps(blobs, links, moves, i);
    assert Decided(blobs, links[i].files, r);
  }

  // ----- blobs that never get installed -----

  /** The receiver is killed with the last byte of `h` written and the blob not in place. */
  predicate StrandsIn(blobs: Blobs, l: Link, move: Move, h: Digest) {
    move.Kill? && move.request.chunk.hash == h && Strands(blobs, l.files, move.request.chunk, move.death)
  }

  /** A move strands a blob exactly in this way, and frees none. */
  lemma StuckStep(blobs: Blobs, l: Link, l': Link, move: Move, h: Digest)
    requires LinkInv(blobs, l) && Next(blobs, l, l', move)
    ensures Stuck(blobs, l'.files, h) <==> Stuck(blobs, l.files, h) || StrandsIn(blobs, l, move, h)
  {
    match move {
      case Arrive(q) => ReceivedStuckSame(blobs, l.files, q.chunk, h);
      case Kill(q, death) => KillStuckExactly(blobs, l.files, q.chunk, death, h);
      case _ =>
    }
  }

  ghost predicate StrandedBefore(blobs: Blobs, links: seq<Link>, moves: seq<Move>, j: nat, h: Digest) {
    exists i :: 0 <= i < j && i < |moves| && i < |links| && StrandsIn(blobs, links[i], moves[i], h)
  }

  /** Over every run a blob is stuck exactly if it is empty or some kill stranded it: nothing ever frees it. */
  lemma {:induction false} StuckExactly(blobs: Blobs, links: seq<Link>, moves: seq<Move>, j: nat, h: Digest)
    requires Run(blobs, links, moves) && j < |links| && h in blobs
    ensures Stuck(blobs, links[j].files, h) <==> blobs[h] == [] || StrandedBefore(blobs, links, moves, j, h)
  {
    if j > 0 {
      var k := j - 1;
      StuckExactly(blobs, links, moves, k, h);
      RunKeeps(blobs, links, moves, k);
      StuckStep(blobs, links[k], links[j], moves[k], h);
    }
  }

  /** So once stuck, a blob is stuck in every later state. */
  lemma StuckForever(blobs: Blobs, links: seq<Link>, moves: seq<Move>, i: nat, j: nat, h: Digest)
    requires Run(blobs, links, moves) && i <= j < |links| && Stuck(blobs, links[i].files, h)
    ensures Stuck(blobs, links[j].files, h)
  {
    StuckExactly(blobs, links, moves, i, h);
    StuckExactly(blobs, links, moves, j, h);
  }

  lemma CommitsOnlyComplete(blobs: Blobs, l: Link, l': Link, move: Move, m: seq<Digest>)
    requires LinkInv(blobs, l) && Next(blobs, l, l', move) && m in l'.finalized && m !in l.finalized
    ensures AllComplete(blobs, l'.files, m)
  {
    if move.Manifest? { EmptyMeansComplete(blobs, l.files, m, move.missing); }
  }

  lemma StuckBlocksStep(blobs: Blobs, l: Link, l': Link, move: Move, h: Digest, m: seq<Digest>)
    requires LinkInv(blobs, l) && Next(blobs, l, l', move) && Stuck(blobs, l'.files, h) && h in m
    ensures m in l'.finalized ==> m in l.finalized
  {
    if m in l'.finalized && m !in l.finalized { CommitsOnlyComplete(blobs, l, l', move, m); }
  }

  /** From then on no snapshot with that blob is committed any more, however often it is pushed. */
  lemma {:induction false} StuckBlocksCommit(blobs: Blobs, links: seq<Link>, moves: seq<Move>, i: nat, j: nat,
                                             h: Digest, m: seq<Digest>)
    requires Run(blobs, links, moves) && i <= j < |links| && Stuck(blobs, links[i].files, h) && h in m
    ensures m in links[j].finalized ==> m in links[i].finalized
    decreases j
  {
    if i < j {
      var k := j - 1;
      StuckBlocksCommit(blobs, links, moves, i, k, h, m);
      RunKeeps(blobs, links, moves, k);
      StuckForever(blobs, links, moves, i, j, h);
      StuckBlocksStep(blobs, links[k], links[j], moves[k], h, m);
    }
  }

  // ----- one kill -----

  const START: Link := Link(Files(map[], map[]), None, {}, Closed, None, false, {}, {}, {})

  /** The first push of a snapshot with one blob, up to the chunk in flight. */
  function Pushed(blobs: Blobs, h: Digest): Link
    requires h in blobs
  {
    var o := Offer([h], [Resume(h, 0)]);
    var chunk := NextChunk(blobs, Resume(h, 0));
    Link(START.files, Some([h]), {}, Open(o.missing, Some(chunk), None), Some(o), false, {o}, {Request([h], chunk)}, {})
  }

  /** What a kill before the rename leaves: the whole blob in its partial file. */
  function Stranded(blobs: Blobs, h: Digest): Link
    requires h in blobs
  {
    START.(files := Files(map[h := blobs[h]], map[]), dropped := true, offer := Some(Offer([h], [Resume(h, 0)])))
  }

  lemma PushSendsTheBlob(blobs: Blobs, h: Digest)
    requires h in blobs && 0 < |blobs[h]| <= MAX_CHUNK
    ensures var o := Offer([h], [Resume(h, 0)]);
            && Next(blobs, START, Offered(START, [h], o.missing), Manifest([h], o.missing))
            && Next(blobs, Offered(START, [h], o.missing), Pushed(blobs, h), Begin(o, 0))
  {
    var o := Offer([h], [Resume(h, 0)]);
    assert o.missing[0] in o.missing;
    assert Lists(blobs, START.files, [h], o.missing);
  }

  lemma KillStrandsTheBlob(blobs: Blobs, h: Digest)
    requires h in blobs && 0 < |blobs[h]| <= MAX_CHUNK
    ensures var q := Request([h], NextChunk(blobs, Resume(h, 0)));
            && Next(blobs, Pushed(blobs, h), Stranded(blobs, h), Kill(q, Unrenamed(false)))
            && Strands(blobs, START.files, q.chunk, Unrenamed(false))
  {
    var q := Request([h], NextChunk(blobs, Resume(h, 0)));
    assert Pushed(blobs, h).session.pending[0] == Resume(h, 0);
    assert [] + q.chunk.data == blobs[h];
    assert KilledAt(blobs, START.files, q.chunk, Unrenamed(false)) == Files(map[h := blobs[h]], map[]);
  }

  /** The next push is answered with the end of the blob, and its session is over before it sends anything. */
  lemma NextPushSendsNothing(blobs: Blobs, h: Digest)
    requires h in blobs && 0 < |blobs[h]|
    ensures var l, o := Stranded(blobs, h), Offer([h], [Resume(h, |blobs[h]|)]);
            && Next(blobs, l, Offered(l, [h], o.missing), Manifest([h], o.missing))
            && Next(blobs, Offered(l, [h], o.missing), Offered(l, [h], o.missing).(offer := Some(o), dropped := false),
                    Begin(o, 0))
  {
    var l, o := Stranded(blobs, h), Offer([h], [Resume(h, |blobs[h]|)]);
    assert o.missing[0] in o.missing;
    assert Lists(blobs, l.files, [h], o.missing);
    var s := Open(o.missing, None, None);
    assert s.(pending := s.pending[1..]).pending == [];
    assert Sent(blobs, s, 0) == Closed;
  }

  /**
    A blob of one chunk, a kill between its last write and the rename, and one
    more push: the second session ends on its own, sends nothing, installs
    nothing and commits nothing.
  */
  lemma OneKillIsEnough(blobs: Blobs, h: Digest) returns (links: seq<Link>, moves: seq<Move>)
    requires h in blobs && 0 < |blobs[h]| <= MAX_CHUNK
    ensures Run(blobs, links, moves) && |moves| == 5 && moves[2].Kill? && moves[4].Begin?
    ensures var last := links[5];
            && last.session.Closed? && !last.dropped && last.offer == Some(Offer([h], [Resume(h, |blobs[h]|)]))
            && last.sent == {} && last.finalized == {} && !Complete(blobs, last.files, h)
  {
    PushSendsTheBlob(blobs, h);
    KillStrandsTheBlob(blobs, h);
    NextPushSendsNothing(blobs, h);
    var first, again := Offer([h], [Resume(h, 0)]), Offer([h], [Resume(h, |blobs[h]|)]);
    var l := Stranded(blobs, h);
    links := [START, Offered(START, [h], first.missing), Pushed(blobs, h), l, Offered(l, [h], again.missing),
              Offered(l, [h], again.missing).(offer := Some(again), dropped := false)];
    moves := [Manifest([h], first.missing), Begin(first, 0),
              Kill(Request([h], NextChunk(blobs, Resume(h, 0))), Unrenamed(false)),
              Manifest([h], again.missing), Begin(again, 0)];
  }
}
