/** The receiving side of replication: partial files, verified blobs, and what a kill leaves of them. */
module Replica {
  import opened Records
  import opened Replication

  /** `parts` holds the partial files, `installed` the blobs renamed into place. */
  datatype Files = Files(parts: map<Digest, seq<Byte>>, installed: map<Digest, seq<Byte>>)

  function Part(f: Files, hash: Digest): seq<Byte> {
    if hash in f.parts then f.parts[hash] else []
  }

  predicate Complete(blobs: Blobs, f: Files, hash: Digest) {
    hash in blobs && hash in f.installed && f.installed[hash] == blobs[hash]
  }

  /** Partial files are prefixes, installed blobs are exact. */
  ghost predicate FilesSound(blobs: Blobs, f: Files) {
    && (forall h :: h in f.parts ==> h in blobs && f.parts[h] <= blobs[h])
    && (forall h :: h in f.installed ==> Complete(blobs, f, h))
  }

  /** The whole blob lies in its partial file, and only there. */
  predicate Stuck(blobs: Blobs, f: Files, hash: Digest) {
    hash in blobs && |Part(f, hash)| == |blobs[hash]| && hash !in f.installed
  }

  // ----- storing a chunk -----

  /** A chunk is appended only where the partial file ends, and not past the end of the blob. */
  predicate Fits(blobs: Blobs, f: Files, chunk: Chunk) {
    chunk.hash in blobs && |Part(f, chunk.hash)| == chunk.offset && chunk.offset + |chunk.data| <= |blobs[chunk.hash]|
  }

  function Appended(f: Files, hash: Digest, data: seq<Byte>): Files {
    f.(parts := f.parts[hash := Part(f, hash) + data])
  }

  /** The files after a chunk, and the offset acknowledged, if any. */
  function Received(blobs: Blobs, f: Files, chunk: Chunk): (Files, Option<nat>) {
    var next := chunk.offset + |chunk.data|;
    if !Fits(blobs, f, chunk) then (f, None)
    else if !chunk.finished then (Appended(f, chunk.hash, chunk.data), Some(next))
    else if next != |blobs[chunk.hash]| then (Appended(f, chunk.hash, chunk.data), None)
    else if Part(f, chunk.hash) + chunk.data != blobs[chunk.hash] then (f.(parts := f.parts - {chunk.hash}), None)
    else (Files(f.parts - {chunk.hash}, f.installed[chunk.hash := blobs[chunk.hash]]), Some(next))
  }

  /**
    Where a kill strikes while a chunk is stored: inside the append, or after
    it, when a blob installed before may already be unlinked for the rename.
  */
  datatype Death = Torn(written: nat) | Unrenamed(unlinked: bool)

  function KilledAt(blobs: Blobs, f: Files, chunk: Chunk, death: Death): Files {
    if !Fits(blobs, f, chunk) then f
    else match death
      case Torn(k) => Appended(f, chunk.hash, if k < |chunk.data| then chunk.data[..k] else chunk.data)
      case Unrenamed(unlinked) =>
        var g := Appended(f, chunk.hash, chunk.data);
        if chunk.finished && unlinked && Part(g, chunk.hash) == blobs[chunk.hash]
        then g.(installed := g.installed - {chunk.hash}) else g
  }

  /** The kill comes when the last byte is written, and the blob is not, or no longer, in place. */
  predicate Strands(blobs: Blobs, f: Files, chunk: Chunk, death: Death) {
    && Fits(blobs, f, chunk) && chunk.finished
    && match death
       case Torn(k) => k >= |chunk.data| && chunk.hash !in f.installed
       case Unrenamed(unlinked) => unlinked || chunk.hash !in f.installed
  }

  lemma AppendStaysPrefix(blobs: Blobs, f: Files, chunk: Chunk, k: nat)
    requires FilesSound(blobs, f) && Genuine(blobs, chunk) && Fits(blobs, f, chunk) && k <= |chunk.data|
    ensures Part(f, chunk.hash) + chunk.data[..k] == blobs[chunk.hash][..chunk.offset + k]
    ensures FilesSound(blobs, Appended(f, chunk.hash, chunk.data[..k]))
  {
    assert Part(f, chunk.hash) <= blobs[chunk.hash];
  }

  /** Storing a genuine chunk keeps the files sound; a finishing one that fits installs the blob. */
  lemma ReceivedKeeps(blobs: Blobs, f: Files, chunk: Chunk)
    requires FilesSound(blobs, f) && Genuine(blobs, chunk)
    ensures var (g, next) := Received(blobs, f, chunk);
            && FilesSound(blobs, g)
            && (next.Some? <==> Fits(blobs, f, chunk))
            && (next.Some? && chunk.finished ==> Complete(blobs, g, chunk.hash))
            && (forall h :: Complete(blobs, f, h) ==> Complete(blobs, g, h))
            && (forall h :: Complete(blobs, g, h) ==> Complete(blobs, f, h) || (h == chunk.hash && chunk.finished))
  {
    if Fits(blobs, f, chunk) {
      AppendStaysPrefix(blobs, f, chunk, |chunk.data|);
      assert chunk.data[..|chunk.data|] == chunk.data;
    }
  }

  lemma KillKeeps(blobs: Blobs, f: Files, chunk: Chunk, death: Death)
    requires FilesSound(blobs, f) && Genuine(blobs, chunk)
    ensures FilesSound(blobs, KilledAt(blobs, f, chunk, death))
  {
    if Fits(blobs, f, chunk) {
      var k := if death.Torn? && death.written < |chunk.data| then death.written else |chunk.data|;
      AppendStaysPrefix(blobs, f, chunk, k);
      assert chunk.data[..|chunk.data|] == chunk.data;
    }
  }

  // ----- blobs that never get installed -----

  /** Storing chunks strands no blob and frees none: no chunk starts where a stranded file ends. */
  lemma ReceivedStuckSame(blobs: Blobs, f: Files, chunk: Chunk, h: Digest)
    requires FilesSound(blobs, f) && Genuine(blobs, chunk)
    ensures Stuck(blobs, Received(blobs, f, chunk).0, h) <==> Stuck(blobs, f, h)
  {
    if Fits(blobs, f, chunk) { AppendStaysPrefix(blobs, f, chunk, |chunk.data|); }
    assert chunk.data[..|chunk.data|] == chunk.data;
  }

  /** A kill strands exactly the blob whose last byte it let through. */
  lemma KillStuckExactly(blobs: Blobs, f: Files, chunk: Chunk, death: Death, h: Digest)
    requires FilesSound(blobs, f) && Genuine(blobs, chunk)
    ensures Stuck(blobs, KilledAt(blobs, f, chunk, death), h) <==>
              Stuck(blobs, f, h) || (h == chunk.hash && Strands(blobs, f, chunk, death))
  {
  }

  // ----- the code -----

  /** The answer to a manifest: every blob that is not in place, once, with the length of its partial file. */
  ghost predicate Lists(blobs: Blobs, f: Files, manifest: seq<Digest>, missing: seq<Resume>) {
    && (forall r :: r in missing ==> r.hash in manifest && r.offset == |Part(f, r.hash)|)
    && (forall h :: h in manifest ==> (Complete(blobs, f, h) <==> forall r :: r in missing ==> r.hash != h))
    && (forall i, j :: 0 <= i < j < |missing| ==> missing[i].hash != missing[j].hash)
  }

  class Store {
    const blobs: Blobs
    var parts: map<Digest, seq<Byte>>
    var installed: map<Digest, seq<Byte>>

    function State(): Files
      reads this
    {
      Files(parts, installed)
    }

    ghost predicate Valid()
      reads this
    {
      FilesSound(blobs, State())
    }

    constructor (blobs: Blobs)
      ensures Valid() && this.blobs == blobs && State() == Files(map[], map[])
    {
      this.blobs, parts, installed := blobs, map[], map[];
    }

    /** The blobs of a manifest that are still to be sent, and from where. */
    method MissingBlobs(manifest: seq<Digest>) returns (missing: seq<Resume>)
      ensures Lists(blobs, State(), manifest, missing)
    {
      var seen: set<Digest> := {};
      missing := [];
      for i := 0 to |manifest|
        invariant forall h :: h in seen <==> h in manifest[..i]
        invariant Lists(blobs, State(), manifest[..i], missing)
      {
        var h := manifest[i];
        if h !in seen && !Complete(blobs, State(), h) {
          missing := missing + [Resume(h, |Part(State(), h)|)];
        }
        seen := seen + {h};
      }
      assert manifest[..|manifest|] == manifest;
    }

    /**
      Appends a chunk, and on the finishing one verifies the file and renames it
      into place. `passed` are the files in between, where a kill may strike.
    */
    method ReceiveBlobChunk(chunk: Chunk) returns (next: Option<nat>, ghost passed: seq<Files>)
      requires chunk.hash in blobs
      modifies this
      ensures (State(), next) == Received(blobs, old(State()), chunk)
      ensures next.Some? <==>
                && |old(Part(State(), chunk.hash))| == chunk.offset
                && chunk.offset + |chunk.data| <= |blobs[chunk.hash]|
                && (chunk.finished ==> old(Part(State(), chunk.hash)) + chunk.data == blobs[chunk.hash])
      ensures next.Some? ==> next.value == chunk.offset + |chunk.data|
      ensures next.Some? && chunk.finished ==> Complete(blobs, State(), chunk.hash) && chunk.hash !in parts
      ensures next.None? ==> installed == old(installed)
      ensures forall g :: g in passed ==> exists death :: g == KilledAt(blobs, old(State()), chunk, death)
    {
      ghost var f := State();
      var held := Part(State(), chunk.hash);
      if |held| != chunk.offset || |held| + |chunk.data| > |blobs[chunk.hash]| {
        return None, [];
      }
      parts := parts[chunk.hash := held + chunk.data];
      passed := [State()];
      assert State() == KilledAt(blobs, f, chunk, Unrenamed(false));
      if chunk.finished {
        if chunk.offset + |chunk.data| != |blobs[chunk.hash]| {
          return None, passed;
        }
        ghost var more;
        var ok;
        ok, more := Promote(chunk.hash);
        assert more != [] ==> more == [KilledAt(blobs, f, chunk, Unrenamed(true))];
        passed := passed + more;
        assert parts == f.parts - {chunk.hash};
        if !ok {
          return None, passed;
        }
      }
      next := Some(chunk.offset + |chunk.data|);
    }

    /** Renames a full partial file into place if it verifies, over a blob that may be there; else removes it. */
    method Promote(hash: Digest) returns (ok: bool, ghost passed: seq<Files>)
      requires hash in blobs && hash in parts
      modifies this
      ensures ok == (old(parts)[hash] == blobs[hash])
      ensures parts == old(parts) - {hash}
      ensures installed == if ok then old(installed)[hash := blobs[hash]] else old(installed)
      ensures passed == if ok && hash in old(installed) then [Files(old(parts), old(installed) - {hash})] else []
    {
      passed := [];
      ok := parts[hash] == blobs[hash];
      if ok {
        if hash in installed {
          installed := installed - {hash};
          passed := [State()];
        }
        installed := installed[hash := parts[hash]];
      }
      parts := parts - {hash};
    }
  }
}
