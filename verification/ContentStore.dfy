/** The create-only content-addressed store: what one upload does, chunk by chunk. */
module ContentStore {
  import opened Prelude
  import opened MediaTypes
  import opened Tables

  datatype StorageError = READ | WRITE | TOO_LARGE | EMPTY_EVIDENCE | UNSUPPORTED | PROMOTION | MISMATCH

  datatype StoredBlob = StoredBlob(measured: Measured, contentCreated: bool)

  datatype Staged = Staged(sha256: Sha256, sha512: Sha512, total: nat, prefix: Bytes)

  /** One answer of `stream.read`: bytes of any length, or an exception or non-byte data. */
  datatype ReadEvent = Data(bytes: Bytes) | ReadFails

  /**
   * Which disk operations of one upload fail; `write` is the number of chunk writes that succeed
   * first, `inspect` is looking at or hashing an object that is already there.
   */
  datatype Faults = Faults(open: bool, write: Option<nat>, sync: bool, link: bool, inspect: bool, unlink: bool)

  const NO_FAULTS := Faults(false, None, false, false, false, false)

  // ---------------------------------------------------------------- the whole-content view of a stream

  /** Everything the stream delivers before its first empty chunk, its first fault or its end. */
  function Delivered(script: seq<ReadEvent>): Bytes {
    if script == [] || script[0].ReadFails? || script[0].bytes == [] then []
    else script[0].bytes + Delivered(script[1..])
  }

  predicate BreaksOff(script: seq<ReadEvent>) {
    script != [] && (script[0].ReadFails? || (script[0].bytes != [] && BreaksOff(script[1..])))
  }

  lemma DeliveredFirst(e: ReadEvent, s: seq<ReadEvent>)
    requires e.Data? && e.bytes != []
    ensures Delivered([e] + s) == e.bytes + Delivered(s) && (BreaksOff([e] + s) <==> BreaksOff(s))
  {
    assert ([e] + s)[1..] == s;
  }

  /** Chunks that hold bytes are delivered one after the other. */
  lemma {:induction false} DeliveredJoins(a: seq<ReadEvent>, b: seq<ReadEvent>)
    requires forall i :: 0 <= i < |a| ==> a[i].Data? && a[i].bytes != []
    ensures Delivered(a + b) == Delivered(a) + Delivered(b) && (BreaksOff(a + b) <==> BreaksOff(b))
  {
    if a == [] {
      assert a + b == b;
    } else {
      DeliveredJoins(a[1..], b);
      DeliveredFirst(a[0], a[1..]);
      DeliveredFirst(a[0], a[1..] + b);
      assert a == [a[0]] + a[1..] && a + b == [a[0]] + (a[1..] + b);
    }
  }

  /** The first fault breaks the upload off, the first empty chunk ends it. */
  lemma DeliveredStops(chunk: Bytes, later: seq<ReadEvent>)
    requires chunk != []
    ensures var broken := [Data(chunk)] + ([ReadFails] + later); Delivered(broken) == chunk && BreaksOff(broken)
    ensures var ended := [Data(chunk)] + ([Data([])] + later); Delivered(ended) == chunk && !BreaksOff(ended)
  {
    DeliveredJoins([Data(chunk)], [ReadFails] + later);
    DeliveredJoins([Data(chunk)], [Data([])] + later);
    assert [Data(chunk)][1..] == [] && Delivered([Data(chunk)]) == chunk;
  }

  /** What an upload amounts to, whatever its chunking, when the disk works. */
  function WholeContent(maxUpload: nat, script: seq<ReadEvent>): Result<Bytes, StorageError> {
    if |Delivered(script)| > maxUpload then Err(TOO_LARGE)
    else if BreaksOff(script) then Err(READ)
    else if Delivered(script) == [] then Err(EMPTY_EVIDENCE)
    else Ok(Delivered(script))
  }

  class ByteStream {
    var script: seq<ReadEvent>

    constructor (script: seq<ReadEvent>)
      ensures this.script == script
    {
      this.script := script;
    }

    method Read() returns (e: ReadEvent)
      modifies this
      ensures e == if old(script) == [] then Data([]) else old(script)[0]
      ensures script == if old(script) == [] then [] else old(script)[1..]
    {
      if script == [] { return Data([]); }
      e := script[0];
      script := script[1..];
    }
  }

  // ---------------------------------------------------------------- hashing a file

  /**
   * The read loop shared by the store and the integrity verifier: read a chunk, update both
   * digests, until nothing is left. It computes the digests and length of the whole content.
   */
  method HashInChunks(content: Bytes, chunkBytes: nat) returns (sha256: Sha256, sha512: Sha512, total: nat)
    requires chunkBytes > 0
    ensures sha256 == Sha256(content) && sha512 == Sha512(content) && total == |content|
  {
    var hashed: Bytes := [];
    total := 0;
    var chunk := content[..Min(chunkBytes, |content|)];
    while chunk != []
      invariant total <= |content| && hashed == content[..total]
      invariant chunk == content[total..Min(total + chunkBytes, |content|)]
      decreases |content| - total
    {
      assert content[..total + |chunk|] == content[..total] + chunk;
      total := total + |chunk|;
      hashed := hashed + chunk;
      chunk := content[total..Min(total + chunkBytes, |content|)];
    }
    assert hashed == content;
    return Sha256(hashed), Sha512(hashed), total;
  }

  // ---------------------------------------------------------------- the store

  class LocalContentAddressedStorage {
    const maxUpload: nat
    const chunkBytes: nat
    const allowed: set<MediaType>
    var staging: map<Id, Bytes>
    var objects: map<Sha256, Bytes>

    /** Objects hash to their names. */
    ghost predicate Valid()
      reads this
    {
      chunkBytes > 0 && forall h :: h in objects ==> Sha256(objects[h]) == h
    }

    constructor (maxUpload: nat, chunkBytes: nat, allowed: set<MediaType>)
      requires 0 < chunkBytes <= maxUpload
      ensures Valid() && staging == map[] && objects == map[]
    {
      this.maxUpload, this.chunkBytes, this.allowed := maxUpload, chunkBytes, allowed;
      staging, objects := map[], map[];
    }

    /** _write_chunk: a failing write may leave the first part of the chunk in the file. */
    method WriteChunk(path: Id, chunk: Bytes, fails: bool) returns (ok: bool)
      requires path in staging
      modifies this`staging
      ensures ok <==> !fails
      ensures path in staging && old(staging)[path] <= staging[path] <= old(staging)[path] + chunk
      ensures ok ==> staging[path] == old(staging)[path] + chunk
      ensures forall p :: p != path ==>
                (p in staging <==> p in old(staging)) && (p in staging ==> staging[p] == old(staging)[p])
    {
      var written := chunk;
      if fails {
        var part: int := *;
        written := if 0 <= part <= |chunk| then chunk[..part] else [];
        assert written == chunk[..|written|];
      }
      staging := staging[path := staging[path] + written];
      ok := !fails;
    }

    /**
     * _stream_to_staging. With a working disk the answer depends on the whole content alone;
     * with a failing one a success still means the whole content. The staging file is always a
     * prefix of what was delivered and never grows past the limit.
     */
    method StreamToStaging(stream: ByteStream, path: Id, faults: Faults) returns (r: Result<Staged, StorageError>)
      requires path !in staging
      modifies this`staging, stream
      ensures forall p :: p != path ==>
                (p in staging <==> p in old(staging)) && (p in staging ==> staging[p] == old(staging[p]))
      ensures path in staging ==> staging[path] <= Delivered(old(stream.script)) && |staging[path]| <= maxUpload
      ensures r.Err? ==> r.error.READ? || r.error.WRITE? || r.error.TOO_LARGE? || r.error.EMPTY_EVIDENCE?
      ensures r.Ok? ==> WholeContent(maxUpload, old(stream.script)).Ok?
      ensures r.Ok? ==> var c := Delivered(old(stream.script));
        r.value == Staged(Sha256(c), Sha512(c), |c|, Take(c, SIGNATURE_BYTES)) && path in staging && staging[path] == c
      ensures !faults.open && faults.write.None? && !faults.sync ==>
        match WholeContent(maxUpload, old(stream.script)) case Ok(_) => r.Ok? case Err(e) => r == Err(e)
    {
      ghost var content, breaks := Delivered(stream.script), BreaksOff(stream.script);
      if faults.open { return Err(WRITE); }
      staging := staging[path := []];
      var hashed: Bytes, prefix: Bytes := [], [];
      var total, writes := 0, 0;
      while true
        invariant path in staging && staging[path] == hashed && |hashed| == total <= maxUpload
        invariant content == hashed + Delivered(stream.script) && breaks == BreaksOff(stream.script)
        invariant prefix == Take(hashed, SIGNATURE_BYTES)
        invariant forall p :: p != path ==>
                    (p in staging <==> p in old(staging)) && (p in staging ==> staging[p] == old(staging[p]))
        decreases |stream.script|
      {
        ghost var before := stream.script;
        var answer := stream.Read();
        if answer.ReadFails? { return Err(READ); }
        var chunk := answer.bytes;
        if chunk == [] { break; }
        assert Delivered(before) == chunk + Delivered(stream.script);
        assert content == (hashed + chunk) + Delivered(stream.script);
        total := total + |chunk|;
        if total > maxUpload { return Err(TOO_LARGE); }
        if |prefix| < SIGNATURE_BYTES { prefix := prefix + Take(chunk, SIGNATURE_BYTES - |prefix|); }
        assert prefix == Take(hashed + chunk, SIGNATURE_BYTES);
        hashed := hashed + chunk;
        var written := WriteChunk(path, chunk, faults.write == Some(writes));
        if !written { return Err(WRITE); }
        writes := writes + 1;
      }
      if faults.sync { return Err(WRITE); }
      if total == 0 { return Err(EMPTY_EVIDENCE); }
      return Ok(Staged(Sha256(hashed), Sha512(hashed), total, prefix));
    }

    /**
     * _promote: a hard link that never replaces; an existing object must be the same content. The
     * mismatch is reported exactly when an existing object cannot be inspected.
     */
    method Promote(path: Id, staged: Staged, faults: Faults) returns (r: Result<bool, StorageError>)
      requires Valid() && path in staging && Sha256(staging[path]) == staged.sha256
      requires staged.sha512 == Sha512(staging[path]) && staged.total == |staging[path]|
      modifies this`objects
      ensures Valid()
      ensures r == if faults.link then Err(PROMOTION)
                   else if staged.sha256 !in old(objects) then Ok(true)
                   else if faults.inspect then Err(MISMATCH)
                   else Ok(false)
      ensures objects == if r.Ok? then old(objects)[staged.sha256 := staging[path]] else old(objects)
    {
      if faults.link { return Err(PROMOTION); }
      if staged.sha256 !in objects {
        objects := objects[staged.sha256 := staging[path]];
        return Ok(true);
      }
      if faults.inspect { return Err(MISMATCH); }
      var sha256, sha512, size := HashInChunks(objects[staged.sha256], chunkBytes);
      if (sha256, sha512, size) != (staged.sha256, staged.sha512, staged.total) { return Err(MISMATCH); }
      assert objects[staged.sha256] == staging[path];
      return Ok(false);
    }

    /**
     * put_stream. The staging directory is as before on every exit, if unlinking works; the
     * only object that can appear is the whole content under its own hash; an object already
     * there is never rewritten. With a working disk success is decided by the content alone.
     */
    method PutStream(stream: ByteStream, path: Id, faults: Faults) returns (r: Result<StoredBlob, StorageError>)
      requires Valid() && path !in staging
      modifies this, stream
      ensures Valid()
      ensures !faults.unlink ==> staging == old(staging)
      ensures forall h :: h in old(objects) ==> h in objects && objects[h] == old(objects[h])
      ensures forall h :: h in objects && h !in old(objects) ==>
        h == Sha256(Delivered(old(stream.script))) && objects[h] == Delivered(old(stream.script))
      ensures r.Ok? ==> var c := Delivered(old(stream.script));
        && Uploadable(maxUpload, allowed, old(stream.script))
        && r.value == StoredBlob(
              Measured(Sha256(c), Sha512(c), |c|, DetectMediaType(c).value), Sha256(c) !in old(objects))
        && Sha256(c) in objects && objects[Sha256(c)] == c
      ensures r.Err? && !faults.unlink ==> objects == old(objects)
      ensures r == Err(MISMATCH) ==> faults.inspect && Sha256(Delivered(old(stream.script))) in old(objects)
      ensures faults == NO_FAULTS ==> (r.Ok? <==> Uploadable(maxUpload, allowed, old(stream.script)))
      ensures faults == NO_FAULTS ==>
                var content, breaks := Delivered(old(stream.script)), BreaksOff(old(stream.script));
                && (r == Err(TOO_LARGE) <==> |content| > maxUpload)
                && (r == Err(READ) <==> |content| <= maxUpload && breaks)
                && (r == Err(EMPTY_EVIDENCE) <==> content == [] && !breaks)
                && (r == Err(UNSUPPORTED) <==>
                      && 0 < |content| <= maxUpload && !breaks
                      && (DetectMediaType(content).None? || DetectMediaType(content).value !in allowed))
    {
      var staged := StreamToStaging(stream, path, faults);
      if staged.Err? {
        r := Err(staged.error);
      } else {
        OnlyTheSignatureMatters(Delivered(old(stream.script)));
        var mime := DetectMediaType(staged.value.prefix);
        if mime.None? || mime.value !in allowed {
          r := Err(UNSUPPORTED);
        } else {
          var promoted := Promote(path, staged.value, faults);
          if promoted.Err? {
            r := Err(promoted.error);
          } else {
            r := Ok(StoredBlob(Measured(staged.value.sha256, staged.value.sha512, staged.value.total, mime.value),
                               promoted.value));
          }
        }
      }
      if faults.unlink { return Err(WRITE); }
      staging := staging - {path};
      assert forall p :: p in staging ==> p in old(staging) && staging[p] == old(staging)[p];
      assert forall p :: p in old(staging) ==> p in staging;
      assert staging == old(staging);
    }

    /** contains: the object is there with the expected size. */
    function Contains(h: Sha256, expectedSize: nat): bool
      reads this
    {
      h in objects && |objects[h]| == expectedSize
    }
  }

  /** The uploads intake accepts: non-empty, within the limit, delivered whole, of a listed type. */
  predicate Uploadable(maxUpload: nat, allowed: set<MediaType>, script: seq<ReadEvent>) {
    && WholeContent(maxUpload, script).Ok?
    && DetectMediaType(Delivered(script)).Some?
    && DetectMediaType(Delivered(script)).value in allowed
  }
}
