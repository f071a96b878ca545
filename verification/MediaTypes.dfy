/** The byte-signature allowlist of media intake. */
module MediaTypes {
  import opened Prelude

  datatype MediaType =
    | ImageJpeg | ImagePng | ImageGif | ImageWebp
    | AudioMpeg | AudioWav | AudioFlac
    | VideoMp4 | VideoQuicktime | VideoWebm

  const SIGNATURE_BYTES: nat := 8192

  /** ASCII lower case, as `bytes.lower` does it. */
  function Lower(b: Byte): Byte {
    if 0x41 <= b <= 0x5a then b + 0x20 else b
  }

  /** The four given bytes stand at position `at`. */
  predicate Word(p: Bytes, at: nat, b0: Byte, b1: Byte, b2: Byte, b3: Byte) {
    at + 4 <= |p| && p[at] == b0 && p[at + 1] == b1 && p[at + 2] == b2 && p[at + 3] == b3
  }

  /** "webm" at position `at`, in either case. */
  predicate WebmAt(p: Bytes, at: nat) {
    && at + 4 <= |p| && Lower(p[at]) == 0x77 && Lower(p[at + 1]) == 0x65 && Lower(p[at + 2]) == 0x62
    && Lower(p[at + 3]) == 0x6d
  }

  predicate MentionsWebm(p: Bytes) {
    exists at: nat :: at < |p| && WebmAt(p, at)
  }

  predicate Jpeg(p: Bytes) { 3 <= |p| && p[0] == 0xff && p[1] == 0xd8 && p[2] == 0xff }

  predicate Png(p: Bytes) { Word(p, 0, 0x89, 0x50, 0x4e, 0x47) && Word(p, 4, 0x0d, 0x0a, 0x1a, 0x0a) }

  /** "GIF87a" or "GIF89a". */
  predicate Gif(p: Bytes) {
    6 <= |p| && Word(p, 0, 0x47, 0x49, 0x46, 0x38) && (p[4] == 0x37 || p[4] == 0x39) && p[5] == 0x61
  }

  /** "RIFF", four bytes of length, and the given form. */
  predicate Riff(p: Bytes, b0: Byte, b1: Byte, b2: Byte, b3: Byte) {
    12 <= |p| && Word(p, 0, 0x52, 0x49, 0x46, 0x46) && Word(p, 8, b0, b1, b2, b3)
  }

  predicate Flac(p: Bytes) { Word(p, 0, 0x66, 0x4c, 0x61, 0x43) }

  /** "ID3", or a frame sync: for a byte, `b & 0xE0 == 0xE0` says that b >= 0xE0. */
  predicate Mpeg(p: Bytes) {
    (3 <= |p| && p[0] == 0x49 && p[1] == 0x44 && p[2] == 0x33) || (2 <= |p| && p[0] == 0xff && p[1] >= 0xe0)
  }

  predicate IsoMedia(p: Bytes) { 12 <= |p| && Word(p, 4, 0x66, 0x74, 0x79, 0x70) }

  predicate Ebml(p: Bytes) { Word(p, 0, 0x1a, 0x45, 0xdf, 0xa3) }

  function DetectMediaType(prefix: Bytes): (media: Option<MediaType>) {
    if Jpeg(prefix) then Some(ImageJpeg)
    else if Png(prefix) then Some(ImagePng)
    else if Gif(prefix) then Some(ImageGif)
    else if Riff(prefix, 0x57, 0x45, 0x42, 0x50) then Some(ImageWebp)
    else if Riff(prefix, 0x57, 0x41, 0x56, 0x45) then Some(AudioWav)
    else if Flac(prefix) then Some(AudioFlac)
    else if Mpeg(prefix) then Some(AudioMpeg)
    else if IsoMedia(prefix) then
      if Word(prefix, 8, 0x71, 0x74, 0x20, 0x20) then Some(VideoQuicktime) else Some(VideoMp4)
    else if Ebml(prefix) && MentionsWebm(Take(prefix, SIGNATURE_BYTES)) then Some(VideoWebm)
    else None
  }

  // ---------------------------------------------------------------- which bytes give which type

  /** The bytes at the start of the content. */
  predicate Starts(p: Bytes, signature: Bytes) {
    signature <= p
  }

  /** A container of at least twelve bytes with this mark at `at` and this form at 8. */
  predicate Framed(p: Bytes, at: nat, mark: Bytes) {
    |mark| == 4 && at + 4 <= 12 <= |p| && p[at..at + 4] == mark
  }

  predicate WebmLetters(p: Bytes, at: nat)
    requires at + 4 <= |p|
  {
    p[at] in {0x57, 0x77} && p[at + 1] in {0x45, 0x65} && p[at + 2] in {0x42, 0x62} && p[at + 3] in {0x4d, 0x6d}
  }

  lemma WordIsSlice(p: Bytes, at: nat, b0: Byte, b1: Byte, b2: Byte, b3: Byte)
    requires at + 4 <= |p|
    ensures Word(p, at, b0, b1, b2, b3) <==> p[at..at + 4] == [b0, b1, b2, b3]
  {
    var w := p[at..at + 4];
    assert w[0] == p[at] && w[1] == p[at + 1] && w[2] == p[at + 2] && w[3] == p[at + 3];
  }

  lemma ImagesExactly(p: Bytes)
    ensures DetectMediaType(p) == Some(ImageJpeg) <==> Starts(p, [0xff, 0xd8, 0xff])
    ensures DetectMediaType(p) == Some(ImagePng) <==> Starts(p, [0x89, 0x50, 0x4e, 0x47, 0x0d, 0x0a, 0x1a, 0x0a])
    ensures DetectMediaType(p) == Some(ImageGif) <==>
              || Starts(p, [0x47, 0x49, 0x46, 0x38, 0x37, 0x61]) || Starts(p, [0x47, 0x49, 0x46, 0x38, 0x39, 0x61])
  {
    assert Jpeg(p) <==> Starts(p, [0xff, 0xd8, 0xff]);
    assert Png(p) <==> Starts(p, [0x89, 0x50, 0x4e, 0x47, 0x0d, 0x0a, 0x1a, 0x0a]);
  }

  lemma RiffsExactly(p: Bytes)
    ensures DetectMediaType(p) == Some(ImageWebp) <==>
              Framed(p, 0, [0x52, 0x49, 0x46, 0x46]) && Framed(p, 8, [0x57, 0x45, 0x42, 0x50])
    ensures DetectMediaType(p) == Some(AudioWav) <==>
              Framed(p, 0, [0x52, 0x49, 0x46, 0x46]) && Framed(p, 8, [0x57, 0x41, 0x56, 0x45])
  {
    if 12 <= |p| {
      WordIsSlice(p, 0, 0x52, 0x49, 0x46, 0x46);
      WordIsSlice(p, 8, 0x57, 0x45, 0x42, 0x50);
      WordIsSlice(p, 8, 0x57, 0x41, 0x56, 0x45);
    }
  }

  lemma AudioExactly(p: Bytes)
    ensures DetectMediaType(p) == Some(AudioFlac) <==> Starts(p, [0x66, 0x4c, 0x61, 0x43])
    ensures DetectMediaType(p) == Some(AudioMpeg) <==>
              Starts(p, [0x49, 0x44, 0x33]) || (2 <= |p| && p[0] == 0xff && 0xe0 <= p[1])
  {
    assert Flac(p) <==> Starts(p, [0x66, 0x4c, 0x61, 0x43]);
    assert Mpeg(p) <==> Starts(p, [0x49, 0x44, 0x33]) || (2 <= |p| && p[0] == 0xff && 0xe0 <= p[1]);
  }

  /** "ftyp" or EBML containers, unless the start of the content says otherwise. */
  lemma VideosExactly(p: Bytes)
    ensures var other := DetectMediaType(p).Some? && DetectMediaType(p).value !in {VideoMp4, VideoQuicktime, VideoWebm};
      var ftyp, quicktime := Framed(p, 4, [0x66, 0x74, 0x79, 0x70]), Framed(p, 8, [0x71, 0x74, 0x20, 0x20]);
      && (DetectMediaType(p) == Some(VideoQuicktime) <==> ftyp && quicktime && !other)
      && (DetectMediaType(p) == Some(VideoMp4) <==> ftyp && !quicktime && !other)
      && (DetectMediaType(p) == Some(VideoWebm) <==>
            && Starts(p, [0x1a, 0x45, 0xdf, 0xa3]) && !ftyp
            && exists at: nat :: at + 4 <= Min(|p|, 8192) && WebmLetters(p, at))
  {
    assert forall at: nat :: at + 4 <= |p| ==> (WebmAt(p, at) <==> WebmLetters(p, at));
    if 12 <= |p| {
      WordIsSlice(p, 4, 0x66, 0x74, 0x79, 0x70);
      WordIsSlice(p, 8, 0x71, 0x74, 0x20, 0x20);
    }
    var q := Take(p, SIGNATURE_BYTES);
    assert forall at: nat :: at + 4 <= |q| ==> (WebmAt(p, at) <==> WebmAt(q, at));
    assert Ebml(p) <==> Starts(p, [0x1a, 0x45, 0xdf, 0xa3]);
    if at: nat :| at < |q| && WebmAt(q, at) { assert at + 4 <= Min(|p|, 8192) && WebmLetters(p, at); }
    if at: nat :| at + 4 <= Min(|p|, 8192) && WebmLetters(p, at) { assert at < |q| && WebmAt(q, at); }
  }

  /** Bytes past the first 8192 never change the answer. */
  lemma OnlyTheSignatureMatters(content: Bytes)
    ensures DetectMediaType(Take(content, SIGNATURE_BYTES)) == DetectMediaType(content)
  {
    var prefix := Take(content, SIGNATURE_BYTES);
    assert Take(prefix, SIGNATURE_BYTES) == prefix;
    assert |prefix| >= 12 <==> |content| >= 12;
  }

  /**
   * Once a prefix is recognized, no later byte changes the answer: a longer input never
   * falls to an earlier rule.
   */
  lemma RecognitionIsStable(short: Bytes, long: Bytes)
    requires short <= long
    requires DetectMediaType(short).Some?
    ensures DetectMediaType(long) == DetectMediaType(short)
  {
    assert forall i :: 0 <= i < |short| ==> short[i] == long[i];
    if MentionsWebm(Take(short, SIGNATURE_BYTES)) {
      var at: nat :| at < |Take(short, SIGNATURE_BYTES)| && WebmAt(Take(short, SIGNATURE_BYTES), at);
      assert WebmAt(Take(long, SIGNATURE_BYTES), at);
      // Under twelve bytes, "webm" after the EBML mark overlaps the place of "ftyp".
      assert Ebml(short) && |short| < 12 ==> 4 <= at <= 7 && !IsoMedia(long);
    }
  }
}
