/** Create-only result artifacts, addressed by logical URIs. */
module ResultStorage {
  import opened Prelude

  // ---------------------------------------------------------------- UUID text

  newtype Nibble = n: int | 0 <= n < 16

  /** The 32 hexadecimal digits of a UUID. */
  type Uuid = s: seq<Nibble> | |s| == 32 witness seq(32, i => 0)

  function HexDigit(n: Nibble): char {
    if n < 10 then ('0' as int + n as int) as char else ('a' as int + n as int - 10) as char
  }

  function Hex(digits: seq<Nibble>): string {
    seq(|digits|, i requires 0 <= i < |digits| => HexDigit(digits[i]))
  }

  function HexValue(c: char): Option<Nibble> {
    if '0' <= c <= '9' then Some((c as int - '0' as int) as Nibble)
    else if 'a' <= c <= 'f' then Some((c as int - 'a' as int + 10) as Nibble)
    else if 'A' <= c <= 'F' then Some((c as int - 'A' as int + 10) as Nibble)
    else None
  }

  function FromHex(s: string): Option<seq<Nibble>> {
    if s == [] then Some([])
    else
      var head, tail := HexValue(s[0]), FromHex(s[1..]);
      if head.Some? && tail.Some? then Some([head.value] + tail.value) else None
  }

  function WithoutDashes(s: string): string {
    if s == [] then [] else (if s[0] == '-' then [] else [s[0]]) + WithoutDashes(s[1..])
  }

  /** `str(UUID)`: groups of 8, 4, 4, 4 and 12 digits. */
  function PrintUuid(u: Uuid): string {
    Hex(u[..8]) + "-" + Hex(u[8..12]) + "-" + Hex(u[12..16]) + "-" + Hex(u[16..20]) + "-" + Hex(u[20..])
  }

  /** `UUID(text)`: dashes are ignored and 32 digits must remain. */
  function ParseUuid(s: string): Option<Uuid> {
    var digits := FromHex(WithoutDashes(s));
    if digits.Some? && |digits.value| == 32 then Some(digits.value) else None
  }

  lemma {:induction false} WithoutDashesConcat(a: string, b: string)
    ensures WithoutDashes(a + b) == WithoutDashes(a) + WithoutDashes(b)
  {
    if a == [] {
      assert a + b == b;
    } else {
      assert (a + b)[1..] == a[1..] + b;
      WithoutDashesConcat(a[1..], b);
    }
  }

  lemma {:induction false} HexHasNoDashes(d: seq<Nibble>)
    ensures WithoutDashes(Hex(d)) == Hex(d)
  {
    if d != [] {
      assert Hex(d)[1..] == Hex(d[1..]);
      HexHasNoDashes(d[1..]);
    }
  }

  lemma {:induction false} HexRoundTrip(d: seq<Nibble>)
    ensures FromHex(Hex(d)) == Some(d)
  {
    if d != [] {
      assert Hex(d)[1..] == Hex(d[1..]);
      HexRoundTrip(d[1..]);
      assert d == [d[0]] + d[1..];
    }
  }

  lemma DropDash(d: seq<Nibble>, rest: string)
    ensures WithoutDashes(Hex(d) + "-" + rest) == Hex(d) + WithoutDashes(rest)
  {
    HexHasNoDashes(d);
    assert Hex(d) + "-" + rest == Hex(d) + ("-" + rest);
    WithoutDashesConcat(Hex(d), "-" + rest);
    assert ("-" + rest)[1..] == rest;
  }

  lemma UuidRoundTrip(u: Uuid)
    ensures ParseUuid(PrintUuid(u)) == Some(u)
  {
    var r3 := Hex(u[20..]);
    var r2 := Hex(u[16..20]) + "-" + r3;
    var r1 := Hex(u[12..16]) + "-" + r2;
    var r0 := Hex(u[8..12]) + "-" + r1;
    assert PrintUuid(u) == Hex(u[..8]) + "-" + r0;
    DropDash(u[..8], r0);
    DropDash(u[8..12], r1);
    DropDash(u[12..16], r2);
    DropDash(u[16..20], r3);
    HexHasNoDashes(u[20..]);
    assert WithoutDashes(PrintUuid(u)) == Hex(u);
    HexRoundTrip(u);
  }

  // ---------------------------------------------------------------- URIs

  const PREFIX: string := "local-result://"
  const READ_LIMIT: nat := 64 * 1024 * 1024

  predicate NameStart(c: char) {
    'a' <= c <= 'z' || '0' <= c <= '9'
  }

  predicate NameRest(c: char) {
    NameStart(c) || c in {'.', '_', '-'}
  }

  predicate SafeName(name: string) {
    1 <= |name| <= 128 && NameStart(name[0]) && forall i :: 0 <= i < |name| ==> NameRest(name[i])
  }

  datatype Key = Key(caseId: Uuid, runId: Uuid, name: string)

  /** The first separator at or after `from`, or the end. */
  function NextSlash(s: string, from: nat): (k: nat)
    requires from <= |s|
    ensures from <= k <= |s| && (k < |s| ==> s[k] == '/') && forall i :: from <= i < k ==> s[i] != '/'
    decreases |s| - from
  {
    if from == |s| || s[from] == '/' then from else NextSlash(s, from + 1)
  }

  /** `text.split("/")`. */
  function Split(s: string): seq<string>
    decreases |s|
  {
    var k := NextSlash(s, 0);
    if k == |s| then [s] else [s[..k]] + Split(s[k + 1..])
  }

  function PrintUri(key: Key): string {
    PREFIX + PrintUuid(key.caseId) + "/" + PrintUuid(key.runId) + "/" + key.name
  }

  /** The naming half of `resolve_uri`: the key that a URI stands for. */
  function ParseUri(uri: string): Option<Key> {
    if !(PREFIX <= uri) then None
    else
      var parts := Split(uri[|PREFIX|..]);
      if |parts| != 3 then None
      else
        var c, r := ParseUuid(parts[0]), ParseUuid(parts[1]);
        if c.Some? && r.Some? && SafeName(parts[2]) then Some(Key(c.value, r.value, parts[2])) else None
  }

  lemma SplitOff(a: string, rest: string)
    requires '/' !in a
    ensures Split(a + "/" + rest) == [a] + Split(rest)
  {
    var s := a + "/" + rest;
    assert s[|a|] == '/';
    assert forall i :: 0 <= i < |a| ==> s[i] == a[i] && a[i] in a;
    assert NextSlash(s, 0) == |a|;
    assert s[..|a|] == a && s[|a| + 1..] == rest;
  }

  lemma SplitThree(a: string, b: string, c: string)
    requires '/' !in a && '/' !in b && '/' !in c
    ensures Split(a + "/" + b + "/" + c) == [a, b, c]
  {
    assert a + "/" + b + "/" + c == a + "/" + (b + "/" + c);
    SplitOff(a, b + "/" + c);
    SplitOff(b, c);
    assert NextSlash(c, 0) == |c|;
  }

  lemma UuidHasNoSlash(u: Uuid)
    ensures '/' !in PrintUuid(u)
  {
  }

  /** The URI printed for a stored artifact resolves to the path it was written to. */
  lemma UriRoundTrip(key: Key)
    requires SafeName(key.name)
    ensures ParseUri(PrintUri(key)) == Some(key)
  {
    var c, r := PrintUuid(key.caseId), PrintUuid(key.runId);
    UuidHasNoSlash(key.caseId);
    UuidHasNoSlash(key.runId);
    SafeNameHasNoSlash(key.name);
    SplitThree(c, r, key.name);
    PrefixComesOff(PrintUri(key), c, r, key.name);
    UuidRoundTrip(key.caseId);
    UuidRoundTrip(key.runId);
  }

  lemma SafeNameHasNoSlash(name: string)
    requires SafeName(name)
    ensures '/' !in name
  {
    assert forall i :: 0 <= i < |name| ==> NameRest(name[i]);
  }

  lemma PrefixComesOff(uri: string, c: string, r: string, name: string)
    requires uri == PREFIX + c + "/" + r + "/" + name
    ensures PREFIX <= uri && uri[|PREFIX|..] == c + "/" + r + "/" + name
  {
  }

  /** Different artifacts never share a URI, and any URI that resolves names a storable artifact. */
  lemma UrisAreUnambiguous(a: Key, b: Key, uri: string)
    requires SafeName(a.name) && SafeName(b.name)
    ensures PrintUri(a) == PrintUri(b) ==> a == b
    ensures ParseUri(uri).Some? ==>
              SafeName(ParseUri(uri).value.name) && ParseUri(PrintUri(ParseUri(uri).value)) == ParseUri(uri)
  {
    UriRoundTrip(a);
    UriRoundTrip(b);
    if ParseUri(uri).Some? { UriRoundTrip(ParseUri(uri).value); }
  }

  // ---------------------------------------------------------------- the store

  datatype StorageFault =
    | INVALID_NAME | DIFFERENT_CONTENT | UNVERIFIABLE | WRITE_FAILED | INVALID_URI | MISSING | UNREADABLE | TOO_LONG

  datatype Stored = Stored(uri: string, sha256: Sha256, byteLength: nat)

  /** What the disk does during one put: a write may fail part-way, an existing file may be unreadable. */
  datatype Disk = Works | WriteFails | ReadFails

  type Files = map<Key, Bytes>

  /** Files that are there stay as they are. */
  ghost predicate Keeps(older: Files, newer: Files) {
    forall k :: k in older ==> k in newer && newer[k] == older[k]
  }

  class LocalResultStorage {
    var files: Files

    constructor ()
      ensures files == map[]
    {
      files := map[];
    }

    /**
     * put_bytes: creates or compares, never replaces. Repeating a put succeeds exactly when the
     * content is the same, although one byte more than the new content is all that is read.
     */
    method PutBytes(caseId: Uuid, runId: Uuid, name: string, content: Bytes, disk: Disk)
      returns (r: Result<Stored, StorageFault>)
      modifies this
      ensures var key := Key(caseId, runId, name);
        if !SafeName(name) then r == Err(INVALID_NAME) && files == old(files)
        else if key in old(files) then
          && files == old(files)
          && (r.Ok? <==> !disk.ReadFails? && old(files)[key] == content)
        else
          && key in files && files == old(files)[key := files[key]] && files[key] <= content
          && (r.Ok? <==> !disk.WriteFails?) && (r.Ok? ==> files[key] == content)
      ensures Keeps(old(files), files)
      ensures r.Ok? ==> r.value == Stored(PrintUri(Key(caseId, runId, name)), Sha256(content), |content|)
    {
      if !SafeName(name) { return Err(INVALID_NAME); }
      var key := Key(caseId, runId, name);
      if key in files {
        if disk.ReadFails? { return Err(UNVERIFIABLE); }
        var existing := Take(files[key], |content| + 1);
        if existing != content { return Err(DIFFERENT_CONTENT); }
      } else if disk.WriteFails? {
        var part: int := *;
        var written := if 0 <= part <= |content| then content[..part] else [];
        files := files[key := written];
        return Err(WRITE_FAILED);
      } else {
        files := files[key := content];
      }
      return Ok(Stored(PrintUri(key), Sha256(content), |content|));
    }

    /** read_bytes: the whole file, when the URI resolves to one within the limit that can be read. */
    method ReadBytes(uri: string, maxBytes: nat, unreadable: bool) returns (r: Result<Bytes, StorageFault>)
      ensures r.Ok? <==> (&& !unreadable && ParseUri(uri).Some? && ParseUri(uri).value in files
                          && |files[ParseUri(uri).value]| <= maxBytes)
      ensures r.Ok? ==> r.value == files[ParseUri(uri).value]
    {
      var key := ParseUri(uri);
      if key.None? { return Err(INVALID_URI); }
      if key.value !in files { return Err(MISSING); }
      if unreadable { return Err(UNREADABLE); }
      var content := Take(files[key.value], maxBytes + 1);
      if |content| > maxBytes { return Err(TOO_LONG); }
      return Ok(content);
    }
  }
}
