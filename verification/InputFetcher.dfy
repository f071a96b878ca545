/** Bounded HTTPS retrieval into a temporary file, and the job that consumes the file. */
module InputFetcher {
  import opened Prelude

  datatype Fault =
    | UNSUPPORTED_MIME_TYPE | INPUT_TOO_LARGE | INPUT_HOST_REJECTED | INPUT_REDIRECT_REJECTED | INPUT_FETCH_FAILED
    | INPUT_LENGTH_MISMATCH | INPUT_HASH_MISMATCH | INVALID_JOB | INVALID_URL | UNLINK_FAILED | STAGE_FAILED
    | CLOSE_FAILED
    | CLEANUP_FAILED

  const ALLOWED_MIME_TYPES: set<string> := {"image/jpeg", "image/png", "image/webp"}
  const REDIRECT_STATUSES: set<int> := {301, 302, 303, 307, 308}

  /** Lower-casing of ASCII letters; no other character lower-cases to a letter of an allowed type. */
  function Lower(s: string): string {
    seq(|s|, i requires 0 <= i < |s| => if 'A' <= s[i] <= 'Z' then (s[i] as int + 32) as char else s[i])
  }

  /** A parsed URL; the host is lower-case and without trailing dots. */
  datatype Url = Url(scheme: string, host: string, username: string, password: string, port: Option<int>,
                     target: string)

  datatype Job = Job(url: Url, mimeType: string, byteLength: int, sha256: Sha256, createdAt: int, expiresAt: int,
                     detectorMatches: bool, profileSupported: bool)

  // ---------------------------------------------------------------- the environment

  /** One step of the body iterator; `late` is what the deadline test says, `diskFails` what the write does. */
  datatype BodyEvent = Chunk(bytes: Bytes, late: bool, diskFails: bool) | StreamFails

  /**
   * A response with its headers decoded. `location`: absent, not joinable, or the next URL.
   * `length`: absent, not a number, or a number. The last three fields are what the disk does
   * with the temporary file: creating, synchronizing and removing it.
   */
  datatype Answer =
    | NetworkFails
    | Response(status: int, location: Option<Option<Url>>, encoding: string, mime: string, length: Option<Option<int>>,
               body: seq<BodyEvent>, createFails: bool, syncFails: bool, unlinkFails: bool)

  /** What happens at one request: the addresses the host resolves to (global or not), then the answer. */
  datatype Hop = Hop(addresses: Option<seq<bool>>, answer: Answer)

  datatype Action = Validated(url: Url) | Requested(url: Url)

  /** The resolver and the HTTP client: scripted answers, and a log of what was done. */
  class Network {
    var script: seq<Hop>
    var log: seq<Action>

    constructor (script: seq<Hop>)
      ensures this.script == script && log == []
    {
      this.script, log := script, [];
    }

    method Resolve() returns (addresses: Option<seq<bool>>)
      ensures addresses == if script == [] then None else script[0].addresses
    {
      return if script == [] then None else script[0].addresses;
    }

    method Stream(url: Url) returns (answer: Answer)
      modifies this
      ensures log == old(log) + [Requested(url)]
      ensures answer == if old(script) == [] then NetworkFails else old(script)[0].answer
      ensures script == if old(script) == [] then [] else old(script)[1..]
    {
      answer := if script == [] then NetworkFails else script[0].answer;
      script := if script == [] then [] else script[1..];
      log := log + [Requested(url)];
    }

    method Note(url: Url)
      modifies this`log
      ensures log == old(log) + [Validated(url)]
    {
      log := log + [Validated(url)];
    }
  }

  class TempDirectory {
    var files: map<Id, Bytes>
    var next: Id
    /** The largest size any file ever had. */
    ghost var peak: nat

    ghost predicate Valid()
      reads this
    {
      forall p :: p in files ==> p < next && |files[p]| <= peak
    }

    constructor ()
      ensures Valid() && files == map[]
    {
      files, next, peak := map[], 0, 0;
    }

    /** mkstemp: an empty file under a new name. */
    method Create() returns (path: Id)
      requires Valid()
      modifies this
      ensures Valid() && path !in old(files) && files == old(files)[path := []] && peak == old(peak)
    {
      path := next;
      files := files[path := []];
      next := next + 1;
    }

    /** A failing write may leave the first part of the chunk behind. */
    method Append(path: Id, chunk: Bytes, fails: bool)
      requires Valid() && path in files
      modifies this`files, this`peak
      ensures Valid() && path in files && files == old(files)[path := files[path]]
      ensures !fails ==> files[path] == old(files)[path] + chunk
      ensures peak <= if |old(files)[path]| + |chunk| > old(peak) then |old(files)[path]| + |chunk| else old(peak)
    {
      var part: int := *;
      var written := if fails then (if 0 <= part <= |chunk| then chunk[..part] else []) else chunk;
      files := files[path := files[path] + written];
      if |files[path]| > peak { peak := |files[path]|; }
    }

    method Unlink(path: Id, fails: bool)
      requires Valid()
      modifies this`files
      ensures Valid() && files == if fails then old(files) else old(files) - {path}
    {
      if !fails { files := files - {path}; }
    }
  }

  // ---------------------------------------------------------------- the whole-content view

  function Streamed(body: seq<BodyEvent>): Bytes {
    if body == [] || body[0].StreamFails? then [] else body[0].bytes + Streamed(body[1..])
  }

  /** The stream or the disk fails, or a chunk arrives after the deadline. */
  predicate Interrupted(body: seq<BodyEvent>) {
    && body != []
    && (body[0].StreamFails? || body[0].late || (body[0].diskFails && body[0].bytes != []) || Interrupted(body[1..]))
  }

  /** What is received is what the chunks hold, one after the other. */
  lemma {:induction false} StreamedJoins(a: seq<BodyEvent>, b: seq<BodyEvent>)
    requires forall e :: e in a ==> e.Chunk?
    ensures Streamed(a + b) == Streamed(a) + Streamed(b)
  {
    if a == [] {
      assert a + b == b;
    } else {
      var first, rest := a[0].bytes, Streamed(a[1..]);
      assert a[0] in a;
      StreamedJoins(a[1..], b);
      assert (a + b)[0] == a[0] && (a + b)[1..] == a[1..] + b;
      assert Streamed(a + b) == first + (rest + Streamed(b)) == (first + rest) + Streamed(b);
    }
  }

  lemma OneChunkStreamed(chunk: Bytes, late: bool, diskFails: bool)
    ensures Streamed([Chunk(chunk, late, diskFails)]) == chunk
  {
    assert [Chunk(chunk, late, diskFails)][1..] == [];
  }

  /** One bad event anywhere is enough, and without one nothing interrupts. */
  lemma {:induction false} InterruptedExactly(body: seq<BodyEvent>)
    ensures Interrupted(body) <==>
              exists i :: 0 <= i < |body| &&
                (body[i].StreamFails? || body[i].late || (body[i].diskFails && body[i].bytes != []))
  {
    if body != [] {
      InterruptedExactly(body[1..]);
      assert forall i :: 0 < i < |body| ==> body[i] == body[1..][i - 1];
    }
  }

  predicate HeadersMatch(r: Answer, job: Job, maxBytes: int)
    requires r.Response?
  {
    && r.encoding in {"", "identity"}
    && r.mime in ALLOWED_MIME_TYPES && r.mime == Lower(job.mimeType)
    && (r.length.Some? ==> r.length.value == Some(job.byteLength) && job.byteLength <= maxBytes)
  }

  /** The response gets as far as a temporary file. */
  predicate Opens(r: Answer, job: Job, maxBytes: int) {
    r.Response? && HeadersMatch(r, job, maxBytes) && !r.createFails
  }

  /** The response carries exactly the job's input. */
  predicate Carries(r: Answer, job: Job, maxBytes: int) {
    && Opens(r, job, maxBytes) && !r.syncFails && !Interrupted(r.body)
    && |Streamed(r.body)| == job.byteLength <= maxBytes && Sha256(Streamed(r.body)) == job.sha256
  }

  /** An accepted response: its headers, and every event of its body. */
  lemma CarriesExactly(r: Answer, job: Job, maxBytes: int)
    requires Carries(r, job, maxBytes)
    ensures r.Response? && (r.encoding == "" || r.encoding == "identity") && r.mime == Lower(job.mimeType)
    ensures r.mime == "image/jpeg" || r.mime == "image/png" || r.mime == "image/webp"
    ensures r.length.Some? ==> r.length.value == Some(job.byteLength)
    ensures |Streamed(r.body)| == job.byteLength <= maxBytes && Sha256(Streamed(r.body)) == job.sha256
    ensures forall i :: 0 <= i < |r.body| ==> r.body[i].Chunk? && !r.body[i].late
    ensures forall i :: 0 <= i < |r.body| ==> r.body[i].bytes == [] || !r.body[i].diskFails
    ensures !r.createFails && !r.syncFails
  {
    InterruptedExactly(r.body);
  }

  /** A file was written that is not the input, and it cannot be removed. */
  predicate Strays(r: Answer, job: Job, maxBytes: int) {
    Opens(r, job, maxBytes) && !Carries(r, job, maxBytes) && r.unlinkFails
  }

  datatype FetchedInput = FetchedInput(path: Id, sha256: Sha256, byteLength: nat)

  function Max(a: int, b: int): int {
    if a < b then b else a
  }

  function Requests(log: seq<Action>): nat {
    if log == [] then 0 else Requests(log[..|log| - 1]) + if log[|log| - 1].Requested? then 1 else 0
  }

  lemma RequestsAppend(log: seq<Action>, a: Action)
    ensures Requests(log + [a]) == Requests(log) + if a.Requested? then 1 else 0
  {
    assert (log + [a])[..|log|] == log;
  }

  class HttpsInputFetcher {
    const allowedHosts: set<string>
    const maxBytes: int
    const allowRedirects: bool
    const maxRedirects: int
    const network: Network
    const temp: TempDirectory

    /** The constructor's own checks. */
    ghost predicate Valid() {
      maxBytes >= 1 && allowRedirects == (maxRedirects > 0)
    }

    constructor (allowedHosts: set<string>, maxBytes: int, allowRedirects: bool, maxRedirects: int, network: Network,
                 temp: TempDirectory)
      requires maxBytes >= 1 && allowRedirects == (maxRedirects > 0)
      ensures Valid() && this.allowedHosts == allowedHosts && this.maxBytes == maxBytes
      ensures this.maxRedirects == maxRedirects
      ensures this.allowRedirects == allowRedirects && this.network == network && this.temp == temp
    {
      this.allowedHosts, this.maxBytes, this.network, this.temp := allowedHosts, maxBytes, network, temp;
      this.allowRedirects, this.maxRedirects := allowRedirects, maxRedirects;
    }

    predicate Approved(url: Url) {
      && url.scheme == "https" && url.host != "" && url.username == "" && url.password == ""
      && url.port in {None, Some(443)} && url.host in allowedHosts
    }

    /** Every request in the log directly follows the validation of the same, approved URL. */
    predicate RequestsAreValidated(log: seq<Action>) {
      forall i :: 0 <= i < |log| && log[i].Requested? ==>
        i > 0 && log[i - 1] == Validated(log[i].url) && Approved(log[i].url)
    }

    lemma OneMoreRequest(log: seq<Action>, url: Url)
      requires RequestsAreValidated(log) && Approved(url)
      ensures var after := log + [Validated(url)] + [Requested(url)];
        RequestsAreValidated(after) && Requests(after) == Requests(log) + 1
    {
      RequestsAppend(log, Validated(url));
      RequestsAppend(log + [Validated(url)], Requested(url));
    }

    /** The destination is on the allowlist, and its host resolves to global addresses only. */
    predicate Permitted(url: Url, script: seq<Hop>) {
      && Approved(url) && script != [] && script[0].addresses.Some?
      && script[0].addresses.value != [] && false !in script[0].addresses.value
    }

    /** Starting at `url`, `n` permitted redirects lead to the permitted answer `a` with status 200. */
    ghost predicate Leads(script: seq<Hop>, url: Url, n: nat, a: Answer)
      decreases n
    {
      && Permitted(url, script) && script[0].answer.Response?
      && var answer := script[0].answer;
         if n == 0 then answer.status == 200 && a == answer
         else
           && answer.status in REDIRECT_STATUSES && answer.location.Some? && answer.location.value.Some?
           && Leads(script[1..], answer.location.value.value, n - 1, a)
    }

    /** What the redirect loop comes to with `left` redirects left. */
    function Final(script: seq<Hop>, url: Url, left: nat): (a: Option<Answer>)
      ensures a.Some? ==> a.value.Response?
      decreases left
    {
      if !Permitted(url, script) || script[0].answer.NetworkFails? then None
      else
        var answer := script[0].answer;
        if answer.status in REDIRECT_STATUSES then
          if left == 0 || answer.location.None? || answer.location.value.None? then None
          else Final(script[1..], answer.location.value.value, left - 1)
        else if answer.status == 200 then Some(answer)
        else None
    }

    lemma {:induction false} FinalLeads(script: seq<Hop>, url: Url, left: nat) returns (n: nat)
      requires Final(script, url, left).Some?
      ensures n <= left && Leads(script, url, n, Final(script, url, left).value)
      decreases left
    {
      var answer := script[0].answer;
      if answer.status in REDIRECT_STATUSES {
        n := FinalLeads(script[1..], answer.location.value.value, left - 1);
        n := n + 1;
      } else {
        n := 0;
      }
    }

    lemma {:induction false} LeadsFinal(script: seq<Hop>, url: Url, left: nat, n: nat, a: Answer)
      requires n <= left && Leads(script, url, n, a)
      ensures Final(script, url, left) == Some(a)
      decreases n
    {
      if n > 0 { LeadsFinal(script[1..], script[0].answer.location.value.value, left - 1, n - 1, a); }
    }

    /** It finds the answer that permitted redirects within the limit lead to, and only that. */
    lemma FinalExact(script: seq<Hop>, url: Url, left: nat, a: Answer)
      ensures Final(script, url, left) == Some(a) ==> exists n: nat :: n <= left && Leads(script, url, n, a)
      ensures (exists n: nat :: n <= left && Leads(script, url, n, a)) ==> Final(script, url, left) == Some(a)
    {
      if Final(script, url, left) == Some(a) {
        var n := FinalLeads(script, url, left);
        assert Leads(script, url, n, a);
      }
      forall n: nat | n <= left && Leads(script, url, n, a) ensures Final(script, url, left) == Some(a) {
        LeadsFinal(script, url, left, n, a);
      }
    }

    predicate Acceptable(job: Job) {
      Lower(job.mimeType) in ALLOWED_MIME_TYPES && 1 <= job.byteLength <= maxBytes
    }

    /** Within the redirect limit the job's URL leads to a response that carries its input. */
    predicate Retrieves(script: seq<Hop>, job: Job) {
      var response := Final(script, job.url, Max(maxRedirects, 0));
      Acceptable(job) && response.Some? && Carries(response.value, job, maxBytes)
    }

    /** It leads to one whose file is not the input and cannot be removed. */
    predicate Leaks(script: seq<Hop>, job: Job) {
      var response := Final(script, job.url, Max(maxRedirects, 0));
      Acceptable(job) && response.Some? && Strays(response.value, job, maxBytes)
    }

    method ValidateDestination(url: Url) returns (ok: bool)
      modifies network`log
      ensures ok <==> Permitted(url, network.script)
      ensures ok <==>
                && url.scheme == "https" && url.host in allowedHosts && url.host != ""
                && url.username == "" && url.password == "" && (url.port.None? || url.port.value == 443)
                && network.script != [] && network.script[0].addresses.Some?
                && network.script[0].addresses.value != [] && false !in network.script[0].addresses.value
      ensures network.log == if ok then old(network.log) + [Validated(url)] else old(network.log)
    {
      if !Approved(url) { return false; }
      var addresses := network.Resolve();
      if addresses.None? || addresses.value == [] || false in addresses.value { return false; }
      network.Note(url);
      return true;
    }

    /**
     * _consume_response: for every chunking it succeeds exactly when the response carries the
     * job's input; the file never outgrows the limits, and a failure removes it unless removing
     * fails too.
     */
    method ConsumeResponse(response: Answer, job: Job) returns (r: Result<FetchedInput, Fault>)
      requires response.Response? && temp.Valid() && 1 <= job.byteLength
      modifies temp
      ensures temp.Valid()
      ensures r.Ok? <==> Carries(response, job, maxBytes)
      ensures r.Ok? ==>
                && r.value.path !in old(temp.files) && r.value.sha256 == job.sha256
                && r.value.byteLength == job.byteLength
                && temp.files == old(temp.files)[r.value.path := Streamed(response.body)]
      ensures r.Ok? ==>
                && (response.encoding == "" || response.encoding == "identity")
                && response.mime == Lower(job.mimeType)
                && (response.length.Some? ==> response.length.value == Some(job.byteLength))
                && (forall i :: 0 <= i < |response.body| ==> response.body[i].Chunk? && !response.body[i].late)
      ensures r.Err? ==> (temp.files == old(temp.files) <==> !Strays(response, job, maxBytes))
      ensures Strays(response, job, maxBytes) ==> r == Err(UNLINK_FAILED) && OneMore(old(temp.files))
      ensures temp.peak <= Max(old(temp.peak), Min(maxBytes, job.byteLength))
    {
      if response.encoding !in {"", "identity"} { return Err(INPUT_FETCH_FAILED); }
      if response.mime !in ALLOWED_MIME_TYPES || response.mime != Lower(job.mimeType) {
        return Err(UNSUPPORTED_MIME_TYPE);
      }
      if response.length.Some? {
        if response.length.value.None? { return Err(INPUT_LENGTH_MISMATCH); }
        if response.length.value.value != job.byteLength || response.length.value.value > maxBytes {
          return Err(INPUT_LENGTH_MISMATCH);
        }
      }
      if response.createFails { return Err(INPUT_FETCH_FAILED); }
      var path := temp.Create();
      r := StreamToFile(response, job, path);
      if r.Err? {
        temp.Unlink(path, response.unlinkFails);
        if response.unlinkFails { return Err(UNLINK_FAILED); }
        assert temp.files == old(temp.files);
      } else {
        CarriesExactly(response, job, maxBytes);
      }
    }

    /** One file was added, and no other touched. */
    ghost predicate OneMore(before: map<Id, Bytes>)
      reads temp
    {
      exists p :: p !in before && p in temp.files && temp.files == before[p := temp.files[p]]
    }

    /** The body of the `try`: one chunk at a time into the open file. */
    method StreamToFile(response: Answer, job: Job, path: Id) returns (r: Result<FetchedInput, Fault>)
      requires response.Response? && temp.Valid() && path in temp.files && temp.files[path] == [] && 1 <= job.byteLength
      modifies temp
      ensures temp.Valid() && path in temp.files && temp.files == old(temp.files)[path := temp.files[path]]
      ensures r.Ok? <==> !response.syncFails && !Interrupted(response.body)
                         && |Streamed(response.body)| == job.byteLength <= maxBytes
                         && Sha256(Streamed(response.body)) == job.sha256
      ensures r.Ok? ==>
                temp.files[path] == Streamed(response.body) &&
                r.value == FetchedInput(path, job.sha256, |Streamed(response.body)|)
      ensures !response.syncFails && !Interrupted(response.body) &&
              |Streamed(response.body)| <= Min(maxBytes, job.byteLength) ==>
                if |Streamed(response.body)| < job.byteLength then r == Err(INPUT_LENGTH_MISMATCH)
                else if Sha256(Streamed(response.body)) != job.sha256 then r == Err(INPUT_HASH_MISMATCH)
                else r.Ok?
      ensures temp.peak <= Max(old(temp.peak), Min(maxBytes, job.byteLength))
    {
      var hashed: Bytes := [];
      var total := 0;
      ghost var content, interrupted := Streamed(response.body), Interrupted(response.body);
      for i := 0 to |response.body|
        invariant temp.Valid() && path in temp.files && temp.files == old(temp.files)[path := hashed]
        invariant total == |hashed| && (total == 0 || total <= Min(maxBytes, job.byteLength))
        invariant content == hashed + Streamed(response.body[i..])
        invariant interrupted <==> Interrupted(response.body[i..])
        invariant temp.peak <= Max(old(temp.peak), Min(maxBytes, job.byteLength))
      {
        var event := response.body[i];
        assert response.body[i..][0] == event && response.body[i..][1..] == response.body[i + 1..];
        if event.StreamFails? { return Err(INPUT_FETCH_FAILED); }
        if event.late { return Err(INPUT_FETCH_FAILED); }
        assert content == (hashed + event.bytes) + Streamed(response.body[i + 1..]);
        if event.bytes == [] { assert hashed + event.bytes == hashed; continue; }
        total := total + |event.bytes|;
        if total > maxBytes || total > job.byteLength { return Err(INPUT_TOO_LARGE); }
        hashed := hashed + event.bytes;
        temp.Append(path, event.bytes, event.diskFails);
        if event.diskFails { return Err(INPUT_FETCH_FAILED); }
      }
      assert response.body[|response.body|..] == [] && content == hashed && !interrupted;
      if response.syncFails { return Err(INPUT_FETCH_FAILED); }
      if total != job.byteLength { return Err(INPUT_LENGTH_MISMATCH); }
      if Sha256(hashed) != job.sha256 { return Err(INPUT_HASH_MISMATCH); }
      return Ok(FetchedInput(path, Sha256(hashed), total));
    }

    /**
     * The redirect loop: at most max_redirects + 1 requests, each right after its own URL was
     * validated, and the response that the permitted redirects lead to.
     */
    method Locate(url: Url) returns (r: Result<Answer, Fault>)
      requires Valid() && RequestsAreValidated(network.log)
      modifies network
      ensures RequestsAreValidated(network.log)
      ensures Requests(network.log) <= Requests(old(network.log)) + Max(maxRedirects, 0) + 1
      ensures Final(old(network.script), url, Max(maxRedirects, 0)) == if r.Ok? then Some(r.value) else None
    {
      var current := url;
      var redirects := 0;
      while true
        invariant RequestsAreValidated(network.log)
        invariant 0 <= redirects <= Max(maxRedirects, 0)
        invariant Requests(network.log) == Requests(old(network.log)) + redirects
        invariant Final(old(network.script), url, Max(maxRedirects, 0)) ==
                  Final(network.script, current, Max(maxRedirects, 0) - redirects)
        decreases maxRedirects - redirects
      {
        ghost var before := network.log;
        var ok := ValidateDestination(current);
        if !ok { return Err(INPUT_HOST_REJECTED); }
        OneMoreRequest(before, current);
        var answer := network.Stream(current);
        if answer.NetworkFails? { return Err(INPUT_FETCH_FAILED); }
        if answer.status in REDIRECT_STATUSES {
          if !allowRedirects || redirects >= maxRedirects { return Err(INPUT_REDIRECT_REJECTED); }
          if answer.location.None? { return Err(INPUT_REDIRECT_REJECTED); }
          if answer.location.value.None? { return Err(INVALID_URL); }
          current := answer.location.value.value;
          redirects := redirects + 1;
          continue;
        }
        if answer.status != 200 { return Err(INPUT_FETCH_FAILED); }
        return Ok(answer);
      }
    }

    /**
     * fetch: succeeds exactly when the job's input is retrievable. Success leaves one new file
     * holding exactly that input; failure leaves nothing, unless a file cannot be removed.
     */
    method Fetch(job: Job) returns (r: Result<FetchedInput, Fault>)
      requires Valid() && temp.Valid() && RequestsAreValidated(network.log)
      modifies network, temp
      ensures temp.Valid() && RequestsAreValidated(network.log)
      ensures Requests(network.log) <= Requests(old(network.log)) + Max(maxRedirects, 0) + 1
      ensures forall i :: 0 <= i < |network.log| && network.log[i].Requested? ==>
                var url := this.network.log[i].url;
                && url.scheme == "https" && url.host in this.allowedHosts && url.host != ""
                && (url.port.None? || url.port == Some(443)) && url.username == "" && url.password == ""
      ensures r.Ok? <==> Retrieves(old(network.script), job)
      ensures r.Ok? ==> HoldsInput(r.value, job, old(temp.files)) && 1 <= job.byteLength <= maxBytes
      ensures r.Err? ==> (temp.files == old(temp.files) <==> !Leaks(old(network.script), job))
      ensures Leaks(old(network.script), job) ==> r == Err(UNLINK_FAILED) && OneMore(old(temp.files))
      ensures temp.peak <= Max(old(temp.peak), Max(0, Min(maxBytes, job.byteLength)))
    {
      if Lower(job.mimeType) !in ALLOWED_MIME_TYPES { return Err(UNSUPPORTED_MIME_TYPE); }
      if job.byteLength < 1 || job.byteLength > maxBytes { return Err(INPUT_TOO_LARGE); }
      var response := Locate(job.url);
      if response.Err? { return Err(response.error); }
      r := ConsumeResponse(response.value, job);
    }

    /** The job's input is in a file that was not there before. */
    ghost predicate KeepsInput(job: Job, before: map<Id, Bytes>)
      reads temp
    {
      exists p :: p !in before && p in temp.files && temp.files == before[p := temp.files[p]] &&
        Sha256(temp.files[p]) == job.sha256
    }

    /** One new file, with the job's length and hash. */
    ghost predicate HoldsInput(input: FetchedInput, job: Job, before: map<Id, Bytes>)
      reads temp
    {
      && input.path !in before && input.path in temp.files
      && temp.files == before[input.path := temp.files[input.path]]
      && |temp.files[input.path]| == input.byteLength == job.byteLength
      && Sha256(temp.files[input.path]) == input.sha256 == job.sha256
    }
  }

  // ---------------------------------------------------------------- the job

  /** The stages after the fetch that work, and whether closing the image or removing the file raises. */
  datatype Stages = Stages(
    decode: bool, preprocess: bool, infer: bool, build: bool, closeFails: bool, cleanupFails: bool)

  /** Cleaning up after a fetched input leaves its file. */
  predicate LeavesFile(stages: Stages) {
    (stages.decode && stages.closeFails) || stages.cleanupFails
  }

  function PolicyFault(job: Job, now: int): Option<Fault> {
    if job.createdAt > now || now >= job.expiresAt then Some(INVALID_JOB)
    else if job.url.scheme != "https" then Some(INPUT_HOST_REJECTED)
    else if !job.detectorMatches then Some(INVALID_JOB)
    else if job.mimeType !in ALLOWED_MIME_TYPES then Some(UNSUPPORTED_MIME_TYPE)
    else if !job.profileSupported then Some(INVALID_JOB)
    else None
  }

  /**
   * execute: a temporary file survives the job exactly when removing one failed, or when the
   * image was decoded and closing it raised, because the file is removed after that. The second
   * hash comparison never fails.
   */
  method Execute(fetcher: HttpsInputFetcher, job: Job, now: int, stages: Stages)
    returns (r: Result<Sha256, Fault>, ghost fetched: bool)
    requires fetcher.Valid() && fetcher.temp.Valid() && fetcher.RequestsAreValidated(fetcher.network.log)
    modifies fetcher.network, fetcher.temp
    ensures fetcher.temp.Valid() && fetcher.RequestsAreValidated(fetcher.network.log)
    ensures forall i :: 0 <= i < |fetcher.network.log| && fetcher.network.log[i].Requested? ==>
              var url := fetcher.network.log[i].url;
                && url.scheme == "https" && url.host in fetcher.allowedHosts && url.host != ""
                && (url.port.None? || url.port == Some(443)) && url.username == "" && url.password == ""
    ensures fetched ==>
              && job.createdAt <= now < job.expiresAt && job.url.scheme == "https" && job.detectorMatches
              && job.profileSupported && job.mimeType in {"image/jpeg", "image/png", "image/webp"}
    ensures job.createdAt > now || now >= job.expiresAt ==>
              && r == Err(INVALID_JOB) && fetcher.network.log == old(fetcher.network.log)
              && fetcher.temp.files == old(fetcher.temp.files)
    ensures fetched <==> PolicyFault(job, now).None? && fetcher.Retrieves(old(fetcher.network.script), job)
    ensures var leaked := PolicyFault(job, now).None? && fetcher.Leaks(old(fetcher.network.script), job);
      fetcher.temp.files == old(fetcher.temp.files) <==> !leaked && !(fetched && LeavesFile(stages))
    ensures fetched && LeavesFile(stages) ==> fetcher.KeepsInput(job, old(fetcher.temp.files))
    ensures r.Ok? <==> fetched && stages == Stages(true, true, true, true, false, false)
    ensures r.Ok? ==> r.value == job.sha256
    ensures fetched && r.Err? ==> r.error in {STAGE_FAILED, CLOSE_FAILED, CLEANUP_FAILED}
    ensures PolicyFault(job, now).Some? ==> r == Err(PolicyFault(job, now).value)
  {
    fetched := false;
    var fault := PolicyFault(job, now);
    if fault.Some? { return Err(fault.value), false; }
    var input := fetcher.Fetch(job);
    if input.Err? { return Err(input.error), false; }
    fetched := true;
    var decoded := false;
    if input.value.sha256 != job.sha256 {
      r := Err(INPUT_HASH_MISMATCH);
    } else if !stages.decode {
      r := Err(STAGE_FAILED);
    } else {
      decoded := true;
      r := if stages.preprocess && stages.infer && stages.build then Ok(input.value.sha256) else Err(STAGE_FAILED);
    }
    if decoded && stages.closeFails { return Err(CLOSE_FAILED), fetched; }
    fetcher.temp.Unlink(input.value.path, stages.cleanupFails);
    if stages.cleanupFails { return Err(CLEANUP_FAILED), fetched; }
    assert fetcher.temp.files == old(fetcher.temp.files);
  }

  /**
   * It happens: an approved job whose input is retrieved and decoded, and whose image cannot be
   * closed, leaves a file in a directory that was empty.
   */
  method FailedCloseLeavesFile(input: Bytes) returns (files: map<Id, Bytes>)
    requires 1 <= |input| <= 10
    ensures exists p :: files == map[p := input]
  {
    var url := Url("https", "h", "", "", None, "/");
    var job := Job(url, "image/png", |input|, Sha256(input), 0, 10, true, true);
    var response := Response(200, None, "identity", "image/png", None,
                             [Chunk(input, false, false)], false, false, false);
    var network := new Network([Hop(Some([true]), response)]);
    var temp := new TempDirectory();
    var fetcher := new HttpsInputFetcher({"h"}, 10, false, 0, network, temp);
    assert Lower("image/png") == "image/png";
    assert response.body[1..] == [] && Streamed(response.body) == input;
    assert fetcher.Permitted(url, network.script) && fetcher.Final(network.script, url, 0) == Some(response);
    assert fetcher.Retrieves(network.script, job);
    var r, fetched := Execute(fetcher, job, 5, Stages(true, true, true, true, true, false));
    files := temp.files;
    var p :| p in files && files == map[][p := files[p]] && Sha256(files[p]) == job.sha256;
    assert files == map[p := input];
  }
}
