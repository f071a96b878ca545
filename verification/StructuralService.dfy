/** The application service: integrity-gated runs, their stored files, and the way back to them. */
module StructuralService {
  import opened Prelude
  import opened Tables
  import opened Repository
  import opened Integrity
  import Engine = StructuralEngine
  import opened ResultStorage

  // ---------------------------------------------------------------- storing the files of a run

  /** Where a run keeps its files; its identifier is new, so nothing is stored under it yet. */
  datatype Place = Place(caseId: Uuid, runId: Uuid)

  function KeyOf(p: Place, name: string): Key {
    Key(p.caseId, p.runId, name)
  }

  predicate Under(p: Place, k: Key) {
    k.caseId == p.caseId && k.runId == p.runId
  }

  ghost predicate Fresh(p: Place, files: Files) {
    forall k :: k in files ==> !Under(p, k)
  }

  ghost predicate NamesOk(suite: Engine.Suite) {
    Distinct(Engine.FileNames(suite)) && forall n :: n in Engine.FileNames(suite) ==> SafeName(n)
  }

  /** The reference that an artifact's bytes get. */
  function ReferenceTo(p: Place, t: Engine.Tool, content: Bytes): Engine.Reference {
    Engine.Reference(PrintUri(KeyOf(p, t.artifactName)), Sha256(content), |content|, t.toolName)
  }

  /** The raw artifact of a tool, if there is one, is stored and referenced under the tool's test. */
  predicate StoredRaw(p: Place, t: Engine.Tool, raw: map<string, Bytes>, files: Files,
                      refs: map<string, Engine.Reference>) {
    if t.artifactName in raw then
      && KeyOf(p, t.artifactName) in files && files[KeyOf(p, t.artifactName)] == raw[t.artifactName]
      && t.testId in refs && refs[t.testId] == ReferenceTo(p, t, raw[t.artifactName])
    else
      t.testId !in refs
  }

  /** Only the given names were written, under the run's own place. */
  ghost predicate Wrote(p: Place, before: Files, after: Files, names: seq<string>) {
    Keeps(before, after) && forall k :: k in after && k !in before ==> Under(p, k) && k.name in names
  }

  predicate Writable(t: Engine.Tool, raw: map<string, Bytes>, disk: string -> Disk) {
    t.artifactName in raw ==> !disk(t.artifactName).WriteFails?
  }

  predicate RawWritable(suite: Engine.Suite, raw: map<string, Bytes>, disk: string -> Disk) {
    forall t :: t in suite.tools ==> Writable(t, raw, disk)
  }

  lemma NameAt(suite: Engine.Suite, i: nat)
    requires i < |suite.tools|
    ensures Engine.FileNames(suite)[i] == suite.tools[i].artifactName
    ensures suite.tools[i].artifactName in Engine.FileNames(suite)
  {
    assert Engine.FileNames(suite)[i] == suite.tools[i].artifactName;
  }

  /** A name that is later in the list than everything written so far is still free. */
  lemma StillFree(suite: Engine.Suite, p: Place, before: Files, after: Files, i: nat)
    requires NamesOk(suite) && Fresh(p, before) && i < |Engine.FileNames(suite)|
    requires Wrote(p, before, after, Engine.FileNames(suite)[..i])
    ensures KeyOf(p, Engine.FileNames(suite)[i]) !in after
  {
    var names := Engine.FileNames(suite);
    assert Under(p, KeyOf(p, names[i]));
    assert names[i] !in names[..i];
  }

  /** Writing the next name extends what was written by that name. */
  lemma WroteOneMore(p: Place, before: Files, mid: Files, names: seq<string>, i: nat, content: Bytes)
    requires i < |names| && Wrote(p, before, mid, names[..i]) && KeyOf(p, names[i]) !in mid
    ensures Wrote(p, before, mid[KeyOf(p, names[i]) := content], names[..i + 1])
  {
    assert names[..i + 1] == names[..i] + [names[i]];
  }

  /** What is stored for a tool stays so when another tool's artifact is added. */
  lemma StoredRawStays(p: Place, t: Engine.Tool, u: Engine.Tool, raw: map<string, Bytes>, files: Files,
                       refs: map<string, Engine.Reference>, content: Bytes, ref: Engine.Reference)
    requires StoredRaw(p, t, raw, files, refs) && t.testId != u.testId && t.artifactName != u.artifactName
    ensures StoredRaw(p, t, raw, files[KeyOf(p, u.artifactName) := content], refs[u.testId := ref])
  {
  }

  /** The names of the raw artifacts, in order. */
  function RawNames(tools: seq<Engine.Tool>, raw: map<string, Bytes>): seq<string> {
    if tools == [] then []
    else (if tools[0].artifactName in raw then [tools[0].artifactName] else []) + RawNames(tools[1..], raw)
  }

  lemma {:induction false} RawNamesAreDistinct(tools: seq<Engine.Tool>, raw: map<string, Bytes>)
    requires forall j, k :: 0 <= j < k < |tools| ==> tools[j].artifactName != tools[k].artifactName
    ensures Distinct(RawNames(tools, raw))
    ensures forall n :: n in RawNames(tools, raw) ==> exists k :: 0 <= k < |tools| && tools[k].artifactName == n
    ensures forall n :: n in RawNames(tools, raw) ==> n in raw
    ensures forall t :: t in tools && t.artifactName in raw ==> t.artifactName in RawNames(tools, raw)
  {
    if tools != [] {
      var rest := RawNames(tools[1..], raw);
      RawNamesAreDistinct(tools[1..], raw);
      forall n | n in rest
        ensures n != tools[0].artifactName && exists k :: 0 <= k < |tools| && tools[k].artifactName == n {
        var k :| 0 <= k < |tools[1..]| && tools[1..][k].artifactName == n;
        assert tools[k + 1].artifactName == n;
      }
      var all := RawNames(tools, raw);
      forall i, j | 0 <= i < j < |all| ensures all[i] != all[j] {
        if |all| > |rest| { assert all[j] == rest[j - 1] && rest[j - 1] in rest; }
      }
    }
  }

  lemma AllNamesAreDistinct(suite: Engine.Suite, raw: map<string, Bytes>)
    requires Engine.SuiteOk(suite) && NamesOk(suite)
    ensures Distinct(RawNames(suite.tools, raw) + [suite.jsonName, suite.htmlName])
  {
    var names, n, stored := Engine.FileNames(suite), |suite.tools|, RawNames(suite.tools, raw);
    RawNamesAreDistinct(suite.tools, raw);
    assert names[n] == suite.jsonName && names[n + 1] == suite.htmlName;
    forall k | 0 <= k < |stored| ensures stored[k] != suite.jsonName && stored[k] != suite.htmlName {
      assert stored[k] in stored;
      var j :| 0 <= j < n && suite.tools[j].artifactName == stored[k];
      assert names[j] == stored[k];
    }
  }

  /** The raw artifacts of the first `i` tools are stored and referenced, and no later tool's is referenced. */
  ghost predicate StoredUpTo(p: Place, suite: Engine.Suite, raw: map<string, Bytes>, files: Files,
                             refs: map<string, Engine.Reference>, i: nat)
    requires i <= |suite.tools|
  {
    && (forall k :: 0 <= k < i ==> StoredRaw(p, suite.tools[k], raw, files, refs))
    && ReferredUpTo(suite.tools, refs, i)
    && OnlyRaw(p, suite, raw, files)
  }

  ghost predicate ReferredUpTo(tools: seq<Engine.Tool>, refs: map<string, Engine.Reference>, i: nat) {
    && (forall id :: id in refs ==> Engine.FindTool(tools, id).Some?)
    && (forall k :: i <= k < |tools| ==> tools[k].testId !in refs)
  }

  lemma ReferredOneMore(tools: seq<Engine.Tool>, refs: map<string, Engine.Reference>, i: nat, ref: Engine.Reference)
    requires ReferredUpTo(tools, refs, i) && i < |tools|
    requires forall j, k :: 0 <= j < k < |tools| ==> tools[j].testId != tools[k].testId
    ensures ReferredUpTo(tools, refs[tools[i].testId := ref], i + 1)
  {
    assert tools[i] in tools;
  }

  /** Of the run's files only raw artifacts that were collected are there. */
  ghost predicate OnlyRaw(p: Place, suite: Engine.Suite, raw: map<string, Bytes>, files: Files) {
    forall key :: key in files && Under(p, key) ==> IsRaw(suite, raw, key.name)
  }

  predicate IsRaw(suite: Engine.Suite, raw: map<string, Bytes>, name: string) {
    name in raw && exists t :: t in suite.tools && t.artifactName == name
  }

  lemma OnlyRawOneMore(p: Place, suite: Engine.Suite, raw: map<string, Bytes>, files: Files, t: Engine.Tool,
                       content: Bytes)
    requires OnlyRaw(p, suite, raw, files) && t in suite.tools && t.artifactName in raw
    ensures OnlyRaw(p, suite, raw, files[KeyOf(p, t.artifactName) := content])
  {
    assert IsRaw(suite, raw, t.artifactName);
  }

  lemma StoredOneMore(p: Place, suite: Engine.Suite, raw: map<string, Bytes>, files: Files,
                      refs: map<string, Engine.Reference>, i: nat)
    requires Engine.SuiteOk(suite) && i < |suite.tools| && suite.tools[i].artifactName in raw
    requires StoredUpTo(p, suite, raw, files, refs, i)
    ensures var t := suite.tools[i];
      StoredUpTo(p, suite, raw, files[KeyOf(p, t.artifactName) := raw[t.artifactName]],
                 refs[t.testId := ReferenceTo(p, t, raw[t.artifactName])], i + 1)
  {
    var t := suite.tools[i];
    var content, ref := raw[t.artifactName], ReferenceTo(p, t, raw[t.artifactName]);
    OnlyRawOneMore(p, suite, raw, files, t, content);
    ReferredOneMore(suite.tools, refs, i, ref);
    var after, later := files[KeyOf(p, t.artifactName) := content], refs[t.testId := ref];
    assert StoredRaw(p, t, raw, after, later);
    forall k | 0 <= k < i ensures StoredRaw(p, suite.tools[k], raw, after, later) {
      StoredRawStays(p, suite.tools[k], t, raw, files, refs, content, ref);
    }
  }

  /** How far the loop over the raw artifacts got: `i` tools, with only their names written and none of them refused. */
  ghost predicate WroteUpTo(p: Place, suite: Engine.Suite, raw: map<string, Bytes>, disk: string -> Disk,
                            before: Files, files: Files, refs: map<string, Engine.Reference>, i: nat)
    requires i <= |suite.tools|
  {
    && Wrote(p, before, files, Engine.FileNames(suite)[..i])
    && StoredUpTo(p, suite, raw, files, refs, i)
    && (forall k :: 0 <= k < i ==> Writable(suite.tools[k], raw, disk))
  }

  lemma WroteNextTool(p: Place, suite: Engine.Suite, raw: map<string, Bytes>, disk: string -> Disk, before: Files,
                      files: Files, refs: map<string, Engine.Reference>, i: nat)
    requires Engine.SuiteOk(suite) && NamesOk(suite) && Fresh(p, before) && i < |suite.tools|
    requires WroteUpTo(p, suite, raw, disk, before, files, refs, i) && Writable(suite.tools[i], raw, disk)
    ensures var t := suite.tools[i];
      if t.artifactName in raw then
        WroteUpTo(p, suite, raw, disk, before, files[KeyOf(p, t.artifactName) := raw[t.artifactName]],
                  refs[t.testId := ReferenceTo(p, t, raw[t.artifactName])], i + 1)
      else
        WroteUpTo(p, suite, raw, disk, before, files, refs, i + 1)
  {
    var t, names := suite.tools[i], Engine.FileNames(suite);
    NameAt(suite, i);
    if t.artifactName in raw {
      StillFree(suite, p, before, files, i);
      WroteOneMore(p, before, files, names, i, raw[t.artifactName]);
      StoredOneMore(p, suite, raw, files, refs, i);
    } else {
      assert names[..i + 1] == names[..i] + [t.artifactName];
    }
  }

  /** The loop over the sorted raw artifacts. */
  method StoreRaw(results: LocalResultStorage, suite: Engine.Suite, raw: map<string, Bytes>, p: Place,
                  disk: string -> Disk)
    returns (refs: map<string, Engine.Reference>, failed: bool)
    requires Engine.SuiteOk(suite) && NamesOk(suite) && Fresh(p, results.files)
    modifies results
    ensures Wrote(p, old(results.files), results.files, Engine.FileNames(suite)[..|suite.tools|])
    ensures failed <==> !RawWritable(suite, raw, disk)
    ensures !failed ==> forall t :: t in suite.tools ==> StoredRaw(p, t, raw, results.files, refs)
    ensures !failed ==> forall id :: id in refs ==> Engine.FindTool(suite.tools, id).Some?
    ensures !failed ==> OnlyRaw(p, suite, raw, results.files)
  {
    refs, failed := map[], false;
    ghost var before, names := results.files, Engine.FileNames(suite);
    for i := 0 to |suite.tools|
      invariant WroteUpTo(p, suite, raw, disk, before, results.files, refs, i)
    {
      var tool := suite.tools[i];
      NameAt(suite, i);
      StillFree(suite, p, before, results.files, i);
      if Writable(tool, raw, disk) { WroteNextTool(p, suite, raw, disk, before, results.files, refs, i); }
      if tool.artifactName in raw {
        ghost var files := results.files;
        var put := results.PutBytes(p.caseId, p.runId, tool.artifactName, raw[tool.artifactName],
                                    disk(tool.artifactName));
        WroteOneMore(p, before, files, names, i, results.files[KeyOf(p, tool.artifactName)]);
        if put.Err? { assert tool in suite.tools; return refs, true; }
        refs := refs[tool.testId :=
                      Engine.Reference(put.value.uri, put.value.sha256, put.value.byteLength, tool.toolName)];
      }
    }
  }

  /** The tests with the stored artifacts of their own tools attached. */
  function Attach(tests: seq<Engine.TestResult>, refs: map<string, Engine.Reference>): seq<Engine.TestResult> {
    seq(|tests|, i requires 0 <= i < |tests| => AttachOne(tests[i], refs))
  }

  function AttachOne(test: Engine.TestResult, refs: map<string, Engine.Reference>): Engine.TestResult {
    if test.testName in refs then test.(artifacts := [refs[test.testName]]) else test
  }

  /** The test with the artifact of its own tool attached, if that was collected. */
  function WithArtifact(p: Place, suite: Engine.Suite, raw: map<string, Bytes>,
                        test: Engine.TestResult): Engine.TestResult {
    var tool := Engine.FindTool(suite.tools, test.testName);
    if tool.Some? && tool.value.artifactName in raw
    then test.(artifacts := [ReferenceTo(p, tool.value, raw[tool.value.artifactName])])
    else test
  }

  function WithArtifacts(p: Place, suite: Engine.Suite, engine: Engine.EngineResult): seq<Engine.TestResult> {
    seq(|engine.tests|, i requires 0 <= i < |engine.tests| => WithArtifact(p, suite, engine.raw, engine.tests[i]))
  }

  /** Attaching by test name what was stored by tool gives each test its own tool's artifact. */
  lemma AttachIsByTool(p: Place, suite: Engine.Suite, engine: Engine.EngineResult, files: Files,
                       refs: map<string, Engine.Reference>)
    requires forall t :: t in suite.tools ==> StoredRaw(p, t, engine.raw, files, refs)
    requires forall id :: id in refs ==> Engine.FindTool(suite.tools, id).Some?
    ensures Attach(engine.tests, refs) == WithArtifacts(p, suite, engine)
  {
    forall i | 0 <= i < |engine.tests|
      ensures AttachOne(engine.tests[i], refs) == WithArtifact(p, suite, engine.raw, engine.tests[i])
    {
      var tool := Engine.FindTool(suite.tools, engine.tests[i].testName);
      if tool.Some? { assert StoredRaw(p, tool.value, engine.raw, files, refs); }
    }
  }

  /** Which database calls of one start fail: reading the context, inserting the run, and its three possible ends. */
  datatype DatabaseFaults = DatabaseFaults(context: bool, create: bool, refusal: bool, success: bool, failure: bool)

  const HEALTHY := DatabaseFaults(false, false, false, false, false)

  /**
   * Rendering, files, adapters and the database as parameters of one run. For a file the disk
   * may fail to write it, or, for the JSON report, to read it back.
   */
  datatype Environment = Environment(
    unreadable: bool, chunkBytes: nat, adapters: string -> Option<Engine.AdapterResult>, context: Engine.Context,
    summaries: bool,
    toJson: seq<Engine.TestResult> -> Bytes, render: Bytes -> Option<Bytes>, disk: string -> Disk,
    reportId: Id, stamp: string,
    startedAt: string, database: DatabaseFaults)

  datatype Persisted = Persisted(tests: seq<Engine.TestResult>, names: seq<string>, json: Bytes, html: Bytes)

  /** Everything _persist_success needs of the disk, the read limit and the template. */
  predicate Storable(p: Place, suite: Engine.Suite, engine: Engine.EngineResult, env: Environment) {
    var json := env.toJson(WithArtifacts(p, suite, engine));
    && RawWritable(suite, engine.raw, env.disk)
    && env.disk(suite.jsonName).Works? && |json| <= READ_LIMIT
    && env.render(json).Some? && !env.disk(suite.htmlName).WriteFails?
  }

  /** Both report files of a run are stored, and the JSON can be read back. */
  predicate ReportsStored(p: Place, suite: Engine.Suite, r: Persisted, files: Files) {
    && KeyOf(p, suite.jsonName) in files && files[KeyOf(p, suite.jsonName)] == r.json && |r.json| <= READ_LIMIT
    && KeyOf(p, suite.htmlName) in files && files[KeyOf(p, suite.htmlName)] == r.html
  }

  /** The artifacts that get a row are exactly the run's files. */
  ghost predicate NamesItsFiles(p: Place, r: Persisted, files: Files) {
    forall n {:trigger n in r.names} :: n in r.names <==> KeyOf(p, n) in files
  }

  lemma FilesAreNamed(p: Place, suite: Engine.Suite, raw: map<string, Bytes>, files: Files)
    requires Engine.SuiteOk(suite)
    requires forall key :: key in files && Under(p, key) ==>
               IsRaw(suite, raw, key.name) || key.name in {suite.jsonName, suite.htmlName}
    requires KeyOf(p, suite.jsonName) in files && KeyOf(p, suite.htmlName) in files
    requires forall t :: t in suite.tools && t.artifactName in raw ==> FileOf(p, t, raw, files)
    ensures forall n :: n in RawNames(suite.tools, raw) + [suite.jsonName, suite.htmlName] <==> KeyOf(p, n) in files
  {
    var stored := RawNames(suite.tools, raw);
    RawNamesAreDistinct(suite.tools, raw);
    forall n ensures n in stored + [suite.jsonName, suite.htmlName] <==> KeyOf(p, n) in files {
      if n in stored {
        var k :| 0 <= k < |suite.tools| && suite.tools[k].artifactName == n;
        assert suite.tools[k] in suite.tools && FileOf(p, suite.tools[k], raw, files);
      }
      if KeyOf(p, n) in files { assert Under(p, KeyOf(p, n)) && KeyOf(p, n).name == n; }
    }
  }

  /** Each named output artifact is stored, and attached to its own test; nothing else is attached. */
  ghost predicate NamedAreAttached(p: Place, tests: seq<Engine.TestResult>, files: Files) {
    forall i :: 0 <= i < |tests| ==> AttachedOk(p, tests[i], files)
  }

  predicate AttachedOk(p: Place, t: Engine.TestResult, files: Files) {
    if t.outputs.ToolOutputs? && t.outputs.outputArtifact.Some? then
      var key := KeyOf(p, t.outputs.outputArtifact.value);
      && key in files && |t.artifacts| == 1
      && t.artifacts[0].uri == PrintUri(key) && t.artifacts[0].sha256 == Sha256(files[key])
      && t.artifacts[0].byteLength == |files[key]|
    else
      t.artifacts == []
  }

  lemma AttachedIsNamed(p: Place, suite: Engine.Suite, test: Engine.TestResult, raw: map<string, Bytes>, files: Files)
    requires forall t :: t in suite.tools && t.artifactName in raw ==> FileOf(p, t, raw, files)
    requires Engine.NamesItsOwn(suite, test, raw)
    ensures AttachedOk(p, WithArtifact(p, suite, raw, test), files)
  {
    var tool := Engine.FindTool(suite.tools, test.testName);
    if tool.Some? && tool.value.artifactName in raw { assert FileOf(p, tool.value, raw, files); }
  }

  predicate FileOf(p: Place, t: Engine.Tool, raw: map<string, Bytes>, files: Files) {
    t.artifactName in raw ==>
      KeyOf(p, t.artifactName) in files && files[KeyOf(p, t.artifactName)] == raw[t.artifactName]
  }

  lemma AllAttachedAreNamed(suite: Engine.Suite, registry: seq<Engine.Definition>,
                            adapters: string -> Option<Engine.AdapterResult>,
                            c: Engine.Context, r: Engine.EngineResult, p: Place, files: Files)
    requires Engine.Covers(suite, registry, adapters, c, r)
    requires forall t :: t in suite.tools && t.artifactName in r.raw ==> FileOf(p, t, r.raw, files)
    ensures NamedAreAttached(p, WithArtifacts(p, suite, r), files)
    ensures Engine.Names(WithArtifacts(p, suite, r)) == Engine.Ids(registry)
  {
    forall i | 0 <= i < |r.tests| ensures AttachedOk(p, WithArtifact(p, suite, r.raw, r.tests[i]), files) {
      Engine.NamedArtifactsExist(suite, registry, adapters, c, r, i);
      AttachedIsNamed(p, suite, r.tests[i], r.raw, files);
    }
    Engine.CoveredNames(suite, registry, adapters, c, r);
    assert Engine.Names(WithArtifacts(p, suite, r)) == Engine.Names(r.tests);
  }

  /**
   * _persist_success up to the database: it succeeds exactly when everything is storable, and
   * then every named artifact and both reports are in the store.
   */
  method PersistFiles(results: LocalResultStorage, suite: Engine.Suite, engine: Engine.EngineResult, p: Place,
                      env: Environment)
    returns (r: Option<Persisted>)
    requires Engine.SuiteOk(suite) && NamesOk(suite) && Fresh(p, results.files)
    modifies results
    ensures Wrote(p, old(results.files), results.files, Engine.FileNames(suite))
    ensures r.Some? <==> Storable(p, suite, engine, env)
    ensures r.Some? ==>
              r.value.tests == WithArtifacts(p, suite, engine) && ReportsStored(p, suite, r.value, results.files)
    ensures r.Some? ==> forall t :: t in suite.tools && t.artifactName in engine.raw ==>
              FileOf(p, t, engine.raw, results.files)
    ensures r.Some? ==> Distinct(r.value.names) && NamesItsFiles(p, r.value, results.files)
  {
    ghost var before := results.files;
    var references, failed := StoreRaw(results, suite, engine.raw, p, env.disk);
    if failed {
      ghost var names := Engine.FileNames(suite);
      assert forall x :: x in names[..|suite.tools|] ==> x in names;
      return None;
    }
    AttachIsByTool(p, suite, engine, results.files, references);
    assert forall t :: t in suite.tools ==>
           StoredRaw(p, t, engine.raw, results.files, references) && FileOf(p, t, engine.raw, results.files);
    var tests := Attach(engine.tests, references);
    var json := env.toJson(tests);
    var html := StoreReports(results, before, suite, p, json, env);
    if html.None? { return None; }
    AllNamesAreDistinct(suite, engine.raw);
    FilesAreNamed(p, suite, engine.raw, results.files);
    return Some(Persisted(tests, RawNames(suite.tools, engine.raw) + [suite.jsonName, suite.htmlName],
                          json, html.value));
  }

  /** The two reports: the HTML is rendered from the JSON as it is read back. */
  method StoreReports(results: LocalResultStorage, ghost before: Files, suite: Engine.Suite, p: Place, json: Bytes,
                      env: Environment)
    returns (html: Option<Bytes>)
    requires NamesOk(suite) && Fresh(p, before)
    requires Wrote(p, before, results.files, Engine.FileNames(suite)[..|suite.tools|])
    modifies results
    ensures Wrote(p, before, results.files, Engine.FileNames(suite)) && Keeps(old(results.files), results.files)
    ensures html.Some? <==> (&& env.disk(suite.jsonName).Works? && |json| <= READ_LIMIT
                             && env.render(json).Some? && !env.disk(suite.htmlName).WriteFails?)
    ensures html.Some? ==> ReportsStored(p, suite, Persisted([], [], json, html.value), results.files)
    ensures forall key :: key in results.files && key !in old(results.files) ==>
              key.name in {suite.jsonName, suite.htmlName}
  {
    ghost var names, n := Engine.FileNames(suite), |suite.tools|;
    assert names[n] == suite.jsonName && names[n + 1] == suite.htmlName && |names| == n + 2;
    assert suite.jsonName in names && suite.htmlName in names;
    StillFree(suite, p, before, results.files, n);
    ghost var raw := results.files;
    var jsonStored := results.PutBytes(p.caseId, p.runId, suite.jsonName, json, env.disk(suite.jsonName));
    WroteOneMore(p, before, raw, names, n, results.files[KeyOf(p, suite.jsonName)]);
    assert names[..n + 2] == names && Wrote(p, before, results.files, names);
    if jsonStored.Err? { return None; }
    UriRoundTrip(KeyOf(p, suite.jsonName));
    var back := results.ReadBytes(jsonStored.value.uri, READ_LIMIT, env.disk(suite.jsonName).ReadFails?);
    if back.Err? { return None; }
    var rendered := env.render(back.value);
    if rendered.None? { return None; }
    StillFree(suite, p, before, results.files, n + 1);
    ghost var withJson := results.files;
    var htmlStored := results.PutBytes(p.caseId, p.runId, suite.htmlName, rendered.value, env.disk(suite.htmlName));
    WroteOneMore(p, before, withJson, names, n + 1, results.files[KeyOf(p, suite.htmlName)]);
    return if htmlStored.Ok? then rendered else None;
  }

  // ---------------------------------------------------------------- reading a report back

  /** What report_bytes makes of a stored location. */
  function ReadBack(files: Files, uri: string, sha256: Sha256): Option<Bytes> {
    var key := ParseUri(uri);
    if key.Some? && key.value in files && |files[key.value]| <= READ_LIMIT && Sha256(files[key.value]) == sha256
    then Some(files[key.value])
    else None
  }

  /**
   * Whatever is put into the store later, a stored file comes back under its URI and hash
   * exactly as it was written, unless it is over the read limit.
   */
  lemma StoredBytesComeBack(before: Files, after: Files, key: Key)
    requires SafeName(key.name) && key in before && Keeps(before, after)
    ensures ReadBack(after, PrintUri(key), Sha256(before[key])) ==
            if |before[key]| <= READ_LIMIT then Some(before[key]) else None
  {
    UriRoundTrip(key);
  }

  datatype ReportFault = REPORT_DATABASE | CASE_NOT_FOUND | REPORT_NOT_FOUND | UNAVAILABLE | INTEGRITY_FAILURE

  /** A report of the case that no other one is newer than. */
  predicate Newest(reports: map<Id, ReportRow>, c: Id, row: ReportRow) {
    && (exists q :: q in reports && reports[q] == row)
    && row.caseId == c
    && (forall q :: q in reports && reports[q].caseId == c ==> !Newer(reports[q], row))
  }

  /** What a request for the report of a case is answered with, given the newest row. */
  function Served(cases: map<Id, CaseStatus>, files: Files, c: Id, row: Option<ReportRow>, html: bool, unreadable: bool)
    : Result<Bytes, ReportFault>
  {
    if c !in cases then Err(CASE_NOT_FOUND)
    else if row.None? then Err(REPORT_NOT_FOUND)
    else
      var uri := if html then row.value.htmlUri else row.value.jsonUri;
      var sha256 := if html then row.value.htmlSha256 else row.value.jsonSha256;
      match ReadBack(files, uri, sha256)
      case Some(content) => if unreadable then Err(UNAVAILABLE) else Ok(content)
      case None =>
        var key := ParseUri(uri);
        Err(if !unreadable && key.Some? && key.value in files && |files[key.value]| <= READ_LIMIT then INTEGRITY_FAILURE
            else UNAVAILABLE)
  }

  /**
   * report_bytes: the newest report of the case, only if its bytes still have the recorded hash.
   * The queries may fail, and the file may be unreadable.
   */
  method ReportBytes(
    repository: Repository, results: LocalResultStorage, c: Id, html: bool, queryFails: bool, unreadable: bool)
    returns (r: Result<Bytes, ReportFault>, row: Option<ReportRow>)
    ensures row.None? <==> forall q :: q in repository.reports ==> repository.reports[q].caseId != c
    ensures row.Some? ==> Newest(repository.reports, c, row.value)
    ensures r == if queryFails then Err(REPORT_DATABASE)
                 else Served(repository.cases, results.files, c, row, html, unreadable)
    ensures r == Err(CASE_NOT_FOUND) <==> !queryFails && c !in repository.cases
    ensures r == Err(REPORT_NOT_FOUND) <==> !queryFails && c in repository.cases && row.None?
    ensures r.Ok? ==>
              && row.Some? && !unreadable && !queryFails
              && Sha256(r.value) == (if html then row.value.htmlSha256 else row.value.jsonSha256)
              && var key := ParseUri(if html then row.value.htmlUri else row.value.jsonUri);
                 key.Some? && key.value in results.files && results.files[key.value] == r.value
    ensures r == Err(INTEGRITY_FAILURE) ==>
              && row.Some? && !unreadable
              && var key := ParseUri(if html then row.value.htmlUri else row.value.jsonUri);
                 && key.Some? && key.value in results.files
                 && Sha256(results.files[key.value]) != (if html then row.value.htmlSha256 else row.value.jsonSha256)
  {
    row := repository.LatestStructuralReport(c);
    if queryFails { return Err(REPORT_DATABASE), row; }
    if c !in repository.cases { return Err(CASE_NOT_FOUND), row; }
    if row.None? { return Err(REPORT_NOT_FOUND), row; }
    var uri := if html then row.value.htmlUri else row.value.jsonUri;
    var expected := if html then row.value.htmlSha256 else row.value.jsonSha256;
    var content := results.ReadBytes(uri, READ_LIMIT, unreadable);
    if content.Err? { return Err(UNAVAILABLE), row; }
    if Sha256(content.value) != expected { return Err(INTEGRITY_FAILURE), row; }
    return Ok(content.value), row;
  }

  // ---------------------------------------------------------------- start

  /**
   * The readings of the wall clock during one start, in the order they are taken. The record of a
   * missing object is made again, at `verifyRetried`, when it is refused at `verifyDone`.
   */
  datatype Clock = Clock(
    started: int, verifyStarted: int, verifyDone: int, verifyRetried: int, analyzed: int, failed: int)

  predicate Monotone(k: Clock) {
    k.started <= k.verifyStarted <= k.verifyDone <= k.verifyRetried <= k.analyzed <= k.failed
  }

  datatype Outcome =
    | DISABLED | CASE_MISSING | EVIDENCE_MISSING | ALREADY_ACTIVE | DATABASE | INTEGRITY_REFUSED | REFUSAL_UNRECORDED
    | ANALYSIS_FAILED | CLOCK_WENT_BACK | Finished(status: RunStatus)

  datatype Verdict = Passed | Absent | Unfit

  /** What verification comes to; Unfit objects are there, but mismatch or cannot be read. */
  function VerdictOn(objects: map<Sha256, Bytes>, env: Environment, recorded: Measured): Verdict {
    var look := LookAt(objects, env.unreadable, recorded);
    if look.Missing? then Absent else if Classify(look, recorded).VERIFIED? then Passed else Unfit
  }

  /** The guarded block goes through: nothing in it raises. */
  ghost predicate Succeeds(k: Clock, p: Place, suite: Engine.Suite, registry: seq<Engine.Definition>,
                           env: Environment) {
    && Engine.Runs(suite, registry, env.context.mime, env.adapters) && env.summaries && k.started <= k.analyzed
    && exists engine :: && Engine.Covers(suite, registry, env.adapters, env.context.(completedAt := k.analyzed), engine)
                        && Storable(p, suite, engine, env)
  }

  /** A registered test's adapter failed or was unavailable. */
  predicate Impaired(suite: Engine.Suite, registry: seq<Engine.Definition>, env: Environment) {
    exists d :: && d in registry && Engine.Adapted(suite, d.testId)
                && var r := Engine.Outcome(env.context.mime, env.adapters, d.testId);
                   r.Some? && Engine.Troubled(r.value.status)
  }

  /** When the verification record says it was completed; None when the clock went back and none was made. */
  function VerifiedAt(k: Clock, verdict: Verdict): Option<int> {
    if k.verifyStarted <= k.verifyDone then Some(k.verifyDone)
    else if verdict.Absent? && k.verifyStarted <= k.verifyRetried then Some(k.verifyRetried)
    else None
  }

  /** The status a created run ends in, from what happens to it; RUNNING when nothing could be recorded. */
  function Ending(k: Clock, db: DatabaseFaults, verdict: Verdict, succeeds: bool, impaired: bool): RunStatus {
    var verified := VerifiedAt(k, verdict);
    if verified.None? then RUNNING
    else if verdict.Passed? then AnalysisEnding(k, db, succeeds, impaired)
    else if k.started <= verified.value && !db.refusal then REFUSED
    else RUNNING
  }

  /** The same for a run whose evidence verified. */
  function AnalysisEnding(k: Clock, db: DatabaseFaults, succeeds: bool, impaired: bool): RunStatus {
    if succeeds && !db.success then if impaired then PARTIAL else COMPLETED
    else if k.started <= k.failed && !db.failure then FAILED
    else RUNNING
  }

  /** Each ending by what happened, with the readings of the clock that allow it. */
  lemma EndingsExactly(k: Clock, db: DatabaseFaults, verdict: Verdict, succeeds: bool, impaired: bool)
    ensures var status := Ending(k, db, verdict, succeeds, impaired);
      var cleared := verdict.Passed? && k.verifyStarted <= k.verifyDone;
      && (status.COMPLETED? <==> cleared && succeeds && !db.success && !impaired)
      && (status.PARTIAL? <==> cleared && succeeds && !db.success && impaired)
      && (status.FAILED? <==> cleared && (!succeeds || db.success) && k.started <= k.failed && !db.failure)
      && (status.REFUSED? <==>
            && !verdict.Passed? && !db.refusal
            && (if k.verifyStarted <= k.verifyDone then k.started <= k.verifyDone
                else verdict.Absent? && k.verifyStarted <= k.verifyRetried && k.started <= k.verifyRetried))
  {
  }

  /** Evidence passes exactly when it can be read and its object has the recorded hashes and length. */
  lemma PassesExactly(objects: map<Sha256, Bytes>, env: Environment, m: Measured)
    ensures VerdictOn(objects, env, m).Passed? <==>
              && !env.unreadable && m.sha256 in objects && Sha256(objects[m.sha256]) == m.sha256
              && Sha512(objects[m.sha256]) == m.sha512 && |objects[m.sha256]| == m.byteLength
    ensures VerdictOn(objects, env, m).Absent? <==> !env.unreadable && m.sha256 !in objects
  {
  }

  /**
   * Nothing but failures of its surroundings keeps the guarded block from succeeding: adapters
   * that keep their contract, a disk and a template that work, a JSON report within 64 MiB and a
   * clock that did not go back are enough.
   */
  lemma WorkingRunsSucceed(k: Clock, p: Place, suite: Engine.Suite, registry: seq<Engine.Definition>, env: Environment)
    requires Engine.SuiteOk(suite) && Engine.Runs(suite, registry, env.context.mime, env.adapters)
    requires env.summaries && k.started <= k.analyzed && (forall name :: env.disk(name).Works?)
    requires forall tests :: |env.toJson(tests)| <= 64 * 1024 * 1024
    requires forall json :: env.render(json).Some?
    ensures Succeeds(k, p, suite, registry, env)
  {
    var engine := Engine.AnalysisExists(suite, registry, env.adapters, env.context.(completedAt := k.analyzed));
    assert Storable(p, suite, engine, env);
  }

  /** A run is impaired exactly when an adapter of a registered test answers that it failed or is unavailable. */
  lemma ImpairedExactly(suite: Engine.Suite, registry: seq<Engine.Definition>, env: Environment)
    ensures Impaired(suite, registry, env) <==>
              exists d :: && d in registry && Engine.Adapted(suite, d.testId)
                          && Engine.Category(env.context.mime).Some? && env.adapters(d.testId).Some?
                          && env.adapters(d.testId).value.status in {Engine.FAILED, Engine.PROVIDER_UNAVAILABLE}
  {
  }

  /**
   * With a clock that never goes back and a database that works, every run that is created is
   * left terminal, whatever verification, analysis and storage do.
   */
  lemma MonotoneClocksEndRuns(k: Clock, verdict: Verdict, succeeds: bool, impaired: bool)
    requires Monotone(k)
    ensures !Ending(k, HEALTHY, verdict, succeeds, impaired).RUNNING?
    ensures Ending(k, HEALTHY, verdict, succeeds, impaired).REFUSED? <==> !verdict.Passed?
  {
  }

  /**
   * With a working database a run stays RUNNING exactly when a completion lies before the start
   * it is recorded with, for a missing object at both of its readings. The same readings strand a
   * run whose object verifies, and refuse one whose object is missing.
   */
  lemma StrandedByClockExactly(k: Clock, verdict: Verdict, succeeds: bool, impaired: bool)
    ensures Ending(k, HEALTHY, verdict, succeeds, impaired).RUNNING? <==>
              match verdict
              case Passed => k.verifyDone < k.verifyStarted || (!succeeds && k.failed < k.started)
              case Unfit => k.verifyDone < k.verifyStarted || k.verifyDone < k.started
              case Absent =>
                if k.verifyStarted <= k.verifyDone then k.verifyDone < k.started
                else k.verifyRetried < k.verifyStarted || k.verifyRetried < k.started
    ensures var backwards := Clock(0, 10, 9, 12, 20, 30);
      && Ending(backwards, HEALTHY, Passed, succeeds, impaired).RUNNING?
      && Ending(backwards, HEALTHY, Absent, succeeds, impaired).REFUSED?
  {
  }

  /** A live run of consistent tables can always be finalized with unique tests and artifacts. */
  lemma LiveRunsFinalize(t: Tables, run: Id, doc: RunDoc, tests: seq<string>, names: seq<string>,
                         report: Option<ReportRow>)
    requires Consistent(t) && run in t.runs && t.runs[run].status.RUNNING? && Distinct(tests) && Distinct(names)
    requires report.Some? ==> report.value.caseId == t.runs[run].caseId && report.value.evidence == t.runs[run].evidence
    ensures Finalize(t, run, doc, tests, names, report).Finalized?
  {
    assert RunRowOk(t.runs[run], t.assets);
    assert forall x :: x in RowsOf(run, tests) ==> x.0 == run;
    assert forall x :: x in RowsOf(run, names) ==> x.0 == run;
    assert FinalizeAllowed(t, run, tests, names, report);
  }

  /** The run's test results and artifacts in the tables are exactly these. */
  predicate HasRows(t: Tables, run: Id, tests: seq<string>, names: seq<string>) {
    && (forall x :: x in t.results && x.0 == run ==> x.1 in tests) && (forall n :: n in tests ==> (run, n) in t.results)
    && (forall x :: x in t.artifacts && x.0 == run ==> x.1 in names)
    && (forall n :: n in names ==> (run, n) in t.artifacts)
  }

  lemma LiveRunsHaveNoRows(t: Tables, run: Id)
    requires Consistent(t) && run in t.runs && t.runs[run].status.RUNNING?
    ensures (forall x :: x in t.results ==> x.0 != run) && (forall x :: x in t.artifacts ==> x.0 != run)
  {
    assert !Terminal(t, run);
  }

  function LiveRow(c: Id, e: Id): RunRow {
    RunRow(c, e, ANALYSIS_PROFILE, RUNNING, None)
  }

  /**
   * finalize_structural_run on this start's own live run, after others may have committed: it
   * goes through exactly when the database works.
   */
  method Finish(repository: Repository, run: Id, c: Id, e: Id, doc: RunDoc, tests: seq<string>, names: seq<string>,
                report: Option<ReportRow>, fails: bool) returns (ok: bool)
    requires SharedOk(repository.Now()) && run in repository.runs && repository.runs[run] == LiveRow(c, e)
    requires !doc.status.RUNNING? && Distinct(tests) && Distinct(names)
    requires report.Some? ==> report.value.caseId == c && report.value.evidence == e
    modifies repository
    ensures SharedOk(repository.Now()) && run in repository.runs && (ok <==> !fails)
    ensures repository.runs[run] ==
            if ok then LiveRow(c, e).(status := doc.status, terminal := Some(doc)) else LiveRow(c, e)
    ensures ok && report.Some? ==> run in repository.reports && repository.reports[run] == report.value
    ensures ok ==> HasRows(repository.Rows(), run, tests, names)
  {
    repository.OthersCommit(run);
    if fails { return false; }
    LiveRunsFinalize(repository.Rows(), run, doc, tests, names, report);
    LiveRunsHaveNoRows(repository.Rows(), run);
    var outcome := repository.FinalizeStructuralRun(run, doc, tests, names, report);
    assert outcome.Finalized?;
    return true;
  }

  /**
   * The body of the `try` before its database write: it goes through exactly when nothing in it
   * raises, and then both reports and every named artifact are stored.
   */
  method AnalyzeAndPersist(results: LocalResultStorage, suite: Engine.Suite, registry: seq<Engine.Definition>,
                           env: Environment, k: Clock, p: Place)
    returns (r: Option<Persisted>, partial: bool)
    requires Engine.SuiteOk(suite) && NamesOk(suite) && Distinct(Engine.Ids(registry)) && Fresh(p, results.files)
    modifies results
    ensures Wrote(p, old(results.files), results.files, Engine.FileNames(suite))
    ensures r.Some? <==> Succeeds(k, p, suite, registry, env)
    ensures r.Some? ==> (partial <==> Impaired(suite, registry, env))
    ensures r.Some? ==>
              ReportsStored(p, suite, r.value, results.files) && NamedAreAttached(p, r.value.tests, results.files)
    ensures r.Some? ==> Engine.Names(r.value.tests) == Engine.Ids(registry)
    ensures r.Some? ==> Distinct(r.value.names) && NamesItsFiles(p, r.value, results.files)
  {
    var c := env.context.(completedAt := k.analyzed);
    var answer := Engine.Analyze(suite, registry, env.adapters, c);
    if answer.None? || !env.summaries { return None, false; }
    var engine := answer.value;
    forall other | Engine.Covers(suite, registry, env.adapters, c, other) ensures other == engine {
      Engine.OneAnalysis(suite, registry, env.adapters, c, other, engine);
    }
    r := PersistFiles(results, suite, engine, p, env);
    partial := engine.outcome.PARTIAL?;
    if r.None? { return; }
    if k.analyzed < k.started { return None, false; }
    AllAttachedAreNamed(suite, registry, env.adapters, c, engine, p, results.files);
    Engine.PartialComesFromAdapters(suite, registry, env.adapters, c, engine);
  }

  /** The row that a persisted run gets in the report table. */
  function ReportFor(p: Place, suite: Engine.Suite, c: Id, e: Id, env: Environment, r: Persisted): ReportRow {
    ReportRow(env.reportId, c, e, PrintUri(KeyOf(p, suite.jsonName)), Sha256(r.json),
              PrintUri(KeyOf(p, suite.htmlName)),
              Sha256(r.html), env.stamp)
  }

  /**
   * A finished run has its report row, both report files and every artifact its tests name; its
   * result rows are exactly the registry's tests, its artifact rows exactly its files.
   */
  ghost predicate RunDelivered(t: Tables, files: Files, p: Place, suite: Engine.Suite, registry: seq<Engine.Definition>,
                               c: Id, e: Id, run: Id, env: Environment, r: Persisted) {
    && run in t.reports && t.reports[run] == ReportFor(p, suite, c, e, env, r)
    && ReportsStored(p, suite, r, files) && NamedAreAttached(p, r.tests, files)
    && Engine.Names(r.tests) == Engine.Ids(registry)
    && HasRows(t, run, Engine.Ids(registry), r.names) && NamesItsFiles(p, r, files)
  }

  /** What the caller is told says how the run stands, except that a failed analysis may not have been recorded. */
  predicate Tells(outcome: Outcome, status: RunStatus) {
    match outcome
    case INTEGRITY_REFUSED => status.REFUSED?
    case REFUSAL_UNRECORDED => status.RUNNING?
    case CLOCK_WENT_BACK => status.RUNNING?
    case ANALYSIS_FAILED => status.FAILED? || status.RUNNING?
    case Finished(s) => status == s && (s.COMPLETED? || s.PARTIAL?)
    case _ => false
  }

  /** The terminal document carries the status, and says verified of every end but a refusal. */
  predicate DocumentOk(row: RunRow) {
    && (row.terminal.None? <==> row.status.RUNNING?)
    && (row.terminal.Some? ==> row.terminal.value == RunDoc(row.status, !row.status.REFUSED?))
  }

  /** The run row of a start that was answered, apart from starts that could not record their end. */
  predicate RunToldAs(row: RunRow, outcome: Outcome, c: Id, e: Id) {
    && row.caseId == c && row.evidence == e && DocumentOk(row)
    && (outcome.INTEGRITY_REFUSED? <==> row.status.REFUSED?)
    && (outcome == Finished(COMPLETED) <==> row.status.COMPLETED?)
    && (outcome == Finished(PARTIAL) <==> row.status.PARTIAL?)
    && (row.status.FAILED? ==> outcome.ANALYSIS_FAILED?)
    && (row.status.RUNNING? ==> outcome in {REFUSAL_UNRECORDED, ANALYSIS_FAILED, CLOCK_WENT_BACK})
  }

  /** The success path of a start whose evidence verified, and the failure path when it does not go through. */
  method AnalyzeAndFinish(
    repository: Repository, results: LocalResultStorage, suite: Engine.Suite, registry: seq<Engine.Definition>,
    env: Environment, k: Clock, c: Id, e: Id, run: Id, p: Place)
    returns (outcome: Outcome, ghost persisted: Option<Persisted>)
    requires SharedOk(repository.Now()) && run in repository.runs && repository.runs[run] == LiveRow(c, e)
    requires Engine.SuiteOk(suite) && NamesOk(suite) && Distinct(Engine.Ids(registry)) && Fresh(p, results.files)
    modifies repository, results
    ensures SharedOk(repository.Now()) && Wrote(p, old(results.files), results.files, Engine.FileNames(suite))
    ensures run in repository.runs && repository.runs[run].caseId == c && repository.runs[run].evidence == e
    ensures DocumentOk(repository.runs[run])
    ensures repository.runs[run].status ==
              AnalysisEnding(k, env.database, Succeeds(k, p, suite, registry, env), Impaired(suite, registry, env))
    ensures Tells(outcome, repository.runs[run].status) && !outcome.INTEGRITY_REFUSED?
    ensures outcome.Finished? <==> persisted.Some?
    ensures persisted.Some? ==>
              RunDelivered(repository.Rows(), results.files, p, suite, registry, c, e, run, env, persisted.value)
  {
    var kept, partial := AnalyzeAndPersist(results, suite, registry, env, k, p);
    if kept.Some? {
      var status := if partial then PARTIAL else COMPLETED;
      var row := ReportFor(p, suite, c, e, env, kept.value);
      var done := Finish(repository, run, c, e, RunDoc(status, true), Engine.Names(kept.value.tests), kept.value.names,
                         Some(row), env.database.success);
      if done { return Finished(status), kept; }
    }
    if k.failed < k.started { return CLOCK_WENT_BACK, None; }
    var noted := Finish(repository, run, c, e, RunDoc(FAILED, true), ["structural.analysis-internal.v1"], [], None,
                        env.database.failure);
    return ANALYSIS_FAILED, None;
  }

  /** The rest of a start whose run exists: verify, then analyze, then record the end. */
  method Conclude(
    repository: Repository, objects: map<Sha256, Bytes>, results: LocalResultStorage, suite: Engine.Suite,
    registry: seq<Engine.Definition>, env: Environment, k: Clock, c: Id, e: Id, run: Id, p: Place, recorded: Measured)
    returns (outcome: Outcome, ghost persisted: Option<Persisted>)
    requires SharedOk(repository.Now()) && run in repository.runs && repository.runs[run] == LiveRow(c, e)
    requires Engine.SuiteOk(suite) && NamesOk(suite) && Distinct(Engine.Ids(registry)) && Fresh(p, results.files)
    requires env.chunkBytes > 0
    modifies repository, results
    ensures SharedOk(repository.Now()) && Wrote(p, old(results.files), results.files, Engine.FileNames(suite))
    ensures run in repository.runs && repository.runs[run].caseId == c && repository.runs[run].evidence == e
    ensures DocumentOk(repository.runs[run])
    ensures repository.runs[run].status == Ending(k, env.database, VerdictOn(objects, env, recorded),
                                                  Succeeds(k, p, suite, registry, env), Impaired(suite, registry, env))
    ensures Tells(outcome, repository.runs[run].status)
    ensures outcome.Finished? <==> persisted.Some?
    ensures persisted.Some? ==>
              RunDelivered(repository.Rows(), results.files, p, suite, registry, c, e, run, env, persisted.value)
  {
    var check := Verify(objects, env.unreadable, recorded, env.chunkBytes, k.verifyStarted, k.verifyDone,
                        k.verifyRetried);
    if check.None? { return CLOCK_WENT_BACK, None; }
    if check.value.status.VERIFIED? {
      outcome, persisted := AnalyzeAndFinish(repository, results, suite, registry, env, k, c, e, run, p);
      return;
    }
    if check.value.completedAt < k.started { return CLOCK_WENT_BACK, None; }
    var refused := Finish(repository, run, c, e, RunDoc(REFUSED, false), ["structural.evidence-integrity.v1"], [], None,
                          env.database.refusal);
    return if refused then INTEGRITY_REFUSED else REFUSAL_UNRECORDED, None;
  }

  /**
   * The body of start. Whatever integrity, adapters, rendering, files, database and clock do, and
   * whatever others commit meanwhile, a run that was created ends in the status that these inputs
   * determine, and a finished one is delivered.
   */
  method StartRun(
    repository: Repository, objects: map<Sha256, Bytes>, results: LocalResultStorage, suite: Engine.Suite,
    registry: seq<Engine.Definition>, env: Environment, k: Clock, enabled: bool, c: Id, e: Id, run: Id, p: Place)
    returns (outcome: Outcome, ghost recorded: Option<Measured>, ghost persisted: Option<Persisted>)
    requires SharedOk(repository.Now()) && run !in repository.runs && env.chunkBytes > 0
    requires Engine.SuiteOk(suite) && NamesOk(suite) && Distinct(Engine.Ids(registry)) && Fresh(p, results.files)
    modifies repository, results
    ensures SharedOk(repository.Now()) && Wrote(p, old(results.files), results.files, Engine.FileNames(suite))
    ensures run !in repository.runs <==> outcome in {DISABLED, CASE_MISSING, EVIDENCE_MISSING, ALREADY_ACTIVE, DATABASE}
    ensures outcome.DISABLED? <==> !enabled
    ensures outcome.CASE_MISSING? <==> enabled && !env.database.context && c !in old(repository.cases)
    ensures outcome.EVIDENCE_MISSING? <==>
              && enabled && !env.database.context && c in old(repository.cases)
              && (e in old(repository.assets) ==> old(repository.assets)[e].caseId != c)
    ensures recorded.Some? ==>
              && e in old(repository.assets) && old(repository.assets)[e].sha256 in old(repository.blobs)
              && recorded.value == old(repository.blobs)[old(repository.assets)[e].sha256]
    ensures run in repository.runs ==>
              && recorded.Some? && repository.runs[run].caseId == c && repository.runs[run].evidence == e
              && DocumentOk(repository.runs[run])
              && repository.runs[run].status == Ending(k, env.database, VerdictOn(objects, env, recorded.value),
                                                       Succeeds(k, p, suite, registry, env),
                                                       Impaired(suite, registry, env))
              && Tells(outcome, repository.runs[run].status)
    ensures outcome.Finished? <==> persisted.Some?
    ensures persisted.Some? ==>
              RunDelivered(repository.Rows(), results.files, p, suite, registry, c, e, run, env, persisted.value)
  {
    recorded, persisted := None, None;
    if !enabled { return DISABLED, recorded, persisted; }
    if env.database.context { return DATABASE, recorded, persisted; }
    if c !in repository.cases { return CASE_MISSING, recorded, persisted; }
    if e !in repository.assets || repository.assets[e].caseId != c { return EVIDENCE_MISSING, recorded, persisted; }
    var m := RecordOf(repository, e);
    recorded := Some(m);
    repository.OthersCommit(run);
    if env.database.create { return DATABASE, recorded, persisted; }
    var created, refused := repository.CreateStructuralRun(run, c, e, ANALYSIS_PROFILE, env.startedAt);
    if created.Err? { return if created.error.ActiveRun? then ALREADY_ACTIVE else DATABASE, recorded, persisted; }
    outcome, persisted := Conclude(repository, objects, results, suite, registry, env, k, c, e, run, p, m);
  }

  /**
   * start: what the caller is told, what the run row says and what is delivered, by what happened.
   * A run is COMPLETED or PARTIAL exactly when it is delivered, PARTIAL exactly when moreover an
   * adapter of a registered test failed or was unavailable; both, and FAILED, take evidence whose
   * object is as recorded; REFUSED takes evidence that is not.
   */
  method Start(
    repository: Repository, objects: map<Sha256, Bytes>, results: LocalResultStorage, suite: Engine.Suite,
    registry: seq<Engine.Definition>, env: Environment, k: Clock, enabled: bool, c: Id, e: Id, run: Id, p: Place)
    returns (outcome: Outcome, ghost recorded: Option<Measured>, ghost persisted: Option<Persisted>)
    requires SharedOk(repository.Now()) && run !in repository.runs && env.chunkBytes > 0
    requires Engine.SuiteOk(suite) && NamesOk(suite) && Distinct(Engine.Ids(registry)) && Fresh(p, results.files)
    modifies repository, results
    ensures SharedOk(repository.Now()) && Wrote(p, old(results.files), results.files, Engine.FileNames(suite))
    ensures outcome.DISABLED? <==> !enabled
    ensures outcome.CASE_MISSING? <==> enabled && !env.database.context && c !in old(repository.cases)
    ensures outcome.EVIDENCE_MISSING? <==>
              && enabled && !env.database.context && c in old(repository.cases)
              && (e in old(repository.assets) ==> old(repository.assets)[e].caseId != c)
    ensures run !in repository.runs <==> outcome in {DISABLED, CASE_MISSING, EVIDENCE_MISSING, ALREADY_ACTIVE, DATABASE}
    ensures recorded.Some? ==>
              && e in old(repository.assets) && old(repository.assets)[e].sha256 in old(repository.blobs)
              && recorded.value == old(repository.blobs)[old(repository.assets)[e].sha256]
    ensures run in repository.runs ==> recorded.Some? && RunToldAs(repository.runs[run], outcome, c, e)
    ensures run in repository.runs ==>
              var m, row := recorded.value, repository.runs[run];
              var intact := && !env.unreadable && m.sha256 in objects && Sha256(objects[m.sha256]) == m.sha256
                            && Sha512(objects[m.sha256]) == m.sha512 && |objects[m.sha256]| == m.byteLength;
              && (row.status in {COMPLETED, PARTIAL, FAILED} ==> intact && k.verifyStarted <= k.verifyDone)
              && (row.status.REFUSED? ==> !intact)
              && (row.status.FAILED? ==> persisted.None?)
              && (persisted.Some? <==>
                    intact && k.verifyStarted <= k.verifyDone && Succeeds(k, p, suite, registry, env) &&
                    !env.database.success)
    ensures persisted.Some? ==> run in repository.runs
    ensures outcome == Finished(PARTIAL) <==>
              && persisted.Some?
              && exists d :: && d in registry && Engine.Adapted(suite, d.testId)
                             && Engine.Category(env.context.mime).Some? && env.adapters(d.testId).Some?
                             && env.adapters(d.testId).value.status in {Engine.FAILED, Engine.PROVIDER_UNAVAILABLE}
    ensures outcome == Finished(COMPLETED) <==>
              && persisted.Some?
              && forall d :: d in registry && Engine.Adapted(suite, d.testId) &&
                             Engine.Category(env.context.mime).Some? && env.adapters(d.testId).Some? ==>
                               env.adapters(d.testId).value.status !in {Engine.FAILED, Engine.PROVIDER_UNAVAILABLE}
    ensures persisted.Some? ==>
              RunDelivered(repository.Rows(), results.files, p, suite, registry, c, e, run, env, persisted.value)
  {
    outcome, recorded, persisted :=
      StartRun(repository, objects, results, suite, registry, env, k, enabled, c, e, run, p);
    ImpairedExactly(suite, registry, env);
    if recorded.Some? {
      PassesExactly(objects, env, recorded.value);
      EndingsExactly(k, env.database, VerdictOn(objects, env, recorded.value), Succeeds(k, p, suite, registry, env),
                     Impaired(suite, registry, env));
    }
  }

  /** The blob row that an association points at. */
  method RecordOf(repository: Repository, e: Id) returns (m: Measured)
    requires SharedOk(repository.Now()) && e in repository.assets
    ensures repository.assets[e].sha256 in repository.blobs && m == repository.blobs[repository.assets[e].sha256]
    ensures m.sha256 == repository.assets[e].sha256
  {
    assert repository.assets[e].sha256 in Referenced(repository.assets);
    return repository.blobs[repository.assets[e].sha256];
  }

  // ---------------------------------------------------------------- finalized reports are served

  /**
   * The bytes finalized by a start can be read back after any later files: the JSON always, the
   * HTML exactly when it is within the read limit.
   */
  lemma FinalizedBytesComeBack(p: Place, suite: Engine.Suite, c: Id, e: Id, env: Environment, r: Persisted,
                               before: Files, after: Files)
    requires NamesOk(suite) && ReportsStored(p, suite, r, before) && Keeps(before, after)
    ensures var row := ReportFor(p, suite, c, e, env, r);
      && ReadBack(after, row.jsonUri, row.jsonSha256) == Some(r.json)
      && (ReadBack(after, row.htmlUri, row.htmlSha256) == if |r.html| <= READ_LIMIT then Some(r.html) else None)
  {
    var names, n := Engine.FileNames(suite), |suite.tools|;
    assert names[n] == suite.jsonName && names[n + 1] == suite.htmlName && |names| == n + 2;
    assert suite.jsonName in names && suite.htmlName in names;
    StoredBytesComeBack(before, after, KeyOf(p, suite.jsonName));
    StoredBytesComeBack(before, after, KeyOf(p, suite.htmlName));
  }

  /** The tables after any sequence of transactions. */
  function ApplyAll(flush: Flush, t: Tables, txs: seq<Tx>): Tables {
    if txs == [] then t else Apply(flush, ApplyAll(flush, t, txs[..|txs| - 1]), txs[|txs| - 1])
  }

  /** Every transaction is one the repository's callers may make. */
  predicate AllWellFormed(flush: Flush, t: Tables, txs: seq<Tx>) {
    txs == [] || (&& AllWellFormed(flush, t, txs[..|txs| - 1])
                  && WellFormed(ApplyAll(flush, t, txs[..|txs| - 1]), txs[|txs| - 1]))
  }

  lemma {:induction false} ReportsSurvive(flush: Flush, t: Tables, txs: seq<Tx>, run: Id)
    requires Consistent(t) && AllWellFormed(flush, t, txs) && run in t.reports
    ensures var u := ApplyAll(flush, t, txs);
      Consistent(u) && run in u.reports && u.reports[run] == t.reports[run] && t.reports[run].caseId in u.cases
  {
    if txs == [] {
      assert RunRowOk(t.runs[run], t.assets);
    } else {
      var u := ApplyAll(flush, t, txs[..|txs| - 1]);
      ReportsSurvive(flush, t, txs[..|txs| - 1], run);
      TransactionsKeepConsistent(flush, u, txs[|txs| - 1]);
      TerminalRunsAreFinal(flush, u, txs[|txs| - 1], run);
      var v := ApplyAll(flush, t, txs);
      assert RunRowOk(v.runs[run], v.assets);
    }
  }

  /**
   * After any later transactions and any later files, while no other report of the case ties with
   * or beats it, a finalized run's report is what report_bytes serves: the JSON always, the HTML
   * exactly when it is within the read limit.
   */
  lemma FinalizedReportIsServed(
    flush: Flush, t: Tables, txs: seq<Tx>, before: Files, after: Files, p: Place, suite: Engine.Suite,
    registry: seq<Engine.Definition>, c: Id, e: Id, run: Id, env: Environment, r: Persisted, row: Option<ReportRow>)
    requires Consistent(t) && AllWellFormed(flush, t, txs) && NamesOk(suite) && Keeps(before, after)
    requires RunDelivered(t, before, p, suite, registry, c, e, run, env, r)
    requires var u := ApplyAll(flush, t, txs);
      && (forall q :: q in u.reports && u.reports[q].caseId == c && q != run ==> Newer(t.reports[run], u.reports[q]))
      && (row.None? <==> forall q :: q in u.reports ==> u.reports[q].caseId != c)
      && (row.Some? ==> Newest(u.reports, c, row.value))
    ensures var u := ApplyAll(flush, t, txs);
      && Served(u.cases, after, c, row, false, false) == Ok(r.json)
      && (Served(u.cases, after, c, row, true, false) ==
          if |r.html| <= READ_LIMIT then Ok(r.html) else Err(UNAVAILABLE))
  {
    var u := ApplyAll(flush, t, txs);
    ReportsSurvive(flush, t, txs, run);
    assert u.reports[run].caseId == c;
    var q :| q in u.reports && u.reports[q] == row.value;
    assert q == run;
    FinalizedBytesComeBack(p, suite, c, e, env, r, before, after);
    HtmlKey(p, suite, r, before, after);
  }

  lemma HtmlKey(p: Place, suite: Engine.Suite, r: Persisted, before: Files, after: Files)
    requires NamesOk(suite) && ReportsStored(p, suite, r, before) && Keeps(before, after)
    ensures var key := KeyOf(p, suite.htmlName);
      ParseUri(PrintUri(key)) == Some(key) && key in after && after[key] == r.html
  {
    var names, n := Engine.FileNames(suite), |suite.tools|;
    assert names[n + 1] == suite.htmlName && |names| == n + 2;
    assert suite.htmlName in names;
    UriRoundTrip(KeyOf(p, suite.htmlName));
  }

  /**
   * It happens: whatever run succeeds, with another template whose page is over the read limit it
   * succeeds as well, and then its HTML report can never be served.
   */
  lemma UnservableHtmlHappens(
    k: Clock, p: Place, suite: Engine.Suite, registry: seq<Engine.Definition>, env: Environment)
    returns (long: Environment, r: Persisted, files: Files)
    requires NamesOk(suite) && Succeeds(k, p, suite, registry, env)
    ensures long == env.(render := long.render) && Succeeds(k, p, suite, registry, long)
    ensures exists engine ::
              && Engine.Covers(suite, registry, env.adapters, env.context.(completedAt := k.analyzed), engine)
              && r.tests == WithArtifacts(p, suite, engine) && r.json == env.toJson(r.tests)
    ensures long.render(r.json) == Some(r.html) && ReportsStored(p, suite, r, files)
    ensures forall c, e, after :: Keeps(files, after) ==>
      Served(map[c := ANALYZED], after, c, Some(ReportFor(p, suite, c, e, long, r)), true, false) ==
        Err(UNAVAILABLE)
  {
    var html: Bytes := seq(READ_LIMIT + 1, i => 0);
    long := env.(render := json => Some(html));
    var engine :| && Engine.Covers(suite, registry, env.adapters, env.context.(completedAt := k.analyzed), engine)
                  && Storable(p, suite, engine, env);
    assert Storable(p, suite, engine, long);
    var tests := WithArtifacts(p, suite, engine);
    r := Persisted(tests, [], env.toJson(tests), html);
    files := map[KeyOf(p, suite.jsonName) := r.json][KeyOf(p, suite.htmlName) := html];
    var names, n := Engine.FileNames(suite), |suite.tools|;
    assert names[n] == suite.jsonName && names[n + 1] == suite.htmlName && |names| == n + 2;
    forall c, e, after | Keeps(files, after)
      ensures Served(map[c := ANALYZED], after, c, Some(ReportFor(p, suite, c, e, long, r)), true, false) ==
        Err(UNAVAILABLE)
    {
      FinalizedBytesComeBack(p, suite, c, e, long, r, files, after);
      HtmlKey(p, suite, r, files, after);
    }
  }
}
