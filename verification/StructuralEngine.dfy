/** The structural test registry and the engine that runs all of it. */
module StructuralEngine {
  import opened Prelude
  import opened Json

  datatype TestStatus =
    | EXECUTED | NOT_APPLICABLE | UNSUPPORTED_INPUT | FAILED | PROVIDER_UNAVAILABLE | SKIPPED_BY_PRIVACY_POLICY
    | REQUIRES_MANUAL_REVIEW

  datatype AdapterResult = AdapterResult(
    status: TestStatus, structured: Json, warnings: seq<string>, reason: Option<string>, runtimeMs: Option<int>,
    toolVersion: Option<string>, raw: Option<Bytes>, errorCode: Option<string>)

  datatype Definition = Definition(testId: string, testVersion: string, categories: seq<string>)

  datatype Outputs =
    | NoOutputs
    | Structured(json: Json)
    | ToolOutputs(outputArtifact: Option<string>, errorCode: Option<string>)
    | SummaryOutput(json: Json)
    | FindingIds(ids: seq<string>)

  datatype Reference = Reference(uri: string, sha256: Sha256, byteLength: nat, tool: string)

  datatype TestResult = TestResult(
    testName: string, testVersion: string, status: TestStatus, reason: Option<string>, outputs: Outputs,
    findings: seq<string>,
    warnings: seq<string>, artifacts: seq<Reference>, runtimeMs: Option<int>, startedAt: Option<int>,
    completedAt: Option<int>)

  // ---------------------------------------------------------------- text in the records

  /** White space as Unicode defines it. */
  predicate IsSpace(c: char) {
    var n := c as int;
    || 0x09 <= n <= 0x0d || n == 0x20 || n == 0x85 || n == 0xa0 || n == 0x1680 || 0x2000 <= n <= 0x200a
    || n == 0x2028 || n == 0x2029 || n == 0x202f || n == 0x205f || n == 0x3000
  }

  predicate Blank(s: string) {
    forall i :: 0 <= i < |s| ==> IsSpace(s[i])
  }

  function TrimLeft(s: string): string {
    if s != "" && IsSpace(s[0]) then TrimLeft(s[1..]) else s
  }

  function TrimRight(s: string): string {
    if s != "" && IsSpace(s[|s| - 1]) then TrimRight(s[..|s| - 1]) else s
  }

  /** What a record keeps of a text it is given. */
  function Strip(s: string): string {
    TrimRight(TrimLeft(s))
  }

  lemma {:induction false} TrimLeftBlank(s: string)
    ensures TrimLeft(s) == "" <==> Blank(s)
    ensures TrimLeft(s) != "" ==> !IsSpace(TrimLeft(s)[0])
  {
    if s != "" && IsSpace(s[0]) {
      TrimLeftBlank(s[1..]);
      assert Blank(s[1..]) ==> Blank(s) by {
        forall i | 0 < i < |s| ensures s[i] == s[1..][i - 1] {}
      }
      assert Blank(s) ==> Blank(s[1..]);
    }
  }

  lemma {:induction false} TrimRightKeeps(s: string)
    requires s != "" && !IsSpace(s[0])
    ensures TrimRight(s) != "" && TrimRight(s)[0] == s[0]
  {
    if IsSpace(s[|s| - 1]) { TrimRightKeeps(s[..|s| - 1]); }
  }

  /** Exactly the blank texts are stripped to nothing. */
  lemma StripsToNothing(s: string)
    ensures Strip(s) == "" <==> Blank(s)
  {
    TrimLeftBlank(s);
    if TrimLeft(s) != "" { TrimRightKeeps(TrimLeft(s)); }
  }

  function Stripped(s: Option<string>): Option<string> {
    if s.Some? then Some(Strip(s.value)) else None
  }

  function StrippedAll(s: seq<string>): seq<string> {
    seq(|s|, i requires 0 <= i < |s| => Strip(s[i]))
  }

  /** The validator of a test result, on its stripped fields. */
  predicate ValidResult(t: TestResult) {
    && 1 <= |t.testName| <= 255 && 1 <= |t.testVersion| <= 255
    && (t.reason.Some? ==> |t.reason.value| <= 2000)
    && (t.runtimeMs.Some? ==> t.runtimeMs.value >= 0)
    && (if t.status.EXECUTED? then t.startedAt.Some? && t.completedAt.Some? && t.runtimeMs.Some?
        else t.reason.Some? && t.reason.value != "")
    && (t.startedAt.Some? && t.completedAt.Some? ==> t.completedAt.value >= t.startedAt.value)
  }

  // ---------------------------------------------------------------- the registry

  function Ids(definitions: seq<Definition>): seq<string> {
    seq(|definitions|, i requires 0 <= i < |definitions| => definitions[i].testId)
  }

  lemma {:induction false} SetSizeDetectsDuplicates(s: seq<string>)
    ensures |set x | x in s| <= |s|
    ensures |set x | x in s| == |s| <==> Distinct(s)
  {
    if s != [] {
      var head, tail := s[..|s| - 1], s[|s| - 1];
      SetSizeDetectsDuplicates(head);
      var all, some := set x | x in s, set x | x in head;
      assert s == head + [tail];
      assert all == some + {tail};
      if tail in head {
        assert all == some;
        var k :| 0 <= k < |head| && head[k] == tail;
        assert s[k] == s[|s| - 1];
      } else {
        assert |all| == |some| + 1;
        if Distinct(head) {
          forall i, j | 0 <= i < j < |s| ensures s[i] != s[j] { if j == |s| - 1 { assert s[i] == head[i]; } }
        } else {
          var i, j :| 0 <= i < j < |head| && head[i] == head[j];
          assert s[i] == s[j];
        }
      }
    }
  }

  /** The registry's constructor: it raises exactly on a repeated test id. */
  method MakeRegistry(definitions: seq<Definition>) returns (registry: Option<seq<Definition>>)
    ensures registry == if Distinct(Ids(definitions)) then Some(definitions) else None
  {
    var identifiers := Ids(definitions);
    SetSizeDetectsDuplicates(identifiers);
    if |identifiers| != |set x | x in identifiers| { return None; }
    return Some(definitions);
  }

  /** The text before the first slash, when it is a media category. */
  function Category(mime: string): Option<string> {
    var head := BeforeSlash(mime);
    if head in {"image", "audio", "video"} then Some(head) else None
  }

  function BeforeSlash(s: string): string {
    if s == [] || s[0] == '/' then [] else [s[0]] + BeforeSlash(s[1..])
  }

  // ---------------------------------------------------------------- the adapters

  datatype Tool = Tool(testId: string, artifactName: string, toolName: string)

  /** The tests that adapters answer: the file signature, and the tools in the order they run. */
  datatype Suite = Suite(signatureTest: string, tools: seq<Tool>, jsonName: string, htmlName: string)

  /** No two tools share a test or an artifact name, and none takes the signature test. */
  predicate SuiteOk(s: Suite) {
    && (forall j, k :: 0 <= j < k < |s.tools| ==>
          s.tools[j].testId != s.tools[k].testId && s.tools[j].artifactName != s.tools[k].artifactName)
    && (forall k :: 0 <= k < |s.tools| ==> s.tools[k].testId != s.signatureTest)
  }

  function FindTool(tools: seq<Tool>, testId: string): (tool: Option<Tool>)
    ensures tool.Some? ==> tool.value in tools && tool.value.testId == testId
    ensures tool.None? ==> forall t :: t in tools ==> t.testId != testId
  {
    if tools == [] then None
    else if tools[0].testId == testId then Some(tools[0])
    else FindTool(tools[1..], testId)
  }

  predicate Adapted(suite: Suite, testId: string) {
    testId == suite.signatureTest || FindTool(suite.tools, testId).Some?
  }

  /** The adapters' contract: an executed result is timed, any other gives a reason that is not blank. */
  predicate Respects(r: AdapterResult) {
    && (r.reason.Some? ==> |Strip(r.reason.value)| <= 2000)
    && (if r.status.EXECUTED? then r.runtimeMs.Some? && r.runtimeMs.value >= 0
        else r.reason.Some? && !Blank(r.reason.value))
  }

  predicate Available(r: AdapterResult) {
    !r.status.PROVIDER_UNAVAILABLE? && r.toolVersion.Some? && r.errorCode != Some("START_FAILED")
  }

  /** The inventory entry of an available tool needs its version. */
  predicate Inventoried(r: AdapterResult) {
    Available(r) ==> 1 <= |Strip(r.toolVersion.value)| <= 500
  }

  const UNSUPPORTED := AdapterResult(
    UNSUPPORTED_INPUT, Obj([]), [], Some("Unsupported."), None, None, None, None)

  /** What an adapter contributes: its own result, or a fixed one for other media; None when it raises. */
  function Outcome(mime: string, adapters: string -> Option<AdapterResult>, testId: string): Option<AdapterResult> {
    if Category(mime).None? then Some(UNSUPPORTED) else adapters(testId)
  }

  // ---------------------------------------------------------------- one test

  datatype Context = Context(
    mime: string, findings: seq<string>, image: Json, audio: Json, video: Json, completedAt: int)

  function ToolTest(suite: Suite, d: Definition, r: AdapterResult, completedAt: int): TestResult {
    var executed := r.status.EXECUTED?;
    var tool := FindTool(suite.tools, d.testId);
    TestResult(
      d.testId, d.testVersion, r.status, Stripped(r.reason),
      if tool.None? then Structured(r.structured)
      else ToolOutputs(if r.raw.Some? then Some(tool.value.artifactName) else None, r.errorCode),
      [], StrippedAll(r.warnings), [],
      if executed then r.runtimeMs else None,
      if executed then Some(completedAt) else None,
      if executed then Some(completedAt) else None)
  }

  predicate EndsWith(s: string, suffix: string) {
    |suffix| <= |s| && s[|s| - |suffix|..] == suffix
  }

  function SummaryTest(d: Definition, c: Context): TestResult {
    if Category(c.mime).None? || Category(c.mime).value !in d.categories then
      TestResult(d.testId, d.testVersion, NOT_APPLICABLE, Some("Not applicable."),
                 NoOutputs, [], [], [], None, None, None)
    else
      TestResult(
        d.testId, d.testVersion, EXECUTED, None,
        if EndsWith(d.testId, "image-summary.v1") then SummaryOutput(c.image)
        else if EndsWith(d.testId, "audio-summary.v1") then SummaryOutput(c.audio)
        else if EndsWith(d.testId, "video-summary.v1") then SummaryOutput(c.video)
        else FindingIds(c.findings),
        if EndsWith(d.testId, "metadata-consistency.v1") then c.findings else [],
        [], [], Some(0), Some(c.completedAt), Some(c.completedAt))
  }

  function TestFor(suite: Suite, d: Definition, results: map<string, AdapterResult>, c: Context): TestResult {
    if d.testId in results then ToolTest(suite, d, results[d.testId], c.completedAt) else SummaryTest(d, c)
  }

  /** The names of a definition fit a result; its own record has stripped them already. */
  predicate DefinitionOk(d: Definition) {
    1 <= |d.testId| <= 255 && 1 <= |d.testVersion| <= 255
  }

  /** Building a test result raises exactly when an adapter broke its contract or a name is too long. */
  lemma TestForIsValid(suite: Suite, d: Definition, results: map<string, AdapterResult>, c: Context)
    ensures ValidResult(TestFor(suite, d, results, c)) <==>
              DefinitionOk(d) && (d.testId in results ==> Respects(results[d.testId]))
  {
    if d.testId in results && results[d.testId].reason.Some? { StripsToNothing(results[d.testId].reason.value); }
  }

  /** The loop over the registry. */
  method BuildTestResults(suite: Suite, registry: seq<Definition>, results: map<string, AdapterResult>, c: Context)
    returns (tests: Option<seq<TestResult>>)
    ensures tests.Some? <==> forall d :: d in registry ==> ValidResult(TestFor(suite, d, results, c))
    ensures tests.Some? ==> |tests.value| == |registry|
    ensures tests.Some? ==> forall i :: 0 <= i < |registry| ==>
              tests.value[i] == TestFor(suite, registry[i], results, c)
  {
    var built: seq<TestResult> := [];
    for i := 0 to |registry|
      invariant |built| == i
      invariant forall j :: 0 <= j < i ==> built[j] == TestFor(suite, registry[j], results, c) && ValidResult(built[j])
    {
      var test := TestFor(suite, registry[i], results, c);
      if !ValidResult(test) {
        assert registry[i] in registry;
        return None;
      }
      built := built + [test];
    }
    return Some(built);
  }

  // ---------------------------------------------------------------- analyze

  datatype RunOutcome = COMPLETED | PARTIAL

  datatype EngineResult = EngineResult(
    outcome: RunOutcome, tests: seq<TestResult>, raw: map<string, Bytes>, completedAt: int)

  predicate Troubled(t: TestStatus) {
    t.FAILED? || t.PROVIDER_UNAVAILABLE?
  }

  /** Nothing raises: every adapter answers and keeps its contract, and the names fit. */
  predicate Runs(suite: Suite, registry: seq<Definition>, mime: string, adapters: string -> Option<AdapterResult>) {
    && Outcome(mime, adapters, suite.signatureTest).Some?
    && (forall t :: t in suite.tools ==> ToolAnswers(mime, adapters, t))
    && (forall d :: d in registry ==> Buildable(suite, mime, adapters, d))
  }

  predicate ToolAnswers(mime: string, adapters: string -> Option<AdapterResult>, t: Tool) {
    var r := Outcome(mime, adapters, t.testId);
    r.Some? && Inventoried(r.value)
  }

  predicate Buildable(suite: Suite, mime: string, adapters: string -> Option<AdapterResult>, d: Definition) {
    && DefinitionOk(d)
    && (Adapted(suite, d.testId) ==>
          var r := Outcome(mime, adapters, d.testId); r.Some? && Respects(r.value))
  }

  /** The raw artifact of a tool is collected exactly when its adapter produced one. */
  predicate RawOf(raw: map<string, Bytes>, name: string, r: AdapterResult) {
    if r.raw.Some? then name in raw && raw[name] == r.raw.value else name !in raw
  }

  /** The result and the raw artifact of one tool are its adapter's. */
  predicate Collected(mime: string, adapters: string -> Option<AdapterResult>, t: Tool,
                      results: map<string, AdapterResult>,
                      raw: map<string, Bytes>) {
    && t.testId in results && Outcome(mime, adapters, t.testId) == Some(results[t.testId])
    && RawOf(raw, t.artifactName, results[t.testId])
  }

  /** What was collected of one tool is not touched by another. */
  lemma CollectedStays(mime: string, adapters: string -> Option<AdapterResult>, t: Tool, u: Tool,
                       results: map<string, AdapterResult>,
                       raw: map<string, Bytes>, answer: AdapterResult)
    requires Collected(mime, adapters, t, results, raw) && t.testId != u.testId && t.artifactName != u.artifactName
    ensures var raw' := if answer.raw.Some? then raw[u.artifactName := answer.raw.value] else raw;
      Collected(mime, adapters, t, results[u.testId := answer], raw')
  {
  }

  /** The loop over the tool adapters. */
  method RunTools(suite: Suite, mime: string, adapters: string -> Option<AdapterResult>, signature: AdapterResult)
    returns (results: map<string, AdapterResult>, raw: map<string, Bytes>, raised: bool)
    requires SuiteOk(suite)
    ensures raised <==> exists t :: t in suite.tools && Outcome(mime, adapters, t.testId).None?
    ensures !raised ==> suite.signatureTest in results && results[suite.signatureTest] == signature
    ensures !raised ==> forall t :: t in suite.tools ==> Collected(mime, adapters, t, results, raw)
    ensures forall id :: id in results ==> Adapted(suite, id)
    ensures forall n :: n in raw ==> exists t :: t in suite.tools && t.artifactName == n
  {
    results, raw, raised := map[suite.signatureTest := signature], map[], false;
    for i := 0 to |suite.tools|
      invariant suite.signatureTest in results && results[suite.signatureTest] == signature
      invariant forall k :: 0 <= k < i ==> Collected(mime, adapters, suite.tools[k], results, raw)
      invariant forall k :: i <= k < |suite.tools| ==> suite.tools[k].artifactName !in raw
      invariant forall id :: id in results ==> Adapted(suite, id)
      invariant forall n :: n in raw ==> exists t :: t in suite.tools && t.artifactName == n
    {
      var tool := suite.tools[i];
      assert tool in suite.tools;
      var answer := Outcome(mime, adapters, tool.testId);
      if answer.None? { return results, raw, true; }
      ghost var known, kept := results, raw;
      results := results[tool.testId := answer.value];
      if answer.value.raw.Some? { raw := raw[tool.artifactName := answer.value.raw.value]; }
      forall k | 0 <= k < i ensures Collected(mime, adapters, suite.tools[k], results, raw) {
        CollectedStays(mime, adapters, suite.tools[k], tool, known, kept, answer.value);
      }
    }
  }

  /** After the adapters ran, a test has a result exactly when it is adapted, and it is its adapter's. */
  lemma ResultsAreOutcomes(suite: Suite, mime: string, adapters: string -> Option<AdapterResult>,
                           results: map<string, AdapterResult>, raw: map<string, Bytes>, id: string)
    requires suite.signatureTest in results
    requires Outcome(mime, adapters, suite.signatureTest) == Some(results[suite.signatureTest])
    requires forall t :: t in suite.tools ==> Collected(mime, adapters, t, results, raw)
    requires forall k :: k in results ==> Adapted(suite, k)
    ensures id in results <==> Adapted(suite, id)
    ensures id in results ==> Outcome(mime, adapters, id) == Some(results[id])
  {
    var found := FindTool(suite.tools, id);
    if found.Some? { assert Collected(mime, adapters, found.value, results, raw); }
  }

  /** What the loop over the adapters leaves behind when none of them raised. */
  ghost predicate Gathered(suite: Suite, mime: string, adapters: string -> Option<AdapterResult>,
                           results: map<string, AdapterResult>, raw: map<string, Bytes>) {
    && suite.signatureTest in results
    && Outcome(mime, adapters, suite.signatureTest) == Some(results[suite.signatureTest])
    && (forall t :: t in suite.tools ==> Collected(mime, adapters, t, results, raw))
    && (forall id :: id in results ==> Adapted(suite, id))
    && (forall n :: n in raw ==> exists t :: t in suite.tools && t.artifactName == n)
  }

  /** The test built from what was collected is the one that its adapter determines. */
  lemma TestIsExpected(suite: Suite, adapters: string -> Option<AdapterResult>, c: Context,
                       results: map<string, AdapterResult>, raw: map<string, Bytes>, d: Definition)
    requires Gathered(suite, c.mime, adapters, results, raw)
    ensures ValidResult(TestFor(suite, d, results, c)) <==> Buildable(suite, c.mime, adapters, d)
    ensures TestFor(suite, d, results, c) == Expected(suite, adapters, c, d)
  {
    TestForIsValid(suite, d, results, c);
    ResultsAreOutcomes(suite, c.mime, adapters, results, raw, d.testId);
  }

  lemma ValidWhenBuildable(suite: Suite, registry: seq<Definition>, adapters: string -> Option<AdapterResult>,
                           c: Context, results: map<string, AdapterResult>, raw: map<string, Bytes>)
    requires Gathered(suite, c.mime, adapters, results, raw)
    ensures (forall d :: d in registry ==> ValidResult(TestFor(suite, d, results, c))) <==>
            (forall d :: d in registry ==> Buildable(suite, c.mime, adapters, d))
  {
    forall d | d in registry
      ensures ValidResult(TestFor(suite, d, results, c)) <==> Buildable(suite, c.mime, adapters, d)
    {
      TestIsExpected(suite, adapters, c, results, raw, d);
    }
  }

  lemma AnswerCovers(suite: Suite, registry: seq<Definition>, adapters: string -> Option<AdapterResult>, c: Context,
                     results: map<string, AdapterResult>, r: EngineResult)
    requires Gathered(suite, c.mime, adapters, results, r.raw) && |r.tests| == |registry|
    requires forall d :: d in registry ==> ValidResult(TestFor(suite, d, results, c))
    requires forall i :: 0 <= i < |registry| ==> r.tests[i] == TestFor(suite, registry[i], results, c)
    requires r.outcome.PARTIAL? <==> exists i :: 0 <= i < |r.tests| && Troubled(r.tests[i].status)
    requires r.completedAt == c.completedAt
    ensures Covers(suite, registry, adapters, c, r)
  {
    forall i | 0 <= i < |registry|
      ensures ValidResult(r.tests[i]) && r.tests[i] == Expected(suite, adapters, c, registry[i])
    {
      TestIsExpected(suite, adapters, c, results, r.raw, registry[i]);
    }
    forall t | t in suite.tools ensures CollectedRaw(adapters, c, r.raw, t) {
      assert Collected(c.mime, adapters, t, results, r.raw);
    }
  }

  /**
   * analyze: for every registry with unique ids it returns one valid result per definition, in
   * registry order, exactly when nothing raises; PARTIAL exactly when some result is FAILED or
   * PROVIDER_UNAVAILABLE.
   */
  method Analyze(suite: Suite, registry: seq<Definition>, adapters: string -> Option<AdapterResult>, c: Context)
    returns (r: Option<EngineResult>)
    requires SuiteOk(suite)
    ensures r.Some? <==> Runs(suite, registry, c.mime, adapters)
    ensures r.Some? ==> Covers(suite, registry, adapters, c, r.value)
  {
    var signature := Outcome(c.mime, adapters, suite.signatureTest);
    if signature.None? { return None; }
    var results, raw, raised := RunTools(suite, c.mime, adapters, signature.value);
    if raised { return None; }
    if exists t :: t in suite.tools && !(t.testId in results && Inventoried(results[t.testId])) { return None; }
    assert forall t :: t in suite.tools ==> ToolAnswers(c.mime, adapters, t);
    ValidWhenBuildable(suite, registry, adapters, c, results, raw);
    var tests := BuildTestResults(suite, registry, results, c);
    if tests.None? { return None; }
    var partial := exists i :: 0 <= i < |tests.value| && Troubled(tests.value[i].status);
    var answer := EngineResult(if partial then PARTIAL else COMPLETED, tests.value, raw, c.completedAt);
    AnswerCovers(suite, registry, adapters, c, results, answer);
    return Some(answer);
  }

  /** The result of one definition, in terms of its adapter alone. */
  function Expected(suite: Suite, adapters: string -> Option<AdapterResult>, c: Context, d: Definition): TestResult {
    if Adapted(suite, d.testId) && Outcome(c.mime, adapters, d.testId).Some?
    then ToolTest(suite, d, Outcome(c.mime, adapters, d.testId).value, c.completedAt)
    else SummaryTest(d, c)
  }

  /** Which artifact a test names: its tool's, when the adapter produced one. */
  lemma ExpectedNames(suite: Suite, adapters: string -> Option<AdapterResult>, c: Context, d: Definition)
    ensures var test, tool := Expected(suite, adapters, c, d), FindTool(suite.tools, d.testId);
      && test.testName == d.testId && test.artifacts == []
      && (test.outputs.ToolOutputs? ==> tool.Some?)
      && (tool.Some? && Outcome(c.mime, adapters, d.testId).Some? ==>
            && test.outputs.ToolOutputs?
            && test.outputs.outputArtifact ==
                if Outcome(c.mime, adapters, d.testId).value.raw.Some? then Some(tool.value.artifactName) else None)
  {
  }

  /** What the engine's answer says, in terms of the registry and the adapters alone. */
  ghost predicate Covers(suite: Suite, registry: seq<Definition>, adapters: string -> Option<AdapterResult>, c: Context,
                         r: EngineResult) {
    && |r.tests| == |registry|
    && (forall i :: 0 <= i < |registry| ==>
          ValidResult(r.tests[i]) && r.tests[i] == Expected(suite, adapters, c, registry[i]))
    && (r.outcome.PARTIAL? <==> exists i :: 0 <= i < |r.tests| && Troubled(r.tests[i].status))
    && (forall t :: t in suite.tools ==> CollectedRaw(adapters, c, r.raw, t))
    && (forall n :: n in r.raw ==> exists t :: t in suite.tools && t.artifactName == n)
    && r.completedAt == c.completedAt
  }

  predicate CollectedRaw(adapters: string -> Option<AdapterResult>, c: Context, raw: map<string, Bytes>, t: Tool) {
    var a := Outcome(c.mime, adapters, t.testId);
    a.Some? && RawOf(raw, t.artifactName, a.value)
  }

  /** Registry and adapters determine the answer. */
  lemma OneAnalysis(suite: Suite, registry: seq<Definition>, adapters: string -> Option<AdapterResult>, c: Context,
                    a: EngineResult, b: EngineResult)
    requires Covers(suite, registry, adapters, c, a) && Covers(suite, registry, adapters, c, b)
    ensures a == b
  {
    assert a.tests == b.tests;
    SameRaw(suite, adapters, c, a.raw, b.raw);
    SameRaw(suite, adapters, c, b.raw, a.raw);
    assert a.raw == b.raw;
  }

  lemma SameRaw(suite: Suite, adapters: string -> Option<AdapterResult>, c: Context, a: map<string, Bytes>,
                b: map<string, Bytes>)
    requires forall t :: t in suite.tools ==> CollectedRaw(adapters, c, a, t) && CollectedRaw(adapters, c, b, t)
    requires forall n :: n in a ==> exists t :: t in suite.tools && t.artifactName == n
    ensures forall n :: n in a ==> n in b && b[n] == a[n]
  {
    forall n | n in a ensures n in b && b[n] == a[n] {
      var t :| t in suite.tools && t.artifactName == n;
      assert CollectedRaw(adapters, c, a, t) && CollectedRaw(adapters, c, b, t);
    }
  }

  /** Only an adapter can make a run PARTIAL, and only through a test the registry lists. */
  lemma PartialComesFromAdapters(suite: Suite, registry: seq<Definition>, adapters: string -> Option<AdapterResult>,
                                 c: Context, r: EngineResult)
    requires Covers(suite, registry, adapters, c, r) && Runs(suite, registry, c.mime, adapters)
    ensures r.outcome.PARTIAL? <==>
      exists d :: d in registry && Adapted(suite, d.testId) &&
        Troubled(Outcome(c.mime, adapters, d.testId).value.status)
  {
    if r.outcome.PARTIAL? {
      var i :| 0 <= i < |r.tests| && Troubled(r.tests[i].status);
      assert Buildable(suite, c.mime, adapters, registry[i]);
    }
    if d :| d in registry && Adapted(suite, d.testId) && Troubled(Outcome(c.mime, adapters, d.testId).value.status) {
      var i :| 0 <= i < |registry| && registry[i] == d;
      assert Troubled(r.tests[i].status);
    }
  }

  /** A test names the output artifact of its own tool exactly when that was collected. */
  predicate NamesItsOwn(suite: Suite, test: TestResult, raw: map<string, Bytes>) {
    var tool := FindTool(suite.tools, test.testName);
    && test.artifacts == []
    && (test.outputs.ToolOutputs? <==> tool.Some?)
    && (tool.Some? ==>
          test.outputs.outputArtifact == if tool.value.artifactName in raw then Some(tool.value.artifactName) else None)
  }

  lemma NamedArtifactsExist(suite: Suite, registry: seq<Definition>, adapters: string -> Option<AdapterResult>,
                            c: Context, r: EngineResult, i: nat)
    requires Covers(suite, registry, adapters, c, r) && i < |r.tests|
    ensures NamesItsOwn(suite, r.tests[i], r.raw)
  {
    assert r.tests[i] == Expected(suite, adapters, c, registry[i]);
    ExpectedNames(suite, adapters, c, registry[i]);
    var tool := FindTool(suite.tools, registry[i].testId);
    if tool.Some? { assert CollectedRaw(adapters, c, r.raw, tool.value); }
  }

  /** The unique key (run, test) of the result rows cannot be violated. */
  lemma TestNamesAreDistinct(suite: Suite, registry: seq<Definition>, adapters: string -> Option<AdapterResult>,
                             c: Context, r: EngineResult)
    requires Covers(suite, registry, adapters, c, r) && Distinct(Ids(registry))
    ensures Distinct(Names(r.tests))
  {
    CoveredNames(suite, registry, adapters, c, r);
  }

  lemma CoveredNames(suite: Suite, registry: seq<Definition>, adapters: string -> Option<AdapterResult>, c: Context,
                     r: EngineResult)
    requires Covers(suite, registry, adapters, c, r)
    ensures Names(r.tests) == Ids(registry)
  {
    forall i | 0 <= i < |r.tests| ensures r.tests[i].testName == registry[i].testId {
      ExpectedNames(suite, adapters, c, registry[i]);
    }
  }

  /** Each adapted test says what its adapter said: status, reason, warnings, and times only when executed. */
  lemma AdaptedResults(suite: Suite, registry: seq<Definition>, adapters: string -> Option<AdapterResult>, c: Context,
                       r: EngineResult, i: nat)
    requires Covers(suite, registry, adapters, c, r) && Runs(suite, registry, c.mime, adapters) && i < |registry|
    requires Category(c.mime).Some? && Adapted(suite, registry[i].testId)
    ensures var d, test := registry[i], r.tests[i];
      && adapters(d.testId).Some?
      && var a := adapters(d.testId).value;
         && test.testName == d.testId && test.testVersion == d.testVersion && test.status == a.status
         && (test.reason.Some? <==> a.reason.Some?) && (a.reason.Some? ==> test.reason.value == Strip(a.reason.value))
         && |test.warnings| == |a.warnings|
         && (forall w :: 0 <= w < |a.warnings| ==> test.warnings[w] == Strip(a.warnings[w]))
         && test.findings == [] && test.artifacts == []
         && (a.status.EXECUTED? ==>
               test.runtimeMs == a.runtimeMs && test.startedAt == test.completedAt == Some(c.completedAt))
         && (!a.status.EXECUTED? ==> test.runtimeMs.None? && test.startedAt.None? && test.completedAt.None?)
         && (FindTool(suite.tools, d.testId).None? ==> test.outputs == Structured(a.structured))
         && (FindTool(suite.tools, d.testId).Some? ==>
               test.outputs.ToolOutputs? && test.outputs.errorCode == a.errorCode)
  {
    assert Buildable(suite, c.mime, adapters, registry[i]);
  }

  /** For other media no adapter is asked: every adapted test is an unsupported input. */
  lemma UnsupportedResults(suite: Suite, registry: seq<Definition>, adapters: string -> Option<AdapterResult>,
                           c: Context, r: EngineResult, i: nat)
    requires Covers(suite, registry, adapters, c, r) && i < |registry|
    requires Category(c.mime).None? && Adapted(suite, registry[i].testId)
    ensures r.tests[i].status == UNSUPPORTED_INPUT && r.outcome.COMPLETED?
  {
    forall j | 0 <= j < |registry| ensures !Troubled(r.tests[j].status) {
      assert r.tests[j] == Expected(suite, adapters, c, registry[j]);
    }
  }

  lemma {:induction false} BeforeSlashExactly(s: string, head: string)
    ensures BeforeSlash(s) == head <==> '/' !in head && (s == head || exists rest: string :: s == head + ['/'] + rest)
  {
    if s == [] || s[0] == '/' {
      if head == [] && s != [] { assert s == head + ['/'] + s[1..]; }
    } else if head == [] {
      assert BeforeSlash(s) != [];
    } else {
      BeforeSlashExactly(s[1..], head[1..]);
      assert head == [head[0]] + head[1..];
      if BeforeSlash(s) == head && s[1..] != head[1..] {
        var rest: string :| s[1..] == head[1..] + ['/'] + rest;
        assert s == [s[0]] + s[1..] == head + ['/'] + rest;
      }
      if rest: string :| '/' !in head && s == head + ['/'] + rest {
        assert s[0] == head[0] && s[1..] == head[1..] + ['/'] + rest;
      }
    }
  }

  /** The category is what stands before the first slash, if it is one of the three. */
  lemma CategoryExactly(mime: string, head: string)
    ensures Category(mime) == Some(head) <==>
              && head in {"image", "audio", "video"} && '/' !in head
              && (mime == head || exists rest: string :: mime == head + ['/'] + rest)
  {
    BeforeSlashExactly(mime, head);
  }

  /** When nothing raises there is an answer. */
  lemma AnalysisExists(suite: Suite, registry: seq<Definition>, adapters: string -> Option<AdapterResult>, c: Context)
    returns (r: EngineResult)
    requires SuiteOk(suite) && Runs(suite, registry, c.mime, adapters)
    ensures Covers(suite, registry, adapters, c, r)
  {
    var tests := seq(|registry|, i requires 0 <= i < |registry| => Expected(suite, adapters, c, registry[i]));
    var raw := CollectAll(suite.tools, c.mime, adapters);
    var partial := exists i :: 0 <= i < |tests| && Troubled(tests[i].status);
    r := EngineResult(if partial then PARTIAL else COMPLETED, tests, raw, c.completedAt);
    CollectsAll(suite.tools, c.mime, adapters);
    forall i | 0 <= i < |registry| ensures ValidResult(tests[i]) {
      var d := registry[i];
      assert Buildable(suite, c.mime, adapters, d);
      var answers := if Adapted(suite, d.testId) then map[d.testId := Outcome(c.mime, adapters, d.testId).value]
                     else map[];
      TestForIsValid(suite, d, answers, c);
    }
    forall t | t in suite.tools ensures CollectedRaw(adapters, c, raw, t) { assert ToolAnswers(c.mime, adapters, t); }
  }

  function CollectAll(tools: seq<Tool>, mime: string, adapters: string -> Option<AdapterResult>): map<string, Bytes> {
    if tools == [] then map[]
    else
      var rest, a := CollectAll(tools[1..], mime, adapters), Outcome(mime, adapters, tools[0].testId);
      if a.Some? && a.value.raw.Some? then rest[tools[0].artifactName := a.value.raw.value] else rest
  }

  lemma {:induction false} CollectsAll(tools: seq<Tool>, mime: string, adapters: string -> Option<AdapterResult>)
    requires forall j, k :: 0 <= j < k < |tools| ==> tools[j].artifactName != tools[k].artifactName
    ensures forall n :: n in CollectAll(tools, mime, adapters) ==> exists t :: t in tools && t.artifactName == n
    ensures forall t :: t in tools && Outcome(mime, adapters, t.testId).Some? ==>
              RawOf(CollectAll(tools, mime, adapters), t.artifactName, Outcome(mime, adapters, t.testId).value)
  {
    if tools != [] {
      CollectsAll(tools[1..], mime, adapters);
      assert forall t :: t in tools <==> t == tools[0] || t in tools[1..];
      assert tools[0].artifactName !in CollectAll(tools[1..], mime, adapters);
      forall t | t in tools[1..] ensures t.artifactName != tools[0].artifactName {
        var k :| 0 <= k < |tools[1..]| && tools[1..][k] == t;
        assert tools[k + 1] == t;
      }
    }
  }

  /** The text ends with this suffix. */
  ghost predicate Ends(s: string, suffix: string) {
    exists head: string :: s == head + suffix
  }

  lemma EndsExactly(s: string, suffix: string)
    ensures EndsWith(s, suffix) <==> Ends(s, suffix)
  {
    if EndsWith(s, suffix) { assert s == s[..|s| - |suffix|] + suffix; }
    if head: string :| s == head + suffix { assert s[|s| - |suffix|..] == suffix; }
  }

  /**
   * Every other test is executed exactly when it lists the category, and gets the summary that its
   * name ends with, or else the findings; only the consistency test lists them as its own.
   */
  lemma SummaryResults(suite: Suite, registry: seq<Definition>, adapters: string -> Option<AdapterResult>, c: Context,
                       r: EngineResult, i: nat)
    requires Covers(suite, registry, adapters, c, r) && i < |registry| && !Adapted(suite, registry[i].testId)
    ensures var d, test := registry[i], r.tests[i];
      var applies := Category(c.mime).Some? && Category(c.mime).value in d.categories;
      var image, audio := Ends(d.testId, "image-summary.v1"), Ends(d.testId, "audio-summary.v1");
      var video, consistency := Ends(d.testId, "video-summary.v1"), Ends(d.testId, "metadata-consistency.v1");
      && (test.status.EXECUTED? <==> applies) && (test.status.NOT_APPLICABLE? <==> !applies)
      && (applies && image ==> test.outputs == SummaryOutput(c.image))
      && (applies && !image && audio ==> test.outputs == SummaryOutput(c.audio))
      && (applies && !image && !audio && video ==> test.outputs == SummaryOutput(c.video))
      && (applies && !image && !audio && !video ==> test.outputs == FindingIds(c.findings))
      && (test.findings == if applies && consistency then c.findings else [])
  {
    assert r.tests[i] == Expected(suite, adapters, c, registry[i]);
    var id := registry[i].testId;
    EndsExactly(id, "image-summary.v1");
    EndsExactly(id, "audio-summary.v1");
    EndsExactly(id, "video-summary.v1");
    EndsExactly(id, "metadata-consistency.v1");
  }

  /** The names a run may write: the raw artifacts in order, then the two reports. */
  function FileNames(suite: Suite): seq<string> {
    seq(|suite.tools|, i requires 0 <= i < |suite.tools| => suite.tools[i].artifactName)
    + [suite.jsonName, suite.htmlName]
  }

  function Names(tests: seq<TestResult>): seq<string> {
    seq(|tests|, i requires 0 <= i < |tests| => tests[i].testName)
  }
}
