/** The adapted tests that the program registers, and the names of a run's files. */
module StructuralTests {
  import opened StructuralEngine
  import opened Prelude
  import opened ResultStorage

  const SUITE := Suite(
    "structural.file-signature.v1",
    [ Tool("structural.exiftool-metadata.v1", "exiftool.json", "exiftool"),
      Tool("structural.ffprobe-container.v1", "ffprobe.json", "ffprobe"),
      Tool("structural.mediainfo.v1", "mediainfo.json", "mediainfo") ],
    "report.json", "report.html")

  lemma SuiteIsOk()
    ensures SuiteOk(SUITE)
  {
    var tools := SUITE.tools;
    assert tools[0].testId[11] == 'e' && tools[1].testId[11] == 'f' && tools[2].testId[11] == 'm';
    assert tools[0].artifactName[0] == 'e' && tools[1].artifactName[0] == 'f' && tools[2].artifactName[0] == 'm';
    assert SUITE.signatureTest[11] == 'f' && SUITE.signatureTest[12] == 'i' && tools[1].testId[12] == 'f';
  }

  lemma NamesAreDistinct()
    ensures Distinct(FileNames(SUITE)) && |FileNames(SUITE)| == 5
  {
    var names := FileNames(SUITE);
    assert names == ["exiftool.json", "ffprobe.json", "mediainfo.json", "report.json", "report.html"];
    assert names[0][0] == 'e' && names[1][0] == 'f' && names[2][0] == 'm' && names[3][7] == 'j' && names[4][7] == 'h';
  }

  lemma ToolNamesAreSafe()
    ensures SafeName("exiftool.json") && SafeName("ffprobe.json") && SafeName("mediainfo.json")
  {
  }

  lemma ReportNamesAreSafe()
    ensures SafeName("report.json") && SafeName("report.html")
  {
  }

  /** Every file of a run has a storable name of its own. */
  lemma SuiteNamesAreOk()
    ensures Distinct(FileNames(SUITE)) && forall n :: n in FileNames(SUITE) ==> SafeName(n)
  {
    NamesAreDistinct();
    ToolNamesAreSafe();
    ReportNamesAreSafe();
    assert forall k :: 0 <= k < 5 ==> SafeName(FileNames(SUITE)[k]);
  }

  /** analyze with the program's own adapters, for every registry of distinct tests. */
  method AnalyzeDefault(registry: seq<Definition>, adapters: string -> Option<AdapterResult>, c: Context)
    returns (r: Option<EngineResult>)
    requires Distinct(Ids(registry))
    ensures r.Some? <==> Runs(SUITE, registry, c.mime, adapters)
    ensures r.Some? ==> Names(r.value.tests) == Ids(registry) && Distinct(Names(r.value.tests))
    ensures r.Some? ==>
              (r.value.outcome.PARTIAL? <==>
                 exists d :: d in registry && Adapted(SUITE, d.testId) &&
                             Troubled(Outcome(c.mime, adapters, d.testId).value.status))
  {
    SuiteIsOk();
    r := Analyze(SUITE, registry, adapters, c);
    if r.Some? {
      CoveredNames(SUITE, registry, adapters, c, r.value);
      PartialComesFromAdapters(SUITE, registry, adapters, c, r.value);
    }
  }
}
