/** The documented cases of the categorical parsers, the resolver's error
    paths and the output-path step, each proved of the model. */
module ParserCases {
  import opened Wrappers
  import opened Strings
  import opened Xml
  import opened References
  import opened Categorical
  import opened Interval
  import opened OutputPath

  lemma DirectionCases()
    ensures ParseDirection("input") == 1
    ensures ParseDirection("output") == 2
    ensures ParseDirection("input output") == 3
    ensures ParseDirection("none") == 4
    ensures ParseDirection("") == 4
  {
    assert OccursAt("input", "input", 0);
    assert OccursAt("output", "output", 0);
    assert OccursAt("input output", "input", 0);
    assert OccursAt("input output", "output", 6);
    NotContainsMissingChar("output", "input", 0);
    NotContainsMissingChar("none", "input", 0);
    NotContainsMissingChar("none", "output", 1);
  }

  lemma ClobberModeCases()
    ensures ParseClobberMode("") == 0
    ensures ParseClobberMode("never_modify") == 0
    ensures ParseClobberMode("append") == 1
  {
    ContainsSelf("never_modify");
    ContainsSelf("append");
    NotContainsMissingChar("append", "never_modify", 2);
  }

  lemma ClobberModeTruncateCases()
    ensures ParseClobberMode("truncate") == 2
    ensures ParseClobberMode("replace_files") == 2
  {
    ContainsSelf("truncate");
    ContainsSelf("replace_files");
    NotContainsMissingChar("truncate", "never_modify", 2);
    NotContainsMissingChar("truncate", "append", 1);
    NotContainsMissingChar("replace_files", "never_modify", 0);
    NotContainsMissingChar("replace_files", "append", 4);
  }

  lemma ClobberModeOverwriteCase()
    ensures ParseClobberMode("overwrite") == 3
  {
    ContainsSelf("overwrite");
    NotContainsMissingChar("overwrite", "never_modify", 0);
    NotContainsMissingChar("overwrite", "append", 0);
    NotContainsMissingChar("overwrite", "truncate", 2);
    NotContainsMissingChar("overwrite", "replace_files", 2);
  }

  lemma ClobberModeUnrecognizedCase()
    ensures ParseClobberMode("nonsense_value") == 0
  {
    NotContainsMissingChar("nonsense_value", "never_modify", 6);
    NotContainsMissingChar("nonsense_value", "append", 1);
    NotContainsMissingChar("nonsense_value", "truncate", 0);
    NotContainsMissingChar("nonsense_value", "replace_files", 0);
    NotContainsMissingChar("nonsense_value", "overwrite", 3);
  }

  lemma IoTypeCases()
    ensures ParseIoType("pnetcdf,cdf5") == 1
    ensures ParseIoType("pnetcdf") == 0
    ensures ParseIoType("netcdf4") == 3
    ensures ParseIoType("netcdf") == 2
    ensures ParseIoType("") == 0
  {
    ContainsSelf("pnetcdf,cdf5");
    ContainsSelf("pnetcdf");
    ContainsSelf("netcdf4");
    ContainsSelf("netcdf");
    NotContainsMissingChar("netcdf4", "pnetcdf,cdf5", 0);
    NotContainsMissingChar("netcdf4", "pnetcdf", 0);
    NotContainsMissingChar("netcdf", "pnetcdf,cdf5", 0);
    NotContainsMissingChar("netcdf", "pnetcdf", 0);
    NotContainsMissingChar("netcdf", "netcdf4", 6);
  }

  lemma PrecisionCases()
    ensures ParsePrecisionBytes("single") == 4
    ensures ParsePrecisionBytes("double") == 8
    ensures ParsePrecisionBytes("") == 0
  {
    ContainsSelf("single");
    ContainsSelf("double");
    NotContainsMissingChar("double", "single", 0);
  }

  lemma VerbatimCases()
    ensures ParseRecordInterval("100") == "100"
    ensures ParseRecordInterval("") == "none"
    ensures ParseReferenceTime("2024-01-01_00:00:00") == "2024-01-01_00:00:00"
    ensures ParseReferenceTime("") == "initial_time"
  {
  }

  /** Error paths of the resolver on a two-stream catalog whose `chained` stream
      holds a reference where a literal is needed. */
  const Chain: Catalog := [
    Node(ImmutableTag, map["name" := "base", "input_interval" := "3h"]),
    Node(MutableTag, map["name" := "chained", "input_interval" := Reference("base", InputInterval),
                         "output_interval" := OutputInterval])
  ]

  lemma LookupChained()
    ensures LookupTarget(Chain, "chained") == Some(1)
    ensures LookupTarget(Chain, "missing").None?
  {
    assert Named(Chain[1], "chained", MutableTag);
  }

  lemma LookupBase()
    ensures LookupTarget(Chain, "base") == Some(0)
  {
    assert Named(Chain[0], "base", ImmutableTag);
  }

  lemma SelfReferenceCase()
    ensures ExtractStreamInterval(Reference("me", InputInterval), InputInterval, "me", Chain) == Failure(SelfReference)
  {
    SelfReferenceRejected("me", InputInterval, Chain);
  }

  lemma InvalidAttributeCase()
    ensures ExtractStreamInterval(Reference("base", "type"), InputInterval, "me", Chain)
         == Failure(InvalidAttribute("type"))
  {
    ResolveReference("base", "type", InputInterval, "me", Chain);
  }

  lemma StreamNotFoundCase()
    ensures ExtractStreamInterval(Reference("missing", InputInterval), InputInterval, "me", Chain)
         == Failure(StreamNotFound("missing"))
  {
    LookupChained();
    ResolveReference("missing", InputInterval, InputInterval, "me", Chain);
  }

  lemma MissingAttributeCase()
    ensures ExtractStreamInterval(Reference("base", OutputInterval), OutputInterval, "me", Chain)
         == Failure(MissingAttribute(OutputInterval, "base"))
  {
    LookupBase();
    ResolveReference("base", OutputInterval, OutputInterval, "me", Chain);
  }

  /** Two hops are never taken: a target holding a reference, or an interval name, is refused. */
  lemma DoubleIndirectionCases()
    ensures ExtractStreamInterval(Reference("chained", InputInterval), InputInterval, "me", Chain)
         == Failure(UnresolvableReference)
    ensures ExtractStreamInterval(Reference("chained", OutputInterval), OutputInterval, "me", Chain)
         == Failure(UnresolvableReference)
  {
    LookupChained();
    ReferenceRest("base", InputInterval);
    SecondHopRejected("chained", InputInterval, InputInterval, "me", Chain);
    SecondHopRejected("chained", OutputInterval, OutputInterval, "me", Chain);
  }

  lemma MalformedCase()
    ensures ExtractStreamInterval("stream:s1", InputInterval, "me", Chain) == Failure(MalformedReference)
  {
    assert "stream:s1"[..|Prefix|] == Prefix;
    assert "stream:s1"[|Prefix|..] == "s1";
  }

  const History := "/data/history/file.nc"

  lemma HistoryDirectory()
    ensures ParentPath(History) == "/data/history"
    ensures ParentPath("file.nc") == ""
  {
    var dir := ParentPath(History);
    assert History[13] == '/';
    assert |dir| == 13;
  }

  lemma BuildStreamPathCases()
    ensures BuildStreamPath(FileSystem(true, true, true), History).outcome.Pass?
    ensures BuildStreamPath(FileSystem(true, true, true), History).calls
         == [Exists("/data/history"), CanWrite("/data/history")]
    ensures BuildStreamPath(FileSystem(false, true, true), History).outcome.Pass?
    ensures BuildStreamPath(FileSystem(false, false, true), History).outcome
         == Fail(DirectoryCreateFailed("/data/history"))
    ensures BuildStreamPath(FileSystem(true, true, false), History).outcome
         == Fail(DirectoryNotWritable("/data/history"))
    ensures BuildStreamPath(FileSystem(false, false, false), "file.nc") == Run(Pass, [])
  {
    HistoryDirectory();
  }

  lemma HandleStreamOutputPathCases()
    ensures HandleStreamOutputPath(FileSystem(true, true, true), 2, "/path/to/out/history.nc").outcome.Pass?
    ensures HandleStreamOutputPath(FileSystem(false, false, true), 1, "/path/to/out/history.nc") == Run(Pass, [])
    ensures HandleStreamOutputPath(FileSystem(true, false, false), 2, "/path/to/out/history.nc").outcome.Fail?
  {
    assert "/path/to/out/history.nc"[0] == '/';
  }
}
