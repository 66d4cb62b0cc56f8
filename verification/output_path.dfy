/** The output-path step (`build_stream_path`, `handle_stream_output_path`) over a
    filesystem given as the three answers it returns, with the calls made recorded. */
module OutputPath {
  import opened Wrappers
  import opened Strings

  /** The answers of `exists`, `create_directories` and `can_write`. */
  datatype FileSystem = FileSystem(present: bool, createSucceeds: bool, writable: bool)

  datatype FsCall = Exists(path: string) | CreateDirectories(path: string) | CanWrite(path: string)

  datatype PathError = DirectoryCreateFailed(dir: string) | DirectoryNotWritable(dir: string)

  /** The verdict together with every filesystem call made, in order. */
  datatype Run = Run(outcome: Outcome<PathError>, calls: seq<FsCall>)

  /** The directory part of a path: everything before the last '/', the root
      "/" when that is the only separator and it leads, empty without any '/'. */
  function ParentPath(path: string): (dir: string)
    ensures dir == "" <==> '/' !in path
    ensures dir != "" ==> StartsWith(path, dir) && forall k :: |dir| < k < |path| ==> path[k] != '/'
    ensures dir != "" && dir != "/" ==> |dir| < |path| && path[|dir|] == '/'
  {
    match LastIndexOf(path, '/')
    case None => ""
    case Some(0) =>
      assert path[..1] == "/";
      "/"
    case Some(i) => path[..i]
  }

  /** Ensures the template's directory exists and is writable. */
  function BuildStreamPath(fs: FileSystem, filenameTemplate: string): (run: Run)
    ensures ParentPath(filenameTemplate) == "" ==> run == Run(Pass, [])
    ensures ParentPath(filenameTemplate) != "" ==>
              var dir := ParentPath(filenameTemplate);
              && |run.calls| > 0 && run.calls[0] == Exists(dir)
              && (CreateDirectories(dir) in run.calls <==> !fs.present)
              && (CanWrite(dir) in run.calls <==> fs.present || fs.createSucceeds)
              && (run.outcome == Fail(DirectoryCreateFailed(dir)) <==> !fs.present && !fs.createSucceeds)
              && (run.outcome == Fail(DirectoryNotWritable(dir)) <==>
                    (fs.present || fs.createSucceeds) && !fs.writable)
    ensures run.outcome.Pass? <==>
              ParentPath(filenameTemplate) == "" || ((fs.present || fs.createSucceeds) && fs.writable)
  {
    var dir := ParentPath(filenameTemplate);
    if dir == "" then Run(Pass, [])
    else if !fs.present && !fs.createSucceeds then
      Run(Fail(DirectoryCreateFailed(dir)), [Exists(dir), CreateDirectories(dir)])
    else
      var probe := if fs.present then [Exists(dir)] else [Exists(dir), CreateDirectories(dir)];
      if !fs.writable then Run(Fail(DirectoryNotWritable(dir)), probe + [CanWrite(dir)])
      else Run(Pass, probe + [CanWrite(dir)])
  }

  /** Only output (2) and input-output (3) streams touch the filesystem. */
  function HandleStreamOutputPath(fs: FileSystem, itype: int, filenameTemplate: string): (run: Run)
    ensures itype != 2 && itype != 3 ==> run == Run(Pass, [])
    ensures itype == 2 || itype == 3 ==> run == BuildStreamPath(fs, filenameTemplate)
  {
    if itype == 2 || itype == 3 then BuildStreamPath(fs, filenameTemplate)
    else Run(Pass, [])
  }
}
