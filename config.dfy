/**
 * The MATLAB plumbing of rascal2/config.py: where the install directory is
 * read from (the engine's `_arch.txt`, four lines), how the engine started
 * on another process is handed out, the cache of the main process's engine,
 * and the location of the GUI's images.
 *
 * The arch file is a value (whether it exists, and its text); the process
 * that starts MATLAB is its output list; waiting on events is left out.
 */
module Config {
  import opened Wrappers
  import opened Text

  /** `MATLAB_ARCH_FILE`: whether it exists and what it holds. */
  class ArchFile {
    var present: bool
    var content: string

    constructor(present: bool, content: string)
      ensures this.present == present && this.content == content
    {
      this.present := present;
      this.content := content;
    }
  }

  /** The index of the first line break of `s`, or `|s|`. */
  function FirstNewline(s: string): (i: nat)
    ensures i <= |s| && (i < |s| ==> s[i] == '\n')
    ensures forall j :: 0 <= j < i ==> s[j] != '\n'
  {
    if s == [] then 0 else if s[0] == '\n' then 0 else 1 + FirstNewline(s[1..])
  }

  /** `readlines()`: each line keeps its line break; a last line without one is kept as it is. */
  function Lines(s: string): seq<string>
    decreases |s|
  {
    if s == "" then []
    else
      var i := FirstNewline(s);
      if i == |s| then [s] else [s[..i + 1]] + Lines(s[i + 1..])
  }

  /** A line as `writelines` is given it: one line break, at its end. */
  predicate OneLine(line: string)
  {
    |line| > 0 && line[|line| - 1] == '\n' && '\n' !in line[..|line| - 1]
  }

  lemma LinesCons(line: string, rest: string)
    requires OneLine(line)
    ensures Lines(line + rest) == [line] + Lines(rest)
  {
    var s := line + rest;
    var i := FirstNewline(s);
    assert s[|line| - 1] == '\n';
    assert forall j :: 0 <= j < |line| - 1 ==> s[j] == line[..|line| - 1][j];
    assert i == |line| - 1;
    assert s[..i + 1] == line && s[i + 1..] == rest;
  }

  /** What `writelines` puts in a file. */
  function Concat(lines: seq<string>): string
  {
    if lines == [] then "" else lines[0] + Concat(lines[1..])
  }

  /** Reading back lines written one after another gives those lines. */
  lemma {:induction false} LinesOfConcat(lines: seq<string>)
    requires forall k :: 0 <= k < |lines| ==> OneLine(lines[k])
    ensures Lines(Concat(lines)) == lines
  {
    if lines != [] {
      LinesCons(lines[0], Concat(lines[1..]));
      LinesOfConcat(lines[1..]);
    }
  }

  const MatlabNotFound := "Matlab not found, use 'Tools > Setup Matlab' to specify MATLAB location "
  const EngineNotFound := "Matlab engine could not be found, ensure it is installed properly"

  /**
   * `get_matlab_path` as a value: the install directory and the error
   * left in `MatlabHelper.error`. Four lines give the grandparent of the
   * second line; no lines give nothing and no error; any other count, or
   * no file, gives nothing and an error.
   */
  function MatlabPathOf(present: bool, content: string): (r: (string, string))
  {
    if !present then ("", EngineNotFound)
    else
      var lines := Lines(content);
      if |lines| == 4 then (Parent(Parent(lines[1])), "")
      else if |lines| != 0 then ("", MatlabNotFound)
      else ("", "")
  }

  /** The line-count rule, read off the outcome. */
  lemma MatlabPathRule(present: bool, content: string)
    ensures MatlabPathOf(present, content).1 == "" <==> present && (|Lines(content)| == 4 || content == "")
    ensures present && content == "" ==> MatlabPathOf(present, content) == ("", "")
    ensures !present ==> MatlabPathOf(present, content) == ("", EngineNotFound)
  {
    if present && content != "" {
      assert |Lines(content)| > 0;
    }
    if present && Lines(content) == [] {
      assert content == "";
    }
    assert |MatlabNotFound| == 72 && |EngineNotFound| == 65;
  }

  /** What the MATLAB process puts in `engine_output`: the engine's name, or the exception it raised. */
  datatype EngineOutput = EngineName(name: string) | Raised(message: string)

  /** What `get_matlab_engine` returns. */
  datatype EngineResult =
    | LocalConnection(name: string)                       // `matlab.engine.connect_matlab`
    | SharedConnection(name: string, onError: string)     // `ratapi.wrappers.use_shared_matlab`
    | EngineError(message: string)                        // an `Exception` object

  const NotStarted := "Matlab could not be started!"
  const ConnectionError := "Error occurred when connecting to MATLAB, please ensure MATLAB is installed and set up properly."

  /**
   * `get_matlab_engine` once the wait is over (an absent output list reads
   * as an empty one): the first output decides.
   */
  function GetMatlabEngine(output: seq<EngineOutput>, isLocal: bool): (r: EngineResult)
    ensures r.EngineError? <==> output == [] || output[0].Raised?
    ensures output == [] ==> r == EngineError(NotStarted)
    ensures output != [] && output[0].Raised? ==> r == EngineError(output[0].message)
    ensures output != [] && output[0].EngineName? ==>
              r.name == output[0].name && (r.LocalConnection? <==> isLocal)
  {
    if output == [] then EngineError(NotStarted)
    else match output[0]
      case EngineName(name) => if isLocal then LocalConnection(name) else SharedConnection(name, ConnectionError)
      case Raised(message) => EngineError(message)
  }

  /** `MatlabHelper`; `E` is the engine object of the main process. */
  class MatlabHelper<E> {
    var error: string
    var output: seq<EngineOutput>
    var engine: Option<E>
    var processStarted: bool

    constructor()
      ensures error == "" && output == [] && engine.None? && !processStarted
    {
      error := "";
      output := [];
      engine := None;
      processStarted := false;
    }

    /** `get_matlab_path`: the error is reset, then set by the rule of `MatlabPathOf`. */
    method GetMatlabPath(file: ArchFile) returns (installDir: string)
      modifies this
      ensures (installDir, error) == MatlabPathOf(file.present, file.content)
      ensures output == old(output) && engine == old(engine) && processStarted == old(processStarted)
    {
      installDir := "";
      error := "";
      if !file.present {
        error := EngineNotFound;
      } else {
        var lines := Lines(file.content);
        if |lines| == 4 {
          installDir := Parent(Parent(lines[1]));
        } else if |lines| != 0 {
          error := MatlabNotFound;
        }
      }
    }

    /**
     * `async_start`: the MATLAB process starts only when an install
     * directory is known, and then writes to a fresh, empty output list.
     */
    method AsyncStart(file: ArchFile)
      modifies this
      ensures processStarted == (old(processStarted) || MatlabPathOf(file.present, file.content).0 != "")
      ensures error == MatlabPathOf(file.present, file.content).1
      ensures output == if MatlabPathOf(file.present, file.content).0 != "" then [] else old(output)
      ensures engine == old(engine)
    {
      var dir := GetMatlabPath(file);
      if dir == "" {
        return;
      }
      output := [];
      processStarted := true;
    }

    /**
     * `get_local_engine`: a cached engine is returned as it is; otherwise
     * an error from `get_matlab_engine` is raised and nothing is cached,
     * and a connection is resolved (`connect`) and cached.
     */
    method GetLocalEngine(connect: string -> E) returns (r: Result<E, string>)
      modifies this
      ensures old(engine).Some? ==> r == Success(old(engine).value) && engine == old(engine)
      ensures old(engine).None? && GetMatlabEngine(output, true).EngineError? ==>
                r == Failure(GetMatlabEngine(output, true).message) && engine.None?
      ensures old(engine).None? && !GetMatlabEngine(output, true).EngineError? ==>
                r == Success(connect(GetMatlabEngine(output, true).name)) && engine == Some(r.value)
      ensures error == old(error) && output == old(output) && processStarted == old(processStarted)
    {
      if engine.Some? {
        return Success(engine.value);
      }
      var result := GetMatlabEngine(output, true);
      if result.EngineError? {
        return Failure(result.message);
      }
      engine := Some(connect(result.name));
      return Success(engine.value);
    }
  }

  /** Once an engine is cached, every later call gives that same engine, whatever the process output. */
  method CachedEngineStays<E>(helper: MatlabHelper<E>, connect: string -> E, later: seq<EngineOutput>) returns (first: Result<E, string>, second: Result<E, string>)
    modifies helper
    ensures first.Success? ==> second == first
  {
    first := helper.GetLocalEngine(connect);
    helper.output := later;
    second := helper.GetLocalEngine(connect);
  }

  /** `IMAGES_PATH`: the `static/images` directory under the source path. */
  function ImagesPath(sourcePath: string): string
  {
    JoinPosix(JoinPosix(sourcePath, "static"), "images")
  }

  /** `path_for`: the image's POSIX path. */
  function PathFor(sourcePath: string, filename: string): string
  {
    JoinPosix(ImagesPath(sourcePath), filename)
  }

  /** An image's path lies in the images directory and ends in the image's file name. */
  lemma PathForShape(sourcePath: string, filename: string)
    requires '/' !in filename
    ensures Parent(PathFor(sourcePath, filename)) == ImagesPath(sourcePath)
    ensures Name(PathFor(sourcePath, filename)) == filename
  {
    var images := ImagesPath(sourcePath);
    assert images[|images| - 1] == 's';
    assert images != ".";
    assert PathFor(sourcePath, filename) == JoinPath(images, filename);
    ParentNameOfJoin(images, filename);
  }
}
