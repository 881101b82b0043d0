/**
 * The MATLAB setup dialog (rascal2/dialogs/matlab_setup_dialog.py): the
 * user picks MATLAB's install directory, and on OK the engine's arch file
 * is rewritten as four lines that `get_matlab_path` reads back.
 *
 * The file is opened for reading and writing, read to its end, truncated
 * to nothing and written. The write goes to the stream's position, which
 * truncating does not move: the model keeps that position, and a write
 * beyond the end of the file fills the gap with NUL characters, as a
 * POSIX file does.
 */
module MatlabSetup {
  import opened Text
  import opened Config

  /** The architecture name: `"win64"` on Windows, otherwise `"glnxa64"`. */
  function Arch(windows: bool): (r: string)
    ensures '/' !in r && '\n' !in r && r != ""
  {
    if windows then "win64" else "glnxa64"
  }

  /** The four lines written for an install directory. */
  function ArchLines(dir: string, arch: string): (r: seq<string>)
    ensures |r| == 4
  {
    [arch + "\n",
     JoinPosix(dir, BinDir + arch + "\n"),
     JoinPosix(dir, EngineDir + arch + "\n"),
     JoinPosix(dir, ExternBinDir + arch + "\n")]
  }

  function Zeros(n: nat): (r: string)
    ensures |r| == n && forall i :: 0 <= i < n ==> r[i] == '\0'
  {
    seq(n, _ => '\0')
  }

  /** Writing `text` at `position`: a gap after the end is filled with NULs; text after the written part stays. */
  function WriteAt(content: string, position: nat, text: string): (r: string)
    ensures |r| >= position + |text| && r[position..position + |text|] == text
  {
    if position >= |content| then content + Zeros(position - |content|) + text
    else if position + |text| < |content| then content[..position] + text + content[position + |text|..]
    else content[..position] + text
  }

  /** A directory as a normalised path with no line break, which makes each written line one line. */
  predicate GoodDir(dir: string)
  {
    Normalised(dir) && '\n' !in dir
  }

  lemma JoinedLine(dir: string, rel: string)
    requires GoodDir(dir) && OneLine(rel) && rel[0] != '/'
    ensures JoinPosix(dir, rel) == dir + "/" + rel
    ensures OneLine(JoinPosix(dir, rel))
  {
    assert dir != "." by {
      if dir == "." {
        assert StartsComponent(dir, 0);
      }
    }
    var line := dir + "/" + rel;
    assert line[..|line| - 1] == dir + "/" + rel[..|rel| - 1];
  }

  /** The directories under the install directory that the last three lines name. */
  const BinDir := "bin/"
  const EngineDir := "extern/engines/python/dist/matlab/engine/"
  const ExternBinDir := "extern/bin/"

  /** A relative path ending in the architecture name and a line break is one line. */
  lemma ArchLine(prefix: string, arch: string)
    requires '\n' !in prefix && '\n' !in arch
    ensures OneLine(prefix + arch + "\n")
  {
    var line := prefix + arch + "\n";
    assert line[..|line| - 1] == prefix + arch;
  }

  /** Such a path joined to a good directory is still one line. */
  lemma JoinedArchLine(dir: string, prefix: string, arch: string)
    requires GoodDir(dir) && '\n' !in prefix && '\n' !in arch && |prefix| > 0 && prefix[0] != '/'
    ensures OneLine(JoinPosix(dir, prefix + arch + "\n"))
  {
    ArchLine(prefix, arch);
    JoinedLine(dir, prefix + arch + "\n");
  }

  lemma DirsOneLine()
    ensures '\n' !in BinDir && '\n' !in EngineDir && '\n' !in ExternBinDir
    ensures BinDir[0] == 'b' && EngineDir[0] == 'e' && ExternBinDir[0] == 'e'
  {
  }

  lemma ArchLinesAreLines(dir: string, windows: bool)
    requires GoodDir(dir)
    ensures forall k :: 0 <= k < 4 ==> OneLine(ArchLines(dir, Arch(windows))[k])
  {
    var arch := Arch(windows);
    ArchLine("", arch);
    assert "" + arch + "\n" == arch + "\n";
    DirsOneLine();
    JoinedArchLine(dir, BinDir, arch);
    JoinedArchLine(dir, EngineDir, arch);
    JoinedArchLine(dir, ExternBinDir, arch);
  }

  /** The second line's grandparent is the install directory. */
  lemma SecondLineGrandparent(dir: string, windows: bool)
    requires GoodDir(dir)
    ensures Parent(Parent(ArchLines(dir, Arch(windows))[1])) == dir
  {
    var arch := Arch(windows);
    ArchLinesAreLines(dir, windows);
    DirsOneLine();
    JoinedArchLine(dir, BinDir, arch);
    JoinedLine(dir, BinDir + arch + "\n");
    var bin := JoinPath(dir, "bin");
    assert ArchLines(dir, arch)[1] == JoinPath(bin, arch + "\n");
    ParentNameOfJoin(bin, arch + "\n");
    ParentNameOfJoin(dir, "bin");
  }

  /** The four lines as read back from a file holding exactly them: `get_matlab_path` gives the directory, without error. */
  lemma ArchRoundTrip(dir: string, windows: bool)
    requires GoodDir(dir)
    ensures Lines(Concat(ArchLines(dir, Arch(windows)))) == ArchLines(dir, Arch(windows))
    ensures MatlabPathOf(true, Concat(ArchLines(dir, Arch(windows)))) == (dir, "")
  {
    ArchLinesAreLines(dir, windows);
    LinesOfConcat(ArchLines(dir, Arch(windows)));
    SecondLineGrandparent(dir, windows);
  }

  /** Text without line breaks in front of a line leaves it one line. */
  lemma PaddedLine(pad: string, line: string)
    requires OneLine(line) && '\n' !in pad
    ensures OneLine(pad + line)
  {
    var first := pad + line;
    assert first[..|first| - 1] == pad + line[..|line| - 1];
  }

  lemma PadConcat(pad: string, lines: seq<string>)
    requires |lines| > 0
    ensures pad + Concat(lines) == (pad + lines[0]) + Concat(lines[1..])
  {
    var rest := Concat(lines[1..]);
    assert Concat(lines) == lines[0] + rest;
    AppendAssociative(pad, lines[0], rest);
  }

  lemma AppendAssociative(a: string, b: string, c: string)
    ensures a + (b + c) == (a + b) + c
  {
  }

  /** Text without line breaks in front of a run of lines joins the first line. */
  lemma PaddedLines(pad: string, lines: seq<string>)
    requires '\n' !in pad
    requires |lines| > 0 && forall k :: 0 <= k < |lines| ==> OneLine(lines[k])
    ensures Lines(pad + Concat(lines)) == [pad + lines[0]] + lines[1..]
  {
    var first := pad + lines[0];
    var rest := Concat(lines[1..]);
    PaddedLine(pad, lines[0]);
    PadConcat(pad, lines);
    LinesCons(first, rest);
    LinesOfConcat(lines[1..]);
  }

  /**
   * What the file holds after the rewrite as written, when it held `n`
   * characters: still four lines, and the directory still reads back, but
   * the first line starts with `n` NULs, so for a non-empty file it is not
   * the architecture line.
   */
  lemma RewriteAfterRead(dir: string, windows: bool, n: nat)
    requires GoodDir(dir)
    ensures var written := Zeros(n) + Concat(ArchLines(dir, Arch(windows)));
      && |Lines(written)| == 4
      && Lines(written)[0] == Zeros(n) + Arch(windows) + "\n"
      && MatlabPathOf(true, written) == (dir, "")
      && (n > 0 ==> Lines(written)[0] != Arch(windows) + "\n")
  {
    var lines := ArchLines(dir, Arch(windows));
    ArchLinesAreLines(dir, windows);
    assert '\n' !in Zeros(n);
    PaddedLines(Zeros(n), lines);
    SecondLineGrandparent(dir, windows);
  }

  class MatlabSetupDialog<E> {
    /** The directory shown. */
    var matlabPath: string
    var changed: bool
    var accepted: bool
    /** `sys.frozen`: whether this is a bundled application. */
    const frozen: bool
    const windows: bool

    /** The dialog shows the directory `get_matlab_path` reads. */
    constructor(helper: MatlabHelper<E>, file: ArchFile, frozen: bool, windows: bool)
      modifies helper
      ensures (matlabPath, helper.error) == MatlabPathOf(file.present, file.content)
      ensures !changed && !accepted && this.frozen == frozen && this.windows == windows
      ensures helper.processStarted == old(helper.processStarted)
      ensures helper.output == old(helper.output) && helper.engine == old(helper.engine)
    {
      var dir := helper.GetMatlabPath(file);
      matlabPath := dir;
      changed := false;
      accepted := false;
      this.frozen := frozen;
      this.windows := windows;
    }

    /** `open_folder_selector`: a chosen folder is shown and marks the dialog changed; a cancelled choice does nothing. */
    method OpenFolderSelector(selection: string)
      modifies this
      ensures selection == "" ==> matlabPath == old(matlabPath) && changed == old(changed)
      ensures selection != "" ==> matlabPath == selection && changed
      ensures accepted == old(accepted)
    {
      if selection != "" {
        matlabPath := selection;
        changed := true;
      }
    }

    /**
     * `set_matlab_paths` as written. `found` is false when the file does
     * not exist (opening it raises). Outside a bundle nothing is written.
     * In a bundle the old text is read to its end, the file truncated, and
     * the four lines written at the read position; MATLAB is started when
     * the file had no lines.
     */
    method SetMatlabPaths(file: ArchFile, helper: MatlabHelper<E>) returns (found: bool)
      modifies file, helper
      ensures found == old(file.present)
      ensures file.present == old(file.present)
      ensures !found || !frozen ==> file.content == old(file.content) && helper.processStarted == old(helper.processStarted)
      ensures found && frozen ==>
                file.content == Zeros(|old(file.content)|) + Concat(ArchLines(matlabPath, Arch(windows)))
                && helper.processStarted == (old(helper.processStarted)
                                             || (old(file.content) == "" && MatlabPathOf(true, file.content).0 != ""))
      ensures helper.engine == old(helper.engine)
      ensures found && frozen && old(file.content) == "" ==>
                helper.error == MatlabPathOf(true, file.content).1
                && helper.output == if MatlabPathOf(true, file.content).0 != "" then [] else old(helper.output)
      ensures !(found && frozen && old(file.content) == "") ==> helper.error == old(helper.error) && helper.output == old(helper.output)
    {
      if !file.present {
        return false;
      }
      var installDir := matlabPath;
      if !frozen {
        return true;
      }
      var content := file.content;
      var position := |content|;
      var shouldInit := Lines(content) == [];
      content := content[..0];
      var arch := Arch(windows);
      content := WriteAt(content, position, Concat(ArchLines(installDir, arch)));
      file.content := content;
      assert shouldInit <==> old(file.content) == "" by {
        if old(file.content) != "" {
          assert |Lines(old(file.content))| > 0;
        }
      }
      if shouldInit {
        helper.AsyncStart(file);
      }
      return true;
    }

    /**
     * The rewrite the dialog evidently intends: the stream is rewound
     * before truncating, so the file holds exactly the four lines.
     */
    method SetMatlabPathsRewound(file: ArchFile, helper: MatlabHelper<E>) returns (found: bool)
      modifies file, helper
      ensures found == old(file.present)
      ensures file.present == old(file.present)
      ensures !found || !frozen ==> file.content == old(file.content) && helper.processStarted == old(helper.processStarted)
      ensures found && frozen ==>
                file.content == Concat(ArchLines(matlabPath, Arch(windows)))
                && helper.processStarted == (old(helper.processStarted)
                                             || (old(file.content) == "" && MatlabPathOf(true, file.content).0 != ""))
      ensures helper.engine == old(helper.engine)
      ensures found && frozen && old(file.content) == "" ==>
                helper.error == MatlabPathOf(true, file.content).1
                && helper.output == if MatlabPathOf(true, file.content).0 != "" then [] else old(helper.output)
      ensures !(found && frozen && old(file.content) == "") ==> helper.error == old(helper.error) && helper.output == old(helper.output)
    {
      if !file.present {
        return false;
      }
      var installDir := matlabPath;
      if !frozen {
        return true;
      }
      var content := file.content;
      var shouldInit := Lines(content) == [];
      var position := 0;
      content := content[..0];
      var arch := Arch(windows);
      content := WriteAt(content, position, Concat(ArchLines(installDir, arch)));
      file.content := content;
      assert shouldInit <==> old(file.content) == "" by {
        if old(file.content) != "" {
          assert |Lines(old(file.content))| > 0;
        }
      }
      if shouldInit {
        helper.AsyncStart(file);
      }
      return true;
    }

    /**
     * `accept` as written: when a folder was chosen the arch file is
     * rewritten by `set_matlab_paths` (NULs for the old length, then the
     * four lines); a missing file raises, so the dialog stays open.
     */
    method Accept(file: ArchFile, helper: MatlabHelper<E>)
      modifies this, file, helper
      ensures file.present == old(file.present) && changed == old(changed) && matlabPath == old(matlabPath)
      ensures accepted == (old(accepted) || !old(changed) || file.present)
      ensures !(old(changed) && frozen && file.present) ==>
                file.content == old(file.content) && helper.processStarted == old(helper.processStarted)
      ensures old(changed) && frozen && file.present ==>
                file.content == Zeros(|old(file.content)|) + Concat(ArchLines(matlabPath, Arch(windows)))
                && helper.processStarted == (old(helper.processStarted)
                                             || (old(file.content) == "" && MatlabPathOf(true, file.content).0 != ""))
      ensures helper.engine == old(helper.engine)
      ensures old(changed) && frozen && file.present && old(file.content) == "" ==>
                helper.error == MatlabPathOf(true, file.content).1
                && helper.output == if MatlabPathOf(true, file.content).0 != "" then [] else old(helper.output)
      ensures !(old(changed) && frozen && file.present && old(file.content) == "") ==>
                helper.error == old(helper.error) && helper.output == old(helper.output)
    {
      if changed {
        var found := SetMatlabPaths(file, helper);
        if !found {
          return;
        }
      }
      accepted := true;
    }

    /** `accept` as evidently intended: a chosen folder leaves the arch file holding exactly the four lines. */
    method AcceptRewound(file: ArchFile, helper: MatlabHelper<E>)
      modifies this, file, helper
      ensures file.present == old(file.present) && changed == old(changed) && matlabPath == old(matlabPath)
      ensures accepted == (old(accepted) || !old(changed) || file.present)
      ensures !(old(changed) && frozen && file.present) ==>
                file.content == old(file.content) && helper.processStarted == old(helper.processStarted)
      ensures old(changed) && frozen && file.present ==>
                file.content == Concat(ArchLines(matlabPath, Arch(windows)))
                && helper.processStarted == (old(helper.processStarted)
                                             || (old(file.content) == "" && MatlabPathOf(true, file.content).0 != ""))
      ensures helper.engine == old(helper.engine)
      ensures old(changed) && frozen && file.present && old(file.content) == "" ==>
                helper.error == MatlabPathOf(true, file.content).1
                && helper.output == if MatlabPathOf(true, file.content).0 != "" then [] else old(helper.output)
      ensures !(old(changed) && frozen && file.present && old(file.content) == "") ==>
                helper.error == old(helper.error) && helper.output == old(helper.output)
    {
      if changed {
        var found := SetMatlabPathsRewound(file, helper);
        if !found {
          return;
        }
      }
      accepted := true;
    }
  }

  /**
   * As written, choosing a directory a second time leaves NULs at the start
   * of the file: after a first setup wrote the four lines, a second one
   * writes them after as many NULs as the file held.
   */
  method SecondSetupPadsFirstLine(dir: string) returns (firstLine: string)
    requires GoodDir(dir)
    ensures firstLine != Arch(false) + "\n" && |firstLine| > 0 && firstLine[0] == '\0'
  {
    var helper := new MatlabHelper<int>();
    var file := new ArchFile(true, Concat(ArchLines(dir, Arch(false))));
    var dialog := new MatlabSetupDialog(helper, file, true, false);
    dialog.OpenFolderSelector(dir);
    var before := |file.content|;
    ArchRoundTrip(dir, false);
    assert before > 0 by {
      assert |Lines(file.content)| == 4;
    }
    var found := dialog.SetMatlabPaths(file, helper);
    RewriteAfterRead(dir, false, before);
    firstLine := Lines(file.content)[0];
  }
}
