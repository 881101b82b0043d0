/**
 * The main window's model (rascal2/ui/model.py): the project, controls,
 * results and save path the whole GUI shares. Loading a project folder is
 * atomic: both files are read and parsed before any field changes.
 *
 * RATapi's JSON encoders and decoders, the RasCAL-1 converter and the
 * default `Project`/`Controls` objects are outside this model: they are
 * passed in as functions and values. The folder the project lives in is a
 * map from file paths to their text.
 */
module MainWindow {
  import opened Wrappers
  import opened Text
  import opened Projects
  import C = Commands

  type Project = map<string, FieldValue>

  /** `Path(folder, name)` for a file name without slashes. */
  function FileIn(folder: string, name: string): string
  {
    if folder == "" then name else JoinPosix(folder, name)
  }

  const ControlsFile := "controls.json"
  const ProjectFile := "project.json"

  /** The two files of a project folder are different files. */
  lemma ProjectFilesDistinct(folder: string)
    ensures FileIn(folder, ControlsFile) != FileIn(folder, ProjectFile)
  {
    var c := FileIn(folder, ControlsFile);
    var p := FileIn(folder, ProjectFile);
    if folder == "" || folder == "." {
      assert c[0] != p[0];
    } else if folder[|folder| - 1] == '/' {
      assert c[|folder|] == 'c' && p[|folder|] == 'p';
    } else {
      assert c[|folder| + 1] == 'c' && p[|folder| + 1] == 'p';
    }
  }

  /** What RATapi's `project_from_json` makes of a text. */
  datatype ProjectDecoding =
    | Decoded(project: Project)
    | BadJson     // JSONDecodeError
    | NotValid    // KeyError or ValueError

  /** Why `load_project` raised. */
  datatype LoadError =
    | ControlsNotValid
    | ProjectBadJson
    | ProjectNotValid
    | Unreadable(path: string)   // the OSError of `read_text`, not caught

  /** The text the messages about each file start with. */
  const AboutControlsFile := "The controls.json file for this project "
  const AboutProjectFile := "The project.json file for this project "

  function Message(e: LoadError): (r: string)
  {
    match e
    case ControlsNotValid =>
      AboutControlsFile + "is not valid.\n"
      + "It may contain invalid parameter values or be invalid JSON."
    case ProjectBadJson => AboutProjectFile + "contains invalid JSON."
    case ProjectNotValid => AboutProjectFile + "is not valid."
    case Unreadable(path) => path
  }

  /** The three `ValueError`s of `load_project` carry three different messages. */
  lemma LoadMessagesDistinct()
    ensures Message(ControlsNotValid) != Message(ProjectBadJson)
    ensures Message(ControlsNotValid) != Message(ProjectNotValid)
    ensures Message(ProjectBadJson) != Message(ProjectNotValid)
  {
    NamesControlsFile();
    NamesProjectFile(ProjectBadJson);
    NamesProjectFile(ProjectNotValid);
    var n := |AboutProjectFile|;
    assert Message(ProjectBadJson)[n] == 'c';
    assert Message(ProjectNotValid)[n] == 'i';
  }

  lemma NamesControlsFile()
    ensures |Message(ControlsNotValid)| > 4 && Message(ControlsNotValid)[4] == 'c'
  {
    assert AboutControlsFile[4] == 'c';
  }

  lemma NamesProjectFile(e: LoadError)
    requires e.ProjectBadJson? || e.ProjectNotValid?
    ensures |Message(e)| > |AboutProjectFile| > 4 && Message(e)[4] == 'p'
  {
    assert AboutProjectFile[4] == 'p';
  }

  /**
   * What loading a folder gives: controls.json is read and validated first,
   * then project.json is read and converted; either both values or the
   * first error.
   */
  function LoadOutcome(files: map<string, string>, folder: string,
                       decodeControls: string -> Option<map<string, C.ControlValue>>,
                       decodeProject: string -> ProjectDecoding): (r: Result<(map<string, C.ControlValue>, Project), LoadError>)
  {
    var controlsPath := FileIn(folder, ControlsFile);
    var projectPath := FileIn(folder, ProjectFile);
    if controlsPath !in files then Failure(Unreadable(controlsPath))
    else if decodeControls(files[controlsPath]).None? then Failure(ControlsNotValid)
    else if projectPath !in files then Failure(Unreadable(projectPath))
    else match decodeProject(files[projectPath])
      case BadJson => Failure(ProjectBadJson)
      case NotValid => Failure(ProjectNotValid)
      case Decoded(p) => Success((decodeControls(files[controlsPath]).value, p))
  }

  /**
   * Invalid controls are reported before project.json is looked at: the
   * outcome is the controls error whatever the project file holds, or
   * whether it exists at all.
   */
  lemma ControlsCheckedFirst(files: map<string, string>, folder: string,
                             decodeControls: string -> Option<map<string, C.ControlValue>>,
                             decodeProject: string -> ProjectDecoding, projectText: string)
    requires FileIn(folder, ControlsFile) in files
    requires decodeControls(files[FileIn(folder, ControlsFile)]).None?
    ensures LoadOutcome(files, folder, decodeControls, decodeProject) == Failure(ControlsNotValid)
    ensures LoadOutcome(files[FileIn(folder, ProjectFile) := projectText], folder, decodeControls, decodeProject) == Failure(ControlsNotValid)
    ensures LoadOutcome(files - {FileIn(folder, ProjectFile)}, folder, decodeControls, decodeProject) == Failure(ControlsNotValid)
  {
    ProjectFilesDistinct(folder);
  }

  /** The files `save_project` leaves in the folder. */
  function Saved(files: map<string, string>, folder: string, controlsText: string, projectText: string): (r: map<string, string>)
    ensures r.Keys == files.Keys + {FileIn(folder, ControlsFile), FileIn(folder, ProjectFile)}
    ensures forall path :: path in files && path != FileIn(folder, ControlsFile) && path != FileIn(folder, ProjectFile) ==> r[path] == files[path]
  {
    files[FileIn(folder, ControlsFile) := controlsText][FileIn(folder, ProjectFile) := projectText]
  }

  /**
   * Saving and loading again gives back the controls and the project, as
   * long as RATapi's decoders read back what its encoders wrote.
   */
  lemma SaveThenLoad(files: map<string, string>, folder: string,
                     controls: map<string, C.ControlValue>, project: Project,
                     encodeControls: map<string, C.ControlValue> -> string, encodeProject: Project -> string,
                     decodeControls: string -> Option<map<string, C.ControlValue>>,
                     decodeProject: string -> ProjectDecoding)
    requires decodeControls(encodeControls(controls)) == Some(controls)
    requires decodeProject(encodeProject(project)) == Decoded(project)
    ensures LoadOutcome(Saved(files, folder, encodeControls(controls), encodeProject(project)), folder, decodeControls, decodeProject)
            == Success((controls, project))
  {
    ProjectFilesDistinct(folder);
    var saved := Saved(files, folder, encodeControls(controls), encodeProject(project));
    assert saved[FileIn(folder, ControlsFile)] == encodeControls(controls);
    assert saved[FileIn(folder, ProjectFile)] == encodeProject(project);
  }

  /** `vars(controls).update(values)`: the given attributes are overwritten. */
  function UpdateAttrs(values: map<string, C.ControlValue>, newValues: map<string, C.ControlValue>): (r: map<string, C.ControlValue>)
    ensures r.Keys == values.Keys + newValues.Keys
    ensures forall a :: a in newValues ==> r[a] == newValues[a]
    ensures forall a :: a in values && a !in newValues ==> r[a] == values[a]
  {
    values + newValues
  }

  /** A one-attribute update is the undo command's assignment. */
  lemma UpdateOneAttr(values: map<string, C.ControlValue>, attr: string, value: C.ControlValue)
    ensures UpdateAttrs(values, map[attr := value]) == C.SetAttr(values, attr, value)
  {
    var r := UpdateAttrs(values, map[attr := value]);
    assert r.Keys == C.SetAttr(values, attr, value).Keys;
  }

  /** The project files, seen as a mutable folder. */
  class Folder {
    var files: map<string, string>

    constructor(files: map<string, string>)
      ensures this.files == files
    {
      this.files := files;
    }
  }

  datatype ModelSignal = ProjectUpdated | ControlsUpdated | ResultsUpdated

  /**
   * `MainWindowModel`. `defaultProject` and `defaultControls` stand for
   * `RAT.Project(name=...)` (before the name is set) and `RAT.Controls()`.
   */
  class MainWindowModel<R> {
    var project: Option<Project>
    var results: Option<R>
    var resultLog: string
    var controls: C.Controls?
    var savePath: string
    /** The signals emitted so far. */
    var emitted: seq<ModelSignal>
    const defaultProject: Project
    const defaultControls: map<string, C.ControlValue>

    constructor(defaultProject: Project, defaultControls: map<string, C.ControlValue>)
      ensures project.None? && results.None? && resultLog == "" && controls == null && savePath == ""
      ensures emitted == []
      ensures this.defaultProject == defaultProject && this.defaultControls == defaultControls
    {
      project := None;
      results := None;
      resultLog := "";
      controls := null;
      savePath := "";
      emitted := [];
      this.defaultProject := defaultProject;
      this.defaultControls := defaultControls;
    }

    /** `create_project`: a default project with the name, default controls, the save path; results untouched. */
    method CreateProject(name: string, savePath: string)
      modifies this
      ensures project == Some(defaultProject["name" := TextField(name)])
      ensures controls != null && fresh(controls) && controls.values == defaultControls
      ensures this.savePath == savePath
      ensures results == old(results) && resultLog == old(resultLog) && emitted == old(emitted)
    {
      project := Some(defaultProject["name" := TextField(name)]);
      controls := new C.Controls(defaultControls);
      this.savePath := savePath;
    }

    /** `update_results`. */
    method UpdateResults(r: R)
      modifies this
      ensures results == Some(r) && emitted == old(emitted) + [ResultsUpdated]
      ensures project == old(project) && controls == old(controls) && savePath == old(savePath) && resultLog == old(resultLog)
    {
      results := Some(r);
      emitted := emitted + [ResultsUpdated];
    }

    /** `update_project`: only the given fields change. */
    method UpdateProject(newValues: map<string, FieldValue>)
      requires project.Some?
      modifies this
      ensures project == Some(UpdateFields(old(project).value, newValues))
      ensures emitted == old(emitted) + [ProjectUpdated]
      ensures results == old(results) && controls == old(controls) && savePath == old(savePath) && resultLog == old(resultLog)
    {
      project := Some(project.value + newValues);
      emitted := emitted + [ProjectUpdated];
    }

    /** `update_controls`: only the given attributes of the shared controls object change. */
    method UpdateControls(newValues: map<string, C.ControlValue>)
      requires controls != null
      modifies this, controls
      ensures controls == old(controls) && controls.values == UpdateAttrs(old(controls.values), newValues)
      ensures emitted == old(emitted) + [ControlsUpdated]
      ensures project == old(project) && results == old(results) && savePath == old(savePath) && resultLog == old(resultLog)
    {
      controls.values := controls.values + newValues;
      emitted := emitted + [ControlsUpdated];
    }

    /** `save_project`: controls.json and project.json are written into the save path. */
    method SaveProject(folder: Folder, encodeControls: map<string, C.ControlValue> -> string, encodeProject: Project -> string)
      requires controls != null && project.Some?
      modifies folder
      ensures folder.files == Saved(old(folder.files), savePath, encodeControls(controls.values), encodeProject(project.value))
    {
      folder.files := folder.files[FileIn(savePath, ControlsFile) := encodeControls(controls.values)];
      folder.files := folder.files[FileIn(savePath, ProjectFile) := encodeProject(project.value)];
    }

    /**
     * `load_project`: the controls, project and save path are assigned
     * together, only once both files have been read and parsed; on any
     * error nothing changes.
     */
    method LoadProject(folder: Folder, loadPath: string,
                       decodeControls: string -> Option<map<string, C.ControlValue>>,
                       decodeProject: string -> ProjectDecoding) returns (r: Result<(), LoadError>)
      modifies this
      ensures var outcome := LoadOutcome(folder.files, loadPath, decodeControls, decodeProject);
        && r.Success? == outcome.Success?
        && (outcome.Failure? ==> r.error == outcome.error && project == old(project) && controls == old(controls) && savePath == old(savePath))
        && (outcome.Success? ==> controls != null && fresh(controls) && controls.values == outcome.value.0
                                 && project == Some(outcome.value.1) && savePath == loadPath)
      ensures results == old(results) && resultLog == old(resultLog) && emitted == old(emitted)
    {
      var controlsPath := FileIn(loadPath, ControlsFile);
      if controlsPath !in folder.files {
        return Failure(Unreadable(controlsPath));
      }
      var newControls := decodeControls(folder.files[controlsPath]);
      if newControls.None? {
        return Failure(ControlsNotValid);
      }
      var projectPath := FileIn(loadPath, ProjectFile);
      if projectPath !in folder.files {
        return Failure(Unreadable(projectPath));
      }
      var newProject := decodeProject(folder.files[projectPath]);
      if newProject.BadJson? {
        return Failure(ProjectBadJson);
      }
      if newProject.NotValid? {
        return Failure(ProjectNotValid);
      }
      controls := new C.Controls(newControls.value);
      project := Some(newProject.project);
      savePath := loadPath;
      return Success(());
    }

    /**
     * `load_r1_project`: the converted project, default controls, and the
     * file's directory as save path. `converted` is what RATapi's
     * `r1_to_project_class` gives for the file, which raises before
     * anything is assigned.
     */
    method LoadR1Project(loadPath: string, converted: Result<Project, string>) returns (ok: bool)
      modifies this
      ensures ok == converted.Success?
      ensures ok ==> project == Some(converted.value) && controls != null && fresh(controls)
                     && controls.values == defaultControls && savePath == Parent(loadPath)
      ensures !ok ==> project == old(project) && controls == old(controls) && savePath == old(savePath)
      ensures results == old(results) && resultLog == old(resultLog) && emitted == old(emitted)
    {
      if converted.Failure? {
        return false;
      }
      project := Some(converted.value);
      controls := new C.Controls(defaultControls);
      savePath := Parent(loadPath);
      return true;
    }
  }

  /** A new project is a valid project when RATapi's default one is, whatever its name. */
  lemma CreatedProjectValid(defaultProject: Project, name: string)
    requires ValidProject(defaultProject)
    ensures ValidProject(defaultProject["name" := TextField(name)])
    ensures defaultProject["name" := TextField(name)].Keys == defaultProject.Keys
  {
    assert "name" in defaultProject by {
      assert ProjectFields[0] == "name";
    }
  }

  /**
   * After a RasCAL-1 load, the save path is the folder holding the file:
   * the file's name in that folder is the file again.
   */
  lemma R1SavePathHoldsFile(loadPath: string)
    requires Normalised(loadPath)
    ensures Parent(loadPath) != ""
    ensures FileIn(Parent(loadPath), Name(loadPath)) == loadPath
  {
    JoinParentName(loadPath);
  }
}
