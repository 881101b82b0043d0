/**
 * The start-up dialogs (rascal2/dialogs/startup_dialog.py): new project,
 * load project, and load a RasCAL-1 file. Each checks the chosen path
 * against the file system before it may be used, shows or hides an error
 * under the path, and calls the presenter only when nothing is wrong.
 *
 * The file system is a value: which paths are readable, writable and exist.
 * The presenter is the list of calls made to it, and the outcome of its
 * `load_project` is a parameter.
 */
module StartupDialogs {
  import opened Wrappers
  import opened Text
  import MainWindow

  datatype DialogKind = NewProjectDialog | LoadDialog | LoadR1Dialog

  /** What `os.access` and `Path.exists` report. */
  datatype Disk = Disk(readable: set<string>, writable: set<string>, existing: set<string>)

  datatype FolderError =
    | NoAccess          // readable but not writable
    | AlreadyProject    // a project file is already there
    | NoProject         // a project file is missing
    | CannotRead        // the RasCAL-1 file is not readable
    | CannotCreate      // the RasCAL-1 file's folder is not writable

  function Message(e: FolderError): string
  {
    match e
    case NoAccess => "You do not have permission to access this folder."
    case AlreadyProject => "Folder already contains a project."
    case NoProject => "No project found in this folder."
    case CannotRead => "You do not have permission to read this RasCAL-1 project."
    case CannotCreate => "You do not have permission to create a project in this folder."
  }

  /** `PROJECT_FILES` inside a folder that exist. */
  predicate AnyProjectFile(disk: Disk, folder: string)
  {
    MainWindow.FileIn(folder, MainWindow.ControlsFile) in disk.existing || MainWindow.FileIn(folder, MainWindow.ProjectFile) in disk.existing
  }

  predicate AllProjectFiles(disk: Disk, folder: string)
  {
    MainWindow.FileIn(folder, MainWindow.ControlsFile) in disk.existing && MainWindow.FileIn(folder, MainWindow.ProjectFile) in disk.existing
  }

  /** The `verify_folder` of each dialog: the first rule the path breaks, if any. */
  function VerifyFolder(kind: DialogKind, path: string, disk: Disk): Option<FolderError>
  {
    match kind
    case NewProjectDialog =>
      if path !in disk.writable && path in disk.readable then Some(NoAccess)
      else if AnyProjectFile(disk, path) then Some(AlreadyProject)
      else None
    case LoadDialog =>
      if path !in disk.writable && path in disk.readable then Some(NoAccess)
      else if !AllProjectFiles(disk, path) then Some(NoProject)
      else None
    case LoadR1Dialog =>
      if path !in disk.readable then Some(CannotRead)
      else if Parent(path) !in disk.writable then Some(CannotCreate)
      else None
  }

  /**
   * For a new or loaded project, the permission error is raised exactly
   * when the folder can be read but not written; a folder that can be
   * neither read nor written passes that rule.
   */
  lemma PermissionRule(kind: DialogKind, path: string, disk: Disk)
    requires kind != LoadR1Dialog
    ensures VerifyFolder(kind, path, disk) == Some(NoAccess) <==> path in disk.readable && path !in disk.writable
  {
  }

  /**
   * A new project may go into a folder exactly when the permission rule
   * passes and neither project file is there; a project is loaded from it
   * exactly when the rule passes and both are.
   */
  lemma ProjectFilesRule(path: string, disk: Disk)
    requires !(path in disk.readable && path !in disk.writable)
    ensures VerifyFolder(NewProjectDialog, path, disk) == Some(AlreadyProject) <==> AnyProjectFile(disk, path)
    ensures VerifyFolder(NewProjectDialog, path, disk).None? <==> !AnyProjectFile(disk, path)
    ensures VerifyFolder(LoadDialog, path, disk) == Some(NoProject) <==> !AllProjectFiles(disk, path)
    ensures VerifyFolder(LoadDialog, path, disk).None? <==> AllProjectFiles(disk, path)
  {
  }

  /**
   * No folder both takes a new project and holds one to load: the two
   * dialogs accept disjoint sets of folders.
   */
  lemma NewAndLoadExclusive(path: string, disk: Disk)
    ensures !(VerifyFolder(NewProjectDialog, path, disk).None? && VerifyFolder(LoadDialog, path, disk).None?)
  {
    if VerifyFolder(NewProjectDialog, path, disk).None? {
      assert !AnyProjectFile(disk, path);
      assert !AllProjectFiles(disk, path);
    }
  }

  /** A RasCAL-1 file passes exactly when it is readable and its folder writable. */
  lemma R1Rule(path: string, disk: Disk)
    ensures VerifyFolder(LoadR1Dialog, path, disk) == Some(CannotRead) <==> path !in disk.readable
    ensures VerifyFolder(LoadR1Dialog, path, disk).None? <==> path in disk.readable && Parent(path) in disk.writable
  {
  }

  /** The buttons of the load dialog: at most the three most recent projects, most recent first. */
  function RecentButtons(recent: seq<string>): (r: seq<string>)
    ensures |r| <= 3 && |r| == if |recent| < 3 then |recent| else 3
    ensures forall i :: 0 <= i < |r| ==> r[i] == recent[i]
  {
    if |recent| <= 3 then recent else recent[..3]
  }

  datatype PresenterCall =
    | CreateCall(name: string, folder: string)
    | LoadCall(folder: string)
    | LoadR1Call(file: string)

  const NoFolderMessage := "Please specify a project folder."
  const NoFileMessage := "Please specify a project file."

  /** One start-up dialog; `kind` says which. */
  class StartupDialog {
    const kind: DialogKind
    var folderText: string
    var folderErrorText: string
    var folderErrorShown: bool
    var nameText: string
    var nameErrorShown: bool
    /** The presenter's calls so far. */
    var calls: seq<PresenterCall>
    var accepted: bool
    var toolbarEnabled: bool

    constructor(kind: DialogKind, toolbarEnabled: bool)
      ensures this.kind == kind && this.toolbarEnabled == toolbarEnabled
      ensures folderText == "" && !folderErrorShown && nameText == "" && !nameErrorShown
      ensures calls == [] && !accepted
    {
      this.kind := kind;
      folderText := "";
      folderErrorText := "";
      folderErrorShown := false;
      nameText := "";
      nameErrorShown := false;
      calls := [];
      accepted := false;
      this.toolbarEnabled := toolbarEnabled;
    }

    /** `set_folder_error`: a non-empty message is shown; an empty one hides the error. */
    method SetFolderError(msg: string)
      modifies this
      ensures folderErrorShown == (msg != "")
      ensures folderErrorText == if msg != "" then msg else old(folderErrorText)
      ensures folderText == old(folderText) && nameText == old(nameText) && nameErrorShown == old(nameErrorShown)
      ensures calls == old(calls) && accepted == old(accepted) && toolbarEnabled == old(toolbarEnabled)
    {
      if msg != "" {
        folderErrorShown := true;
        folderErrorText := msg;
      } else {
        folderErrorShown := false;
      }
    }

    /**
     * `open_folder_selector`: an empty selection (the chooser cancelled)
     * changes nothing; a path that fails the dialog's rule clears the text
     * and shows the rule's message; one that passes becomes the text and
     * hides the error.
     */
    method OpenFolderSelector(selection: string, disk: Disk)
      modifies this
      ensures selection == "" ==> folderText == old(folderText) && folderErrorShown == old(folderErrorShown)
                                  && folderErrorText == old(folderErrorText)
      ensures selection != "" && VerifyFolder(kind, selection, disk).Some? ==>
                folderText == "" && folderErrorShown && folderErrorText == Message(VerifyFolder(kind, selection, disk).value)
      ensures selection != "" && VerifyFolder(kind, selection, disk).None? ==>
                folderText == selection && !folderErrorShown && folderErrorText == old(folderErrorText)
      ensures nameText == old(nameText) && nameErrorShown == old(nameErrorShown)
      ensures calls == old(calls) && accepted == old(accepted) && toolbarEnabled == old(toolbarEnabled)
    {
      if selection != "" {
        var error := VerifyFolder(kind, selection, disk);
        if error.Some? {
          SetFolderError(Message(error.value));
          folderText := "";
        } else {
          SetFolderError("");
          folderText := selection;
        }
      }
    }

    /** The user types a project name. */
    method SetName(name: string)
      modifies this
      ensures nameText == name && nameErrorShown == (name == "")
      ensures folderText == old(folderText) && folderErrorShown == old(folderErrorShown) && folderErrorText == old(folderErrorText)
      ensures calls == old(calls) && accepted == old(accepted) && toolbarEnabled == old(toolbarEnabled)
    {
      nameText := name;
      VerifyName();
    }

    /** `verify_name`: the name error is shown exactly when the name is empty. */
    method VerifyName()
      modifies this
      ensures nameErrorShown == (nameText == "")
      ensures nameText == old(nameText)
      ensures folderText == old(folderText) && folderErrorShown == old(folderErrorShown) && folderErrorText == old(folderErrorText)
      ensures calls == old(calls) && accepted == old(accepted) && toolbarEnabled == old(toolbarEnabled)
    {
      nameErrorShown := nameText == "";
    }

    /**
     * `create_project` of the new-project dialog: the presenter creates the
     * project, and the dialog is accepted, exactly when the name and the
     * folder are given and no folder error was showing.
     */
    method CreateProject()
      requires kind == NewProjectDialog
      modifies this
      ensures var go := old(nameText) != "" && old(folderText) != "" && !old(folderErrorShown);
        && calls == old(calls) + (if go then [CreateCall(old(nameText), old(folderText))] else [])
        && accepted == (old(accepted) || go)
      ensures nameErrorShown == (nameText == "")
      ensures folderErrorShown == (old(folderErrorShown) || folderText == "")
      ensures folderText == old(folderText) && nameText == old(nameText) && toolbarEnabled == old(toolbarEnabled)
      ensures folderErrorText == if folderText == "" then NoFolderMessage else old(folderErrorText)
    {
      VerifyName();
      if folderText == "" {
        SetFolderError(NoFolderMessage);
      }
      if !nameErrorShown && !folderErrorShown {
        calls := calls + [CreateCall(nameText, folderText)];
        accepted := true;
      }
    }

    /**
     * `load_project` of the load dialog. `outcome` is what the presenter's
     * `load_project` does with the folder: nothing, or a `ValueError` with
     * its message. An error becomes the folder error and the dialog stays
     * open; success enables the toolbar and accepts the dialog.
     */
    method LoadProject(outcome: Result<(), string>)
      requires kind == LoadDialog
      modifies this
      ensures var go := old(folderText) != "" && !old(folderErrorShown);
        && calls == old(calls) + (if go then [LoadCall(old(folderText))] else [])
        && accepted == (old(accepted) || (go && outcome.Success?))
        && toolbarEnabled == (old(toolbarEnabled) || (go && outcome.Success?))
        && (go && outcome.Failure? ==>
              folderErrorShown == (outcome.error != "")
              && folderErrorText == if outcome.error != "" then outcome.error else old(folderErrorText))
        && (!go ==> folderErrorShown
                    && folderErrorText == if old(folderText) == "" then NoFolderMessage else old(folderErrorText))
        && (go && outcome.Success? ==> !folderErrorShown && folderErrorText == old(folderErrorText))
      ensures folderText == old(folderText) && nameText == old(nameText) && nameErrorShown == old(nameErrorShown)
    {
      if folderText == "" {
        SetFolderError(NoFolderMessage);
      }
      if !folderErrorShown {
        calls := calls + [LoadCall(folderText)];
        if outcome.Failure? {
          SetFolderError(outcome.error);
        } else {
          if !toolbarEnabled {
            toolbarEnabled := true;
          }
          accepted := true;
        }
      }
    }

    /** A recent-project button: its path replaces the text, the error is hidden, and the project is loaded. */
    method LoadRecentProject(path: string, outcome: Result<(), string>)
      requires kind == LoadDialog
      modifies this
      ensures calls == old(calls) + (if path != "" then [LoadCall(path)] else [])
      ensures accepted == (old(accepted) || (path != "" && outcome.Success?))
      ensures toolbarEnabled == (old(toolbarEnabled) || (path != "" && outcome.Success?))
      ensures path == "" ==> folderErrorShown && folderErrorText == NoFolderMessage
      ensures path != "" && outcome.Success? ==> !folderErrorShown && folderErrorText == old(folderErrorText)
      ensures path != "" && outcome.Failure? ==>
                folderErrorShown == (outcome.error != "")
                && folderErrorText == if outcome.error != "" then outcome.error else old(folderErrorText)
      ensures folderText == path && nameText == old(nameText) && nameErrorShown == old(nameErrorShown)
    {
      folderErrorShown := false;
      folderText := path;
      LoadProject(outcome);
    }

    /**
     * `load_project` of the RasCAL-1 dialog. `outcome` is what the
     * presenter's `load_r1_project` does with the file: nothing, or an
     * exception from the conversion with its message. The slot has no
     * `try`, so an exception leaves it before the toolbar is enabled or the
     * dialog accepted, and is handed back in `raised`; success enables the
     * toolbar and accepts the dialog.
     */
    method LoadR1Project(outcome: Result<(), string>) returns (raised: Result<(), string>)
      requires kind == LoadR1Dialog
      modifies this
      ensures var go := old(folderText) != "" && !old(folderErrorShown);
        && calls == old(calls) + (if go then [LoadR1Call(old(folderText))] else [])
        && raised == (if go then outcome else Success(()))
        && accepted == (old(accepted) || (go && outcome.Success?))
        && toolbarEnabled == (old(toolbarEnabled) || (go && outcome.Success?))
        && (!go ==> folderErrorShown)
      ensures folderErrorText == if folderText == "" then NoFileMessage else old(folderErrorText)
      ensures folderText == old(folderText) && nameText == old(nameText) && nameErrorShown == old(nameErrorShown)
    {
      raised := Success(());
      if folderText == "" {
        SetFolderError(NoFileMessage);
      }
      if !folderErrorShown {
        calls := calls + [LoadR1Call(folderText)];
        raised := outcome;
        if outcome.Failure? {
          return;
        }
        if !toolbarEnabled {
          toolbarEnabled := true;
        }
        accepted := true;
      }
    }
  }

  /**
   * The path a dialog hands to the presenter passed the dialog's rule when
   * it was chosen: a new project is created only in a folder the rule
   * accepted (on the file system as it was when the folder was chosen).
   */
  method ChooseThenCreate(name: string, selection: string, disk: Disk) returns (created: bool)
    ensures created <==> name != "" && selection != "" && VerifyFolder(NewProjectDialog, selection, disk).None?
  {
    var dialog := new StartupDialog(NewProjectDialog, true);
    dialog.SetName(name);
    dialog.OpenFolderSelector(selection, disk);
    dialog.CreateProject();
    created := dialog.calls != [];
    if created {
      assert dialog.calls == [CreateCall(name, selection)];
    }
  }
}
