/**
 * The project dialog (rascal2/dialogs/project_dialog.py): a name and an
 * empty folder are asked for, each with an error label, and the presenter
 * creates the project once both are valid.
 *
 * The folder chooser's answer and the folder's directory listing are
 * parameters; the presenter is the list of calls made to it.
 */
module ProjectDialogs {

  /** Entries `os.listdir` gives that do not start with `.`, in listing order. */
  function Visible(entries: seq<string>): (r: seq<string>)
    ensures |r| <= |entries|
    ensures forall e :: e in r ==> e in entries && !Hidden(e)
  {
    if entries == [] then []
    else if Hidden(entries[0]) then Visible(entries[1..])
    else [entries[0]] + Visible(entries[1..])
  }

  predicate Hidden(entry: string)
  {
    |entry| > 0 && entry[0] == '.'
  }

  /** The visible entries are exactly the listed entries that are not hidden. */
  lemma {:induction false} VisibleMembership(entries: seq<string>, e: string)
    ensures e in Visible(entries) <==> e in entries && !Hidden(e)
  {
    if entries != [] {
      VisibleMembership(entries[1..], e);
      assert entries == [entries[0]] + entries[1..];
    }
  }

  /** Hidden entries never make a folder count as non-empty. */
  lemma HiddenEntriesIgnored(entries: seq<string>, hidden: seq<string>)
    requires forall e :: e in hidden ==> Hidden(e)
    ensures (Visible(entries + hidden) == []) == (Visible(entries) == [])
  {
    if Visible(entries + hidden) != [] {
      var e := Visible(entries + hidden)[0];
      VisibleMembership(entries + hidden, e);
      VisibleMembership(entries, e);
    }
    if Visible(entries) != [] {
      var e := Visible(entries)[0];
      VisibleMembership(entries, e);
      VisibleMembership(entries + hidden, e);
    }
  }

  /**
   * The rule of `verify_folder`: a chosen folder is wrong when it has
   * visible entries; with no folder chosen, an empty folder text is wrong.
   */
  predicate FolderError(folderPath: string, folderText: string, listing: seq<string>)
  {
    if folderPath != "" then Visible(listing) != [] else folderText == ""
  }

  /** The folder rule accepts a chosen folder exactly when every entry in it is hidden. */
  lemma ChosenFolderRule(folderPath: string, folderText: string, listing: seq<string>)
    requires folderPath != ""
    ensures !FolderError(folderPath, folderText, listing) <==> forall e :: e in listing ==> Hidden(e)
  {
    if Visible(listing) != [] {
      VisibleMembership(listing, Visible(listing)[0]);
    }
    forall e | e in listing && !Hidden(e)
      ensures Visible(listing) != []
    {
      VisibleMembership(listing, e);
    }
  }

  class ProjectDialog {
    var folderPath: string
    var folderText: string
    var folderErrorShown: bool
    var nameText: string
    var nameErrorShown: bool
    /** The presenter's `create_project` calls so far: name and folder. */
    var calls: seq<(string, string)>
    var accepted: bool
    var toolbarEnabled: bool

    constructor(toolbarEnabled: bool)
      ensures folderPath == "" && folderText == "" && !folderErrorShown && nameText == "" && !nameErrorShown
      ensures calls == [] && !accepted && this.toolbarEnabled == toolbarEnabled
    {
      folderPath := "";
      folderText := "";
      folderErrorShown := false;
      nameText := "";
      nameErrorShown := false;
      calls := [];
      accepted := false;
      this.toolbarEnabled := toolbarEnabled;
    }

    /**
     * `verify_folder`: on error the folder text is cleared and the error
     * shown; otherwise the text becomes `folder_path` and the error is
     * hidden. `listing` is what `os.listdir(folder_path)` gives.
     */
    method VerifyFolder(listing: seq<string>)
      modifies this
      ensures folderErrorShown == FolderError(folderPath, old(folderText), listing)
      ensures folderText == if folderErrorShown then "" else folderPath
      ensures folderPath == old(folderPath) && nameText == old(nameText) && nameErrorShown == old(nameErrorShown)
      ensures calls == old(calls) && accepted == old(accepted) && toolbarEnabled == old(toolbarEnabled)
    {
      var error := false;
      if folderPath != "" {
        var filesInFolder := Visible(listing);
        if filesInFolder != [] {
          error := true;
        }
      } else if folderText == "" {
        error := true;
      }
      if error {
        folderErrorShown := true;
        folderText := "";
      } else {
        folderErrorShown := false;
        folderText := folderPath;
      }
    }

    /** `verify_name`: the name error is shown exactly when the name is empty. */
    method VerifyName()
      modifies this
      ensures nameErrorShown == (nameText == "")
      ensures nameText == old(nameText) && folderPath == old(folderPath) && folderText == old(folderText)
      ensures folderErrorShown == old(folderErrorShown)
      ensures calls == old(calls) && accepted == old(accepted) && toolbarEnabled == old(toolbarEnabled)
    {
      nameErrorShown := nameText == "";
    }

    /** The user types a project name. */
    method SetName(name: string)
      modifies this
      ensures nameText == name
      ensures folderPath == old(folderPath) && folderText == old(folderText) && folderErrorShown == old(folderErrorShown)
      ensures nameErrorShown == old(nameErrorShown)
      ensures calls == old(calls) && accepted == old(accepted) && toolbarEnabled == old(toolbarEnabled)
    {
      nameText := name;
    }

    /**
     * `open_folder_selector` as written: the chooser's answer is stored
     * as `folder_path` even when it is empty (the chooser cancelled), and
     * the folder is verified only when one was chosen.
     */
    method OpenFolderSelector(selection: string, listing: seq<string>)
      modifies this
      ensures folderPath == selection
      ensures selection == "" ==> folderText == old(folderText) && folderErrorShown == old(folderErrorShown)
      ensures selection != "" ==> folderErrorShown == (Visible(listing) != [])
                                  && folderText == if folderErrorShown then "" else selection
      ensures nameText == old(nameText) && nameErrorShown == old(nameErrorShown)
      ensures calls == old(calls) && accepted == old(accepted) && toolbarEnabled == old(toolbarEnabled)
    {
      folderPath := selection;
      if folderPath != "" {
        VerifyFolder(listing);
      }
    }

    /**
     * The selector the dialog evidently intends: a cancelled chooser leaves
     * the chosen folder as it was, so the text and `folder_path` agree.
     */
    method ChooseFolder(selection: string, listing: seq<string>)
      modifies this
      ensures selection == "" ==> folderPath == old(folderPath) && folderText == old(folderText)
                                  && folderErrorShown == old(folderErrorShown)
      ensures selection != "" ==> folderPath == selection && folderErrorShown == (Visible(listing) != [])
                                  && folderText == if folderErrorShown then "" else selection
      ensures nameText == old(nameText) && nameErrorShown == old(nameErrorShown)
      ensures calls == old(calls) && accepted == old(accepted) && toolbarEnabled == old(toolbarEnabled)
      ensures old(Agrees()) ==> Agrees()
    {
      if selection != "" {
        folderPath := selection;
        VerifyFolder(listing);
      }
    }

    /** The folder text shows the chosen folder, or nothing. */
    predicate Agrees()
      reads this
    {
      folderText == "" || folderText == folderPath
    }

    /**
     * `create_project`: name and folder are verified again, and the
     * presenter creates the project, the toolbar is enabled and the
     * dialog accepted exactly when neither shows an error.
     */
    method CreateProject(listing: seq<string>)
      modifies this
      ensures var go := old(nameText) != "" && !FolderError(old(folderPath), old(folderText), listing);
        && calls == old(calls) + (if go then [(old(nameText), old(folderPath))] else [])
        && accepted == (old(accepted) || go)
        && toolbarEnabled == (old(toolbarEnabled) || go)
      ensures nameErrorShown == (nameText == "") && folderErrorShown == FolderError(old(folderPath), old(folderText), listing)
      ensures folderText == if folderErrorShown then "" else folderPath
      ensures nameText == old(nameText) && folderPath == old(folderPath)
      ensures Agrees()
      ensures old(Agrees()) ==> (calls == old(calls) || calls[|calls| - 1].1 != "")
    {
      VerifyName();
      VerifyFolder(listing);
      if !nameErrorShown && !folderErrorShown {
        calls := calls + [(nameText, folderText)];
        if !toolbarEnabled {
          toolbarEnabled := true;
        }
        accepted := true;
      }
    }
  }

  /**
   * As written, cancelling the chooser after a good folder was chosen
   * loses the folder: the text still shows it, but Create then hands the
   * presenter an empty folder.
   */
  method CancelThenCreate() returns (call: (string, string))
    ensures call == ("demo", "")
  {
    var dialog := new ProjectDialog(true);
    dialog.SetName("demo");
    dialog.OpenFolderSelector("/home/user/new", []);
    assert dialog.folderText == "/home/user/new";
    dialog.OpenFolderSelector("", []);
    assert dialog.folderText == "/home/user/new" && dialog.folderPath == "";
    dialog.CreateProject([]);
    assert dialog.calls == [("demo", "")];
    call := dialog.calls[0];
  }

  /**
   * With the intended selector the same steps keep the folder: the
   * presenter receives the folder chosen first.
   */
  method CancelThenCreateKeepingFolder() returns (call: (string, string))
    ensures call == ("demo", "/home/user/new")
  {
    var dialog := new ProjectDialog(true);
    dialog.SetName("demo");
    dialog.ChooseFolder("/home/user/new", []);
    dialog.ChooseFolder("", []);
    dialog.CreateProject([]);
    assert dialog.calls == [("demo", "/home/user/new")];
    call := dialog.calls[0];
  }
}
