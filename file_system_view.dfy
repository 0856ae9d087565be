/**
 * The folder browser: the blank-name test on folder names, the handlers behind its alerts and
 * list gestures, and the SwiftData model context they insert into and delete from.
 */
module FileSystemBrowser {
  import opened FileModel

  /**
   * Membership of `CharacterSet.whitespacesAndNewlines`: the Unicode separators (categories Zs,
   * Zl, Zp), the tab, U+000A to U+000D and U+0085.
   */
  predicate IsWhitespaceOrNewline(c: char) {
    || c == '\t' || ('\n' <= c <= '\r') || c == ' ' || c == '\U{85}' || c == '\U{A0}'
    || c == '\U{1680}' || ('\U{2000}' <= c <= '\U{200A}') || c == '\U{2028}' || c == '\U{2029}'
    || c == '\U{202F}' || c == '\U{205F}' || c == '\U{3000}'
  }

  predicate AllWhitespace(s: string) {
    forall k :: 0 <= k < |s| ==> IsWhitespaceOrNewline(s[k])
  }

  /** How many whitespace characters `s` starts with. */
  function LeadingWhitespace(s: string): (n: nat)
    ensures n <= |s|
  {
    if s != [] && IsWhitespaceOrNewline(s[0]) then 1 + LeadingWhitespace(s[1..]) else 0
  }

  /** The leading run is whitespace and stops at the first other character. */
  lemma {:induction false} LeadingWhitespaceRun(s: string)
    ensures var n := LeadingWhitespace(s);
      && (forall k :: 0 <= k < n ==> IsWhitespaceOrNewline(s[k]))
      && (n < |s| ==> !IsWhitespaceOrNewline(s[n]))
  {
    if s != [] && IsWhitespaceOrNewline(s[0]) {
      LeadingWhitespaceRun(s[1..]);
      assert forall k :: 1 <= k < LeadingWhitespace(s) ==> s[k] == s[1..][k - 1];
    }
  }

  /** Where the whitespace that `s` ends with begins. */
  function TrailingWhitespaceStart(s: string): (n: nat)
    ensures n <= |s|
  {
    if s != [] && IsWhitespaceOrNewline(s[|s| - 1]) then TrailingWhitespaceStart(s[..|s| - 1]) else |s|
  }

  /** The trailing run is whitespace and starts just after the last other character. */
  lemma {:induction false} TrailingWhitespaceRun(s: string)
    ensures var n := TrailingWhitespaceStart(s);
      && (forall k :: n <= k < |s| ==> IsWhitespaceOrNewline(s[k]))
      && (n > 0 ==> !IsWhitespaceOrNewline(s[n - 1]))
  {
    if s != [] && IsWhitespaceOrNewline(s[|s| - 1]) {
      TrailingWhitespaceRun(s[..|s| - 1]);
      assert forall k :: TrailingWhitespaceStart(s) <= k < |s| - 1 ==> s[k] == s[..|s| - 1][k];
    }
  }

  /** `trimmingCharacters(in: .whitespacesAndNewlines)`: the leading run goes, then the trailing one. */
  function Trimmed(s: string): string {
    var start := LeadingWhitespace(s);
    s[start..start + TrailingWhitespaceStart(s[start..])]
  }

  /** The guard of both `createFolder` and `renameFolder`. */
  predicate IsBlank(name: string) {
    Trimmed(name) == ""
  }

  /** What trimming cuts off on the left is whitespace. */
  lemma TrimmedCutsWhitespaceLeft(s: string)
    ensures AllWhitespace(s[..LeadingWhitespace(s)])
  {
    LeadingWhitespaceRun(s);
    var left := s[..LeadingWhitespace(s)];
    forall k | 0 <= k < |left|
      ensures IsWhitespaceOrNewline(left[k])
    {
      assert left[k] == s[k];
    }
  }

  /** What trimming cuts off on the right is whitespace. */
  lemma TrimmedCutsWhitespaceRight(s: string)
    ensures var t, i := Trimmed(s), LeadingWhitespace(s);
      i + |t| <= |s| && AllWhitespace(s[i + |t|..])
  {
    var i := LeadingWhitespace(s);
    var rest := s[i..];
    var e := TrailingWhitespaceStart(rest);
    TrailingWhitespaceRun(rest);
    var right := s[i + e..];
    forall k | 0 <= k < |right|
      ensures IsWhitespaceOrNewline(right[k])
    {
      assert right[k] == rest[e + k];
    }
  }

  /**
   * Trimming cuts whitespace only, and only at the ends: the result is a slice of the input
   * that neither starts nor ends with whitespace, with whitespace alone on either side of it.
   */
  lemma TrimmedIsInnerSlice(s: string)
    ensures var t, i := Trimmed(s), LeadingWhitespace(s);
      && i + |t| <= |s| && t == s[i..i + |t|]
      && AllWhitespace(s[..i]) && AllWhitespace(s[i + |t|..])
      && (t != [] ==> !IsWhitespaceOrNewline(t[0]) && !IsWhitespaceOrNewline(t[|t| - 1]))
  {
    TrimmedIsSlice(s);
    TrimmedCutsWhitespaceLeft(s);
    TrimmedCutsWhitespaceRight(s);
    TrimmedEnds(s);
  }

  /** The trimmed name is the slice that starts where the leading whitespace ends. */
  lemma TrimmedIsSlice(s: string)
    ensures var t, i := Trimmed(s), LeadingWhitespace(s);
      i + |t| <= |s| && t == s[i..i + |t|]
  {
  }

  /** A non-empty trimmed name neither starts nor ends with whitespace. */
  lemma TrimmedEnds(s: string)
    ensures var t := Trimmed(s);
      t != [] ==> !IsWhitespaceOrNewline(t[0]) && !IsWhitespaceOrNewline(t[|t| - 1])
  {
    var i := LeadingWhitespace(s);
    var rest := s[i..];
    var e := TrailingWhitespaceStart(rest);
    LeadingWhitespaceRun(s);
    TrailingWhitespaceRun(rest);
    if e > 0 {
      assert Trimmed(s)[0] == s[i];
      assert Trimmed(s)[e - 1] == rest[e - 1];
    }
  }

  /** A name is blank exactly when every character of it is whitespace or a newline. */
  lemma BlankIffAllWhitespace(s: string)
    ensures IsBlank(s) <==> AllWhitespace(s)
  {
    var i := LeadingWhitespace(s);
    var rest := s[i..];
    var e := TrailingWhitespaceStart(rest);
    LeadingWhitespaceRun(s);
    TrailingWhitespaceRun(rest);
    if AllWhitespace(s) {
      assert i == |s|;
    } else {
      var k :| 0 <= k < |s| && !IsWhitespaceOrNewline(s[k]);
      assert i <= k;
      assert rest[k - i] == s[k];
      assert e > k - i;
    }
  }

  /** The SwiftData context: the folders and documents it holds. */
  class ModelContext {
    var folders: set<FolderItem>
    var documents: set<DocumentItem>

    constructor (folders: set<FolderItem>, documents: set<DocumentItem>)
      ensures this.folders == folders && this.documents == documents
    {
      this.folders := folders;
      this.documents := documents;
    }

    method InsertFolder(folder: FolderItem)
      modifies this
      ensures folders == old(folders) + {folder} && documents == old(documents)
    {
      folders := folders + {folder};
    }

    /** `delete(_:)` of a folder; the cascade to its contents is not modelled. */
    method DeleteFolder(folder: FolderItem)
      modifies this
      ensures folders == old(folders) - {folder} && documents == old(documents)
    {
      folders := folders - {folder};
    }

    method DeleteDocument(document: DocumentItem)
      modifies this
      ensures documents == old(documents) - {document} && folders == old(folders)
    {
      documents := documents - {document};
    }
  }

  /** `offsets` as an `IndexSet` of a list of `length` rows: increasing and in range. */
  predicate IsIndexSet(offsets: seq<nat>, length: nat) {
    && (forall k :: 0 <= k < |offsets| ==> offsets[k] < length)
    && (forall k, l :: 0 <= k < l < |offsets| ==> offsets[k] < offsets[l])
  }

  /** The documents at `offsets[..n]`. */
  ghost function RowsAt(documents: seq<DocumentItem>, offsets: seq<nat>, n: nat): set<DocumentItem>
    requires n <= |offsets| && IsIndexSet(offsets, |documents|)
  {
    set k | 0 <= k < n :: documents[offsets[k]]
  }

  lemma RowsAtNext(documents: seq<DocumentItem>, offsets: seq<nat>, n: nat)
    requires n < |offsets| && IsIndexSet(offsets, |documents|)
    ensures RowsAt(documents, offsets, n + 1) == RowsAt(documents, offsets, n) + {documents[offsets[n]]}
  {
    assert forall d :: d in RowsAt(documents, offsets, n + 1) <==>
      d in RowsAt(documents, offsets, n) || d == documents[offsets[n]];
  }

  /**
   * `after` is `before` with exactly one folder added, named `name` and inside `parent`.
   */
  ghost predicate InsertedOneFolder(before: set<FolderItem>, after: set<FolderItem>, name: string, parent: FolderItem?)
    reads after
  {
    && before <= after
    && |after| == |before| + 1
    && forall f :: f in after - before ==> f.name == name && f.parent == parent
  }

  class FileSystemView {
    const currentFolder: FolderItem?
    const modelContext: ModelContext

    var showingCreateFolderAlert: bool
    var newFolderName: string
    var showingRenameFolderAlert: bool
    var folderToRename: FolderItem?
    var renamedFolderName: string
    var showingDeleteConfirmationAlert: bool
    var folderMarkedForDeletion: FolderItem?

    /** The current results of the folder and document queries, as listed. */
    var folders: seq<FolderItem>
    var documents: seq<DocumentItem>

    constructor (currentFolder: FolderItem?, modelContext: ModelContext)
      ensures this.currentFolder == currentFolder && this.modelContext == modelContext
      ensures !showingCreateFolderAlert && newFolderName == ""
      ensures !showingRenameFolderAlert && folderToRename == null && renamedFolderName == ""
      ensures !showingDeleteConfirmationAlert && folderMarkedForDeletion == null
      ensures folders == [] && documents == []
    {
      this.currentFolder := currentFolder;
      this.modelContext := modelContext;
      showingCreateFolderAlert := false;
      newFolderName := "";
      showingRenameFolderAlert := false;
      folderToRename := null;
      renamedFolderName := "";
      showingDeleteConfirmationAlert := false;
      folderMarkedForDeletion := null;
      folders := [];
      documents := [];
    }

    /** SwiftUI re-running the two queries. */
    method QueriesUpdated(folders: seq<FolderItem>, documents: seq<DocumentItem>)
      modifies this
      ensures this.folders == folders && this.documents == documents
      ensures showingCreateFolderAlert == old(showingCreateFolderAlert) && newFolderName == old(newFolderName)
      ensures showingRenameFolderAlert == old(showingRenameFolderAlert)
      ensures folderToRename == old(folderToRename) && renamedFolderName == old(renamedFolderName)
      ensures showingDeleteConfirmationAlert == old(showingDeleteConfirmationAlert)
      ensures folderMarkedForDeletion == old(folderMarkedForDeletion)
    {
      this.folders := folders;
      this.documents := documents;
    }

    /** The toolbar's "Create Folder" button: an empty name field and the alert shown. */
    method ShowCreateFolderAlert()
      modifies this
      ensures newFolderName == "" && showingCreateFolderAlert
      ensures showingRenameFolderAlert == old(showingRenameFolderAlert)
      ensures folderToRename == old(folderToRename) && renamedFolderName == old(renamedFolderName)
      ensures showingDeleteConfirmationAlert == old(showingDeleteConfirmationAlert)
      ensures folderMarkedForDeletion == old(folderMarkedForDeletion)
      ensures folders == old(folders) && documents == old(documents)
    {
      newFolderName := "";
      showingCreateFolderAlert := true;
    }

    /** `handleRename`: remember the folder, pre-fill its name and show the rename alert. */
    method HandleRename(folder: FolderItem)
      modifies this
      ensures folderToRename == folder && renamedFolderName == folder.name && showingRenameFolderAlert
      ensures showingCreateFolderAlert == old(showingCreateFolderAlert) && newFolderName == old(newFolderName)
      ensures showingDeleteConfirmationAlert == old(showingDeleteConfirmationAlert)
      ensures folderMarkedForDeletion == old(folderMarkedForDeletion)
      ensures folders == old(folders) && documents == old(documents)
    {
      folderToRename := folder;
      renamedFolderName := folder.name;
      showingRenameFolderAlert := true;
    }

    /**
     * `createFolder`: a blank name does nothing; any other name inserts one new folder with that
     * name, untrimmed, inside the current folder. A failing save is only logged.
     */
    method CreateFolder(name: string)
      modifies modelContext
      ensures IsBlank(name) ==> modelContext.folders == old(modelContext.folders)
      ensures !IsBlank(name) ==>
        && InsertedOneFolder(old(modelContext.folders), modelContext.folders, name, currentFolder)
        && forall f :: f in modelContext.folders - old(modelContext.folders) ==> fresh(f)
      ensures modelContext.documents == old(modelContext.documents)
    {
      if IsBlank(name) {
        return;
      }
      var newFolder := new FolderItem(name, currentFolder);
      modelContext.InsertFolder(newFolder);
    }

    /** `renameFolder`: a blank name is ignored; otherwise the folder takes `newName` exactly. */
    method RenameFolder(folder: FolderItem, newName: string)
      modifies folder
      ensures folder.name == if IsBlank(newName) then old(folder.name) else newName
      ensures folder.parent == old(folder.parent)
    {
      if IsBlank(newName) {
        return;
      }
      folder.name := newName;
    }

    /** `requestDeleteConfirmation`: mark the folder and show the confirmation alert. */
    method RequestDeleteConfirmation(folder: FolderItem)
      modifies this
      ensures folderMarkedForDeletion == folder && showingDeleteConfirmationAlert
      ensures showingCreateFolderAlert == old(showingCreateFolderAlert) && newFolderName == old(newFolderName)
      ensures showingRenameFolderAlert == old(showingRenameFolderAlert)
      ensures folderToRename == old(folderToRename) && renamedFolderName == old(renamedFolderName)
      ensures folders == old(folders) && documents == old(documents)
    {
      folderMarkedForDeletion := folder;
      showingDeleteConfirmationAlert := true;
    }

    /** `performDelete`: the only handler that removes a folder. */
    method PerformDelete(folder: FolderItem)
      modifies modelContext
      ensures modelContext.folders == old(modelContext.folders) - {folder}
      ensures modelContext.documents == old(modelContext.documents)
    {
      modelContext.DeleteFolder(folder);
    }

    /**
     * `deleteFoldersAtIndexSet` (swipe to delete): each offset in turn asks for confirmation, so
     * the last one is the folder left marked; nothing is deleted yet.
     */
    method DeleteFoldersAtIndexSet(offsets: seq<nat>)
      requires IsIndexSet(offsets, |folders|)
      modifies this
      ensures offsets == [] ==>
        folderMarkedForDeletion == old(folderMarkedForDeletion)
        && showingDeleteConfirmationAlert == old(showingDeleteConfirmationAlert)
      ensures offsets != [] ==>
        folderMarkedForDeletion == old(folders)[offsets[|offsets| - 1]] && showingDeleteConfirmationAlert
      ensures showingCreateFolderAlert == old(showingCreateFolderAlert) && newFolderName == old(newFolderName)
      ensures showingRenameFolderAlert == old(showingRenameFolderAlert)
      ensures folderToRename == old(folderToRename) && renamedFolderName == old(renamedFolderName)
      ensures folders == old(folders) && documents == old(documents)
    {
      var listed := folders;
      var rows := seq(|offsets|, k requires 0 <= k < |offsets| => listed[offsets[k]]);
      for i := 0 to |rows|
        invariant folders == old(folders) && documents == old(documents)
        invariant i == 0 ==>
          folderMarkedForDeletion == old(folderMarkedForDeletion)
          && showingDeleteConfirmationAlert == old(showingDeleteConfirmationAlert)
        invariant i > 0 ==> folderMarkedForDeletion == rows[i - 1] && showingDeleteConfirmationAlert
        invariant showingCreateFolderAlert == old(showingCreateFolderAlert) && newFolderName == old(newFolderName)
        invariant showingRenameFolderAlert == old(showingRenameFolderAlert)
        invariant folderToRename == old(folderToRename) && renamedFolderName == old(renamedFolderName)
      {
        RequestDeleteConfirmation(rows[i]);
      }
    }

    /** `deleteDocument`. */
    method DeleteDocument(document: DocumentItem)
      modifies modelContext
      ensures modelContext.documents == old(modelContext.documents) - {document}
      ensures modelContext.folders == old(modelContext.folders)
    {
      modelContext.DeleteDocument(document);
    }

    /** `deleteDocumentsAtIndexSet` (swipe to delete): every listed document goes, unconfirmed. */
    method DeleteDocumentsAtIndexSet(offsets: seq<nat>)
      requires IsIndexSet(offsets, |documents|)
      modifies modelContext
      ensures modelContext.documents == old(modelContext.documents) - RowsAt(documents, offsets, |offsets|)
      ensures modelContext.folders == old(modelContext.folders)
    {
      var listed := documents;
      var rows := seq(|offsets|, k requires 0 <= k < |offsets| => listed[offsets[k]]);
      for i := 0 to |rows|
        invariant modelContext.documents == old(modelContext.documents) - RowsAt(documents, offsets, i)
        invariant modelContext.folders == old(modelContext.folders)
      {
        DeleteDocument(rows[i]);
        RowsAtNext(documents, offsets, i);
      }
    }

    /** The "Create" button of the new-folder alert, which SwiftUI also dismisses. */
    method CreateAlertButton()
      modifies this, modelContext
      ensures !showingCreateFolderAlert && newFolderName == old(newFolderName)
      ensures IsBlank(newFolderName) ==> modelContext.folders == old(modelContext.folders)
      ensures !IsBlank(newFolderName) ==>
        && InsertedOneFolder(old(modelContext.folders), modelContext.folders, newFolderName, currentFolder)
        && forall f :: f in modelContext.folders - old(modelContext.folders) ==> fresh(f)
      ensures modelContext.documents == old(modelContext.documents)
      ensures showingRenameFolderAlert == old(showingRenameFolderAlert)
      ensures folderToRename == old(folderToRename) && renamedFolderName == old(renamedFolderName)
      ensures showingDeleteConfirmationAlert == old(showingDeleteConfirmationAlert)
      ensures folderMarkedForDeletion == old(folderMarkedForDeletion)
      ensures folders == old(folders) && documents == old(documents)
    {
      showingCreateFolderAlert := false;
      CreateFolder(newFolderName);
    }

    /** The "Rename" button of the rename alert: renames the remembered folder, if any. */
    method RenameAlertButton()
      modifies this, folderToRename
      ensures !showingRenameFolderAlert
      ensures folderToRename == old(folderToRename) && renamedFolderName == old(renamedFolderName)
      ensures folderToRename != null ==>
        folderToRename.name == if IsBlank(renamedFolderName) then old(folderToRename.name) else renamedFolderName
      ensures folderToRename != null ==> folderToRename.parent == old(folderToRename.parent)
      ensures showingCreateFolderAlert == old(showingCreateFolderAlert) && newFolderName == old(newFolderName)
      ensures showingDeleteConfirmationAlert == old(showingDeleteConfirmationAlert)
      ensures folderMarkedForDeletion == old(folderMarkedForDeletion)
      ensures folders == old(folders) && documents == old(documents)
    {
      if folderToRename != null {
        RenameFolder(folderToRename, renamedFolderName);
      }
      showingRenameFolderAlert := false;
    }

    /** The "Delete" button of the confirmation alert, presenting the marked folder. */
    method ConfirmDeleteButton()
      modifies this, modelContext
      ensures !showingDeleteConfirmationAlert
      ensures modelContext.folders ==
        if old(folderMarkedForDeletion) == null then old(modelContext.folders)
        else old(modelContext.folders) - {old(folderMarkedForDeletion)}
      ensures modelContext.documents == old(modelContext.documents)
      ensures folderMarkedForDeletion == old(folderMarkedForDeletion)
      ensures showingCreateFolderAlert == old(showingCreateFolderAlert) && newFolderName == old(newFolderName)
      ensures showingRenameFolderAlert == old(showingRenameFolderAlert)
      ensures folderToRename == old(folderToRename) && renamedFolderName == old(renamedFolderName)
      ensures folders == old(folders) && documents == old(documents)
    {
      if folderMarkedForDeletion != null {
        PerformDelete(folderMarkedForDeletion);
      }
      showingDeleteConfirmationAlert := false;
    }

    /** The "Cancel" button of the confirmation alert: nothing is deleted. */
    method CancelDeleteButton()
      modifies this
      ensures !showingDeleteConfirmationAlert && folderMarkedForDeletion == old(folderMarkedForDeletion)
      ensures showingCreateFolderAlert == old(showingCreateFolderAlert) && newFolderName == old(newFolderName)
      ensures showingRenameFolderAlert == old(showingRenameFolderAlert)
      ensures folderToRename == old(folderToRename) && renamedFolderName == old(renamedFolderName)
      ensures folders == old(folders) && documents == old(documents)
    {
      showingDeleteConfirmationAlert := false;
    }
  }

  /** Swiping two folders away marks only the second, and deletes neither. */
  method SwipeMarksLastFolder() returns (a: FolderItem, b: FolderItem, marked: FolderItem?,
                                         beforeConfirm: set<FolderItem>, afterConfirm: set<FolderItem>)
    ensures a != b && marked == b
    ensures beforeConfirm == {a, b} && afterConfirm == {a}
  {
    a := new FolderItem("A", null);
    b := new FolderItem("B", null);
    var context := new ModelContext({a, b}, {});
    var view := new FileSystemView(null, context);
    view.QueriesUpdated([a, b], []);
    view.DeleteFoldersAtIndexSet([0, 1]);
    marked, beforeConfirm := view.folderMarkedForDeletion, context.folders;
    view.ConfirmDeleteButton();
    afterConfirm := context.folders;
  }

  /** The two names the scenario below types: one blank, one padded but not blank. */
  lemma ScenarioNames()
    ensures IsBlank(" \n") && !IsBlank(" A ")
  {
    var blank, padded := " \n", " A ";
    assert AllWhitespace(blank) by {
      assert blank[0] == ' ' && blank[1] == '\n';
    }
    BlankIffAllWhitespace(blank);
    assert padded[1] == 'A';
    BlankIffAllWhitespace(padded);
  }

  /** A name of spaces and newlines creates nothing; a padded name is kept as typed. */
  method BlankNamesAreRefused() returns (afterBlank: set<FolderItem>, afterPadded: set<FolderItem>)
    ensures afterBlank == {}
    ensures |afterPadded| == 1 && forall f :: f in afterPadded ==> f.name == " A "
  {
    var context := new ModelContext({}, {});
    var view := new FileSystemView(null, context);
    ScenarioNames();
    view.CreateFolder(" \n");
    afterBlank := context.folders;
    view.CreateFolder(" A ");
    afterPadded := context.folders;
  }
}
