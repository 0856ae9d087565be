/**
 * The drop target on a folder row: dropping a file item onto a folder moves the file into it,
 * on disk and in the model, or reports why it did not.
 */
module FolderRowDrop {
  import opened FileModel

  /** A SwiftData PersistentIdentifier, as carried by a dragged TransferableFileItemID. */
  datatype PersistentId = PersistentId(key: nat)

  /** The alert text for a file dropped on the folder it is already in. */
  function AlreadyInFolderMessage(fileName: string, folderName: string): (message: string)
    ensures |message| == |fileName| + |folderName| + 31
    ensures message[..|fileName| + 2] == Quoted(fileName)
    ensures message[|message| - |folderName| - 3..] == Quoted(folderName) + "."
  {
    var head := Quoted(fileName);
    var tail := Quoted(folderName) + ".";
    var message := head + " is already in the folder " + tail;
    assert message[..|head|] == head;
    assert message[|message| - |tail|..] == tail;
    message
  }

  /** A name between single quotes. */
  function Quoted(name: string): (quoted: string)
    ensures |quoted| == |name| + 2
  {
    "'" + name + "'"
  }

  class FolderRowView {
    const folder: FolderItem
    var isTargeted: bool
    var showCannotMoveAlert: bool
    var cannotMoveMessage: string

    constructor (folder: FolderItem)
      ensures this.folder == folder
      ensures !isTargeted && !showCannotMoveAlert && cannotMoveMessage == ""
    {
      this.folder := folder;
      isTargeted := false;
      showCannotMoveAlert := false;
      cannotMoveMessage := "";
    }

    /** The `isTargeted` callback of the drop destination. */
    method SetTargeted(targeting: bool)
      modifies this
      ensures isTargeted == targeting
      ensures showCannotMoveAlert == old(showCannotMoveAlert) && cannotMoveMessage == old(cannotMoveMessage)
    {
      isTargeted := targeting;
    }

    /** The alert's OK button: SwiftUI clears the presenting binding. */
    method DismissAlert()
      modifies this
      ensures !showCannotMoveAlert
      ensures isTargeted == old(isTargeted) && cannotMoveMessage == old(cannotMoveMessage)
    {
      showCannotMoveAlert := false;
    }

    /**
     * The drop action. `context` is what `modelContext.model(for:)` resolves to a FileItem;
     * `chainOf` witnesses that every such file's folders form a finite chain.
     */
    method DropDestination(droppedItems: seq<PersistentId>, context: map<PersistentId, FileItem>,
                           documents: string, fileManager: FileManager,
                           ghost chainOf: map<FileItem, seq<FolderItem>>, ghost folderChain: seq<FolderItem>,
                           createFails: bool, moveFails: bool)
      returns (accepted: bool)
      requires forall f :: f in context.Values ==> f in chainOf && IsParentChain(f.parent, chainOf[f])
      requires IsParentChain(folder, folderChain)
      modifies this, fileManager, context.Values
      ensures isTargeted == old(isTargeted)
      // An empty drop or an id that is not a file changes nothing.
      ensures (droppedItems == [] || droppedItems[0] !in context) ==>
        && !accepted
        && fileManager.present == old(fileManager.present)
        && showCannotMoveAlert == old(showCannotMoveAlert) && cannotMoveMessage == old(cannotMoveMessage)
      ensures droppedItems != [] && droppedItems[0] in context ==>
        var file := context[droppedItems[0]];
        && file.name == old(file.name)
        && (forall g :: g in context.Values && g != file ==> g.parent == old(g.parent))
        // Already in this folder: refused with an alert.
        && (old(file.parent) == folder ==>
              && !accepted && file.parent == folder
              && fileManager.present == old(fileManager.present)
              && showCannotMoveAlert
              && cannotMoveMessage == AlreadyInFolderMessage(file.name, folder.name))
        // Otherwise moved, or rolled back on a file-system failure.
        && (old(file.parent) != folder ==>
              && accepted == (!createFails && !moveFails)
              && file.parent == (if accepted then folder else old(file.parent))
              && fileManager.present == PresentAfterMove(old(fileManager.present),
                   FullPath(documents, old(Names(chainOf[file])), file.name),
                   FullPath(documents, old(Names(folderChain)), file.name), createFails, moveFails)
              && showCannotMoveAlert == old(showCannotMoveAlert) && cannotMoveMessage == old(cannotMoveMessage))
      // A refused drop leaves every file where it was.
      ensures !accepted ==> forall g :: g in context.Values ==> g.parent == old(g.parent)
      // No file is renamed or re-identified, the dropped one included.
      ensures forall g :: g in context.Values ==> g.name == old(g.name) && g.id == old(g.id)
    {
      if droppedItems == [] {
        return false;
      }
      var droppedItem := droppedItems[0];
      if droppedItem !in context {
        return false;
      }
      var fileToMove := context[droppedItem];
      if fileToMove.parent == folder {
        cannotMoveMessage := AlreadyInFolderMessage(fileToMove.name, folder.name);
        showCannotMoveAlert := true;
        return false;
      }
      accepted := MoveWithRollback(fileToMove, folder, documents, chainOf[fileToMove], folderChain,
                                   fileManager, createFails, moveFails);
    }
  }
}
