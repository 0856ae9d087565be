/**
 * The large drop area of a folder listing: dropping a file item moves it into the folder being
 * shown, or to the root when that is the top level.
 */
module DropTarget {
  import opened FileModel
  import opened FolderRowDrop

  /** The alert text for a file dropped where it already is. */
  function AlreadyHereMessage(fileName: string): (message: string)
    ensures |message| == |fileName| + 29
    ensures message[..|fileName| + 2] == Quoted(fileName)
    ensures message[|fileName| + 2..] == " is already in this folder."
  {
    var head := Quoted(fileName);
    var message := head + " is already in this folder.";
    assert message[..|head|] == head;
    assert message[|head|..] == " is already in this folder.";
    message
  }

  class DropView {
    /** The folder being shown; null is the top level. */
    const currentFolder: FolderItem?
    var isTargeted: bool
    var showCannotMoveAlert: bool
    var cannotMoveMessage: string

    constructor (currentFolder: FolderItem?)
      ensures this.currentFolder == currentFolder
      ensures !isTargeted && !showCannotMoveAlert && cannotMoveMessage == ""
    {
      this.currentFolder := currentFolder;
      isTargeted := false;
      showCannotMoveAlert := false;
      cannotMoveMessage := "";
    }

    method SetTargeted(targeting: bool)
      modifies this
      ensures isTargeted == targeting
      ensures showCannotMoveAlert == old(showCannotMoveAlert) && cannotMoveMessage == old(cannotMoveMessage)
    {
      isTargeted := targeting;
    }

    method DismissAlert()
      modifies this
      ensures !showCannotMoveAlert
      ensures isTargeted == old(isTargeted) && cannotMoveMessage == old(cannotMoveMessage)
    {
      showCannotMoveAlert := false;
    }

    /**
     * The drop action. Comparing the optional parents' identifiers makes a root file dropped on
     * the root "already in this folder".
     */
    method DropDestination(droppedItems: seq<PersistentId>, context: map<PersistentId, FileItem>,
                           documents: string, fileManager: FileManager,
                           ghost chainOf: map<FileItem, seq<FolderItem>>, ghost folderChain: seq<FolderItem>,
                           createFails: bool, moveFails: bool)
      returns (accepted: bool)
      requires forall f :: f in context.Values ==> f in chainOf && IsParentChain(f.parent, chainOf[f])
      requires IsParentChain(currentFolder, folderChain)
      modifies this, fileManager, context.Values
      ensures isTargeted == old(isTargeted)
      ensures (droppedItems == [] || droppedItems[0] !in context) ==>
        && !accepted
        && fileManager.present == old(fileManager.present)
        && showCannotMoveAlert == old(showCannotMoveAlert) && cannotMoveMessage == old(cannotMoveMessage)
      ensures droppedItems != [] && droppedItems[0] in context ==>
        var file := context[droppedItems[0]];
        && file.name == old(file.name)
        && (forall g :: g in context.Values && g != file ==> g.parent == old(g.parent))
        && (old(file.parent) == currentFolder ==>
              && !accepted && file.parent == currentFolder
              && fileManager.present == old(fileManager.present)
              && showCannotMoveAlert
              && cannotMoveMessage == AlreadyHereMessage(file.name))
        && (old(file.parent) != currentFolder ==>
              && accepted == (!createFails && !moveFails)
              && file.parent == (if accepted then currentFolder else old(file.parent))
              && fileManager.present == PresentAfterMove(old(fileManager.present),
                   FullPath(documents, old(Names(chainOf[file])), file.name),
                   FullPath(documents, old(Names(folderChain)), file.name), createFails, moveFails)
              && showCannotMoveAlert == old(showCannotMoveAlert) && cannotMoveMessage == old(cannotMoveMessage))
      ensures !accepted ==> forall g :: g in context.Values ==> g.parent == old(g.parent)
      // No file is renamed or re-identified, the dropped one included.
      ensures forall g :: g in context.Values ==> g.name == old(g.name) && g.id == old(g.id)
    {
      if droppedItems == [] {
        return false;
      }
      var droppedItem := droppedItems[0];
      if droppedItem !in context {
        return false;
      }
      var fileToMove := context[droppedItem];
      if fileToMove.parent == currentFolder {
        cannotMoveMessage := AlreadyHereMessage(fileToMove.name);
        showCannotMoveAlert := true;
        return false;
      }
      accepted := MoveWithRollback(fileToMove, currentFolder, documents, chainOf[fileToMove], folderChain,
                                   fileManager, createFails, moveFails);
    }
  }

  /** Dragging a root file onto the root's drop area is refused, and nothing moves. */
  method RootToRootIsRefused(documents: string) returns (accepted: bool, parentAfter: FolderItem?,
                                                         alerted: bool, message: string)
    ensures !accepted && parentAfter == null
    ensures alerted && message == AlreadyHereMessage("a.pdf")
  {
    var file := new FileItem(Uuid(1), "a.pdf", null);
    var fileManager := new FileManager({});
    var view := new DropView(null);
    var id := PersistentId(7);
    accepted := view.DropDestination([id], map[id := file], documents, fileManager,
                                     map[file := []], [], false, false);
    parentAfter, alerted, message := file.parent, view.showCannotMoveAlert, view.cannotMoveMessage;
  }
}
