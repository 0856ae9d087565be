/**
 * FileItem and its folders: path composition over the parent chain, the file system the drop
 * handlers change, and the re-parent-then-roll-back move they both perform.
 *
 * Paths are strings; the documents directory is a parameter (it comes from FileManager).
 * `appendingPathComponent` joins with "/", `deletingLastPathComponent` cuts at the last "/".
 * FileManager calls succeed or fail as their `fails` parameter says.
 */
module FileModel {

  /** A SwiftData FolderItem, as a name and a parent (creation date and relationships left out). */
  class FolderItem {
    var name: string
    var parent: FolderItem?

    constructor (name: string, parent: FolderItem?)
      ensures this.name == name && this.parent == parent
    {
      this.name := name;
      this.parent := parent;
    }
  }

  /** A SwiftData DocumentItem, identified by the object; only its name and parent are kept. */
  class DocumentItem {
    var name: string
    var parent: FolderItem?

    constructor (name: string, parent: FolderItem?)
      ensures this.name == name && this.parent == parent
    {
      this.name := name;
      this.parent := parent;
    }
  }

  /** An opaque UUID. */
  datatype Uuid = Uuid(bits: nat)

  /**
   * `chain` lists the folders met walking up from `start` (immediate parent first), ending at a
   * folder with no parent. Only a finite, nil-terminated chain lets the walk in `fullURL` stop.
   */
  ghost predicate IsParentChain(start: FolderItem?, chain: seq<FolderItem>)
    reads chain
  {
    && (start == null <==> chain == [])
    && (chain != [] ==> chain[0] == start && chain[|chain| - 1].parent == null)
    && (forall k :: 0 <= k < |chain| - 1 ==> chain[k].parent == chain[k + 1])
  }

  /** The folders' names, in chain order. */
  ghost function Names(chain: seq<FolderItem>): (names: seq<string>)
    reads chain
    ensures |names| == |chain|
  {
    if chain == [] then [] else [chain[0].name] + Names(chain[1..])
  }

  /** A parent chain never repeats a folder, so it has no cycle. */
  lemma {:induction false} ParentChainIsAcyclic(start: FolderItem?, chain: seq<FolderItem>, i: nat, j: nat)
    requires IsParentChain(start, chain) && i < j < |chain|
    ensures chain[i] != chain[j]
    decreases |chain| - j
  {
    if j == |chain| - 1 {
      assert chain[i].parent == chain[i + 1];
    } else if chain[i] == chain[j] {
      assert chain[i + 1] == chain[i].parent == chain[j].parent == chain[j + 1];
      ParentChainIsAcyclic(start, chain, i + 1, j + 1);
    }
  }

  /** Prepending each name of `names` in turn to `acc`, as the `while` loop does. */
  function Prepended(names: seq<string>, acc: seq<string>): (result: seq<string>)
    ensures |result| == |names| + |acc|
  {
    if names == [] then acc else Prepended(names[1..], [names[0]] + acc)
  }

  /** The path components of a file named `name` whose ancestors, immediate parent first, are `ancestorNames`. */
  function PathComponents(ancestorNames: seq<string>, name: string): seq<string> {
    Prepended(ancestorNames, [name])
  }

  function Reversed(s: seq<string>): (r: seq<string>)
    ensures |r| == |s|
  {
    if s == [] then [] else Reversed(s[1..]) + [s[0]]
  }

  lemma {:induction false} PrependedIsReversed(names: seq<string>, acc: seq<string>)
    ensures Prepended(names, acc) == Reversed(names) + acc
  {
    if names != [] {
      PrependedIsReversed(names[1..], [names[0]] + acc);
      assert Reversed(names[1..]) + ([names[0]] + acc) == (Reversed(names[1..]) + [names[0]]) + acc;
    }
  }

  lemma {:induction false} ReversedAt(s: seq<string>, k: nat)
    requires k < |s|
    ensures Reversed(s)[k] == s[|s| - 1 - k]
  {
    if k < |s| - 1 {
      ReversedAt(s[1..], k);
    }
  }

  /**
   * The components are `[pk.name, ..., p1.name, name]` for ancestors p1 (immediate) ... pk (root):
   * one more than the chain, the root's name first and the file's own name last.
   */
  lemma {:induction false} PathComponentsOrder(ancestorNames: seq<string>, name: string)
    ensures PathComponents(ancestorNames, name) == Reversed(ancestorNames) + [name]
    ensures |PathComponents(ancestorNames, name)| == |ancestorNames| + 1
    ensures PathComponents(ancestorNames, name)[|ancestorNames|] == name
    ensures forall k :: 0 <= k < |ancestorNames| ==>
      PathComponents(ancestorNames, name)[k] == ancestorNames[|ancestorNames| - 1 - k]
  {
    PrependedIsReversed(ancestorNames, [name]);
    forall k | 0 <= k < |ancestorNames|
      ensures PathComponents(ancestorNames, name)[k] == ancestorNames[|ancestorNames| - 1 - k]
    {
      ReversedAt(ancestorNames, k);
    }
  }

  /** `joined(separator: "/")`. */
  function Join(parts: seq<string>): string {
    if |parts| == 0 then ""
    else if |parts| == 1 then parts[0]
    else parts[0] + "/" + Join(parts[1..])
  }

  lemma {:induction false} JoinSnoc(parts: seq<string>, last: string)
    requires parts != []
    ensures Join(parts + [last]) == Join(parts) + "/" + last
    decreases |parts|
  {
    if |parts| == 1 {
      assert (parts + [last])[1..] == [last];
    } else {
      assert (parts + [last])[1..] == parts[1..] + [last];
      JoinSnoc(parts[1..], last);
    }
  }

  /** `URL.appendingPathComponent(_:)` on a path. */
  function AppendingPathComponent(base: string, component: string): string {
    base + "/" + component
  }

  /** `URL.deletingLastPathComponent()` on a path: everything before the last "/". */
  function DeletingLastPathComponent(path: string): string {
    if |path| == 0 then ""
    else if path[|path| - 1] == '/' then path[..|path| - 1]
    else DeletingLastPathComponent(path[..|path| - 1])
  }

  predicate NoSlash(s: string) {
    forall k :: 0 <= k < |s| ==> s[k] != '/'
  }

  lemma {:induction false} DeletingLastOfAppended(base: string, component: string)
    requires NoSlash(component)
    ensures DeletingLastPathComponent(AppendingPathComponent(base, component)) == base
    decreases |component|
  {
    var path := AppendingPathComponent(base, component);
    if component == [] {
      assert path[..|path| - 1] == base;
    } else {
      var shorter := component[..|component| - 1];
      assert path[..|path| - 1] == AppendingPathComponent(base, shorter);
      DeletingLastOfAppended(base, shorter);
    }
  }

  /** The file's `fullURL`, stated on names. */
  function FullPath(documents: string, ancestorNames: seq<string>, name: string): string {
    AppendingPathComponent(documents, Join(PathComponents(ancestorNames, name)))
  }

  /** The test expectations: "test.pdf" at the root, "TestFolder/test.pdf" under one parent. */
  lemma FullPathTestExpectations(documents: string)
    ensures FullPath(documents, [], "test.pdf") == AppendingPathComponent(documents, "test.pdf")
    ensures FullPath(documents, ["TestFolder"], "test.pdf") == AppendingPathComponent(documents, "TestFolder/test.pdf")
  {
  }

  /**
   * Deleting the last component of a full path (whose own name holds no "/") leaves the
   * ancestors-only path: the documents directory itself at the root.
   */
  lemma {:induction false} ParentPathOfFullPath(documents: string, ancestorNames: seq<string>, name: string)
    requires NoSlash(name)
    ensures DeletingLastPathComponent(FullPath(documents, ancestorNames, name)) ==
      if ancestorNames == [] then documents
      else AppendingPathComponent(documents, Join(Reversed(ancestorNames)))
  {
    PathComponentsOrder(ancestorNames, name);
    var parts := PathComponents(ancestorNames, name);
    if ancestorNames == [] {
      assert parts == [name];
      DeletingLastOfAppended(documents, name);
    } else {
      JoinSnoc(Reversed(ancestorNames), name);
      assert FullPath(documents, ancestorNames, name) ==
        AppendingPathComponent(AppendingPathComponent(documents, Join(Reversed(ancestorNames))), name);
      DeletingLastOfAppended(AppendingPathComponent(documents, Join(Reversed(ancestorNames))), name);
    }
  }

  /** The file system: the set of paths present. */
  class FileManager {
    var present: set<string>

    constructor (present: set<string>)
      ensures this.present == present
    {
      this.present := present;
    }

    /** `createDirectory(at:withIntermediateDirectories: true)`; ancestors it would also create are not tracked. */
    method CreateDirectory(at: string, fails: bool) returns (ok: bool)
      modifies this
      ensures ok == !fails
      ensures present == if ok then old(present) + {at} else old(present)
    {
      ok := !fails;
      if ok {
        present := present + {at};
      }
    }

    /** `moveItem(at:to:)`. */
    method MoveItem(from: string, to: string, fails: bool) returns (ok: bool)
      modifies this
      ensures ok == !fails
      ensures present == if ok then old(present) - {from} + {to} else old(present)
    {
      ok := !fails;
      if ok {
        present := present - {from} + {to};
      }
    }
  }

  class FileItem {
    var id: Uuid
    var name: string
    var parent: FolderItem?

    constructor (id: Uuid, name: string, parent: FolderItem?)
      ensures this.id == id && this.name == name && this.parent == parent
    {
      this.id := id;
      this.name := name;
      this.parent := parent;
    }

    /** `fullURL`: walk up the parent chain prepending each folder's name, then join with "/". */
    method FullURL(documents: string, ghost chain: seq<FolderItem>) returns (url: string)
      requires IsParentChain(parent, chain)
      ensures url == FullPath(documents, Names(chain), name)
    {
      if parent != null {
        var currentFolder: FolderItem? := parent;
        var pathComponents: seq<string> := [name];
        ghost var rest := chain;
        while currentFolder != null
          invariant IsParentChain(currentFolder, rest)
          invariant Prepended(Names(rest), pathComponents) == PathComponents(Names(chain), name)
          decreases |rest|
        {
          pathComponents := [currentFolder.name] + pathComponents;
          currentFolder := currentFolder.parent;
          rest := rest[1..];
        }
        url := AppendingPathComponent(documents, Join(pathComponents));
      } else {
        url := AppendingPathComponent(documents, name);
      }
    }

    /** `ensureParentDirectoryExists()`: creates the directory `fullURL` sits in, ignoring failure. */
    method EnsureParentDirectoryExists(documents: string, ghost chain: seq<FolderItem>, fileManager: FileManager, fails: bool)
      requires IsParentChain(parent, chain)
      modifies fileManager
      ensures fileManager.present ==
        if fails then old(fileManager.present)
        else old(fileManager.present) + {DeletingLastPathComponent(FullPath(documents, Names(chain), name))}
    {
      var url := FullURL(documents, chain);
      var parentDirectory := DeletingLastPathComponent(url);
      var _ := fileManager.CreateDirectory(parentDirectory, fails);
    }
  }

  /**
   * The paths present after moving `oldPath` to `newPath`: the new path's directory is created first,
   * and the move happens only if that succeeded.
   */
  function PresentAfterMove(before: set<string>, oldPath: string, newPath: string,
                            createFails: bool, moveFails: bool): set<string>
  {
    var directory := DeletingLastPathComponent(newPath);
    if createFails then before
    else if moveFails then before + {directory}
    else before + {directory} - {oldPath} + {newPath}
  }

  /** A successful move leaves the file at its new path, and its old path gone unless the two coincide. */
  lemma MoveRelocatesFile(before: set<string>, oldPath: string, newPath: string)
    ensures newPath in PresentAfterMove(before, oldPath, newPath, false, false)
    ensures oldPath != newPath ==> oldPath !in PresentAfterMove(before, oldPath, newPath, false, false)
    ensures forall p :: p in before && p != oldPath ==> p in PresentAfterMove(before, oldPath, newPath, false, false)
  {
  }

  /**
   * The move both drop targets perform once the guards pass: compute the old path, re-parent,
   * compute the new path, create its directory, move; on either failure restore the original
   * parent and report false.
   */
  method MoveWithRollback(file: FileItem, target: FolderItem?, documents: string,
                          ghost fileChain: seq<FolderItem>, ghost targetChain: seq<FolderItem>,
                          fileManager: FileManager, createFails: bool, moveFails: bool)
    returns (moved: bool)
    requires IsParentChain(file.parent, fileChain) && IsParentChain(target, targetChain)
    modifies file, fileManager
    ensures moved == (!createFails && !moveFails)
    ensures file.parent == if moved then target else old(file.parent)
    ensures file.name == old(file.name) && file.id == old(file.id)
    ensures fileManager.present == PresentAfterMove(old(fileManager.present),
      FullPath(documents, old(Names(fileChain)), file.name), FullPath(documents, old(Names(targetChain)), file.name),
      createFails, moveFails)
  {
    ghost var names := file.name;
    ghost var oldPath := FullPath(documents, Names(fileChain), names);
    ghost var newPath := FullPath(documents, Names(targetChain), names);
    var oldURL := file.FullURL(documents, fileChain);
    assert oldURL == oldPath;
    var originalParent := file.parent;
    file.parent := target;
    var newURL := file.FullURL(documents, targetChain);
    assert newURL == newPath;
    moved := MoveOnDisk(fileManager, oldURL, newURL, createFails, moveFails);
    if !moved {
      file.parent := originalParent;
    }
  }

  /**
   * The file-system half of the move: create the new path's directory, then move the item; the
   * move is not attempted when the directory cannot be created.
   */
  method MoveOnDisk(fileManager: FileManager, oldURL: string, newURL: string, createFails: bool, moveFails: bool)
    returns (moved: bool)
    modifies fileManager
    ensures moved == (!createFails && !moveFails)
    ensures fileManager.present == PresentAfterMove(old(fileManager.present), oldURL, newURL, createFails, moveFails)
  {
    var destinationDirectory := DeletingLastPathComponent(newURL);
    var created := fileManager.CreateDirectory(destinationDirectory, createFails);
    if !created {
      return false;
    }
    var movedItem := fileManager.MoveItem(oldURL, newURL, moveFails);
    return movedItem;
  }
}
