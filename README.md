# Clerk, modelled in Dafny

Clerk is an iOS document scanner with a folder browser. This project models its core and proves properties of the model:

- **Scan pipeline.** The camera session manager, the scanner view model and the document processor. A live frame's rectangle detection becomes four normalized corners, and the shutter freezes the latest corners. When the photo arrives, the view model perspective-corrects it if four corners were frozen, or else decodes it as is.
- **Corner geometry.** The normalized-to-raster mapping (flip Y, scale) shared by the processor and the live overlay. The four-point outline path drawn by the overlay and by the corner editor. The corner editor's drag handles.
- **Folder bookkeeping.**
  - A file's path is built by walking its parent chain.
  - The two drop targets move a file on disk and in the model, and undo the re-parenting when the file system refuses the move.
  - The folder browser handles creating, renaming and deleting folders, deleting documents, and its blank-name test.
- **Document analysis request.** The pure parts of the LLM service:
  - the request's content parts;
  - the HTTP status check;
  - stripping a markdown fence from the answer;
  - the error mapping of the surrounding do/catch.

Modelling choices:

- **Mutable state.** Objects whose fields the app updates are classes: the camera session manager, the scanner view model, the CoreImage filter, the corner editor's state, FolderItem/FileItem, the file manager, the model context and the views' `@State` fields. Their methods carry `modifies` clauses and state the new state in full.
- **Pure code.** Pure code is functions and lemmas: corner ordering, coordinate mapping, path tracing, path composition, trimming, status classification and fence stripping.
- **Foreign calls.**
  - Image decoding, the CIPerspectiveCorrection output, CIContext rendering, JPEG/base64 encoding, the transport and JSON decoding are function-valued fields of the `CoreImage` and `Backend` datatypes. The model assumes nothing about them.
  - Throwing calls whose outcome the model cannot know become `bool` parameters: `lockForConfiguration`, `setTorchModeOn`, `createDirectory`, `moveItem` and request encoding.
- **Asynchronous callbacks.** Each callback is an event method that a caller may invoke at any time:
  - the Vision completion (`OnDetection`);
  - the photo delegate (`OnPhotoOutput`);
  - the global-queue `startRunning`/`stopRunning` blocks. `RunDispatched` runs any pending block, in any order.
- **Coordinates.** `CGFloat` coordinates are `real`.
- **Termination of `fullURL`.** `fullURL` follows parent links until it reaches nil. The model takes a ghost witness that the chain is finite and nil-terminated (`FileModel.IsParentChain`). Such a chain is acyclic (`FileModel.ParentChainIsAcyclic`).

Where the code and the design description disagree, the model follows the code:

- Every detection replaces the corners outright. There is no smoothing.
- Dragged corners are not clamped to the image.
- The editor does no aspect-fit conversion between view and image coordinates.
- There is no enhancement filter chain after the perspective filter.
- A second shutter press while a capture is in flight returns silently. There is no "busy" report.
- `applyPerspectiveCorrection` does not check that it received four corners. Its caller does that check. The model requires at least four corners only on the path that reaches the corner assignment, where Swift would trap on a shorter array.

## Model

| member | source | states |
|---|---|---|
| Geometry.DenormalizeAll | Clerk/Core/DocumentProcessor.swift:41 | mapping keeps the number of corners and sends each corner to (x·w, (1−y)·h) |
| Geometry.DenormalizeIsScaledFlip | Clerk/Views/DocumentOverlayView.swift:12-13 | the mapping is a vertical flip followed by scaling to the view size |
| Geometry.FlipYInvolution | Clerk/Views/DocumentOverlayView.swift:12-13 | flipping the normalized y axis twice is the identity |
| Geometry.DenormalizeBounds | Clerk/Core/DocumentProcessor.swift:38-41 | a corner in the unit square lands inside the w×h raster |
| Geometry.NormalizeDenormalize | Clerk/Core/DocumentProcessor.swift:41 | the mapping is invertible for non-zero sizes (normalize after denormalize is the identity) |
| Geometry.DenormalizeNormalize | Clerk/Core/DocumentProcessor.swift:41 | and the other way round: denormalize after normalize is the identity |
| Geometry.DenormalizeAllBounds | Clerk/Core/DocumentProcessor.swift:41 | every mapped unit-square corner lies in the raster |
| Geometry.QuadOutlineTrace | Clerk/Views/DocumentOverlayView.swift:14-18 | move, three lines, close visits p0, p1, p2, p3 and returns to p0 |
| DocumentProcessor.DetectedCorners | Clerk/Core/DocumentProcessor.swift:12-21 | nil exactly when the request failed or found no rectangle; otherwise the first observation's four corners in top-left, top-right, bottom-right, bottom-left order |
| DocumentProcessor.OnlyFirstObservationCounts | Clerk/Core/DocumentProcessor.swift:15-20 | observations after the first never affect the corners |
| DocumentProcessor.PerspectiveFilter.SetValue | Clerk/Core/DocumentProcessor.swift:48-54 | setValue(forKey:) overwrites that one key of the filter's inputs and keeps the others |
| DocumentProcessor.ApplyPerspectiveCorrection | Clerk/Core/DocumentProcessor.swift:33-62 | the five setValue calls leave the filter with the image and the four pixel corners; the result is the rendered filter output, or nil at each failing guard |
| DocumentProcessor.CorrectionFailsExactly | Clerk/Core/DocumentProcessor.swift:33-61 | the result is nil iff the data does not decode to a bitmap, the filter is unavailable, it has no output, or rendering fails |
| DocumentProcessor.CorrectionKeepsScaleAndOrientation | Clerk/Core/DocumentProcessor.swift:58-59 | a corrected image has a bitmap and keeps the decoded image's scale and orientation |
| DocumentProcessor.SettingsAssignCornersInOrder | Clerk/Core/DocumentProcessor.swift:41-54 | inputTopLeft..inputBottomLeft receive corners 0..3, mapped to pixels of the decoded bitmap |
| DocumentProcessor.OnlyFirstFourCornersMatter | Clerk/Core/DocumentProcessor.swift:51-54 | corners beyond the fourth never change the result |
| CameraSession.FlashModeFor | Clerk/Camera/CameraSessionManager.swift:85 | the flash is on exactly when the torch flag is on |
| CameraSession.PhotoCompletionCases | Clerk/Camera/CameraSessionManager.swift:107-115 | an error completes with failure; otherwise file data completes with success; with neither the completion never fires |
| CameraSession.ToggleWithoutTorchIsNoOp | Clerk/Camera/CameraSessionManager.swift:66-67 | without a back camera with a torch, toggling changes nothing |
| CameraSession.ToggleNegatesWhenConfigured | Clerk/Camera/CameraSessionManager.swift:68-77 | when locking and switching on succeed, the flag flips, the torch mode follows, and the device is unlocked |
| CameraSession.ToggleKeepsFlagOnThrow | Clerk/Camera/CameraSessionManager.swift:68-80 | when a call throws, the flag and the torch mode stay; a throw after locking leaves the device locked |
| CameraSession.CameraSessionManager.StartSession | Clerk/Camera/CameraSessionManager.swift:51-56 | dispatches a startRunning block only when the session is not running; nothing else changes |
| CameraSession.CameraSessionManager.StopSession | Clerk/Camera/CameraSessionManager.swift:58-63 | dispatches a stopRunning block only when the session is running; nothing else changes |
| CameraSession.CameraSessionManager.RunDispatched | Clerk/Camera/CameraSessionManager.swift:53-62 | running a pending block removes it and sets the running state it names |
| CameraSession.CameraSessionManager.ToggleTorch | Clerk/Camera/CameraSessionManager.swift:65-81 | the flag and device afterwards are the toggle outcome above; session and requests untouched |
| CameraSession.CameraSessionManager.CapturePhoto | Clerk/Camera/CameraSessionManager.swift:83-87 | issues exactly one photo request whose flash follows the torch flag |
| CameraSession.CameraSessionManager.CaptureOutput | Clerk/Camera/CameraSessionManager.swift:92-96 | every delivered frame is forwarded to the publisher, in order |
| ScannerViewModel.ScannedImageChoice | Clerk/ViewModels/DocumentScannerViewModel.swift:60-65 | four frozen corners select perspective correction; absent corners select plain decoding |
| ScannerViewModel.DocumentScannerViewModel.constructor | Clerk/ViewModels/DocumentScannerViewModel.swift:8-21 | starts with no corners, torch off, not capturing, no image, and a fresh camera manager that is stopped, with no pending block, request or frame |
| ScannerViewModel.DocumentScannerViewModel.OnDetection | Clerk/ViewModels/DocumentScannerViewModel.swift:24-33 | every detection result, nil included, replaces the corners outright; nothing else changes |
| ScannerViewModel.DocumentScannerViewModel.StartSession | Clerk/ViewModels/DocumentScannerViewModel.swift:36-38 | forwards to the manager's start: a startRunning block only when not running; the running flag, torch, back camera, photo requests and forwarded frames stay |
| ScannerViewModel.DocumentScannerViewModel.StopSession | Clerk/ViewModels/DocumentScannerViewModel.swift:40-42 | forwards to the manager's stop: a stopRunning block only when running; the running flag, torch, back camera, photo requests and forwarded frames stay |
| ScannerViewModel.DocumentScannerViewModel.ToggleTorch | Clerk/ViewModels/DocumentScannerViewModel.swift:44-47 | the published flag always flips, even when the manager's toggle fails; the manager's torch flag and device are its own toggle outcome; its running flag, pending blocks, photo requests and forwarded frames stay, as do the view model's other fields |
| ScannerViewModel.DocumentScannerViewModel.CaptureDocument | Clerk/ViewModels/DocumentScannerViewModel.swift:49-79 | while capturing, nothing changes and no request is issued; otherwise capturing turns on, the current corners are frozen, and exactly one photo request is issued; the manager's torch, camera, session, pending blocks and forwarded frames stay |
| ScannerViewModel.DocumentScannerViewModel.OnPhotoOutput | Clerk/ViewModels/DocumentScannerViewModel.swift:56-76 | success stores the scanned image (possibly nil) and clears capturing; failure clears capturing and keeps the image; no completion leaves capturing on |
| ScannerViewModel.CaptureIgnoresLaterDetections | Clerk/ViewModels/DocumentScannerViewModel.swift:54-69 | detections arriving after the shutter do not change the corners used for the photo |
| ScannerViewModel.SecondPressIsIgnored | Clerk/ViewModels/DocumentScannerViewModel.swift:50-56 | two shutter presses issue one photo request |
| ScannerViewModel.LostCompletionBlocksShutter | Clerk/Camera/CameraSessionManager.swift:110-114 | a photo with neither error nor data leaves capturing on for good |
| DocumentOverlay.Body | Clerk/Views/DocumentOverlayView.swift:9-37 | draws only for exactly four corners; stroke and mask share the outline, which visits the four view points and closes |
| DocumentOverlay.OutlineVertices | Clerk/Views/DocumentOverlayView.swift:12-18 | the outline's vertices are the four mapped corners in order, back to the first |
| DocumentOverlay.OutlineInsideView | Clerk/Views/DocumentOverlayView.swift:12-18 | for unit-square corners the outline stays inside the view |
| CornerEditor.ApplyDrags | Clerk/Views/CornerEditorView.swift:47-49 | a drag sequence never changes the number of corners |
| CornerEditor.ApplyDragsSnoc | Clerk/Views/CornerEditorView.swift:48 | one more drag overwrites exactly its own corner |
| CornerEditor.ApplyDragsAt | Clerk/Views/CornerEditorView.swift:48 | each corner is where its last drag put it, or its initial position if never dragged (no clamping) |
| CornerEditor.CornerEditorView.constructor | Clerk/Views/CornerEditorView.swift:11-20 | the adjusted corners start as the initial corners |
| CornerEditor.CornerEditorView.Handles | Clerk/Views/CornerEditorView.swift:41-45 | one handle per corner, at that corner |
| CornerEditor.CornerEditorView.Outline | Clerk/Views/CornerEditorView.swift:31-38 | no path unless there are four corners; otherwise the closed outline through them |
| CornerEditor.CornerEditorView.Drag | Clerk/Views/CornerEditorView.swift:47-49 | overwrites exactly corner i with the drag location |
| CornerEditor.CornerEditorView.Save | Clerk/Views/CornerEditorView.swift:61-63 | hands over the adjusted corners, each the last drag of its handle or its initial value |
| CornerEditor.CornerEditorView.Cancel | Clerk/Views/CornerEditorView.swift:56-58 | cancelling reports no corners |
| CornerEditor.DragOutsideIsKept | Clerk/Views/CornerEditorView.swift:48 | a location outside the image is stored as is |
| FileModel.FileItem.constructor | Clerk/Models/FileItem.swift:10-14 | stores id, name and parent |
| FileModel.ParentChainIsAcyclic | Clerk/Models/FileItem.swift:23-26 | a finite nil-terminated parent chain never repeats a folder |
| FileModel.PrependedIsReversed | Clerk/Models/FileItem.swift:23-26 | inserting each ancestor's name at index 0 yields the ancestors reversed, followed by what was there |
| FileModel.PathComponentsOrder | Clerk/Models/FileItem.swift:20-26 | the components are the root's name first down to the file's own name last, one more than the ancestors |
| FileModel.JoinSnoc | Clerk/Models/FileItem.swift:28 | joining with one more component appends "/" and it |
| FileModel.DeletingLastOfAppended | Clerk/Models/FileItem.swift:36 | deleting the last component undoes appending a slash-free one |
| FileModel.FileItem.FullURL | Clerk/Models/FileItem.swift:16-32 | the documents folder joined with the ancestors' names from the root down and the file's name; the root case appends just the name |
| FileModel.FullPathTestExpectations | Clerk/Models/FileItem.swift:18-30 | a root file is "test.pdf" under documents; one under TestFolder is "TestFolder/test.pdf" |
| FileModel.ParentPathOfFullPath | Clerk/Models/FileItem.swift:36 | the parent directory of a full path is the ancestors-only path, or the documents folder at the root |
| FileModel.FileItem.EnsureParentDirectoryExists | Clerk/Models/FileItem.swift:35-38 | creates the directory that fullURL sits in; failure is ignored |
| FileModel.FileManager.CreateDirectory | Clerk/Views/Components/FolderRowView.swift:58-59 | on success the directory is present; on failure nothing changes |
| FileModel.FileManager.MoveItem | Clerk/Views/Components/FolderRowView.swift:68-69 | on success the old path is gone and the new one present; on failure nothing changes |
| FileModel.MoveRelocatesFile | Clerk/Views/Components/FolderRowView.swift:56-69 | after a successful move the new path is present, the old one gone unless equal, and every other path stays |
| FileModel.MoveWithRollback | Clerk/Views/Components/FolderRowView.swift:50-82 | old path before re-parenting, new path after; either failure restores the original parent and reports false; success leaves the file in the target |
| FileModel.MoveOnDisk | Clerk/Views/Components/FolderRowView.swift:56-77 | the directory of the new path is created first and the move is attempted only if that succeeded; the result is true exactly when both succeed, and the disk afterwards is `PresentAfterMove` |
| FolderRowDrop.AlreadyInFolderMessage | Clerk/Views/Components/FolderRowView.swift:44 | the alert quotes the file's name first and the folder's name last |
| FolderRowDrop.FolderRowView.DropDestination | Clerk/Views/Components/FolderRowView.swift:33-82 | empty drops and unresolved ids change nothing; a file already in the folder is refused with the alert; otherwise the move happens or is rolled back; a false return never leaves any parent changed; no file's name or id changes |
| FolderRowDrop.FolderRowView.SetTargeted | Clerk/Views/Components/FolderRowView.swift:83-85 | the hover flag follows the drop session |
| FolderRowDrop.FolderRowView.DismissAlert | Clerk/Views/Components/FolderRowView.swift:86-87 | OK hides the alert |
| DropTarget.AlreadyHereMessage | Clerk/Views/Components/DropView.swift:28 | the alert quotes the file's name and says it is already in this folder |
| DropTarget.DropView.DropDestination | Clerk/Views/Components/DropView.swift:17-57 | same as the folder row, with an optional target: a root file dropped on the root is refused; success re-parents to the shown folder (nil at the root); no file's name or id changes |
| DropTarget.DropView.SetTargeted | Clerk/Views/Components/DropView.swift:58-60 | the hover flag follows the drop session |
| DropTarget.DropView.DismissAlert | Clerk/Views/Components/DropView.swift:75-76 | OK hides the alert |
| FileSystemBrowser.LeadingWhitespaceRun | Clerk/Views/FileSystemView.swift:318 | the leading run that trimming removes is all whitespace and stops at the first other character |
| FileSystemBrowser.TrailingWhitespaceRun | Clerk/Views/FileSystemView.swift:318 | the trailing run that trimming removes is all whitespace and starts just after the last other character |
| FileSystemBrowser.TrimmedIsSlice | Clerk/Views/FileSystemView.swift:318 | the trimmed name is the slice starting where the leading whitespace ends |
| FileSystemBrowser.TrimmedCutsWhitespaceLeft | Clerk/Views/FileSystemView.swift:318 | everything cut before the trimmed name is whitespace |
| FileSystemBrowser.TrimmedCutsWhitespaceRight | Clerk/Views/FileSystemView.swift:318 | everything cut after the trimmed name is whitespace |
| FileSystemBrowser.TrimmedEnds | Clerk/Views/FileSystemView.swift:318 | a non-empty trimmed name neither starts nor ends with whitespace |
| FileSystemBrowser.TrimmedIsInnerSlice | Clerk/Views/FileSystemView.swift:318 | trimming removes only whitespace and newlines, and only at the two ends |
| FileSystemBrowser.BlankIffAllWhitespace | Clerk/Views/FileSystemView.swift:318-329 | a name is rejected exactly when all of its characters are whitespace or newlines |
| FileSystemBrowser.ModelContext.InsertFolder | Clerk/Views/FileSystemView.swift:320 | inserting adds the folder to the context |
| FileSystemBrowser.ModelContext.DeleteFolder | Clerk/Views/FileSystemView.swift:339 | deleting removes the folder from the context |
| FileSystemBrowser.ModelContext.DeleteDocument | Clerk/Views/FileSystemView.swift:353 | deleting removes the document from the context |
| FileSystemBrowser.RowsAtNext | Clerk/Views/FileSystemView.swift:347 | the documents at the first n+1 offsets are those at the first n plus the n-th |
| FileSystemBrowser.FileSystemView.QueriesUpdated | Clerk/Views/FileSystemView.swift:207-208 | the listed folders and documents are the latest query results; alerts untouched |
| FileSystemBrowser.FileSystemView.ShowCreateFolderAlert | Clerk/Views/FileSystemView.swift:260-263 | clears the name field and shows the new-folder alert |
| FileSystemBrowser.FileSystemView.HandleRename | Clerk/Views/FileSystemView.swift:311-315 | records the folder, pre-fills its current name and shows the rename alert |
| FileSystemBrowser.FileSystemView.CreateFolder | Clerk/Views/FileSystemView.swift:317-326 | a blank name inserts nothing; otherwise exactly one new folder, with the untrimmed name, inside the current folder |
| FileSystemBrowser.FileSystemView.RenameFolder | Clerk/Views/FileSystemView.swift:328-331 | a blank name keeps the old name; otherwise the name becomes the input exactly |
| FileSystemBrowser.FileSystemView.RequestDeleteConfirmation | Clerk/Views/FileSystemView.swift:333-336 | marks the folder and shows the confirmation; deletes nothing |
| FileSystemBrowser.FileSystemView.PerformDelete | Clerk/Views/FileSystemView.swift:338-340 | removes that folder from the context |
| FileSystemBrowser.FileSystemView.DeleteFoldersAtIndexSet | Clerk/Views/FileSystemView.swift:342-344 | asks for confirmation once per offset, so only the last offset's folder stays marked; nothing is deleted |
| FileSystemBrowser.FileSystemView.DeleteDocument | Clerk/Views/FileSystemView.swift:352-354 | removes the document, without confirmation |
| FileSystemBrowser.FileSystemView.DeleteDocumentsAtIndexSet | Clerk/Views/FileSystemView.swift:346-350 | removes every document at the offsets, without confirmation, and no folder |
| FileSystemBrowser.FileSystemView.CreateAlertButton | Clerk/Views/FileSystemView.swift:281-285 | "Create" runs createFolder on the typed name and hides the alert; the rename and delete alert fields and the listed rows stay |
| FileSystemBrowser.FileSystemView.RenameAlertButton | Clerk/Views/FileSystemView.swift:290-296 | "Rename" renames the remembered folder, if there is one, keeping its parent, and hides the alert; the create and delete alert fields and the listed rows stay |
| FileSystemBrowser.FileSystemView.ConfirmDeleteButton | Clerk/Views/FileSystemView.swift:301-304 | "Delete" deletes the marked folder and hides the alert; the mark, the other alert fields and the listed rows stay; this is the only way a folder leaves the context |
| FileSystemBrowser.FileSystemView.CancelDeleteButton | Clerk/Views/FileSystemView.swift:305 | "Cancel" deletes nothing and hides the alert; the mark, the create and rename alert fields and the listed rows stay |
| LLMService.ApiErrorDescriptionKeepsMessage | Clerk/Services/LLMService.swift:21-22 | an API error's description carries its message, so different messages read differently |
| LLMService.PartsCarryOnePayload | Clerk/Services/LLMService.swift:60-71 | a text part has text and no image URL, an image part the reverse, and their types differ |
| LLMService.JpegDataUrlPayload | Clerk/Services/LLMService.swift:110 | the URL is "data:image/jpeg;base64," followed by the payload; distinct payloads give distinct URLs |
| LLMService.EncodedImages | Clerk/Services/LLMService.swift:83-86 | never more payloads than images |
| LLMService.EncodedImagesComplete | Clerk/Services/LLMService.swift:83-86 | the payloads are exactly the encodings of the images that encode, and nothing is dropped iff every image encodes |
| LLMService.EncodedImagesAppend | Clerk/Services/LLMService.swift:83-86 | an image that fails to encode is skipped, the rest keep their order |
| LLMService.BuildContentParts | Clerk/Services/LLMService.swift:106-113 | the text prompt first, then one image part per payload in order: payloads + 1 parts, which is `RequestParts` |
| LLMService.NatToStringRoundTrip | Clerk/Services/LLMService.swift:159 | the decimal rendering of a status code reads back as that code |
| LLMService.IntToStringInjective | Clerk/Services/LLMService.swift:159 | different codes render differently |
| LLMService.StatusTextInjective | Clerk/Services/LLMService.swift:159 | different codes give different "HTTP <code>" messages |
| LLMService.StatusError | Clerk/Services/LLMService.swift:154-160 | no error iff the reply is not HTTP or its status is 2xx; otherwise an apiError with the decoded message, else "HTTP <code>" |
| LLMService.StripCodeFence | Clerk/Services/LLMService.swift:171-176 | the two reassignments of content compute the fence-stripped text |
| LLMService.FenceStrippedRoundTrip | Clerk/Services/LLMService.swift:171-176 | "```json\n" + s + "\n```" comes out as s |
| LLMService.FenceStrippedUnfenced | Clerk/Services/LLMService.swift:171-176 | content with neither fence is unchanged |
| LLMService.FenceStrippedSlice | Clerk/Services/LLMService.swift:171-176 | the result is a slice of the content, shorter by 0, 4, 8 or 12 characters |
| LLMService.FenceStrippedOnce | Clerk/Services/LLMService.swift:171-173 | the opening fence is removed at most once |
| LLMService.Rethrown | Clerk/Services/LLMService.swift:184-189 | an LLMError is rethrown unchanged; any other error becomes networkError |
| LLMService.RethrownIdempotent | Clerk/Services/LLMService.swift:184-189 | passing through the catch clauses again changes nothing |
| LLMService.Exchange | Clerk/Services/LLMService.swift:140-183 | the outcome is `ExchangeOutcome`: transport and decoding failures surface as foreign errors; a non-2xx status as its apiError; no choice or an unparsable answer as invalidResponse; otherwise the fence-stripped answer parsed |
| LLMService.AnalyzeDocument | Clerk/Services/LLMService.swift:79-190 | processingError exactly when no page encodes or the request cannot be encoded, before sending; otherwise the request carries exactly the prompt and the encodable pages, a failed exchange is rethrown through the catch clauses and a successful one returns its parsed answer; missingAPIKey never occurs |
| LLMService.AnalyzedOutcomes | Clerk/Services/LLMService.swift:140-189 | seen by the caller: a transport or reply-decoding error is networkError, a non-2xx status its apiError unchanged, no choice or an unparsable answer invalidResponse, and a success the answer parsed from the fence-stripped first choice |
| LLMService.ServerErrorMessageReachesCaller | Clerk/Services/LLMService.swift:154-160 | a 500 reply whose error document decodes reaches the caller as apiError with that message |
| LLMService.ErrorDescriptionIdentifiesCase | Clerk/Services/LLMService.swift:11-24 | equal descriptions mean the same case, and the same error unless both are network errors with equally described causes |
| CameraSession.CameraSessionManager.constructor | Clerk/Camera/CameraSessionManager.swift:4-29 | a new manager is stopped, torch off, with no pending block, photo request or frame, and holds the back camera that configureSession looks up |
| CameraSession.StartGuardScenario | Clerk/Camera/CameraSessionManager.swift:51-56 | two starts before the background block runs dispatch two startRunning blocks; once one has run, a further start dispatches nothing |
| FolderRowDrop.FolderRowView.constructor | Clerk/Views/Components/FolderRowView.swift:6-13 | a row starts not targeted, without alert and with an empty message |
| DropTarget.DropView.constructor | Clerk/Views/Components/DropView.swift:6-9 | a drop area starts not targeted, without alert and with an empty message |
| DropTarget.RootToRootIsRefused | Clerk/Views/Components/DropView.swift:26-31 | a root file dropped on the root area is refused with the already-here alert and stays at the root |
| FileSystemBrowser.FileSystemView.constructor | Clerk/Views/FileSystemView.swift:190-204 | every alert hidden, the name fields empty, nothing marked or remembered, and no rows listed yet |
| FileSystemBrowser.SwipeMarksLastFolder | Clerk/Views/FileSystemView.swift:342-344 | swiping two folders marks only the second and deletes neither; confirming then deletes only it |
| FileSystemBrowser.BlankNamesAreRefused | Clerk/Views/FileSystemView.swift:317-326 | a name of a space and a newline creates nothing; " A " creates one folder named " A ", untrimmed |

## Left out

- Vision and CoreImage internals: rectangle finding (with its aspect and quadrature thresholds) and the perspective rendering are the opaque fields of `CoreImage`. Nothing is claimed about rectified pixels or output size.
- `CMSampleBufferGetImageBuffer` and `VNImageRequestHandler.perform` are not modelled. `OnDetection` receives the detection's outcome directly.
- AVFoundation session configuration (inputs, outputs, presets, late-frame discarding) and the camera preview: foreign API, with no state the core reads except the back camera, which the manager's constructor takes.
- Threads and dispatch queues are not modelled: each main-queue hop is taken as atomic. The capture closure's `[weak self]` is taken as always alive, and the global-queue processing is folded into `OnPhotoOutput`.
- SwiftData `@Query` predicates and sorting, `modelContext.save`, and cascade deletion of a folder's contents: persistence. The listed rows arrive through `QueriesUpdated`, and deletion removes only the named object.
- `modelContext.model(for:)` is a map from identifier to file item, and `persistentModelID` comparison is object identity.
- File-system paths are strings joined with "/". URL normalisation, percent-encoding and the actual documents-directory lookup are left out. The documents path is a parameter.
- FileManager's intermediate-directory creation is left out: `CreateDirectory` records only the requested directory.
- `saveScannedDocument`, the scanner and preview sheets, row selection, navigation and all declarative layout: UI wiring with no logic beyond setting flags.
- Text handling: Swift strings are modelled as sequences of Unicode scalars, not grapheme clusters. `IsWhitespaceOrNewline` lists the separator characters explicitly. One visible consequence is in `FenceStripped`: for "x\r\n```" the model strips the closing fence, while Swift's Character-based `hasSuffix("\n```")` does not, because "\r\n" is one grapheme there.
- LLMService networking, the JSON encoding of the request, and the JSON and base64 codecs are `Backend` fields.
- The API key lookup in Secrets.plist is not modelled: the model assumes the key is present, so the `fatalError` that a missing key raises at first use is not captured. The request's model identifier, `max_tokens`, URL and headers (`Content-Type`, `Authorization` with the key, `HTTP-Referer`) are not modelled either; `Backend.send` receives only the content parts.
- LocalLLMService, OCRService, PDFGenerator, FileService and the share extension are not part of this model.
- FileModel.Names: states only the length of the list of names. Per-index equality with `chain[k].name` is not part of its contract, because that quantifier made the move proofs too expensive. The path lemmas work on the names list directly.
- FileSystemBrowser.FileSystemView.CreateAlertButton: hides the alert before running createFolder. SwiftUI does both in one main-thread step, so the order is not observable.
- FileModel.MoveWithRollback: restores the original parent once `MoveOnDisk` reports failure, instead of inside each of the two catch blocks. The file system is not touched after the failing step in either version, so the two versions end in the same state.
