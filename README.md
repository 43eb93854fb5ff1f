# Scrapbook board model

A Dafny model of the board state of the digital scrapbook page (`ScrapbookPage`).
The board holds four collections of placed objects: sticky notes, selfies, stickers and doodles.
It also holds a hidden-message flag, a song URL and the song's details.
Two pieces of interaction state sit beside them: the object being dragged and the note whose text is being edited.

The handlers are modelled as follows:

- Each handler's array computation is a pure function in module `Placed`, which works on any kind, or in module `Items`, which holds the note text update.
  These cover append in front, delete by id, rotate, drag to the front, resize, and saving a note's text.
- The handlers that choose a collection by a kind name (`"note"`, `"selfie"`, `"sticker"`, `"doodle"`) are functions on the saved document in module `Board`.
- Loading and saving are functions in module `Persistence`.
- The page's state cells are the fields of the class `Scrapbook.ScrapbookPage`.
  Its methods overwrite the cells as the handlers do.
  Their postconditions state the whole new state through those functions.

Each kind keeps its own stacking pool.
An object that is added or dragged gets `zIndex` equal to the kind's largest `zIndex` (at least 0) plus one.
That zIndex is compared only with objects of the same kind.

Parameters stand in for what the page takes from outside:

- `Math.random()` positions, angles and doodle picks;
- the `Date.now()` text inside ids (`stamp`);
- the answer to the confirmation dialog in clear-all;
- the pointer position and the board's bounding-box corner;
- the data URLs from the camera and the file reader;
- what the stored text parses to.

Coordinates, angles and scales are `real`, and `zIndex` is `int`.

Where the design description and the code differ, the model follows the code:

- Delete removes every object with the id. It removes exactly one only when ids are distinct (`Placed.RemoveExactlyOne`).
- Ids come from the clock, and nothing prevents two objects from sharing one. An add keeps the ids distinct exactly when the new id is fresh (`Placed.AddUnique`).
- Stored text that does not parse leaves the board as it was. It does not reset the board to empty.

## Model

| member | source | states |
|---|---|---|
| `Placed.MaxZ` | app/scrapbook/page.tsx:335 | the result is at least 0, at least every zIndex of the collection, and either 0 or one of them (the least such bound) |
| `Placed.NextZ` | app/scrapbook/page.tsx:394 | the front value is at least 1 and strictly above every zIndex of the collection |
| `Placed.Add` | app/scrapbook/page.tsx:422-425 | the append keeps the earlier objects unchanged and in order, and adds one object at the end with the given id, position, rotation and fields; its zIndex is at least 1 and strictly above every earlier one |
| `Placed.AddIsTop` | app/scrapbook/page.tsx:435 | after an append, the new object holds the kind's maximum zIndex, which is the old maximum plus one |
| `Placed.AddToEmpty` | app/scrapbook/page.tsx:456 | the first object of a kind gets zIndex 1 |
| `Placed.AddUnique` | app/scrapbook/page.tsx:330-337 | an append keeps the ids distinct if and only if no object already has the new id |
| `Placed.Remove` | app/scrapbook/page.tsx:344 | no kept object has the deleted id; every kept object comes from the collection; every object with another id is kept |
| `Placed.RemoveAppend` | app/scrapbook/page.tsx:485 | deleting distributes over concatenation, so the kept objects keep their relative order |
| `Placed.RemoveAbsent` | app/scrapbook/page.tsx:490 | deleting an id that no object has changes nothing |
| `Placed.RemoveExactlyOne` | app/scrapbook/page.tsx:495 | with distinct ids, deleting the k-th object's id gives the collection without exactly that object, one shorter |
| `Placed.RemoveIdempotent` | app/scrapbook/page.tsx:344 | deleting the same id twice is deleting it once |
| `Placed.RemoveUnique` | app/scrapbook/page.tsx:485 | deleting keeps the ids distinct |
| `Placed.RemoveUndoesAdd` | app/scrapbook/page.tsx:337-344 | deleting a freshly added object restores the collection it was added to |
| `Placed.Rotate` | app/scrapbook/page.tsx:501 | same length; only the rotation changes, by delta on objects with the id and by nothing on the others |
| `Placed.RotateTwice` | app/scrapbook/page.tsx:504 | two rotations of the same id add their angles |
| `Placed.RotateInverse` | app/scrapbook/page.tsx:745-760 | rotating by delta and then by minus delta restores the collection |
| `Placed.Drag` | app/scrapbook/page.tsx:276-282 | same length; objects with another id are unchanged; on objects with the id, only position and zIndex change; the position is the pointer's and the zIndex is the kind's earlier maximum (at least 0) plus one, so at least 1 and above every earlier zIndex of the kind |
| `Placed.DragBringsToFront` | app/scrapbook/page.tsx:284-290 | when some object has the id, every dragged object ends up above every other object of the kind, and the kind's maximum grows by one |
| `Placed.DragAbsent` | app/scrapbook/page.tsx:292-298 | dragging an id that no object has changes nothing |
| `Placed.Rescale` | app/scrapbook/page.tsx:520 | same length; only the scale changes; objects with the id get the new scale and the others keep theirs |
| `Placed.RescaleTwice` | app/scrapbook/page.tsx:522 | of two resizes of the same id, the later one wins |
| `Placed.UpdatesKeepIds` | app/scrapbook/page.tsx:300-306 | rotating and dragging keep every id in its place, and so keep distinct ids distinct |
| `Items.ParseKind` | app/scrapbook/page.tsx:499-515 | a recognised type string is exactly the name of the kind it parses to |
| `Items.ParseKindName` | app/scrapbook/page.tsx:275-299 | every kind's name parses back to that kind |
| `Items.SetContent` | app/scrapbook/page.tsx:738 | same length; only note text changes; the note with the id gets the new text, the others keep theirs, and colours stay |
| `Items.SetContentTwice` | app/scrapbook/page.tsx:733-738 | of two saves of the same note, the later text wins |
| `Items.SetContentSame` | app/scrapbook/page.tsx:773-779 | with distinct ids, opening a note and saving its current text unchanged changes nothing |
| `Items.InitialId` | app/scrapbook/page.tsx:246 | the id of initial doodle i is "doodle-initial-" followed by exactly the decimal digit of i |
| `Items.InitialDoodles` | app/scrapbook/page.tsx:240-259 | five doodles with ids doodle-initial-0 to doodle-initial-4 and zIndex 1, each drawing and colour taken from the doodle table; the ids are distinct |
| `Board.RotateIn` | app/scrapbook/page.tsx:499-515 | for each of the four type names, that collection becomes its rotation by delta on the id; every other collection, every length, the flag and the song stay |
| `Board.RotateInUnknown` | app/scrapbook/page.tsx:510-515 | a type the page does not recognise rotates nothing |
| `Board.RotateInInverse` | app/scrapbook/page.tsx:741-762 | rotating one way and then back restores the whole document, for any type |
| `Board.ScaleIn` | app/scrapbook/page.tsx:518-526 | for "selfie", "sticker" and "doodle", that collection becomes its resize of the id; notes never change (they have no scale); every other collection, every length, the flag and the song stay |
| `Board.ScaleInNoop` | app/scrapbook/page.tsx:39-46 | resizing under "note", or under an unrecognised type, leaves the document unchanged |
| `Board.ScaleInTwice` | app/scrapbook/page.tsx:864-872 | of two resizes of the same object under the same type, the later one wins |
| `Board.DragIn` | app/scrapbook/page.tsx:275-307 | for each of the four type names, that collection becomes its drag step (pointer position, front zIndex of that kind) for the id; every other collection, every length, the flag and the song stay |
| `Board.DragInNoteToFront` | app/scrapbook/page.tsx:275-282 | dragging a present note gives it the pointer position and the notes' new maximum zIndex (the old one plus one), leaves every other note as it was, and changes nothing outside the notes |
| `Persistence.Encode` | app/scrapbook/page.tsx:189-199 | the saved record has all seven fields present |
| `Persistence.Restore` | app/scrapbook/page.tsx:169-178 | a present collection or song loads as stored, a missing collection as empty and a missing song as ""; the flag is on exactly when stored as true; present song details load as stored and missing ones keep the page's current ones |
| `Persistence.Load` | app/scrapbook/page.tsx:165-186 | with nothing stored, only the doodles change, to the five initial doodles doodle-initial-0 to doodle-initial-4 at zIndex 1 with distinct ids; stored text that fails to parse changes nothing; a parsed record is applied field by field |
| `Persistence.SaveThenLoad` | app/scrapbook/page.tsx:165-200 | loading what was saved restores the saved document exactly, whatever the page held before |
| `Persistence.LoadEmptyRecord` | app/scrapbook/page.tsx:170-178 | a record with no fields loads as the initial board, keeping the current song details |
| `Scrapbook.ScrapbookPage.constructor` | app/scrapbook/page.tsx:138-155 | the page starts empty, locked, with no song, the default song details, nothing dragged and no note open |
| `Scrapbook.ScrapbookPage.AddNote` | app/scrapbook/page.tsx:328-340 | only the notes change, by the append of a note "note-"+stamp with the placeholder text and the given colour (the first colour by default); the editor opens on it with the placeholder text |
| `Scrapbook.ScrapbookPage.TakeSelfie` | app/scrapbook/page.tsx:389-398 | only the selfies change, by the append of "selfie-"+stamp with the image and scale 1 |
| `Scrapbook.ScrapbookPage.AddSticker` | app/scrapbook/page.tsx:416-426 | only the stickers change, by the append of "sticker-"+stamp of the given type, scale 1, no image |
| `Scrapbook.ScrapbookPage.UploadSticker` | app/scrapbook/page.tsx:448-460 | an empty data URL changes nothing; otherwise only the stickers change, by the append of "sticker-custom-"+stamp of type "custom" with the image |
| `Scrapbook.ScrapbookPage.AddDoodle` | app/scrapbook/page.tsx:429-440 | only the doodles change, by the append of "doodle-"+stamp with the given drawing and colour, scale 1 |
| `Scrapbook.ScrapbookPage.DeleteNote` | app/scrapbook/page.tsx:343-348 | only the notes change, by the delete; the editor closes only if it was open on that id |
| `Scrapbook.ScrapbookPage.DeleteSelfie` | app/scrapbook/page.tsx:494-496 | only the selfies change, by the delete |
| `Scrapbook.ScrapbookPage.DeleteSticker` | app/scrapbook/page.tsx:484-486 | only the stickers change, by the delete |
| `Scrapbook.ScrapbookPage.DeleteDoodle` | app/scrapbook/page.tsx:489-491 | only the doodles change, by the delete |
| `Scrapbook.ScrapbookPage.RotateElement` | app/scrapbook/page.tsx:499-515 | the document becomes the kind-dispatched rotation; interaction state stays |
| `Scrapbook.ScrapbookPage.ScaleElement` | app/scrapbook/page.tsx:517-526 | the document becomes the kind-dispatched resize; interaction state stays |
| `Scrapbook.ScrapbookPage.BeginDrag` | app/scrapbook/page.tsx:719-720 | pressing on an object records it as dragged, except on the note open for editing; nothing else changes |
| `Scrapbook.ScrapbookPage.EndDrag` | app/scrapbook/page.tsx:310-312 | releasing clears the dragged object and changes nothing else |
| `Scrapbook.ScrapbookPage.MouseMove` | app/scrapbook/page.tsx:265-308 | with nothing dragged nothing changes; otherwise the document becomes the drag step at (clientX - left, clientY - top) for the recorded type and id |
| `Scrapbook.ScrapbookPage.StartEditing` | app/scrapbook/page.tsx:773-779 | the editor opens on the note with its current text; the document stays |
| `Scrapbook.ScrapbookPage.EditDraft` | app/scrapbook/page.tsx:727 | typing sets only the editor's text |
| `Scrapbook.ScrapbookPage.SaveNote` | app/scrapbook/page.tsx:733-738 | only the notes change: the note with the id gets the editor's text; the editor closes |
| `Scrapbook.ScrapbookPage.ToggleHiddenMessage` | app/scrapbook/page.tsx:997 | only the hidden-message flag changes, to its negation |
| `Scrapbook.ScrapbookPage.SetSong` | app/scrapbook/page.tsx:529-536 | only the song URL and song details change, to the given ones |
| `Scrapbook.ScrapbookPage.ClearAll` | app/scrapbook/page.tsx:559-570 | unconfirmed, nothing changes; confirmed, the four collections become empty; the flag, song and song details never change |
| `Scrapbook.ScrapbookPage.Save` | app/scrapbook/page.tsx:189-200 | the record written holds the page's current seven saved fields |
| `Scrapbook.ScrapbookPage.Load` | app/scrapbook/page.tsx:164-186 | the document becomes the startup load of what storage held; interaction state stays |
| `Scrapbook.AddEditReload` | app/scrapbook/page.tsx:737-738 | adding a note with the default colour, typing "Hello", saving and reloading gives exactly one note, with text "Hello", the yellow colour and zIndex 1 |

## Left out

- The video-site proxy routes (app/api/youtube-details/route.ts, app/api/youtube-audio/route.ts) only forward to an external library. Their one local branch answers 400 to a request without an id.
- app/page.tsx is a static welcome page.
- Camera capture (`startCamera`, the canvas drawing in `takeSelfie`, `stopCamera`) is device and canvas I/O. Only the appended selfie is modelled, with its image as an opaque string.
- The asynchronous file read in `handleImageUpload` is left out. The sticker is appended to the collection current at the time of the append. The page appends to the collection captured when the upload started.
- Audio playback, mute, and the vinyl rotation animation (`togglePlay`, `toggleMute`, the animation-frame loop) are left out. So are the play/mute effect and the toasts.
- The window event-listener wiring is left out. A drag is modelled as separate press, move and release steps.
- Framer-motion's own dragging of stickers is left out. So are rendering (`renderDoodle`) and the hover and entry animations.
- The direct edits of the song URL, title and artist inputs are left out. Each overwrites one song cell. Only `setSongUrl` is modelled.
- The rotation sliders of selfies and stickers (app/scrapbook/page.tsx:853-855, 956-958) are left out. They set a selfie's or sticker's rotation to an absolute value. Only the relative rotation of `rotateElement` is modelled.
- JSON text and storage access are left out. What parsing gives is a parameter. Field values of the wrong JSON type, such as a non-array in `notes`, are not modelled.
- Floating point is left out: numbers are unbounded reals and integers.
- Placed.RotateInverse: holds of real numbers. With floating-point angles, rotating by delta and back can differ from the original by rounding.
- Placed.RotateTwice: holds of real numbers. Floating-point addition is not associative, so on doubles it can differ by rounding.
- Board.RotateInInverse: inherits the real-number caveat of `Placed.RotateInverse`.
- Placed.MaxZ: zIndex is an integer here. A stored non-integer or NaN zIndex is not modelled.
- Items.InitialDoodles: the random positions (up to 80% of the board size), angles and scales are supplied as draws. Their ranges are not constrained.
