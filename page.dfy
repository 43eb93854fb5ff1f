/**
 * The scrapbook page's state cells and the handlers that overwrite them.
 * Random positions and angles, `Date.now()` (as the text `stamp`), the
 * answer to the confirmation dialog, the pointer and board coordinates and
 * the storage contents are parameters.
 */
module Scrapbook {
  import opened Wrappers
  import opened Placed
  import opened Items
  import opened Board
  import Persistence

  /** The object being dragged: the kind name the page recorded and its id. */
  datatype Target = Target(kind: string, id: string)

  class ScrapbookPage {
    var notes: seq<Note>
    var selfies: seq<Selfie>
    var stickers: seq<Sticker>
    var doodles: seq<Doodle>
    var hiddenMessageUnlocked: bool
    var song: string
    var songDetails: SongDetails
    /** The object under the pointer while a drag is in progress. */
    var activeElement: Option<Target>
    /** The id of the note whose text is open for editing. */
    var editingNote: Option<string>
    /** The text in the open note editor. */
    var noteContent: string

    /** The saved part of the state. */
    function Doc(): Document
      reads this
    {
      Document(notes, selfies, stickers, doodles, hiddenMessageUnlocked, song, songDetails)
    }

    constructor ()
      ensures Doc() == INITIAL
      ensures activeElement == None && editingNote == None && noteContent == ""
    {
      notes, selfies, stickers, doodles := [], [], [], [];
      hiddenMessageUnlocked, song, songDetails := false, "", DEFAULT_SONG_DETAILS;
      activeElement, editingNote, noteContent := None, None, "";
    }

    // -------------------------------------------------------------------------
    // Adding objects; each goes in front of its own kind

    /** addNote: appends a note with the placeholder text and opens it for editing. */
    method AddNote(stamp: string, position: Position, rotation: real, color: string := COLORS[0])
      modifies this
      ensures Doc() == old(Doc()).(notes := Add(old(notes), "note-" + stamp, position, rotation, NoteData(PLACEHOLDER, color)))
      ensures editingNote == Some("note-" + stamp) && noteContent == PLACEHOLDER
      ensures activeElement == old(activeElement)
    {
      var id := "note-" + stamp;
      notes := Add(notes, id, position, rotation, NoteData(PLACEHOLDER, color));
      editingNote := Some(id);
      noteContent := PLACEHOLDER;
    }

    /** The append in takeSelfie, given the captured frame as a data URL. */
    method TakeSelfie(stamp: string, imageData: string, position: Position, rotation: real)
      modifies this
      ensures Doc() == old(Doc()).(selfies := Add(old(selfies), "selfie-" + stamp, position, rotation, Scaled(1.0, SelfieImage(imageData))))
      ensures activeElement == old(activeElement) && editingNote == old(editingNote) && noteContent == old(noteContent)
    {
      selfies := Add(selfies, "selfie-" + stamp, position, rotation, Scaled(1.0, SelfieImage(imageData)));
    }

    /** addSticker: a built-in sticker. */
    method AddSticker(stamp: string, kind: string, position: Position, rotation: real)
      modifies this
      ensures Doc() == old(Doc()).(stickers := Add(old(stickers), "sticker-" + stamp, position, rotation, Scaled(1.0, StickerLook(kind, None))))
      ensures activeElement == old(activeElement) && editingNote == old(editingNote) && noteContent == old(noteContent)
    {
      stickers := Add(stickers, "sticker-" + stamp, position, rotation, Scaled(1.0, StickerLook(kind, None)));
    }

    /** The append in handleImageUpload, given the data URL the file was read as; an empty one adds nothing. */
    method UploadSticker(stamp: string, imageUrl: string, position: Position, rotation: real)
      modifies this
      ensures imageUrl == "" ==> Doc() == old(Doc())
      ensures imageUrl != "" ==>
        Doc() == old(Doc()).(stickers := Add(old(stickers), "sticker-custom-" + stamp, position, rotation, Scaled(1.0, StickerLook("custom", Some(imageUrl)))))
      ensures activeElement == old(activeElement) && editingNote == old(editingNote) && noteContent == old(noteContent)
    {
      if imageUrl != "" {
        stickers := Add(stickers, "sticker-custom-" + stamp, position, rotation, Scaled(1.0, StickerLook("custom", Some(imageUrl))));
      }
    }

    /** addDoodle */
    method AddDoodle(stamp: string, kind: string, color: string, position: Position, rotation: real)
      modifies this
      ensures Doc() == old(Doc()).(doodles := Add(old(doodles), "doodle-" + stamp, position, rotation, Scaled(1.0, DoodleLook(kind, color))))
      ensures activeElement == old(activeElement) && editingNote == old(editingNote) && noteContent == old(noteContent)
    {
      doodles := Add(doodles, "doodle-" + stamp, position, rotation, Scaled(1.0, DoodleLook(kind, color)));
    }

    // -------------------------------------------------------------------------
    // Deleting objects

    /** deleteNote: also closes the editor when it was open on that note. */
    method DeleteNote(id: string)
      modifies this
      ensures Doc() == old(Doc()).(notes := Remove(old(notes), id))
      ensures editingNote == if old(editingNote) == Some(id) then None else old(editingNote)
      ensures activeElement == old(activeElement) && noteContent == old(noteContent)
    {
      notes := Remove(notes, id);
      if editingNote == Some(id) {
        editingNote := None;
      }
    }

    method DeleteSelfie(id: string)
      modifies this
      ensures Doc() == old(Doc()).(selfies := Remove(old(selfies), id))
      ensures activeElement == old(activeElement) && editingNote == old(editingNote) && noteContent == old(noteContent)
    {
      selfies := Remove(selfies, id);
    }

    method DeleteSticker(id: string)
      modifies this
      ensures Doc() == old(Doc()).(stickers := Remove(old(stickers), id))
      ensures activeElement == old(activeElement) && editingNote == old(editingNote) && noteContent == old(noteContent)
    {
      stickers := Remove(stickers, id);
    }

    method DeleteDoodle(id: string)
      modifies this
      ensures Doc() == old(Doc()).(doodles := Remove(old(doodles), id))
      ensures activeElement == old(activeElement) && editingNote == old(editingNote) && noteContent == old(noteContent)
    {
      doodles := Remove(doodles, id);
    }

    // -------------------------------------------------------------------------
    // Rotating, resizing, dragging

    /** rotateElement */
    method RotateElement(kind: string, id: string, delta: real)
      modifies this
      ensures Doc() == RotateIn(old(Doc()), kind, id, delta)
      ensures activeElement == old(activeElement) && editingNote == old(editingNote) && noteContent == old(noteContent)
    {
      if kind == "note" {
        notes := Rotate(notes, id, delta);
      } else if kind == "selfie" {
        selfies := Rotate(selfies, id, delta);
      } else if kind == "sticker" {
        stickers := Rotate(stickers, id, delta);
      } else if kind == "doodle" {
        doodles := Rotate(doodles, id, delta);
      }
    }

    /** scaleElement */
    method ScaleElement(kind: string, id: string, scale: real)
      modifies this
      ensures Doc() == ScaleIn(old(Doc()), kind, id, scale)
      ensures activeElement == old(activeElement) && editingNote == old(editingNote) && noteContent == old(noteContent)
    {
      if kind == "selfie" {
        selfies := Rescale(selfies, id, scale);
      } else if kind == "sticker" {
        stickers := Rescale(stickers, id, scale);
      } else if kind == "doodle" {
        doodles := Rescale(doodles, id, scale);
      }
    }

    /** Pressing on an object starts a drag, except on the note whose text is open for editing. */
    method BeginDrag(kind: string, id: string)
      modifies this
      ensures activeElement == if kind == "note" && old(editingNote) == Some(id) then old(activeElement) else Some(Target(kind, id))
      ensures Doc() == old(Doc()) && editingNote == old(editingNote) && noteContent == old(noteContent)
    {
      if !(kind == "note" && editingNote == Some(id)) {
        activeElement := Some(Target(kind, id));
      }
    }

    /** Releasing the pointer ends the drag. */
    method EndDrag()
      modifies this
      ensures activeElement == None
      ensures Doc() == old(Doc()) && editingNote == old(editingNote) && noteContent == old(noteContent)
    {
      activeElement := None;
    }

    /** handleMouseMove: moves the dragged object under the pointer and brings it to the front of its kind. */
    method MouseMove(clientX: real, clientY: real, boardLeft: real, boardTop: real)
      modifies this
      ensures old(activeElement).None? ==> Doc() == old(Doc())
      ensures old(activeElement).Some? ==>
        Doc() == DragIn(old(Doc()), old(activeElement).value.kind, old(activeElement).value.id,
                        Position(clientX - boardLeft, clientY - boardTop))
      ensures activeElement == old(activeElement) && editingNote == old(editingNote) && noteContent == old(noteContent)
    {
      if activeElement.None? {
        return;
      }
      var target := activeElement.value;
      var to := Position(clientX - boardLeft, clientY - boardTop);
      if target.kind == "note" {
        notes := Drag(notes, target.id, to);
      } else if target.kind == "selfie" {
        selfies := Drag(selfies, target.id, to);
      } else if target.kind == "sticker" {
        stickers := Drag(stickers, target.id, to);
      } else if target.kind == "doodle" {
        doodles := Drag(doodles, target.id, to);
      }
    }

    // -------------------------------------------------------------------------
    // Editing a note's text

    /** The edit button: opens the editor on a note with its current text. */
    method StartEditing(note: Note)
      modifies this
      ensures editingNote == Some(note.id) && noteContent == note.data.content
      ensures Doc() == old(Doc()) && activeElement == old(activeElement)
    {
      editingNote := Some(note.id);
      noteContent := note.data.content;
    }

    /** Typing in the editor. */
    method EditDraft(text: string)
      modifies this
      ensures noteContent == text
      ensures Doc() == old(Doc()) && activeElement == old(activeElement) && editingNote == old(editingNote)
    {
      noteContent := text;
    }

    /** The save button of the note `id`: writes the editor's text into that note and closes the editor. */
    method SaveNote(id: string)
      modifies this
      ensures Doc() == old(Doc()).(notes := SetContent(old(notes), id, old(noteContent)))
      ensures editingNote == None
      ensures activeElement == old(activeElement) && noteContent == old(noteContent)
    {
      editingNote := None;
      notes := SetContent(notes, id, noteContent);
    }

    // -------------------------------------------------------------------------
    // The rest of the board

    /** Clicking the hidden message flips whether it is shown. */
    method ToggleHiddenMessage()
      modifies this
      ensures Doc() == old(Doc()).(hiddenMessageUnlocked := !old(hiddenMessageUnlocked))
      ensures activeElement == old(activeElement) && editingNote == old(editingNote) && noteContent == old(noteContent)
    {
      hiddenMessageUnlocked := !hiddenMessageUnlocked;
    }

    /** setSongUrl */
    method SetSong(url: string, title: string, artist: string)
      modifies this
      ensures Doc() == old(Doc()).(song := url, songDetails := SongDetails(title, artist))
      ensures activeElement == old(activeElement) && editingNote == old(editingNote) && noteContent == old(noteContent)
    {
      song := url;
      songDetails := SongDetails(title, artist);
    }

    /** clearAll: once confirmed, empties the four collections and keeps the flag and the song. */
    method ClearAll(confirmed: bool)
      modifies this
      ensures !confirmed ==> Doc() == old(Doc())
      ensures confirmed ==> notes == [] && selfies == [] && stickers == [] && doodles == []
      ensures SameSettings(Doc(), old(Doc()))
      ensures activeElement == old(activeElement) && editingNote == old(editingNote) && noteContent == old(noteContent)
    {
      if confirmed {
        notes := [];
        selfies := [];
        stickers := [];
        doodles := [];
      }
    }

    // -------------------------------------------------------------------------
    // Persistence

    /** The record written to storage after every change. */
    method Save() returns (rec: Persistence.Stored)
      ensures rec == Persistence.Encode(Doc())
    {
      rec := Persistence.Stored(Some(notes), Some(selfies), Some(stickers), Some(doodles),
                                Some(hiddenMessageUnlocked), Some(song), Some(songDetails));
    }

    /** The load on mount; `draws` are the random choices for the doodles of a fresh board. */
    method Load(saved: Persistence.Saved, draws: seq<DoodleDraw>)
      requires |draws| == INITIAL_DOODLES
      requires forall i :: 0 <= i < |draws| ==> draws[i].pick < |DOODLES|
      modifies this
      ensures Doc() == Persistence.Load(saved, old(Doc()), draws)
      ensures activeElement == old(activeElement) && editingNote == old(editingNote) && noteContent == old(noteContent)
    {
      match saved
      case Missing =>
        doodles := InitialDoodles(draws);
      case Corrupt =>
      case Parsed(rec) =>
        notes := rec.notes.GetOr([]);
        selfies := rec.selfies.GetOr([]);
        stickers := rec.stickers.GetOr([]);
        doodles := rec.doodles.GetOr([]);
        hiddenMessageUnlocked := rec.hiddenMessageUnlocked.GetOr(false);
        song := rec.song.GetOr("");
        if rec.songDetails.Some? {
          songDetails := rec.songDetails.value;
        }
    }
  }

  /**
   * Add a note on an empty page with the default colour, type "Hello", save
   * it, and load what was stored into a new page: the one note has the text
   * "Hello" and stacking position 1.
   */
  method AddEditReload(stamp: string, position: Position, rotation: real) returns (reloaded: seq<Note>)
    ensures |reloaded| == 1
    ensures reloaded[0].id == "note-" + stamp && reloaded[0].zIndex == 1
    ensures reloaded[0].data == NoteData("Hello", "bg-yellow-200")
  {
    var page := new ScrapbookPage();
    page.AddNote(stamp, position, rotation);
    page.EditDraft("Hello");
    page.SaveNote("note-" + stamp);
    var rec := page.Save();
    var next := new ScrapbookPage();
    var draws := seq(INITIAL_DOODLES, _ => DoodleDraw(0, Position(0.0, 0.0), 0.0, 1.0));
    next.Load(Persistence.Parsed(rec), draws);
    reloaded := next.notes;
  }
}
