/**
 * The saved part of the scrapbook page's state (its ScrapbookData) and the
 * handlers that pick a collection by the kind name they are given.
 */
module Board {
  import opened Wrappers
  import opened Placed
  import opened Items

  datatype SongDetails = SongDetails(title: string, artist: string)

  /** The song details shown before the user sets any. */
  const DEFAULT_SONG_DETAILS: SongDetails := SongDetails("Add your favorite song", "Artist name")

  /** Everything the page saves: the four collections, the hidden-message flag and the song. */
  datatype Document = Document(
    notes: seq<Note>,
    selfies: seq<Selfie>,
    stickers: seq<Sticker>,
    doodles: seq<Doodle>,
    hiddenMessageUnlocked: bool,
    song: string,
    songDetails: SongDetails)

  /** The state the page starts in, before anything is loaded. */
  const INITIAL: Document := Document([], [], [], [], false, "", DEFAULT_SONG_DETAILS)

  /** The collections are the only part a kind handler touches. */
  predicate SameSettings(a: Document, b: Document) {
    a.hiddenMessageUnlocked == b.hiddenMessageUnlocked && a.song == b.song && a.songDetails == b.songDetails
  }

  /** Every collection except the one of kind `k` (if any) is the same in `a` and `b`. */
  predicate OthersSame(a: Document, b: Document, k: Option<Kind>) {
    && (k != Some(NoteKind) ==> a.notes == b.notes)
    && (k != Some(SelfieKind) ==> a.selfies == b.selfies)
    && (k != Some(StickerKind) ==> a.stickers == b.stickers)
    && (k != Some(DoodleKind) ==> a.doodles == b.doodles)
  }

  // ---------------------------------------------------------------------------
  // rotateElement(type, id, delta)

  function RotateIn(d: Document, t: string, id: string, delta: real): (r: Document)
    ensures SameSettings(r, d)
    ensures OthersSame(r, d, ParseKind(t))
    ensures |r.notes| == |d.notes| && |r.selfies| == |d.selfies| && |r.stickers| == |d.stickers| && |r.doodles| == |d.doodles|
    ensures ParseKind(t) == Some(NoteKind) ==> r.notes == Rotate(d.notes, id, delta)
    ensures ParseKind(t) == Some(SelfieKind) ==> r.selfies == Rotate(d.selfies, id, delta)
    ensures ParseKind(t) == Some(StickerKind) ==> r.stickers == Rotate(d.stickers, id, delta)
    ensures ParseKind(t) == Some(DoodleKind) ==> r.doodles == Rotate(d.doodles, id, delta)
  {
    match ParseKind(t)
    case Some(NoteKind) => d.(notes := Rotate(d.notes, id, delta))
    case Some(SelfieKind) => d.(selfies := Rotate(d.selfies, id, delta))
    case Some(StickerKind) => d.(stickers := Rotate(d.stickers, id, delta))
    case Some(DoodleKind) => d.(doodles := Rotate(d.doodles, id, delta))
    case None => d
  }

  /** A kind name the page does not know rotates nothing. */
  lemma RotateInUnknown(d: Document, t: string, id: string, delta: real)
    requires ParseKind(t).None?
    ensures RotateIn(d, t, id, delta) == d
  {
  }

  /** Rotating the other way by the same angle restores the document. */
  lemma RotateInInverse(d: Document, t: string, id: string, delta: real)
    ensures RotateIn(RotateIn(d, t, id, delta), t, id, -delta) == d
  {
  }

  // ---------------------------------------------------------------------------
  // scaleElement(type, id, scale): notes have no scale, so "note" is not handled

  function ScaleIn(d: Document, t: string, id: string, scale: real): (r: Document)
    ensures SameSettings(r, d)
    ensures OthersSame(r, d, ParseKind(t))
    ensures r.notes == d.notes
    ensures |r.selfies| == |d.selfies| && |r.stickers| == |d.stickers| && |r.doodles| == |d.doodles|
    ensures ParseKind(t) == Some(SelfieKind) ==> r.selfies == Rescale(d.selfies, id, scale)
    ensures ParseKind(t) == Some(StickerKind) ==> r.stickers == Rescale(d.stickers, id, scale)
    ensures ParseKind(t) == Some(DoodleKind) ==> r.doodles == Rescale(d.doodles, id, scale)
  {
    match ParseKind(t)
    case Some(SelfieKind) => d.(selfies := Rescale(d.selfies, id, scale))
    case Some(StickerKind) => d.(stickers := Rescale(d.stickers, id, scale))
    case Some(DoodleKind) => d.(doodles := Rescale(d.doodles, id, scale))
    case _ => d
  }

  /** Resizing under the name "note", or under a name the page does not know, changes nothing. */
  lemma ScaleInNoop(d: Document, t: string, id: string, scale: real)
    requires t == "note" || ParseKind(t).None?
    ensures ScaleIn(d, t, id, scale) == d
  {
  }

  /** Of two resizes of the same object, the later one wins. */
  lemma ScaleInTwice(d: Document, t: string, id: string, a: real, b: real)
    ensures ScaleIn(ScaleIn(d, t, id, a), t, id, b) == ScaleIn(d, t, id, b)
  {
  }

  // ---------------------------------------------------------------------------
  // One pointer-move step of a drag of the object (type, id)

  function DragIn(d: Document, t: string, id: string, to: Position): (r: Document)
    ensures SameSettings(r, d)
    ensures OthersSame(r, d, ParseKind(t))
    ensures |r.notes| == |d.notes| && |r.selfies| == |d.selfies| && |r.stickers| == |d.stickers| && |r.doodles| == |d.doodles|
    ensures ParseKind(t) == Some(NoteKind) ==> r.notes == Drag(d.notes, id, to)
    ensures ParseKind(t) == Some(SelfieKind) ==> r.selfies == Drag(d.selfies, id, to)
    ensures ParseKind(t) == Some(StickerKind) ==> r.stickers == Drag(d.stickers, id, to)
    ensures ParseKind(t) == Some(DoodleKind) ==> r.doodles == Drag(d.doodles, id, to)
  {
    match ParseKind(t)
    case Some(NoteKind) => d.(notes := Drag(d.notes, id, to))
    case Some(SelfieKind) => d.(selfies := Drag(d.selfies, id, to))
    case Some(StickerKind) => d.(stickers := Drag(d.stickers, id, to))
    case Some(DoodleKind) => d.(doodles := Drag(d.doodles, id, to))
    case None => d
  }

  /**
   * Dragging a note puts it in front of every other note and leaves every
   * other note where it was; the other kinds' stacking is not consulted.
   */
  lemma DragInNoteToFront(d: Document, id: string, to: Position)
    requires HasId(d.notes, id)
    ensures var r := DragIn(d, "note", id, to);
            && MaxZ(r.notes) == MaxZ(d.notes) + 1
            && (forall i :: 0 <= i < |r.notes| && r.notes[i].id == id ==> r.notes[i].position == to && r.notes[i].zIndex == MaxZ(r.notes))
            && (forall i :: 0 <= i < |r.notes| && r.notes[i].id != id ==> r.notes[i] == d.notes[i])
            && r.(notes := d.notes) == d
  {
  }
}
