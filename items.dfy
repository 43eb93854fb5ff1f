/**
 * The four kinds of objects on the scrapbook board, the names the page uses
 * for them, the note-text update and the doodles a board starts with when
 * nothing was saved.
 */
module Items {
  import opened Wrappers
  import opened Placed

  /** A sticky note: its text and its colour class (no scale). */
  datatype NoteData = NoteData(content: string, color: string)
  /** A captured photo, kept as an opaque data URL. */
  datatype SelfieImage = SelfieImage(imageData: string)
  /** A sticker: a built-in icon name, or "custom" with the uploaded image's data URL. */
  datatype StickerLook = StickerLook(kind: string, imageUrl: Option<string>)
  /** A doodle: its drawing name and stroke colour class. */
  datatype DoodleLook = DoodleLook(kind: string, color: string)

  type Note = Obj<NoteData>
  type Selfie = Obj<Scaled<SelfieImage>>
  type Sticker = Obj<Scaled<StickerLook>>
  type Doodle = Obj<Scaled<DoodleLook>>

  /** The note colour classes; a new note takes the first when none is chosen. */
  const COLORS: seq<string> := ["bg-yellow-200", "bg-pink-200", "bg-blue-200", "bg-green-200", "bg-purple-200", "bg-orange-200"]
  /** The text of a note that was just added. */
  const PLACEHOLDER: string := "Click to edit..."
  /** The drawings a doodle can be, with their stroke colour. */
  const DOODLES: seq<DoodleLook> := [
    DoodleLook("squiggle", "stroke-pink-500"), DoodleLook("heart", "stroke-red-500"),
    DoodleLook("star", "stroke-yellow-500"), DoodleLook("cloud", "stroke-blue-400"),
    DoodleLook("flower", "stroke-green-500"), DoodleLook("spiral", "stroke-purple-500")]
  /** How many doodles a board with no saved data starts with. */
  const INITIAL_DOODLES: nat := 5

  // ---------------------------------------------------------------------------
  // Kind names

  datatype Kind = NoteKind | SelfieKind | StickerKind | DoodleKind

  /** The `type` string the page uses for a kind. */
  function KindName(k: Kind): string {
    match k
    case NoteKind => "note"
    case SelfieKind => "selfie"
    case StickerKind => "sticker"
    case DoodleKind => "doodle"
  }

  /** The kind a `type` string names, if any; any other string names none. */
  function ParseKind(t: string): (r: Option<Kind>)
    ensures r.Some? ==> KindName(r.value) == t
  {
    if t == "note" then Some(NoteKind)
    else if t == "selfie" then Some(SelfieKind)
    else if t == "sticker" then Some(StickerKind)
    else if t == "doodle" then Some(DoodleKind)
    else None
  }

  /** Every kind's name parses back to that kind. */
  lemma ParseKindName(k: Kind)
    ensures ParseKind(KindName(k)) == Some(k)
  {
  }

  // ---------------------------------------------------------------------------
  // Saving a note: `notes.map(n => n.id === id ? { ...n, content } : n)`

  function SetContent(notes: seq<Note>, id: string, content: string): (r: seq<Note>)
    ensures |r| == |notes|
    ensures forall i :: 0 <= i < |notes| ==> r[i].(data := notes[i].data) == notes[i]
    ensures forall i :: 0 <= i < |notes| ==> r[i].data.color == notes[i].data.color
    ensures forall i :: 0 <= i < |notes| ==> r[i].data.content == if notes[i].id == id then content else notes[i].data.content
  {
    seq(|notes|, i requires 0 <= i < |notes| =>
      if notes[i].id == id then notes[i].(data := notes[i].data.(content := content)) else notes[i])
  }

  /** Of two saves of the same note, the later text wins. */
  lemma SetContentTwice(notes: seq<Note>, id: string, a: string, b: string)
    ensures SetContent(SetContent(notes, id, a), id, b) == SetContent(notes, id, b)
  {
  }

  /** Saving a note's current text again changes nothing. */
  lemma SetContentSame(notes: seq<Note>, k: int)
    requires UniqueIds(notes)
    requires 0 <= k < |notes|
    ensures SetContent(notes, notes[k].id, notes[k].data.content) == notes
  {
  }

  // ---------------------------------------------------------------------------
  // The doodles of a fresh board

  /** One random draw for an initial doodle: an index into DOODLES, where, how turned, how large. */
  datatype DoodleDraw = DoodleDraw(pick: nat, position: Position, rotation: real, scale: real)

  /** The decimal digit of a number below ten. */
  function Digit(i: nat): (c: char)
    requires i < 10
    ensures '0' <= c <= '9'
  {
    ('0' as int + i) as char
  }

  /** `doodle-initial-${i}` */
  function InitialId(i: nat): (id: string)
    requires i < 10
    ensures |id| == 16 && id[..15] == "doodle-initial-" && id[15] == Digit(i)
  {
    "doodle-initial-" + [Digit(i)]
  }

  /** Builds the starting doodles, one per draw, all at zIndex 1. */
  function InitialDoodles(draws: seq<DoodleDraw>): (r: seq<Doodle>)
    requires |draws| == INITIAL_DOODLES
    requires forall i :: 0 <= i < |draws| ==> draws[i].pick < |DOODLES|
    ensures |r| == INITIAL_DOODLES
    ensures forall i :: 0 <= i < |r| ==> r[i].id == InitialId(i) && r[i].zIndex == 1
    ensures forall i :: 0 <= i < |r| ==> r[i].data == Scaled(draws[i].scale, DOODLES[draws[i].pick])
    ensures UniqueIds(r)
  {
    var r := seq(|draws|, i requires 0 <= i < |draws| =>
      Obj(InitialId(i), draws[i].position, draws[i].rotation, 1, Scaled(draws[i].scale, DOODLES[draws[i].pick])));
    assert forall i, j :: 0 <= i < j < |r| ==> r[i].id[15] != r[j].id[15];
    r
  }
}
