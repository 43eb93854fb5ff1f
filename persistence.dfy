/**
 * Saving the board to, and loading it from, browser storage under one key.
 * The stored text is modelled by what parsing it gives: nothing (no saved
 * text), a failure (the text does not parse, or parses to null), or a
 * record whose fields may each be absent (a number, string or array parses
 * to such a record with every field absent).
 */
module Persistence {
  import opened Wrappers
  import opened Placed
  import opened Items
  import opened Board

  /** A parsed ScrapbookData record; any field may be missing from what was stored. */
  datatype Stored = Stored(
    notes: Option<seq<Note>>,
    selfies: Option<seq<Selfie>>,
    stickers: Option<seq<Sticker>>,
    doodles: Option<seq<Doodle>>,
    hiddenMessageUnlocked: Option<bool>,
    song: Option<string>,
    songDetails: Option<SongDetails>)

  /** What reading the storage key gives at startup. */
  datatype Saved = Missing | Corrupt | Parsed(record: Stored)

  /** Saving writes all seven fields. */
  function Encode(d: Document): (rec: Stored)
    ensures rec.notes.Some? && rec.selfies.Some? && rec.stickers.Some? && rec.doodles.Some?
    ensures rec.hiddenMessageUnlocked.Some? && rec.song.Some? && rec.songDetails.Some?
  {
    Stored(Some(d.notes), Some(d.selfies), Some(d.stickers), Some(d.doodles),
           Some(d.hiddenMessageUnlocked), Some(d.song), Some(d.songDetails))
  }

  /**
   * Applying a parsed record: a missing collection becomes empty, a missing
   * flag false, a missing song "", and missing song details keep the ones
   * the page has.
   */
  function Restore(rec: Stored, current: Document): (d: Document)
    ensures rec.notes.None? ==> d.notes == []
    ensures rec.notes.Some? ==> d.notes == rec.notes.value
    ensures rec.selfies.None? ==> d.selfies == []
    ensures rec.selfies.Some? ==> d.selfies == rec.selfies.value
    ensures rec.stickers.None? ==> d.stickers == []
    ensures rec.stickers.Some? ==> d.stickers == rec.stickers.value
    ensures rec.doodles.None? ==> d.doodles == []
    ensures rec.doodles.Some? ==> d.doodles == rec.doodles.value
    ensures d.hiddenMessageUnlocked <==> rec.hiddenMessageUnlocked == Some(true)
    ensures rec.song.None? ==> d.song == ""
    ensures rec.song.Some? ==> d.song == rec.song.value
    ensures rec.songDetails.None? ==> d.songDetails == current.songDetails
    ensures rec.songDetails.Some? ==> d.songDetails == rec.songDetails.value
  {
    Document(
      rec.notes.GetOr([]),
      rec.selfies.GetOr([]),
      rec.stickers.GetOr([]),
      rec.doodles.GetOr([]),
      rec.hiddenMessageUnlocked.GetOr(false),
      rec.song.GetOr(""),
      rec.songDetails.GetOr(current.songDetails))
  }

  /** The startup load, given the random draws for the initial doodles. */
  function Load(saved: Saved, current: Document, draws: seq<DoodleDraw>): (d: Document)
    requires |draws| == INITIAL_DOODLES
    requires forall i :: 0 <= i < |draws| ==> draws[i].pick < |DOODLES|
    ensures saved.Missing? ==> d.(doodles := current.doodles) == current && UniqueIds(d.doodles)
    ensures saved.Missing? ==> d.doodles == InitialDoodles(draws)
    ensures saved.Missing? ==> |d.doodles| == INITIAL_DOODLES && forall i :: 0 <= i < |d.doodles| ==> d.doodles[i].id == InitialId(i) && d.doodles[i].zIndex == 1
    ensures saved.Corrupt? ==> d == current
    ensures saved.Parsed? ==> d == Restore(saved.record, current)
  {
    match saved
    case Missing => current.(doodles := InitialDoodles(draws))
    case Corrupt => current
    case Parsed(rec) => Restore(rec, current)
  }

  /** Loading what was saved gives back the saved document, whatever the page held before. */
  lemma SaveThenLoad(d: Document, current: Document, draws: seq<DoodleDraw>)
    requires |draws| == INITIAL_DOODLES
    requires forall i :: 0 <= i < |draws| ==> draws[i].pick < |DOODLES|
    ensures Load(Parsed(Encode(d)), current, draws) == d
  {
  }

  /** A record with no fields resets the page to its defaults, keeping only the song details it has. */
  lemma LoadEmptyRecord(current: Document, draws: seq<DoodleDraw>)
    requires |draws| == INITIAL_DOODLES
    requires forall i :: 0 <= i < |draws| ==> draws[i].pick < |DOODLES|
    ensures Load(Parsed(Stored(None, None, None, None, None, None, None)), current, draws)
            == INITIAL.(songDetails := current.songDetails)
  {
  }
}
