/**
 * Classification of the vision model's free-text reply (main.py, lines 116-124).
 * The reply is compared literally against two sentinel strings; anything else,
 * including a case or whitespace variant of a sentinel, is taken as a song query.
 */
module Extraction {

  /** The sentinel the vision prompt asks for when no song title is visible. */
  const UNKNOWN_SONG: string := "Unknown Song"

  /** The sentinel the vision prompt asks for when the image shows no music. */
  const NO_MUSIC: string := "No Music"

  datatype ExtractionResult = UnknownSong | NoMusic | SongQuery(text: string)
  {
    /** The reply text this result was classified from. */
    function Text(): string
    {
      match this
      case UnknownSong => UNKNOWN_SONG
      case NoMusic => NO_MUSIC
      case SongQuery(t) => t
    }

    /** A song query never carries a sentinel text. */
    predicate Valid()
    {
      SongQuery? ==> text != UNKNOWN_SONG && text != NO_MUSIC
    }
  }

  /** Exact string comparison against the two sentinels, in the order main.py tests them. */
  function Classify(reply: string): (e: ExtractionResult)
    ensures e == UnknownSong <==> reply == UNKNOWN_SONG
    ensures e == NoMusic <==> reply == NO_MUSIC
    ensures e.SongQuery? <==> reply != UNKNOWN_SONG && reply != NO_MUSIC
    ensures e.Valid() && e.Text() == reply
  {
    if reply == UNKNOWN_SONG then UnknownSong
    else if reply == NO_MUSIC then NoMusic
    else SongQuery(reply)
  }

  /** Classification loses nothing: every valid result is the classification of its own text. */
  lemma ClassifyText(e: ExtractionResult)
    requires e.Valid()
    ensures Classify(e.Text()) == e
  {
  }

  /** Case and whitespace variants of the sentinels are not recognised: they become search queries. */
  lemma VariantsAreQueries()
    ensures Classify("Unknown Song ") == SongQuery("Unknown Song ")
    ensures Classify(" Unknown Song") == SongQuery(" Unknown Song")
    ensures Classify("unknown song") == SongQuery("unknown song")
    ensures Classify("No Music\n") == SongQuery("No Music\n")
    ensures Classify("NO MUSIC") == SongQuery("NO MUSIC")
  {
  }
}
