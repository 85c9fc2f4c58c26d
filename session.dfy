/**
 * The script's two routines as imperative code over the state they change:
 * the image folders, the playlist and the record of outside calls. Each
 * routine is proved to do what the Pipeline specification says.
 */
module Session {

  import opened Wrappers
  import opened Extraction
  import opened Catalog
  import opened Oracle
  import opened Pipeline

  /** What main.py changes as it runs: where each image file is, the playlist's tracks, the calls made. */
  class Session {
    var location: map<string, Folder>
    var playlist: seq<string>
    var calls: seq<Call>
    /** The id the catalog resolves PLAYLIST_NAME to (creating the playlist if it is missing). */
    const playlistId: string

    function State(): World
      reads this
    {
      World(location, playlist, calls)
    }

    constructor (location: map<string, Folder>, playlist: seq<string>, playlistId: string)
      ensures State() == World(location, playlist, []) && this.playlistId == playlistId
    {
      this.location := location;
      this.playlist := playlist;
      this.calls := [];
      this.playlistId := playlistId;
    }

    /** A call whose reply is an input of the model; only the fact that it was made is kept. */
    method Record(c: Call)
      modifies this
      ensures calls == old(calls) + [c]
      ensures location == old(location) && playlist == old(playlist)
    {
      calls := calls + [c];
    }

    /** `spo.find_pl_id(name, create_missing=True)` for the one playlist the script uses. */
    method FindPlaylistId(name: string) returns (id: string)
      requires name == PLAYLIST_NAME
      modifies this
      ensures id == playlistId
      ensures calls == old(calls) + [FindPlaylist(name)]
      ensures location == old(location) && playlist == old(playlist)
    {
      Record(FindPlaylist(name));
      id := playlistId;
    }

    /** `spo.pl_add_tr(pl_id, track)`: appends, no deduplication. */
    method AddTrack(pl: string, track: string)
      requires pl == playlistId
      modifies this
      ensures playlist == old(playlist) + [track]
      ensures calls == old(calls) + [Call.AddTrack(pl, track)]
      ensures location == old(location)
    {
      Record(Call.AddTrack(pl, track));
      playlist := playlist + [track];
    }

    /** `shutil.move(image_path, folder)`. */
    method Move(name: string, to: Folder)
      modifies this
      ensures location == old(location)[name := to]
      ensures playlist == old(playlist) && calls == old(calls)
    {
      location := location[name := to];
    }

    /** create_playlist_and_add_songs (main.py, lines 56-98); `items` is the search reply. */
    method CreatePlaylistAndAddSongs(songInfo: string, imageName: string, items: seq<Track>, reply: Option<int>)
      returns (outcome: Outcome)
      modifies this
      ensures Step(State(), outcome) == AddSongs(old(State()), playlistId, imageName, songInfo, items, reply)
    {
      var plId := FindPlaylistId(PLAYLIST_NAME);
      Record(Search(songInfo, SEARCH_TYPE, MARKET, LIMIT));
      var results := items;
      if |results| == 0 {
        outcome := EmptySearch;
        return;
      }
      var formatted := FormatCandidates(results);
      Record(Disambiguate(songInfo, formatted));
      match reply
      case None =>
        outcome := Halted(InvalidReply(reply));
      case Some(bestIndex) =>
        if bestIndex == NO_MATCH {
          Move(imageName, NotFound);
          outcome := NoMatch;
        } else if bestIndex < 0 || bestIndex >= |results| {
          outcome := Halted(InvalidReply(reply));
        } else {
          var selected := results[bestIndex];
          AddTrack(plId, selected.id);
          if |selected.artists| == 0 {
            outcome := Halted(NoArtist(selected.id));
          } else {
            Move(imageName, Found);
            outcome := Added(selected.id);
          }
        }
    }

    /** One pass of main's loop body (main.py, lines 103-127), with its two `continue` branches. */
    method HandleImage(image: Image) returns (outcome: Outcome)
      modifies this
      ensures Step(State(), outcome) == ProcessImage(old(State()), playlistId, image)
    {
      if image.reply == UNKNOWN_SONG {
        Move(image.name, NotFound);
        outcome := Unrecognised;
      } else if image.reply == NO_MUSIC {
        outcome := Ignored;
      } else {
        outcome := CreatePlaylistAndAddSongs(image.reply, image.name, image.results, image.oracle);
      }
    }

    /** The loop of main (main.py, lines 102-127), ended by the first exception. */
    method ProcessFolder(images: seq<Image>) returns (outcomes: seq<Outcome>)
      modifies this
      ensures Run(State(), outcomes) == RunImages(old(State()), playlistId, images)
    {
      ghost var start := State();
      outcomes := [];
      var i := 0;
      var halted := false;
      assert images[0..] == images;
      while i < |images| && !halted
        invariant 0 <= i <= |images|
        invariant halted == Stopped(outcomes)
        invariant RunImages(start, playlistId, images) == Continue(Run(State(), outcomes), playlistId, images[i..])
      {
        ghost var before := State();
        ContinueStep(before, outcomes, playlistId, images[i..]);
        assert images[i..][1..] == images[i + 1..];
        var outcome := HandleImage(images[i]);
        outcomes := outcomes + [outcome];
        halted := outcome.Halted?;
        i := i + 1;
      }
      assert halted || images[i..] == [];
    }
  }
}
