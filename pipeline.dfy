/**
 * The per-image disposition of main.py as a specification over values.
 * The outside world the script touches (the image folders, the playlist and
 * the calls made to the catalog and the oracle) is a World value; one image
 * is one Step of it, a whole listing one Run.
 */
module Pipeline {

  import opened Wrappers
  import opened Extraction
  import opened Catalog
  import opened Oracle

  /** The playlist every addition goes to (main.py, line 58). */
  const PLAYLIST_NAME: string := "frensrecomms.asia"
  /** The fixed search parameters of main.py, line 61. */
  const SEARCH_TYPE: string := "track"
  const MARKET: string := "FR"
  const LIMIT: nat := 5

  /** Where an image file is: still in the listed folder, in found/, or in not found/. */
  datatype Folder = Listing | Found | NotFound

  /** The calls made to the catalog client and the oracle, in the order they happen. */
  datatype Call =
    | FindPlaylist(name: string)
    | Search(query: string, kind: string, market: string, limit: nat)
    | Disambiguate(query: string, candidates: seq<string>)
    | AddTrack(playlist: string, track: string)

  /**
   * One listed image with the replies the outside world gives for it: the
   * vision model's text, the search's result items, and the oracle's reply
   * after `int()` (None where `int()` raises).
   */
  datatype Image = Image(name: string, reply: string, results: seq<Track>, oracle: Option<int>)

  /** Why a run stops: an uncaught exception inside create_playlist_and_add_songs. */
  datatype Halt =
    | InvalidReply(reply: Option<int>)  // int() fails, or the index is out of range
    | NoArtist(track: string)           // artists[0] in the log line, after the track was added

  /** How processing one image ended. */
  datatype Outcome =
    | Added(track: string)   // track appended, image moved to found/
    | NoMatch                // oracle replied -1, image moved to not found/
    | EmptySearch            // search returned nothing, image left in place
    | Unrecognised           // reply "Unknown Song", image moved to not found/
    | Ignored                // reply "No Music", image left in place
    | Halted(cause: Halt)    // an exception ends the whole run

  datatype World = World(location: map<string, Folder>, playlist: seq<string>, calls: seq<Call>)

  datatype Step = Step(world: World, outcome: Outcome)

  datatype Run = Run(world: World, outcomes: seq<Outcome>)

  function Get(m: map<string, Folder>, name: string): Option<Folder>
  {
    if name in m then Some(m[name]) else None
  }

  /** The folder an outcome moves its image to, if any. */
  function Destination(o: Outcome): Option<Folder>
  {
    match o
    case Added(_) => Some(Found)
    case NoMatch => Some(NotFound)
    case Unrecognised => Some(NotFound)
    case _ => None
  }

  /** Where an image is after an outcome, given where it was before. */
  function Settle(before: Option<Folder>, o: Outcome): Option<Folder>
  {
    if Destination(o).Some? then Destination(o) else before
  }

  /** The track ids an outcome has appended to the playlist. */
  function Appended(o: Outcome): seq<string>
  {
    match o
    case Added(t) => [t]
    case Halted(NoArtist(t)) => [t]
    case _ => []
  }

  function AllAppended(outcomes: seq<Outcome>): seq<string>
    decreases |outcomes|
  {
    if |outcomes| == 0 then [] else Appended(outcomes[0]) + AllAppended(outcomes[1..])
  }

  /**
   * Every playlist lookup asks for PLAYLIST_NAME, and every addition goes to
   * plId, the id that lookup yields, three calls after a lookup.
   */
  predicate Aimed(calls: seq<Call>, plId: string)
  {
    forall j :: 0 <= j < |calls| ==> AimedAt(calls, j, plId)
  }

  predicate AimedAt(calls: seq<Call>, j: nat, plId: string)
    requires j < |calls|
  {
    && (calls[j].FindPlaylist? ==> calls[j].name == PLAYLIST_NAME)
    && (calls[j].AddTrack? ==> calls[j].playlist == plId && 3 <= j && calls[j - 3] == FindPlaylist(PLAYLIST_NAME))
  }

  /**
   * What any step for image `name` may do: move only that image, and only
   * as its outcome says; append to the playlist only the outcome's track;
   * only add calls, each aimed at the one playlist.
   */
  ghost predicate Confined(w: World, s: Step, name: string, plId: string)
  {
    && (forall n :: n != name ==> Get(s.world.location, n) == Get(w.location, n))
    && Get(s.world.location, name) == Settle(Get(w.location, name), s.outcome)
    && s.world.playlist == w.playlist + Appended(s.outcome)
    && w.calls <= s.world.calls
    && Aimed(s.world.calls[|w.calls|..], plId)
  }

  /** The lookup and the search made for every query (main.py, lines 59 and 61). */
  function Lookups(query: string): seq<Call>
  {
    [FindPlaylist(PLAYLIST_NAME), Search(query, SEARCH_TYPE, MARKET, LIMIT)]
  }

  /** create_playlist_and_add_songs (main.py, lines 56-98) for one query. */
  function AddSongs(w: World, plId: string, name: string, query: string, results: seq<Track>, reply: Option<int>): (s: Step)
  {
    var looked := w.(calls := w.calls + Lookups(query));
    if |results| == 0 then Step(looked, EmptySearch)
    else
      var asked := looked.(calls := looked.calls + [Disambiguate(query, FormatCandidates(results))]);
      match Decide(reply, |results|)
      case Decline => Step(asked.(location := asked.location[name := NotFound]), NoMatch)
      case Invalid => Step(asked, Halted(InvalidReply(reply)))
      case Choose(i) =>
        var t := results[i];
        var added := asked.(playlist := asked.playlist + [t.id], calls := asked.calls + [AddTrack(plId, t.id)]);
        if |t.artists| == 0 then Step(added, Halted(NoArtist(t.id)))
        else Step(added.(location := added.location[name := Found]), Added(t.id))
  }

  /** One pass of main's loop body (main.py, lines 103-127). */
  function ProcessImage(w: World, plId: string, img: Image): (s: Step)
  {
    match Classify(img.reply)
    case UnknownSong => Step(w.(location := w.location[img.name := NotFound]), Unrecognised)
    case NoMusic => Step(w, Ignored)
    case SongQuery(q) => AddSongs(w, plId, img.name, q, img.results, img.oracle)
  }

  /** main's loop over the listing: images in order, until one raises. */
  function RunImages(w: World, plId: string, images: seq<Image>): (r: Run)
    ensures |r.outcomes| <= |images|
    decreases |images|
  {
    if |images| == 0 then Run(w, [])
    else
      var s := ProcessImage(w, plId, images[0]);
      if s.outcome.Halted? then Run(s.world, [s.outcome])
      else
        var rest := RunImages(s.world, plId, images[1..]);
        Run(rest.world, [s.outcome] + rest.outcomes)
  }

  predicate DistinctNames(images: seq<Image>)
  {
    forall i, j :: 0 <= i < j < |images| ==> images[i].name != images[j].name
  }

  // ---------------------------------------------------------------- one image

  /**
   * create_playlist_and_add_songs moves at most the given image, appends at most
   * the outcome's track, and starts with the playlist lookup and the search.
   */
  lemma AddSongsConfined(w: World, plId: string, name: string, query: string, results: seq<Track>, reply: Option<int>)
    ensures var s := AddSongs(w, plId, name, query, results, reply);
      && Confined(w, s, name, plId)
      && (s.outcome.Added? || s.outcome.NoMatch? || s.outcome.EmptySearch? || s.outcome.Halted?)
      && w.calls + Lookups(query) <= s.world.calls
  {
    var s := AddSongs(w, plId, name, query, results, reply);
    var made := s.world.calls[|w.calls|..];
    if |results| == 0 {
      assert made == Lookups(query);
    } else {
      var asked := Lookups(query) + [Disambiguate(query, FormatCandidates(results))];
      match Decide(reply, |results|)
      case Choose(i) =>
        assert made == asked + [AddTrack(plId, results[i].id)];
      case Decline =>
        assert made == asked;
      case Invalid =>
        assert made == asked;
    }
  }

  /** One loop pass is confined to its own image; a sentinel reply makes no call and adds nothing. */
  lemma ProcessImageConfined(w: World, plId: string, img: Image)
    ensures var s := ProcessImage(w, plId, img);
      && Confined(w, s, img.name, plId)
      && (!Classify(img.reply).SongQuery? ==> s.world.calls == w.calls && s.world.playlist == w.playlist)
  {
    if Classify(img.reply).SongQuery? {
      AddSongsConfined(w, plId, img.name, img.reply, img.results, img.oracle);
    } else {
      assert w.calls[|w.calls|..] == [];
    }
  }

  /** "Unknown Song" moves the image to not found/ and makes no call at all. */
  lemma UnknownSongMovesToNotFound(w: World, plId: string, img: Image)
    requires img.reply == UNKNOWN_SONG
    ensures ProcessImage(w, plId, img) == Step(w.(location := w.location[img.name := NotFound]), Unrecognised)
  {
  }

  /** "No Music" leaves the world exactly as it was. */
  lemma NoMusicChangesNothing(w: World, plId: string, img: Image)
    requires img.reply == NO_MUSIC
    ensures ProcessImage(w, plId, img) == Step(w, Ignored)
  {
  }

  /** Any other reply is passed on unchanged, as the query, to the search path. */
  lemma OtherRepliesSearch(w: World, plId: string, img: Image)
    requires img.reply != UNKNOWN_SONG && img.reply != NO_MUSIC
    ensures ProcessImage(w, plId, img) == AddSongs(w, plId, img.name, img.reply, img.results, img.oracle)
  {
  }

  /** No results: the lookup and the search happen, nothing else, and the image stays. */
  lemma EmptySearchMovesNothing(w: World, plId: string, name: string, query: string, reply: Option<int>)
    ensures AddSongs(w, plId, name, query, [], reply) == Step(w.(calls := w.calls + Lookups(query)), EmptySearch)
  {
  }

  /** The oracle is consulted exactly when the search returned something. */
  lemma OracleConsultedIffResults(w: World, plId: string, name: string, query: string, results: seq<Track>, reply: Option<int>)
    ensures var s := AddSongs(w, plId, name, query, results, reply);
      (|s.world.calls| > |w.calls| + 2) <==> |results| > 0
    ensures var s := AddSongs(w, plId, name, query, results, reply);
      |results| > 0 ==> s.world.calls[|w.calls| + 2] == Disambiguate(query, FormatCandidates(results))
  {
  }

  /** Reply -1 moves the image to not found/ and leaves the playlist as it was. */
  lemma DeclineMovesToNotFound(w: World, plId: string, name: string, query: string, results: seq<Track>)
    requires |results| > 0
    ensures AddSongs(w, plId, name, query, results, Some(NO_MATCH))
         == Step(World(w.location[name := NotFound], w.playlist,
                       w.calls + Lookups(query) + [Disambiguate(query, FormatCandidates(results))]),
                 NoMatch)
  {
  }

  /** An in-range reply i appends exactly results[i].id to plId and moves the image to found/. */
  lemma ChoiceAddsOneTrack(w: World, plId: string, name: string, query: string, results: seq<Track>, i: int)
    requires 0 <= i < |results| && |results[i].artists| > 0
    ensures AddSongs(w, plId, name, query, results, Some(i))
         == Step(World(w.location[name := Found], w.playlist + [results[i].id],
                       w.calls + Lookups(query) + [Disambiguate(query, FormatCandidates(results)), AddTrack(plId, results[i].id)]),
                 Added(results[i].id))
  {
  }

  /** A non-numeric or out-of-range reply raises: nothing is added or moved and the run ends. */
  lemma InvalidReplyHalts(w: World, plId: string, name: string, query: string, results: seq<Track>, reply: Option<int>)
    requires |results| > 0
    requires reply.None? || reply.value < NO_MATCH || reply.value >= |results|
    ensures AddSongs(w, plId, name, query, results, reply)
         == Step(w.(calls := w.calls + Lookups(query) + [Disambiguate(query, FormatCandidates(results))]),
                 Halted(InvalidReply(reply)))
  {
  }

  // ---------------------------------------------------------------- a run

  /** True when the last outcome ends the run. */
  predicate Stopped(outcomes: seq<Outcome>)
  {
    |outcomes| > 0 && outcomes[|outcomes| - 1].Halted?
  }

  /** Going on with `more` after a run unless that run has stopped. */
  function Continue(r: Run, plId: string, more: seq<Image>): Run
  {
    if Stopped(r.outcomes) then r
    else
      var rm := RunImages(r.world, plId, more);
      Run(rm.world, r.outcomes + rm.outcomes)
  }

  /** One image, then the rest: RunImages unfolded once. */
  lemma RunCons(w: World, plId: string, images: seq<Image>)
    requires |images| > 0
    ensures var s := ProcessImage(w, plId, images[0]);
      RunImages(w, plId, images) == Continue(Run(s.world, [s.outcome]), plId, images[1..])
  {
  }

  /** Handling the next image extends a run that has not stopped by that image's step. */
  lemma ContinueStep(w: World, outcomes: seq<Outcome>, plId: string, images: seq<Image>)
    requires !Stopped(outcomes) && |images| > 0
    ensures var s := ProcessImage(w, plId, images[0]);
      Continue(Run(w, outcomes), plId, images) == Continue(Run(s.world, outcomes + [s.outcome]), plId, images[1..])
  {
    var s := ProcessImage(w, plId, images[0]);
    RunCons(w, plId, images);
    if !s.outcome.Halted? {
      var rest := RunImages(s.world, plId, images[1..]);
      assert outcomes + ([s.outcome] + rest.outcomes) == (outcomes + [s.outcome]) + rest.outcomes;
    }
  }

  /** Images are handled one after another: running a + b is running a, then b. */
  lemma {:induction false} RunAppend(w: World, plId: string, a: seq<Image>, b: seq<Image>)
    ensures RunImages(w, plId, a + b) == Continue(RunImages(w, plId, a), plId, b)
    decreases |a|
  {
    if |a| == 0 {
      assert a + b == b;
    } else {
      var s := ProcessImage(w, plId, a[0]);
      assert (a + b)[0] == a[0];
      assert (a + b)[1..] == a[1..] + b;
      RunCons(w, plId, a + b);
      RunCons(w, plId, a);
      if !s.outcome.Halted? {
        RunAppend(s.world, plId, a[1..], b);
        var rest := RunImages(s.world, plId, a[1..]);
        assert Stopped([s.outcome] + rest.outcomes) == Stopped(rest.outcomes);
        if !Stopped(rest.outcomes) {
          var rb := RunImages(rest.world, plId, b);
          assert [s.outcome] + (rest.outcomes + rb.outcomes) == ([s.outcome] + rest.outcomes) + rb.outcomes;
        }
      }
    }
  }

  /** The run stops exactly at the first halting image and has one outcome per image handled. */
  lemma {:induction false} RunShape(w: World, plId: string, images: seq<Image>)
    ensures var r := RunImages(w, plId, images);
      && (forall k :: 0 <= k < |r.outcomes| - 1 ==> !r.outcomes[k].Halted?)
      && (|r.outcomes| < |images| ==> |r.outcomes| > 0 && r.outcomes[|r.outcomes| - 1].Halted?)
    decreases |images|
  {
    if |images| > 0 {
      var s := ProcessImage(w, plId, images[0]);
      if !s.outcome.Halted? {
        RunShape(s.world, plId, images[1..]);
      }
    }
  }

  /** The playlist only grows, by exactly the tracks the outcomes report, in order. */
  lemma {:induction false} RunPlaylist(w: World, plId: string, images: seq<Image>)
    ensures var r := RunImages(w, plId, images);
      r.world.playlist == w.playlist + AllAppended(r.outcomes)
    decreases |images|
  {
    if |images| > 0 {
      var s := ProcessImage(w, plId, images[0]);
      ProcessImageConfined(w, plId, images[0]);
      if s.outcome.Halted? {
        assert AllAppended([s.outcome]) == Appended(s.outcome);
      } else {
        RunPlaylist(s.world, plId, images[1..]);
        var rest := RunImages(s.world, plId, images[1..]);
        assert ([s.outcome] + rest.outcomes)[1..] == rest.outcomes;
      }
    }
  }

  lemma {:induction false} AimedAppend(a: seq<Call>, b: seq<Call>, plId: string)
    requires Aimed(a, plId) && Aimed(b, plId)
    ensures Aimed(a + b, plId)
  {
    var c := a + b;
    forall j | 0 <= j < |c|
      ensures AimedAt(c, j, plId)
    {
      if j < |a| {
        assert AimedAt(a, j, plId);
        assert c[j] == a[j];
        if a[j].AddTrack? { assert c[j - 3] == a[j - 3]; }
      } else {
        var k := j - |a|;
        assert AimedAt(b, k, plId);
        assert c[j] == b[k];
        if b[k].AddTrack? { assert c[j - 3] == b[k - 3]; }
      }
    }
  }

  /** Calls are only ever added, and every lookup and addition of the run targets the one playlist. */
  lemma {:induction false} RunCalls(w: World, plId: string, images: seq<Image>)
    ensures var r := RunImages(w, plId, images);
      w.calls <= r.world.calls && Aimed(r.world.calls[|w.calls|..], plId)
    decreases |images|
  {
    if |images| == 0 {
      assert w.calls[|w.calls|..] == [];
    } else {
      var s := ProcessImage(w, plId, images[0]);
      ProcessImageConfined(w, plId, images[0]);
      if !s.outcome.Halted? {
        RunCalls(s.world, plId, images[1..]);
        var r := RunImages(s.world, plId, images[1..]);
        var c0, c1, c2 := w.calls, s.world.calls, r.world.calls;
        assert c2[|c0|..] == c1[|c0|..] + c2[|c1|..];
        AimedAppend(c1[|c0|..], c2[|c1|..], plId);
      }
    }
  }

  /**
   * Each handled image ends where its own outcome puts it; an image not
   * handled, or not listed, is where it was.
   */
  lemma {:induction false} RunLocations(w: World, plId: string, images: seq<Image>)
    requires DistinctNames(images)
    ensures var r := RunImages(w, plId, images);
      forall k :: 0 <= k < |r.outcomes| ==>
        Get(r.world.location, images[k].name) == Settle(Get(w.location, images[k].name), r.outcomes[k])
    ensures var r := RunImages(w, plId, images);
      forall n :: (forall k :: 0 <= k < |r.outcomes| ==> images[k].name != n) ==>
        Get(r.world.location, n) == Get(w.location, n)
    decreases |images|
  {
    if |images| > 0 {
      var s := ProcessImage(w, plId, images[0]);
      ProcessImageConfined(w, plId, images[0]);
      if !s.outcome.Halted? {
        var tail := images[1..];
        assert DistinctNames(tail) by {
          forall i, j | 0 <= i < j < |tail| ensures tail[i].name != tail[j].name {
            assert tail[i] == images[i + 1] && tail[j] == images[j + 1];
          }
        }
        RunLocations(s.world, plId, tail);
        RunShape(s.world, plId, tail);
        var rest := RunImages(s.world, plId, tail);
        var r := RunImages(w, plId, images);
        assert r.outcomes == [s.outcome] + rest.outcomes;
        forall k | 0 <= k < |r.outcomes|
          ensures Get(r.world.location, images[k].name) == Settle(Get(w.location, images[k].name), r.outcomes[k])
        {
          if k == 0 {
            assert forall m :: 0 <= m < |rest.outcomes| ==> tail[m].name != images[0].name by {
              forall m | 0 <= m < |rest.outcomes| ensures tail[m].name != images[0].name {
                assert tail[m] == images[m + 1];
              }
            }
          } else {
            assert images[k] == tail[k - 1];
            assert images[k].name != images[0].name;
          }
        }
        forall n | (forall k :: 0 <= k < |r.outcomes| ==> images[k].name != n)
          ensures Get(r.world.location, n) == Get(w.location, n)
        {
          assert images[0].name != n;
          forall m | 0 <= m < |rest.outcomes| ensures tail[m].name != n {
            assert tail[m] == images[m + 1];
          }
        }
      }
    }
  }

  // ---------------------------------------------------------------- scenarios

  /** A two-result search, oracle reply 0: the first track is added and the image goes to found/. */
  lemma ScenarioSelected()
    ensures var img := Image("a.jpg", "Daft Punk One More Time",
                             [Track(["Daft Punk"], "One More Time", "t0"), Track(["Daft Punk"], "Around the World", "t1")],
                             Some(0));
      var s := ProcessImage(World(map["a.jpg" := Listing], [], []), "pl", img);
      s.outcome == Added("t0") && s.world.location["a.jpg"] == Found && s.world.playlist == ["t0"]
  {
  }

  /** "No Music" is skipped and the next image is still handled; a non-numeric reply ends the run. */
  lemma ScenarioRun()
    ensures var music := Image("m.jpg", "No Music", [], None);
      var bad := Image("b.jpg", "garbled xyz123", [Track(["X"], "Y", "t9")], None);
      var unknown := Image("u.jpg", "Unknown Song", [], None);
      RunImages(World(map[], [], []), "pl", [music, unknown, bad, music]).outcomes
        == [Ignored, Unrecognised, Halted(InvalidReply(None))]
  {
    var music := Image("m.jpg", "No Music", [], None);
    var bad := Image("b.jpg", "garbled xyz123", [Track(["X"], "Y", "t9")], None);
    var unknown := Image("u.jpg", "Unknown Song", [], None);
    var images := [music, unknown, bad, music];
    var w0 := World(map[], [], []);
    var s1 := ProcessImage(w0, "pl", music);
    assert s1.outcome == Ignored;
    var s2 := ProcessImage(s1.world, "pl", unknown);
    assert s2.outcome == Unrecognised;
    var s3 := ProcessImage(s2.world, "pl", bad);
    assert s3.outcome == Halted(InvalidReply(None));
    assert images[1..] == [unknown, bad, music] && images[1..][1..] == [bad, music];
    RunCons(s2.world, "pl", [bad, music]);
    RunCons(s1.world, "pl", [unknown, bad, music]);
    RunCons(w0, "pl", images);
  }
}
