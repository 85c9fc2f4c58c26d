# FrensRecomms: per-image disposition of screenshots

FrensRecomms reads a folder of screenshots, asks a vision model which song each one shows,
searches the music catalog for that text, asks a second model which search result (if any)
matches, appends the chosen track to the playlist `frensrecomms.asia` and moves the image
to `found/` or `not found/`. This project models that decision logic of `main.py` —
`main` and `create_playlist_and_add_songs` — with every outside reply as an input:

- the vision model's text reply (`Image.reply`),
- the catalog's ordered search items (`Image.results`, each a `Catalog.Track`),
- the oracle's reply after `int()` (`Image.oracle`, `None` where `int()` raises),
- the id the catalog resolves the playlist name to (`playlistId`).

Modules:

- `Extraction` (extraction.dfy): the literal comparison of the reply with the sentinels
  `"Unknown Song"` and `"No Music"`.
- `Catalog` (catalog.dfy): search results and their rendering for the oracle,
  `"<artists joined by one space> - <name>"`, with Python's `' '.join` and `split(' ')`.
- `Oracle` (oracle.dfy): the reading of the oracle's integer, as written and as intended.
- `Pipeline` (pipeline.dfy): the specification over values. A `World` holds where each image
  is (`location`), the playlist's tracks (append-only) and the trace of outside calls made
  (`FindPlaylist`, `Search`, `Disambiguate`, `AddTrack`). `AddSongs`, `ProcessImage` and
  `RunImages` give one query, one image and a whole listing; lemmas state what they promise.
- `Session` (session.dfy): the two routines as imperative code on a class holding that state,
  each method proved equal to its `Pipeline` function; `ProcessFolder` is main's loop.

What the code does, and the model follows, where the intended design says otherwise:

- An empty search result leaves the image where it is (there is no `else` at main.py:62);
  it is not moved to `not found/`.
- The playlist lookup `find_pl_id` runs for every non-sentinel reply, before the search, even
  when the search then returns nothing (main.py:59); it is not resolved once per run.
- A reply that `int()` rejects, an index outside the results, or a chosen track with no artist
  (the log line at main.py:95 reads `artists[0]` after the track was added) raises an exception
  that nothing catches: the image stays, and the run ends there (`Outcome.Halted`). No later
  image is processed.
- Sentinels match only exactly: no trimming, no case folding.

## Model

| member | source | states |
|---|---|---|
| Extraction.Classify | main.py:116-124 | the reply is UnknownSong exactly when it equals "Unknown Song", NoMusic exactly when it equals "No Music", otherwise a query carrying the whole reply; no text is lost |
| Extraction.ClassifyText | main.py:116-124 | every valid extraction result is the classification of its own text (classification is a bijection onto valid results) |
| Extraction.VariantsAreQueries | main.py:116-124 | trailing or leading whitespace, or a different case, turns a sentinel into an ordinary search query |
| Catalog.FormatCandidates | main.py:63 | one rendered string per search result, same length and same order, the k-th being the k-th result's artists space-joined, " - ", then its name |
| Catalog.SplitJoin | main.py:63 | when no artist name holds a space, splitting the joined artist string on spaces gives back exactly the artist list |
| Catalog.FormatAppend | main.py:63 | rendering a concatenation of result lists is the concatenation of the renderings, so result order is kept |
| Catalog.RenderedArtists | main.py:63 | a rendering is the joined artist part, the separator " - " and the name, and the artist part splits back into the artists |
| Catalog.RenderExamples | main.py:63 | featured artists are space-joined, an artistless track renders as " - name", and a two-result search renders in rank order |
| Oracle.Decide | main.py:87-93 | -1 declines; an integer in [0, n) selects exactly that index; a non-numeric reply or any other integer is invalid, in both directions |
| Oracle.AsWrittenDiffers | main.py:87-93 | Python's reading and the intended one differ exactly on replies in [-n, -1), which Python turns into a selection of index reply + n |
| Oracle.WrapAroundExample | main.py:92-94 | with five results, a reply of -2 selects the fourth result as written and is invalid as intended |
| Pipeline.AddSongsConfined | main.py:56-98 | only the given image moves, and only to where its outcome says; the playlist grows by exactly the outcome's track; calls are only appended, starting with the playlist lookup and the search; every lookup names "frensrecomms.asia" and every addition goes to the id it yields |
| Pipeline.ProcessImageConfined | main.py:103-127 | the same confinement for one loop pass; for a sentinel reply no call is made and the playlist is untouched |
| Pipeline.RunImages | main.py:102-127 | a run reports at most one outcome per listed image |
| Pipeline.UnknownSongMovesToNotFound | main.py:116-120 | reply "Unknown Song" moves that image to not found/ and changes nothing else: no search, oracle or playlist call |
| Pipeline.NoMusicChangesNothing | main.py:121-124 | reply "No Music" leaves the whole world unchanged |
| Pipeline.OtherRepliesSearch | main.py:116-127 | any other reply goes unchanged, as the query, to create_playlist_and_add_songs |
| Pipeline.EmptySearchMovesNothing | main.py:59-62 | with no search results the playlist lookup and the search are the only effects: nothing is moved or added and the oracle is not asked |
| Pipeline.OracleConsultedIffResults | main.py:61-85 | the oracle is asked exactly when the search returned something, with the query and the rendered candidates |
| Pipeline.DeclineMovesToNotFound | main.py:88-91 | reply -1 moves the image to not found/ and leaves the playlist unchanged |
| Pipeline.ChoiceAddsOneTrack | main.py:92-98 | an in-range reply i appends exactly results[i].id to the resolved playlist and moves the image to found/ |
| Pipeline.InvalidReplyHalts | main.py:87-93 | a non-numeric or out-of-range reply adds and moves nothing and ends the run |
| Pipeline.RunCons | main.py:102-127 | a run is the first image's step followed by the run of the rest, unless that step raised |
| Pipeline.ContinueStep | main.py:102-127 | handling the next image extends an unfinished run by that image's step |
| Pipeline.RunAppend | main.py:102-127 | running a listing a + b is running a and then, unless it raised, b: images are handled one at a time in listing order |
| Pipeline.RunShape | main.py:102-127 | the run stops exactly at the first image that raises; it handles every image when none raises |
| Pipeline.RunPlaylist | main.py:92-98 | over a run the playlist is only appended to, by exactly the tracks the outcomes report, in processing order |
| Pipeline.RunCalls | main.py:58-94 | over a run calls are only appended, every lookup names "frensrecomms.asia" and every addition targets the one id the lookup yields |
| Pipeline.RunLocations | main.py:102-127 | with distinct file names, every handled image ends where its own outcome puts it (found/, not found/, or unmoved), and every other image is where it was |
| Pipeline.ScenarioSelected | main.py:92-98 | a two-result search with oracle reply 0 adds the first track and moves the image to found/ |
| Pipeline.ScenarioRun | main.py:102-127 | a "No Music" image is skipped, the run goes on to an "Unknown Song" image, and a non-numeric oracle reply ends the run |
| Session.Session.FindPlaylistId | main.py:59 | the lookup of "frensrecomms.asia" yields the resolved playlist id and is recorded as a call |
| Session.Session.AddTrack | main.py:94 | the track is appended to the playlist, duplicates kept, and the call is recorded |
| Session.Session.Move | main.py:90 | moving sets that image's folder and nothing else |
| Session.Session.CreatePlaylistAndAddSongs | main.py:56-98 | the new state and the outcome are exactly those of Pipeline.AddSongs on the old state |
| Session.Session.HandleImage | main.py:103-127 | the new state and the outcome are exactly those of Pipeline.ProcessImage on the old state |
| Session.Session.ProcessFolder | main.py:100-127 | the new state and the outcomes are exactly those of Pipeline.RunImages on the old state |

## Left out

- The vision request, its prompt and the base64 encoding of the file (main.py:25-54): network
  and file I/O; the model's reply is an input.
- The oracle request, its prompt text and the JSON of the candidates (main.py:64-85): a network
  call; its reply is an input, and only the fact that it was asked, with the query and the
  rendered candidates, is recorded.
- The grammar of Python's `int()` (main.py:87): abstracted as `Option<int>`.
- The catalog client (`find_pl_id`, `search`, `pl_add_tr`, main.py:5, 17-22, 59, 61, 94): its
  code is not part of this model. `find_pl_id` is modelled only as yielding `playlistId`; whether
  it had to create the playlist is not modelled. That the search returns at most 5 items is the
  provider's promise and is not assumed.
- `os.listdir`, `.env` loading, client set-up and the `print` logging (main.py:8-22, 102, 112-113,
  91, 95, 98, 119, 123): plumbing. The listing order is whatever sequence is given.
- Failures of `shutil.move` (for instance a file of the same name already in the target folder)
  and of any outside call: not modelled; a move always succeeds.
- Session.Session.AddTrack: requires the resolved playlist id, because the model tracks the
  contents of that one playlist only.
- Session.Session.FindPlaylistId: requires the name "frensrecomms.asia", the only name the script
  looks up.

## Findings

| source | as written | input that shows it | evidently intended | confidence | as-written member | corrected member |
|---|---|---|---|---|---|---|
| main.py:87-93 | any integer other than -1 is used directly as `results[best_index]`, so Python's negative indexing accepts -len..-2 | five results and an oracle reply of "-2": results[3] is appended and the image moved to found/ | the oracle must reply -1 or an index 0-4; any other reply is rejected like an index past the end (an exception, nothing added) | medium, not executed | Oracle.DecideAsWritten, shown by Oracle.WrapAroundExample and Oracle.AsWrittenDiffers | Oracle.Decide, the reading Pipeline.AddSongs uses |
