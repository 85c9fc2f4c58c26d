/**
 * Catalog search results and the way each one is rendered for the
 * disambiguation prompt (main.py, line 63): the artist names joined by a
 * single space, then " - ", then the track name.
 */
module Catalog {

  /** One item of the search reply: its artists' names, its name and its catalog id. */
  datatype Track = Track(artists: seq<string>, name: string, id: string)

  const SEPARATOR: string := " - "

  /** Python's `' '.join(names)`: the empty list joins to the empty string. */
  function JoinSpaced(names: seq<string>): string
  {
    if |names| == 0 then ""
    else if |names| == 1 then names[0]
    else names[0] + " " + JoinSpaced(names[1..])
  }

  predicate SpaceFree(w: string)
  {
    forall i :: 0 <= i < |w| ==> w[i] != ' '
  }

  /** Python's `s.split(' ')`: every single space separates two (possibly empty) parts. */
  function SplitSpaces(s: string): (parts: seq<string>)
    ensures |parts| >= 1
    decreases |s|
  {
    if |s| == 0 then [""]
    else if s[0] == ' ' then [""] + SplitSpaces(s[1..])
    else
      var rest := SplitSpaces(s[1..]);
      [[s[0]] + rest[0]] + rest[1..]
  }

  lemma {:induction false} SplitSingle(w: string)
    requires SpaceFree(w)
    ensures SplitSpaces(w) == [w]
    decreases |w|
  {
    if |w| > 0 {
      SplitSingle(w[1..]);
      assert [w[0]] + w[1..] == w;
    }
  }

  lemma {:induction false} SplitFirst(w: string, tail: string)
    requires SpaceFree(w)
    ensures SplitSpaces(w + " " + tail) == [w] + SplitSpaces(tail)
    decreases |w|
  {
    var s := w + " " + tail;
    if |w| == 0 {
      assert s == " " + tail;
      assert s[1..] == tail;
    } else {
      assert s[0] == w[0];
      assert s[1..] == w[1..] + " " + tail;
      SplitFirst(w[1..], tail);
      assert [w[0]] + w[1..] == w;
    }
  }

  /** Joining with spaces is undone by splitting on spaces, when no name holds a space. */
  lemma {:induction false} SplitJoin(names: seq<string>)
    requires |names| > 0
    requires forall k :: 0 <= k < |names| ==> SpaceFree(names[k])
    ensures SplitSpaces(JoinSpaced(names)) == names
    decreases |names|
  {
    if |names| == 1 {
      SplitSingle(names[0]);
    } else {
      SplitFirst(names[0], JoinSpaced(names[1..]));
      SplitJoin(names[1..]);
      assert [names[0]] + names[1..] == names;
    }
  }

  /** The string one search result is shown as to the disambiguation oracle. */
  function Render(t: Track): string
  {
    JoinSpaced(t.artists) + SEPARATOR + t.name
  }

  /** The list comprehension of main.py line 63: one rendering per result, in result order. */
  function FormatCandidates(results: seq<Track>): (r: seq<string>)
    ensures |r| == |results|
    ensures forall k :: 0 <= k < |results| ==> r[k] == Render(results[k])
    decreases |results|
  {
    if |results| == 0 then []
    else [Render(results[0])] + FormatCandidates(results[1..])
  }

  /** Formatting commutes with concatenation, so relative order of results is kept. */
  lemma FormatAppend(a: seq<Track>, b: seq<Track>)
    ensures FormatCandidates(a + b) == FormatCandidates(a) + FormatCandidates(b)
  {
  }

  /** The artist part of a rendering splits back into the track's artists. */
  lemma RenderedArtists(t: Track)
    requires |t.artists| > 0
    requires forall k :: 0 <= k < |t.artists| ==> SpaceFree(t.artists[k])
    ensures exists head :: Render(t) == head + SEPARATOR + t.name && SplitSpaces(head) == t.artists
  {
    SplitJoin(t.artists);
    assert Render(t) == JoinSpaced(t.artists) + SEPARATOR + t.name;
  }

  /** Rendering with featured artists and the two candidates of a typical search. */
  lemma RenderExamples()
    ensures Render(Track(["Drake", "Rihanna"], "Take Care", "t1")) == "Drake Rihanna - Take Care"
    ensures Render(Track([], "Intro", "t2")) == " - Intro"
    ensures FormatCandidates([Track(["Daft Punk"], "One More Time", "a"), Track(["Daft Punk"], "Around the World", "b")])
         == ["Daft Punk - One More Time", "Daft Punk - Around the World"]
  {
    var results := [Track(["Daft Punk"], "One More Time", "a"), Track(["Daft Punk"], "Around the World", "b")];
    assert Render(results[0]) == "Daft Punk - One More Time";
    assert Render(results[1]) == "Daft Punk - Around the World";
  }
}
