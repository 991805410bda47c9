/**
 * The `Lyrics` component (Lyrics.jsx) around the LRC parser: cleaning a
 * video title into a track name, the four lookup strategies against the
 * lyrics service, choosing what to show from the record found, and the
 * component's `lyrics` / `synced` / `error` / `loading` state.
 *
 * The two service endpoints are parameters: `get(artist, track)` is the
 * record the exact lookup answers (`None` for a 404, an error or an empty
 * body), and `search(q)` the list a search answers (empty on an error).
 */
module Lyrics {
  import opened Wrappers
  import opened Text
  import opened Lrc

  // ----- cleanTitle -----

  /** The last index in [lo, hi) holding `c`, or -1 when there is none. */
  function LastIndexIn(s: string, c: char, lo: nat, hi: nat): (r: int)
    requires lo <= hi <= |s|
    ensures r == -1 || (lo <= r < hi && s[r] == c)
    ensures r == -1 ==> forall j :: lo <= j < hi ==> s[j] != c
    ensures r >= 0 ==> forall j :: r < j < hi ==> s[j] != c
    decreases hi - lo
  {
    if hi == lo then -1
    else if s[hi - 1] == c then hi - 1
    else LastIndexIn(s, c, lo, hi - 1)
  }

  /**
   * Where `\(.*\)` (or `\[.*\]`) matched at the start of `s` ends, or 0 when
   * it does not match there. `.*` is greedy and stops at a line terminator,
   * so the group closes at the last closing bracket before the first line
   * terminator.
   */
  function GroupEnd(s: string, open: char, close: char): (n: nat)
    ensures n <= |s|
    ensures n > 0 ==> n >= 2 && s[0] == open && s[n - 1] == close
    ensures n > 0 ==> n <= |UpToLineEnd(s)|
    ensures n > 0 ==> forall j :: n <= j < |UpToLineEnd(s)| ==> s[j] != close
  {
    if |s| == 0 || s[0] != open then 0
    else
      var lineEnd := |UpToLineEnd(s)|;
      if lineEnd < 1 then 0
      else
        var j := LastIndexIn(s, close, 1, lineEnd);
        if j < 0 then 0 else j + 1
  }

  /** `.replace(/\(.*\)|\[.*\]/g, '')`: scanning left to right, each bracket group is cut out. */
  function RemoveBrackets(s: string): (r: string)
    ensures |r| <= |s|
    decreases |s|
  {
    if |s| == 0 then ""
    else
      var p := GroupEnd(s, '(', ')');
      if p > 0 then RemoveBrackets(s[p..])
      else
        var b := GroupEnd(s, '[', ']');
        if b > 0 then RemoveBrackets(s[b..])
        else [s[0]] + RemoveBrackets(s[1..])
  }

  /** The alternatives of the clutter pattern, in the order the regular expression tries them. */
  const ClutterWords: seq<string> :=
    ["- topic", "official video", "official audio", "lyrics", "official", "video", "audio"]

  /** `s` starts with `w`, ignoring ASCII case (the `i` flag; `w` is lower case). */
  predicate StartsWithFolded(s: string, w: string) {
    |w| <= |s| && ToLower(s[..|w|]) == w
  }

  /** The length of the first alternative of `words` that matches at the start of `s`, or 0. */
  function FirstMatch(s: string, words: seq<string>): (n: nat)
    ensures n <= |s|
    ensures n > 0 ==> exists k :: (0 <= k < |words| && words[k] != "" && StartsWithFolded(s, words[k]) && n == |words[k]|
      && forall j :: 0 <= j < k ==> words[j] == "" || !StartsWithFolded(s, words[j]))
    ensures n == 0 ==> forall k :: 0 <= k < |words| && words[k] != "" ==> !StartsWithFolded(s, words[k])
  {
    if |words| == 0 then 0
    else if words[0] != "" && StartsWithFolded(s, words[0]) then |words[0]|
    else
      var n := FirstMatch(s, words[1..]);
      assert forall k :: 1 <= k < |words| ==> words[k] == words[1..][k - 1];
      n
  }

  /** `.replace(/- topic|official video|...|audio/gi, '')`: each clutter word found scanning left to right is cut out. */
  function RemoveClutter(s: string): (r: string)
    ensures |r| <= |s|
    decreases |s|
  {
    if |s| == 0 then ""
    else
      var n := FirstMatch(s, ClutterWords);
      if n > 0 then RemoveClutter(s[n..]) else [s[0]] + RemoveClutter(s[1..])
  }

  /** Where a clutter word starts, the first alternative that matches is cut and the scan resumes after it. */
  lemma RemoveClutterCuts(s: string)
    requires FirstMatch(s, ClutterWords) > 0
    ensures RemoveClutter(s) == RemoveClutter(s[FirstMatch(s, ClutterWords)..])
  {
  }

  /**
   * The alternatives are tried in order, so at "Official Video" the whole
   * of `official video` is taken, not the shorter `official` listed after it.
   */
  lemma OfficialVideoTakenWhole(x: string)
    ensures FirstMatch("Official Video" + x, ClutterWords) == 14
    ensures RemoveClutter("Official Video" + x) == RemoveClutter(x)
  {
    var s := "Official Video" + x;
    assert s[..7] == "Officia";
    assert !StartsWithFolded(s, ClutterWords[0]) by {
      assert ToLower(s[..7])[0] == 'o';
    }
    assert s[..14] == "Official Video";
    assert StartsWithFolded(s, ClutterWords[1]);
    assert s[14..] == x;
  }

  /** Cutting pieces out never brings in a character that was not there. */
  lemma {:induction false} RemoveBracketsChars(s: string, c: char)
    requires c !in s
    ensures c !in RemoveBrackets(s)
    decreases |s|
  {
    if |s| > 0 {
      var p := GroupEnd(s, '(', ')');
      var b := GroupEnd(s, '[', ']');
      if p > 0 {
        assert forall x :: x in s[p..] ==> x in s;
        RemoveBracketsChars(s[p..], c);
      } else if b > 0 {
        assert forall x :: x in s[b..] ==> x in s;
        RemoveBracketsChars(s[b..], c);
      } else {
        assert forall x :: x in s[1..] ==> x in s;
        RemoveBracketsChars(s[1..], c);
      }
    }
  }

  lemma {:induction false} RemoveClutterChars(s: string, c: char)
    requires c !in s
    ensures c !in RemoveClutter(s)
    decreases |s|
  {
    if |s| > 0 {
      var n := FirstMatch(s, ClutterWords);
      if n > 0 {
        assert forall x :: x in s[n..] ==> x in s;
        RemoveClutterChars(s[n..], c);
      } else {
        assert forall x :: x in s[1..] ==> x in s;
        RemoveClutterChars(s[1..], c);
      }
    }
  }

  /** Text where no clutter word starts anywhere comes through the clutter pass unchanged. */
  lemma {:induction false} ClutterFreeUnchanged(s: string)
    requires forall i :: 0 <= i < |s| ==> FirstMatch(s[i..], ClutterWords) == 0
    ensures RemoveClutter(s) == s
  {
    if |s| > 0 {
      assert s[0..] == s;
      forall i | 0 <= i < |s[1..]| ensures FirstMatch(s[1..][i..], ClutterWords) == 0 {
        assert s[1..][i..] == s[i + 1..];
      }
      ClutterFreeUnchanged(s[1..]);
      assert [s[0]] + s[1..] == s;
    }
  }

  /**
   * `cleanTitle`: bracket groups removed, everything from the first `|` on
   * dropped, clutter words removed, then trimmed. The result has no `|` and
   * no surrounding whitespace.
   */
  function CleanTitle(t: string): (r: string)
    ensures '|' !in r
    ensures IsTrimmed(r)
  {
    var beforePipe := Split(RemoveBrackets(t), '|')[0];
    RemoveClutterChars(beforePipe, '|');
    Trim(RemoveClutter(beforePipe))
  }

  /**
   * A text without brackets is kept as it is in front of whatever follows
   * it: the scan only ever starts cutting at an opening bracket.
   */
  lemma {:induction false} RemoveBracketsPlainPrefix(a: string, x: string)
    requires forall k :: 0 <= k < |a| ==> a[k] != '(' && a[k] != '['
    ensures RemoveBrackets(a + x) == a + RemoveBrackets(x)
  {
    if |a| > 0 {
      var s := a + x;
      assert s[0] == a[0];
      RemoveBracketsPlainHead(s);
      assert RemoveBrackets(s[1..]) == a[1..] + RemoveBrackets(x) by {
        assert s[1..] == a[1..] + x;
        RemoveBracketsPlainPrefix(a[1..], x);
      }
      AppendAssociative([a[0]], a[1..], RemoveBrackets(x));
      assert [a[0]] + a[1..] == a;
    } else {
      assert a + x == x;
    }
  }

  /** A first character that opens no group is kept, and the scan moves on by one. */
  lemma RemoveBracketsPlainHead(s: string)
    requires |s| > 0 && s[0] != '(' && s[0] != '['
    ensures RemoveBrackets(s) == [s[0]] + RemoveBrackets(s[1..])
  {
    assert GroupEnd(s, '(', ')') == 0 && GroupEnd(s, '[', ']') == 0;
  }

  /**
   * The group is greedy: from an opening parenthesis it runs to the LAST
   * closing one before the line ends, so in `(a) b (c)` the whole text goes.
   * Whatever the group holds, closing parentheses included, is cut, and the
   * scan resumes with the `rest` after it.
   */
  lemma GroupIsGreedy(s: string, open: char, close: char, n: nat, rest: string)
    requires (open, close) == ('(', ')') || (open, close) == ('[', ']')
    requires 2 <= n <= |s| && s[0] == open && s[n - 1] == close && s[n..] == rest
    requires forall k :: 0 <= k < n ==> !IsLineTerminator(s[k])
    requires forall j :: n <= j < |UpToLineEnd(s)| ==> s[j] != close
    ensures GroupEnd(s, open, close) == n
    ensures RemoveBrackets(s) == RemoveBrackets(rest)
  {
    LineEndAtLeast(s, n);
    var lineEnd := |UpToLineEnd(s)|;
    var j := LastIndexIn(s, close, 1, lineEnd);
    assert j == n - 1;
    if open == '[' {
      assert GroupEnd(s, '(', ')') == 0;
    }
  }

  /** When the first `n` characters are not line terminators, the line runs at least that far. */
  lemma {:induction false} LineEndAtLeast(s: string, n: nat)
    requires n <= |s|
    requires forall k :: 0 <= k < n ==> !IsLineTerminator(s[k])
    ensures |UpToLineEnd(s)| >= n
  {
    if n > 0 {
      LineEndAtLeast(s[1..], n - 1);
    }
  }

  // ----- queries -----

  const UnknownArtist := "Unknown Artist"

  /** The artist sent to the service: the placeholder artist is sent as empty. */
  function ArtistParam(artist: string): (r: string)
    ensures artist == UnknownArtist ==> r == ""
    ensures artist != UnknownArtist ==> r == artist
  {
    if artist != UnknownArtist then artist else ""
  }

  /** Strategy 2's query: the artist and the cleaned title, trimmed. */
  function OriginalQuery(artist: string, title: string): (q: string)
    ensures IsTrimmed(q)
  {
    Trim(ArtistParam(artist) + " " + CleanTitle(title))
  }

  /**
   * Strategy 3's query, for a title written "Artist - Track": the trimmed
   * part before the first `-`, a space, and the cleaned rest (which may
   * itself contain dashes).
   */
  function SplitQuery(title: string): (q: string)
    ensures '-' !in title ==> q == Trim(title) + " "
  {
    var parts := Split(title, '-');
    Trim(parts[0]) + " " + Trim(CleanTitle(Join(parts[1..], '-')))
  }

  /** The split query cuts the title at its first dash and keeps the rest whole. */
  lemma SplitQueryAtFirstDash(title: string)
    requires '-' in title
    ensures var i := IndexOf(title, '-');
      SplitQuery(title) == Trim(title[..i]) + " " + CleanTitle(title[i + 1..])
  {
    SplitAtFirst(title, '-');
    TrimTrimmed(CleanTitle(title[IndexOf(title, '-') + 1..]));
  }

  // ----- lookup -----

  /** The fields of a lyrics record the component reads. */
  datatype LrcRecord = LrcRecord(syncedLyrics: Option<string>, plainLyrics: Option<string>)

  /** A field is used when it is present and not the empty string (JavaScript truthiness). */
  predicate Present(field: Option<string>) {
    field.Some? && field.value != ""
  }

  datatype Strategy = SpecificGet | SearchOriginal | SearchSplit | SearchTitleOnly

  /** The first record of a search answer, when it has any. */
  function FirstHit(hits: seq<LrcRecord>): Option<LrcRecord> {
    if |hits| > 0 then Some(hits[0]) else None
  }

  /**
   * The strategies of `fetchLyrics`, tried in order until one yields a
   * record: the exact lookup, a search with artist and cleaned title, a
   * search with the title split at its dash (only when it has one), and a
   * search with the cleaned title alone.
   */
  function FindRecord(artist: string, title: string, get: (string, string) -> Option<LrcRecord>,
                      search: string -> seq<LrcRecord>): (r: Option<(Strategy, LrcRecord)>)
    ensures get(ArtistParam(artist), CleanTitle(title)).Some? ==>
      r == Some((SpecificGet, get(ArtistParam(artist), CleanTitle(title)).value))
    ensures r.Some? && r.value.0 == SearchSplit ==> '-' in title
    ensures r.Some? && r.value.0 != SpecificGet ==> get(ArtistParam(artist), CleanTitle(title)).None?
    ensures r.None? <==>
      get(ArtistParam(artist), CleanTitle(title)).None?
      && search(OriginalQuery(artist, title)) == []
      && ('-' in title ==> search(SplitQuery(title)) == [])
      && search(CleanTitle(title)) == []
  {
    var exact := get(ArtistParam(artist), CleanTitle(title));
    if exact.Some? then Some((SpecificGet, exact.value))
    else
      var original := FirstHit(search(OriginalQuery(artist, title)));
      if original.Some? then Some((SearchOriginal, original.value))
      else
        var split := if '-' in title then FirstHit(search(SplitQuery(title))) else None;
        if split.Some? then Some((SearchSplit, split.value))
        else
          var titleOnly := FirstHit(search(CleanTitle(title)));
          if titleOnly.Some? then Some((SearchTitleOnly, titleOnly.value))
          else None
  }

  // ----- what is shown -----

  const NotFoundMessage := "Lyrics not found"
  const EmptyContentMessage := "Lyrics not found (empty content)"
  const NoSongMessage := "No song loaded"

  /**
   * The state `fetchLyrics` leaves for a found record (or none): timed lines
   * when the record has synced lyrics, else the plain text as one untimed
   * line, else an error.
   */
  datatype Shown = Shown(lyrics: seq<LyricLine>, synced: bool, error: Option<string>)

  function ShownFor(found: Option<LrcRecord>): (r: Shown)
    ensures r.synced ==> r.error == None
    ensures r.error.Some? ==> r.lyrics == [] && !r.synced
    ensures found.None? ==> r.error == Some(NotFoundMessage)
    ensures found.Some? && Present(found.value.syncedLyrics) ==>
      r.synced && r.lyrics == ParsedLines(Split(found.value.syncedLyrics.value, '\n'))
    ensures found.Some? && !Present(found.value.syncedLyrics) && Present(found.value.plainLyrics) ==>
      !r.synced && r.error == None && r.lyrics == [LyricLine(0, found.value.plainLyrics.value)]
    ensures found.Some? && !Present(found.value.syncedLyrics) && !Present(found.value.plainLyrics) ==>
      r.error == Some(EmptyContentMessage)
  {
    match found
    case None => Shown([], false, Some(NotFoundMessage))
    case Some(record) =>
      if Present(record.syncedLyrics) then
        Shown(ParsedLines(Split(record.syncedLyrics.value, '\n')), true, None)
      else if Present(record.plainLyrics) then
        Shown([LyricLine(0, record.plainLyrics.value)], false, None)
      else
        Shown([], false, Some(EmptyContentMessage))
  }

  /** Synced lyrics on screen are always timed lines with non-empty, trimmed text. */
  lemma ShownSyncedLinesHaveText(found: Option<LrcRecord>)
    requires ShownFor(found).synced
    ensures forall k :: 0 <= k < |ShownFor(found).lyrics| ==>
      ShownFor(found).lyrics[k].text != "" && IsTrimmed(ShownFor(found).lyrics[k].text)
  {
    ParsedLinesHaveText(Split(found.value.syncedLyrics.value, '\n'));
  }

  /** The component's state. */
  class LyricsPanel {
    var lyrics: seq<LyricLine>
    var synced: bool
    var error: Option<string>
    var loading: bool

    constructor ()
      ensures lyrics == [] && !synced && error == None && !loading
    {
      lyrics, synced, error, loading := [], false, None, false;
    }

    /**
     * `fetchLyrics` (also the Retry button): clears the state, runs the
     * strategies and shows what the record found gives. The lines of synced
     * lyrics come from the LRC parser.
     */
    method FetchLyrics(artist: string, title: string, get: (string, string) -> Option<LrcRecord>,
                       search: string -> seq<LrcRecord>)
      modifies this
      ensures !loading
      ensures var found := FindRecord(artist, title, get, search);
        Shown(lyrics, synced, error) == ShownFor(if found.Some? then Some(found.value.1) else None)
    {
      loading := true;
      error := None;
      lyrics := [];
      synced := false;
      var found := FindRecord(artist, title, get, search);
      if found.None? {
        error := Some(NotFoundMessage);
      } else {
        var record := found.value.1;
        if Present(record.syncedLyrics) {
          lyrics := ParseLrc(record.syncedLyrics.value);
          synced := true;
        } else if Present(record.plainLyrics) {
          lyrics := [LyricLine(0, record.plainLyrics.value)];
          synced := false;
        } else {
          error := Some(EmptyContentMessage);
        }
      }
      loading := false;
    }

    /**
     * The effect on `[artist, title]`: a track with a title is looked up;
     * without one the lines are cleared and "No song loaded" is shown, and
     * `synced` and `loading` are left as they were.
     */
    method OnTrackChanged(artist: string, title: string, get: (string, string) -> Option<LrcRecord>,
                          search: string -> seq<LrcRecord>)
      modifies this
      ensures title == "" ==>
        lyrics == [] && error == Some(NoSongMessage) && synced == old(synced) && loading == old(loading)
      ensures title != "" ==> !loading
      ensures title != "" ==>
        var found := FindRecord(artist, title, get, search);
        Shown(lyrics, synced, error) == ShownFor(if found.Some? then Some(found.value.1) else None)
    {
      if title != "" {
        FetchLyrics(artist, title, get, search);
      } else {
        lyrics := [];
        error := Some(NoSongMessage);
      }
    }
  }
}
