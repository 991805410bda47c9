/**
 * The playlist's entries and the pure operations on the song list: the
 * import filter and sort, the demo songs, the library view and the local
 * search match (MusicPlayer.jsx).
 */
module Catalog {
  import opened Text

  /** The `type` field of a song: a local file, a YouTube video, a demo URL, or the search error entry. */
  datatype SongKind = Local | YouTube | Online | ErrorEntry

  datatype Song = Song(title: string, artist: string, src: string, kind: SongKind)

  /** A file chosen in the import dialog, with the title and artist its metadata gave. */
  datatype PickedFile = PickedFile(mimeType: string, title: string, artist: string, src: string)

  /** Only files whose MIME type starts with `audio/` are imported. */
  predicate IsAudioFile(f: PickedFile) {
    StartsWith(f.mimeType, "audio/")
  }

  function FileSong(f: PickedFile): Song {
    Song(f.title, f.artist, f.src, Local)
  }

  /** The non-null results of `processFile`, in file order. */
  function AudioSongs(files: seq<PickedFile>): (r: seq<Song>)
    ensures |r| <= |files|
    ensures forall s :: s in r ==> s.kind == Local
    ensures forall f :: f in files && IsAudioFile(f) ==> FileSong(f) in r
    ensures forall s :: s in r ==> exists f :: f in files && IsAudioFile(f) && s == FileSong(f)
  {
    if |files| == 0 then []
    else
      var rest := AudioSongs(files[1..]);
      assert forall f :: f in files[1..] ==> f in files;
      assert forall f :: f in files ==> f == files[0] || f in files[1..];
      if IsAudioFile(files[0]) then [FileSong(files[0])] + rest else rest
  }

  /** A single file becomes one local song when it is audio, and nothing otherwise. */
  lemma AudioSongsOne(f: PickedFile)
    ensures AudioSongs([f]) == if IsAudioFile(f) then [FileSong(f)] else []
  {
    assert [f][1..] == [];
  }

  /** Files are filtered one by one and in order: no song is lost, duplicated or moved. */
  lemma {:induction false} AudioSongsConcat(a: seq<PickedFile>, b: seq<PickedFile>)
    ensures AudioSongs(a + b) == AudioSongs(a) + AudioSongs(b)
  {
    if |a| == 0 {
      assert a + b == b;
    } else {
      assert (a + b)[0] == a[0];
      assert (a + b)[1..] == a[1..] + b;
      AudioSongsConcat(a[1..], b);
    }
  }

  // ----- ordering by title -----

  /** Title order: lexicographic by character code. */
  predicate TitleLeq(a: string, b: string)
    decreases |a|
  {
    |a| == 0 || (|b| > 0 && (a[0] < b[0] || (a[0] == b[0] && TitleLeq(a[1..], b[1..]))))
  }

  lemma {:induction false} TitleLeqTotal(a: string, b: string)
    ensures TitleLeq(a, b) || TitleLeq(b, a)
    decreases |a|
  {
    if |a| > 0 && |b| > 0 && a[0] == b[0] {
      TitleLeqTotal(a[1..], b[1..]);
    }
  }

  lemma {:induction false} TitleLeqTransitive(a: string, b: string, c: string)
    requires TitleLeq(a, b) && TitleLeq(b, c)
    ensures TitleLeq(a, c)
    decreases |a|
  {
    if |a| > 0 && a[0] == b[0] && b[0] == c[0] {
      TitleLeqTransitive(a[1..], b[1..], c[1..]);
    }
  }

  predicate SortedByTitle(s: seq<Song>) {
    forall i, j :: 0 <= i < j < |s| ==> TitleLeq(s[i].title, s[j].title)
  }

  /** Inserts `x` before the first song whose title is not below it. */
  function InsertByTitle(x: Song, s: seq<Song>): (r: seq<Song>)
    requires SortedByTitle(s)
    ensures SortedByTitle(r)
    ensures multiset(r) == multiset(s) + multiset{x}
  {
    if |s| == 0 then [x]
    else if TitleLeq(x.title, s[0].title) then
      forall j | 0 <= j < |s| ensures TitleLeq(x.title, s[j].title) {
        if j > 0 { TitleLeqTransitive(x.title, s[0].title, s[j].title); }
      }
      [x] + s
    else
      TitleLeqTotal(x.title, s[0].title);
      var tail := InsertByTitle(x, s[1..]);
      assert s == [s[0]] + s[1..];
      LowerBoundKept(s[0].title, x, s[1..], tail);
      [s[0]] + tail
  }

  /** A title below `x` and every song of `rest` is below every song of a list holding exactly those. */
  lemma LowerBoundKept(lo: string, x: Song, rest: seq<Song>, r: seq<Song>)
    requires TitleLeq(lo, x.title)
    requires forall k :: 0 <= k < |rest| ==> TitleLeq(lo, rest[k].title)
    requires multiset(r) == multiset(rest) + multiset{x}
    ensures forall k :: 0 <= k < |r| ==> TitleLeq(lo, r[k].title)
  {
    forall k | 0 <= k < |r| ensures TitleLeq(lo, r[k].title) {
      assert r[k] in multiset(r);
      if r[k] != x {
        assert r[k] in multiset(rest);
      }
    }
  }

  /** `sort((a, b) => a.title.localeCompare(b.title))`, as an insertion sort. */
  function SortByTitle(s: seq<Song>): (r: seq<Song>)
    ensures SortedByTitle(r)
    ensures multiset(r) == multiset(s)
  {
    if |s| == 0 then []
    else
      assert s == [s[0]] + s[1..];
      InsertByTitle(s[0], SortByTitle(s[1..]))
  }

  /** The songs an import appends: the audio files only, sorted by title. */
  function ImportedSongs(files: seq<PickedFile>): (r: seq<Song>)
    ensures SortedByTitle(r)
    ensures multiset(r) == multiset(AudioSongs(files))
    ensures forall s :: s in r ==> s.kind == Local
  {
    var r := SortByTitle(AudioSongs(files));
    SameElements(r, AudioSongs(files));
    r
  }

  /** Two lists with the same multiset hold the same songs. */
  lemma SameElements(r: seq<Song>, t: seq<Song>)
    requires multiset(r) == multiset(t)
    ensures forall s :: s in r ==> s in t
  {
    forall s | s in r ensures s in t {
      assert s in multiset(r);
    }
  }

  // ----- demo songs -----

  const DemoSongs: seq<Song> := [
    Song("Demo Song 1", "WaveSurfer", "https://wavesurfer.xyz/wavesurfer-code/examples/audio/audio.wav", Online),
    Song("Demo Song 2", "SoundHelix", "https://www.soundhelix.com/examples/mp3/SoundHelix-Song-1.mp3", Online),
    Song("Demo Song 3", "Github Sample", "https://raw.githubusercontent.com/rafaelreis-hotmart/Audio-Sample-files/master/sample.mp3", Online)
  ]

  predicate HasOnlineSong(songs: seq<Song>) {
    exists k :: 0 <= k < |songs| && songs[k].kind == Online
  }

  /** `loadOnlineMusic`'s update: append the demo songs unless an online song is already listed. */
  function WithDemoSongs(songs: seq<Song>): (r: seq<Song>)
    ensures HasOnlineSong(songs) ==> r == songs
    ensures !HasOnlineSong(songs) ==> r == songs + DemoSongs
    ensures HasOnlineSong(r)
  {
    if HasOnlineSong(songs) then songs
    else
      var r := songs + DemoSongs;
      assert r[|songs|].kind == Online;
      r
  }

  /** Loading the demo songs twice is the same as loading them once. */
  lemma WithDemoSongsIdempotent(songs: seq<Song>)
    ensures WithDemoSongs(WithDemoSongs(songs)) == WithDemoSongs(songs)
  {
  }

  // ----- library view -----

  /** The two library tabs. */
  datatype ViewMode = OnlineView | LocalView

  /** The online tab lists YouTube songs, the local tab local files. */
  predicate ShownIn(song: Song, mode: ViewMode) {
    match mode
    case OnlineView => song.kind == YouTube
    case LocalView => song.kind == Local
  }

  /** A listed song with its position in the whole playlist (`originalIndex`). */
  datatype LibraryEntry = LibraryEntry(song: Song, originalIndex: nat)

  function OriginalIndices(entries: seq<LibraryEntry>): set<nat> {
    set k | 0 <= k < |entries| :: entries[k].originalIndex
  }

  /**
   * The library list: the songs shown in the tab, in playlist order, each
   * with the index `playSong` is later called with.
   */
  function LibraryView(songs: seq<Song>, mode: ViewMode): (r: seq<LibraryEntry>)
    ensures forall k :: 0 <= k < |r| ==>
      r[k].originalIndex < |songs| && songs[r[k].originalIndex] == r[k].song && ShownIn(r[k].song, mode)
    ensures forall k, l :: 0 <= k < l < |r| ==> r[k].originalIndex < r[l].originalIndex
  {
    if |songs| == 0 then []
    else
      var n := |songs| - 1;
      var front := LibraryView(songs[..n], mode);
      if ShownIn(songs[n], mode) then front + [LibraryEntry(songs[n], n)] else front
  }

  /** No song of the tab's kind is missing from the list. */
  lemma {:induction false} LibraryViewComplete(songs: seq<Song>, mode: ViewMode)
    ensures forall i :: 0 <= i < |songs| ==> (ShownIn(songs[i], mode) <==> i in OriginalIndices(LibraryView(songs, mode)))
  {
    if |songs| > 0 {
      var n := |songs| - 1;
      var front := LibraryView(songs[..n], mode);
      LibraryViewComplete(songs[..n], mode);
      assert forall i :: 0 <= i < n ==> songs[..n][i] == songs[i];
      if ShownIn(songs[n], mode) {
        IndicesAppend(front, LibraryEntry(songs[n], n));
      } else {
        assert n !in OriginalIndices(front);
      }
    }
  }

  lemma IndicesAppend(entries: seq<LibraryEntry>, e: LibraryEntry)
    ensures OriginalIndices(entries + [e]) == OriginalIndices(entries) + {e.originalIndex}
  {
    var r := entries + [e];
    forall i | i in OriginalIndices(r) ensures i in OriginalIndices(entries) + {e.originalIndex} {
      var k :| 0 <= k < |r| && r[k].originalIndex == i;
      if k < |entries| { assert entries[k] == r[k]; }
    }
    forall i | i in OriginalIndices(entries) ensures i in OriginalIndices(r) {
      var k :| 0 <= k < |entries| && entries[k].originalIndex == i;
      assert r[k] == entries[k];
    }
    assert r[|entries|] == e;
  }

  // ----- local search -----

  /**
   * The local half of `searchMusic`: the title, or a non-empty artist,
   * contains the lower-cased query, compared in lower case.
   */
  predicate MatchesQuery(song: Song, queryLower: string): (b: bool)
    ensures queryLower == "" ==> b
    ensures Includes(ToLower(song.title), queryLower) ==> b
    ensures song.artist == "" ==> (b <==> Includes(ToLower(song.title), queryLower))
  {
    Includes(ToLower(song.title), queryLower)
    || (song.artist != "" && Includes(ToLower(song.artist), queryLower))
  }

  function FilterMatches(songs: seq<Song>, queryLower: string): (r: seq<Song>)
    ensures |r| <= |songs|
    ensures forall s :: s in r <==> s in songs && MatchesQuery(s, queryLower)
  {
    if |songs| == 0 then []
    else
      var rest := FilterMatches(songs[1..], queryLower);
      assert forall s :: s in songs <==> s == songs[0] || s in songs[1..];
      if MatchesQuery(songs[0], queryLower) then [songs[0]] + rest else rest
  }

  /** One song is kept exactly when it matches. */
  lemma FilterMatchesOne(song: Song, queryLower: string)
    ensures FilterMatches([song], queryLower) == if MatchesQuery(song, queryLower) then [song] else []
  {
    assert [song][1..] == [];
  }

  /** Songs are tested one by one and in playlist order: every occurrence is kept in place. */
  lemma {:induction false} FilterMatchesConcat(a: seq<Song>, b: seq<Song>, queryLower: string)
    ensures FilterMatches(a + b, queryLower) == FilterMatches(a, queryLower) + FilterMatches(b, queryLower)
  {
    if |a| == 0 {
      assert a + b == b;
    } else {
      assert (a + b)[0] == a[0];
      assert (a + b)[1..] == a[1..] + b;
      FilterMatchesConcat(a[1..], b, queryLower);
    }
  }

  /** `songs.filter(...)` with `qLower = query.toLowerCase()`. */
  function LocalMatches(songs: seq<Song>, query: string): (r: seq<Song>)
    ensures forall s :: s in r <==> s in songs && MatchesQuery(s, ToLower(query))
  {
    FilterMatches(songs, ToLower(query))
  }

  /** Matching ignores ASCII case in the query: upper- and lower-case queries find the same songs. */
  lemma LocalMatchesIgnoreQueryCase(songs: seq<Song>, query: string)
    ensures LocalMatches(songs, query) == LocalMatches(songs, ToLower(query))
  {
    assert ToLower(ToLower(query)) == ToLower(query);
  }
}
