# Music player core: a Dafny model

This project models the two components that make up the core of a React music
player:

- `MusicPlayer` (src/components/MusicPlayer.jsx). It owns the playlist, the
  transport over two audio backends, the loop modes, the A/B loop region, imports,
  search and the volume sync. One backend is wavesurfer, which decodes local files
  and demo URLs. The other is a hidden YouTube iframe player.
- `Lyrics` (src/components/Lyrics.jsx). It looks up lyrics for the current
  track, parses LRC timestamps and chooses the line to highlight.

Pure decisions are written as functions: the next index, the end-of-track rule,
the LRC reader and the title cleaner are examples. The components' state is a
class, `Player.MusicPlayer` or `Lyrics.LyricsPanel`, whose methods are the
handlers and effects. Each method's `ensures` states its new state and the
backend calls it made. Those calls are returned as a sequence of
`Player.Action` values, in order.

Modules:

| module | what it holds |
|---|---|
| `Wrappers` | `Option` |
| `Text` | the JavaScript string built-ins the components rely on: `trim`, `split`, `join`, `includes`, ASCII `toLowerCase`, decimal digits |
| `Catalog` | songs, the import filter and title sort, the demo songs, the library tab view, the local search match |
| `Search` | API key parsing, key rotation, how YouTube results combine with local matches |
| `Playlist` | loop-mode cycle, Next / Prev indices, the end-of-track decision |
| `Clock` | `formatTime`, with a reader that shows the format loses nothing |
| `Volume` | the two volume dead-bands |
| `Regions` | the regions plugin's list and the single-region rule |
| `Lrc` | `parseLrc` and `getActiveLineIndex` |
| `Lyrics` | `cleanTitle`, the four lookup strategies, what the panel shows, the panel's state |
| `Player` | the `MusicPlayer` component's state and handlers |

Units: times are integer milliseconds, except in `formatTime`, which takes
whole seconds. Volume is in hundredths: 0.8 is 80.

Behaviour of the code worth noting:

- Set A only moves an existing region's start. It never pushes the end outward.
- An LRC line whose text trims to nothing is dropped, not kept as an empty row.
- `[00:15.5]` does not match the LRC timestamp pattern, which wants two or three
  fraction digits. The line is dropped.
- Asynchronous results are not matched to the request that started them (no
  request counter or sequence number), so nothing discards a late end event,
  poll or fetch.

## Model

| member | source | states |
|---|---|---|
| Text.Trim | src/components/MusicPlayer.jsx:284 | `trim` leaves no JavaScript whitespace at either end and brings in no character |
| Text.TrimInfix | src/components/MusicPlayer.jsx:284 | `trim` returns the infix of the input after its leading whitespace; everything cut on either side is whitespace |
| Text.TrimIdempotent | src/components/Lyrics.jsx:96 | trimming an already cleaned, trimmed title again changes nothing |
| Text.BlankIffTrimEmpty | src/components/MusicPlayer.jsx:267 | `!query.trim()` holds exactly when the query is nothing but whitespace |
| Text.Split | src/components/MusicPlayer.jsx:284 | `split` on one character gives at least one part; no part holds the separator; joining the parts gives the input back |
| Text.SplitJoin | src/components/MusicPlayer.jsx:284 | splitting a join of separator-free parts gives the parts back |
| Text.Decimal | src/components/MusicPlayer.jsx:860 | a number printed in a template literal is digits without a leading zero that read back as the number |
| Text.Pad2 | src/components/MusicPlayer.jsx:860 | `x < 10 ? '0' + x : x` gives exactly two digits that read back as `x` |
| Text.SplitAtFirst | src/components/Lyrics.jsx:94-96 | the first part ends at the first separator; the remaining parts joined again are the rest of the string |
| Catalog.AudioSongs | src/components/MusicPlayer.jsx:508-549 | every audio file becomes a local song, and every song comes from an audio file |
| Catalog.AudioSongsOne | src/components/MusicPlayer.jsx:510-549 | one file gives one local song when its MIME type starts with `audio/`, and nothing otherwise |
| Catalog.AudioSongsConcat | src/components/MusicPlayer.jsx:546-549 | files are filtered one by one and in order, so no song is lost, duplicated or moved |
| Catalog.TitleLeqTotal | src/components/MusicPlayer.jsx:550 | any two titles are comparable |
| Catalog.TitleLeqTransitive | src/components/MusicPlayer.jsx:550 | title order is transitive |
| Catalog.InsertByTitle | src/components/MusicPlayer.jsx:550 | inserting into a sorted list keeps it sorted and adds exactly the new song |
| Catalog.SortByTitle | src/components/MusicPlayer.jsx:550 | the result is sorted by title and is a permutation of the input |
| Catalog.ImportedSongs | src/components/MusicPlayer.jsx:546-550 | an import adds exactly the songs of the audio files, each as often as its file (a permutation of `AudioSongs`), sorted by title, all local |
| Catalog.WithDemoSongs | src/components/MusicPlayer.jsx:561-567 | the three demo songs are appended unless an online song is listed; afterwards one always is |
| Catalog.WithDemoSongsIdempotent | src/components/MusicPlayer.jsx:561-567 | loading the demo songs twice equals loading them once |
| Catalog.LibraryView | src/components/MusicPlayer.jsx:1059-1065 | every listed entry is a song of the tab's kind at its `originalIndex`, the index `playSong` receives, in playlist order |
| Catalog.LibraryViewComplete | src/components/MusicPlayer.jsx:1059-1065 | a playlist position is listed exactly when its song is of the tab's kind |
| Catalog.MatchesQuery | src/components/MusicPlayer.jsx:274-276 | every song matches the empty query; a title containing the query always matches; a song without an artist matches exactly on its title |
| Catalog.FilterMatches | src/components/MusicPlayer.jsx:274-277 | a song is kept exactly when its lower-cased title, or its non-empty artist, contains the query |
| Catalog.FilterMatchesOne | src/components/MusicPlayer.jsx:274-277 | one song is kept exactly when it matches |
| Catalog.FilterMatchesConcat | src/components/MusicPlayer.jsx:274-277 | songs are tested one by one in playlist order, so every matching occurrence is kept in place |
| Catalog.LocalMatches | src/components/MusicPlayer.jsx:273-277 | the local matches are the songs matching the lower-cased query, and no others |
| Catalog.LocalMatchesIgnoreQueryCase | src/components/MusicPlayer.jsx:273-277 | a query and its lower-case form find the same songs |
| Search.RawKeys | src/components/MusicPlayer.jsx:283 | the plural variable wins unless it is unset or empty; then the singular one; else the empty string |
| Search.TrimmedNonEmpty | src/components/MusicPlayer.jsx:284 | every key kept is non-empty and trimmed |
| Search.TrimmedNonEmptyOne | src/components/MusicPlayer.jsx:284 | one field gives its trimmed text, or nothing when that is empty |
| Search.TrimmedNonEmptyConcat | src/components/MusicPlayer.jsx:284 | fields are cleaned one by one and in order |
| Search.TrimmedNonEmptyAvoids | src/components/MusicPlayer.jsx:284 | trimming and filtering brings in no character the fields did not hold |
| Search.ParseKeys | src/components/MusicPlayer.jsx:284 | keys are non-empty, trimmed and comma-free; there are no more of them than comma-separated fields |
| Search.ParseKeysJoin | src/components/MusicPlayer.jsx:284 | well-formed keys written comma-separated parse back to the same list |
| Search.ParseKeysFields | src/components/MusicPlayer.jsx:284 | comma-free fields written comma-separated parse to those fields trimmed, with the empty ones dropped |
| Search.ParseKeysPair | src/components/MusicPlayer.jsx:284 | `"KEY1, KEY2"`-style input gives both keys, trimmed |
| Search.FirstItems | src/components/MusicPlayer.jsx:293-321 | a result exists exactly when some key's response has items |
| Search.KeyResponses | src/components/MusicPlayer.jsx:293-296 | each key is asked, in key order, for the query with ` audio` appended |
| Search.RotateKeys | src/components/MusicPlayer.jsx:293-321 | the loop stops at the first response with items and returns its videos; earlier keys all failed; without success every key was tried |
| Search.CombineResults | src/components/MusicPlayer.jsx:323-338 | local matches come first, then the videos; the error entry appears only when nothing succeeded and nothing matched locally |
| Search.SearchOutcome | src/components/MusicPlayer.jsx:293-338 | the "done" status exactly when some key answered with items; the failure status exactly when nothing matched locally and every key failed, and then the results are the single error entry; otherwise the local matches come first |
| Search.SearchYouTube | src/components/MusicPlayer.jsx:293-338 | results and status equal `SearchOutcome`; the "done" status appears exactly when some key answered with items |
| Playlist.NextLoopMode | src/components/MusicPlayer.jsx:843-853 | the loop button always changes the mode |
| Playlist.LoopModeCycle | src/components/MusicPlayer.jsx:843-853 | three presses restore the mode; a press gives `off` exactly from `one` |
| Playlist.NextIndex | src/components/MusicPlayer.jsx:423-434 | Next does nothing on an empty list; it takes the next index, wrapping to 0 only in `all`; the index is in range |
| Playlist.PrevIndex | src/components/MusicPlayer.jsx:436-446 | Prev acts on any non-empty list; before index 0 it wraps to the last index in `all` and stays at 0 otherwise; the index is in range |
| Playlist.NextWrapsInAll | src/components/MusicPlayer.jsx:428-431 | in `all`, Next is `(cur + 1) mod len` |
| Playlist.NoWrapOutsideAll | src/components/MusicPlayer.jsx:428-444 | outside `all`, Next at the last song does nothing and Prev at the first stays at 0 |
| Playlist.EndOfTrack | src/components/MusicPlayer.jsx:462-483 | only `one` restarts; `all` always advances; the end does nothing only outside `all` at or past the last song; `off` before the last song advances |
| Playlist.EndOfTrackIndex | src/components/MusicPlayer.jsx:458-484 | the index the end of a track moves to is in range |
| Playlist.EndInOneRestarts | src/components/MusicPlayer.jsx:463-475 | `one` replays the same track (on YouTube only with an event target) |
| Playlist.EndInAllWraps | src/components/MusicPlayer.jsx:466-477 | `all` advances with wrap-around |
| Playlist.EndInOffStopsAtLast | src/components/MusicPlayer.jsx:468-481 | `off` advances while a later track exists and does nothing at the last one |
| Playlist.EndInOneWithoutTargetIsOff | src/components/MusicPlayer.jsx:462-472 | on YouTube, `one` without an event target behaves as `off` |
| Clock.ClockArithmetic | src/components/MusicPlayer.jsx:857-859 | hours, minutes and seconds recompose the time; minutes and seconds are under 60 |
| Clock.FormatTime | src/components/MusicPlayer.jsx:855-864 | NaN shows `0:00` |
| Clock.FormatTimeRoundTrip | src/components/MusicPlayer.jsx:855-864 | `h:mm:ss` from one hour on, `m:ss` below; the last field is two digits under 60; reading the text back gives the time |
| Clock.LongClockText | src/components/MusicPlayer.jsx:860-861 | `h:mm:ss` splits into its three fields and reads back as h·3600 + m·60 + s |
| Clock.ShortClockText | src/components/MusicPlayer.jsx:863 | `m:ss` splits into its two fields and reads back as m·60 + s |
| Clock.LongClockRoundTrip | src/components/MusicPlayer.jsx:855-864 | from one hour on the text is hours, two-digit minutes and two-digit seconds, and reads back as the time |
| Clock.ShortClockRoundTrip | src/components/MusicPlayer.jsx:855-864 | below one hour the text is minutes and two-digit seconds, and reads back as the time |
| Clock.FormatTimeInjective | src/components/MusicPlayer.jsx:855-864 | different times never show the same text |
| Volume.AcceptPolledVolume | src/components/MusicPlayer.jsx:882-886 | a polled volume is taken over exactly when it is more than 0.05 away; the result is within 0.05 of the poll |
| Volume.PollSettles | src/components/MusicPlayer.jsx:882-886 | polling the same value again changes nothing |
| Regions.RemoveId | src/components/MusicPlayer.jsx:619-623 | removal never lengthens the list |
| Regions.OnlyId | src/components/MusicPlayer.jsx:619-623 | the filtered list is no longer than the input |
| Regions.SetLoop | src/components/MusicPlayer.jsx:624-628 | only the named region is set to loop; all others are unchanged |
| Regions.MoveRegion | src/components/MusicPlayer.jsx:627-629 | the moved or resized region takes its new bounds and loops; ids are kept; every other region is unchanged |
| Regions.MoveSingle | src/components/MusicPlayer.jsx:627-629 | on a list of at most one region, a move replaces that region's bounds when the id is its own and changes nothing otherwise |
| Regions.MoveKeepsIds | src/components/MusicPlayer.jsx:627-629 | a move never makes two regions share an id |
| Regions.RemoveAbsent | src/components/MusicPlayer.jsx:619-623 | removing an id nobody has changes nothing |
| Regions.RemoveIdConcat | src/components/MusicPlayer.jsx:619-623 | removal distributes over concatenation |
| Regions.RemoveOtherStep | src/components/MusicPlayer.jsx:619-623 | removing another region extends the filtered prefix by one step |
| Regions.KeepSelfStep | src/components/MusicPlayer.jsx:619-623 | the new region moves into the filtered prefix unchanged |
| Regions.OnlyIdHas | src/components/MusicPlayer.jsx:619-623 | the filter keeps only regions with the asked id |
| Regions.OnlyNewest | src/components/MusicPlayer.jsx:617-623 | with increasing ids, filtering on the newest region keeps exactly it |
| Regions.OnlyIdNone | src/components/MusicPlayer.jsx:619-623 | with all ids below the asked one, the filter keeps nothing |
| Regions.AppendNewest | src/components/MusicPlayer.jsx:617-623 | appending a freshly numbered region keeps ids increasing, and the filter keeps only it |
| Regions.RemoveFromSingle | src/components/MusicPlayer.jsx:630-632 | with at most one region, removal empties the list exactly when the id matches |
| Lrc.UpToLineEnd | src/components/Lyrics.jsx:149 | `(.*)` captures a prefix without line terminators that stops at the first one |
| Lrc.TimestampLength | src/components/Lyrics.jsx:149 | a length of 10 or 11 exactly when the line starts with `[dd:dd.dd]` or `[dd:dd.ddd]` (bracket, colon, dot and digits in place), and 0 when it starts with neither |
| Lrc.ParseLrcLine | src/components/Lyrics.jsx:153-163 | a line is kept only when its timestamp matches and its trimmed text is non-empty |
| Lrc.ParsedLines | src/components/Lyrics.jsx:152-166 | the lines `parseLrc` pushes, in input order, never more than the input lines |
| Lrc.KeptLength | src/components/Lyrics.jsx:152-164 | each input line gives at most one lyric line |
| Lrc.KeptConcat | src/components/Lyrics.jsx:152-164 | lines are kept independently and in order |
| Lrc.ParsedLinesHaveText | src/components/Lyrics.jsx:159-162 | every parsed line has non-empty, trimmed text |
| Lrc.ParsedLinesConcat | src/components/Lyrics.jsx:152-164 | the lyrics of a file are those of its halves, in order |
| Lrc.ParseLrc | src/components/Lyrics.jsx:147-167 | the loop's result equals `ParsedLines` of the newline-split text: each line read on its own, kept in input order |
| Lrc.TwoDigits | src/components/Lyrics.jsx:155-156 | a two-digit field's value, digit by digit |
| Lrc.ThreeDigits | src/components/Lyrics.jsx:157 | a three-digit field's value, digit by digit |
| Lrc.StampMs | src/components/Lyrics.jsx:155-158 | the whole seconds are minutes·60 + seconds and the millisecond part is the fraction padded to three digits, so a two-digit fraction gives a multiple of 10 ms |
| Lrc.StampMsOf | src/components/Lyrics.jsx:155-158 | the time is minutes·60000 + seconds·1000 + the fraction padded to three digits |
| Lrc.StampedChars | src/components/Lyrics.jsx:149 | where the brackets, separators and each field's digits sit in a line written as `[mm:ss.ff]rest` |
| Lrc.TimestampOf | src/components/Lyrics.jsx:149 | a line written from its fields is recognised, with a stamp of 10 or 11 characters after which `rest` begins |
| Lrc.ParseLrcLineAt | src/components/Lyrics.jsx:153-163 | a line whose stamp reads as `ms` gives that time with the trimmed text up to the line end, or nothing when that text is empty |
| Lrc.OneDigitFractionDropped | src/components/Lyrics.jsx:149 | `[00:15.5]` does not match and the line is dropped |
| Lrc.EmptyTextDropped | src/components/Lyrics.jsx:159-162 | a timestamp followed only by spaces is dropped |
| Lrc.LastLineAtOrBefore | src/components/Lyrics.jsx:17-22 | the result is the greatest index whose time has been reached, or -1 |
| Lrc.GetActiveLineIndex | src/components/Lyrics.jsx:13-23 | -1 for unsynced lyrics; otherwise the last line whose time has been reached, with no later line reached |
| Lrc.ActiveLineMonotone | src/components/Lyrics.jsx:13-23 | as the time grows, the highlighted line never moves back |
| Lyrics.LastIndexIn | src/components/Lyrics.jsx:56 | the last position of a character in a range, or -1 when it is absent |
| Lyrics.GroupEnd | src/components/Lyrics.jsx:56 | a bracket group opens at the start, closes with its bracket within the first line, and no closing bracket follows on that line |
| Lyrics.RemoveBrackets | src/components/Lyrics.jsx:56 | cutting out the bracket groups never lengthens the text |
| Lyrics.RemoveBracketsPlainHead | src/components/Lyrics.jsx:56 | a first character that opens no group is kept and the scan moves on by one |
| Lyrics.RemoveBracketsChars | src/components/Lyrics.jsx:56 | bracket removal brings in no character |
| Lyrics.RemoveBracketsPlainPrefix | src/components/Lyrics.jsx:56 | text before the first bracket is kept as it is |
| Lyrics.GroupIsGreedy | src/components/Lyrics.jsx:56 | a group opened by `(` or `[` runs to the last matching closer before the line ends, closers inside included; the whole group is cut and the scan resumes after it |
| Lyrics.LineEndAtLeast | src/components/Lyrics.jsx:56 | a line without terminators in its first n characters is at least n long |
| Lyrics.FirstMatch | src/components/Lyrics.jsx:58 | the length of an alternative that matches at the start, ignoring ASCII case, with no earlier alternative matching; 0 when none matches |
| Lyrics.RemoveClutter | src/components/Lyrics.jsx:58 | removing clutter never lengthens the title |
| Lyrics.RemoveClutterCuts | src/components/Lyrics.jsx:58 | where a clutter word starts, the first matching alternative is cut and the scan resumes after it |
| Lyrics.OfficialVideoTakenWhole | src/components/Lyrics.jsx:58 | at "Official Video" the whole `official video` is cut, not the shorter `official` listed later |
| Lyrics.RemoveClutterChars | src/components/Lyrics.jsx:58 | clutter removal brings in no character |
| Lyrics.ClutterFreeUnchanged | src/components/Lyrics.jsx:58 | text where no clutter word starts is unchanged |
| Lyrics.CleanTitle | src/components/Lyrics.jsx:55-59 | the cleaned title holds no `\|` and is trimmed |
| Lyrics.ArtistParam | src/components/Lyrics.jsx:69 | "Unknown Artist" is sent as empty; any other artist as it is |
| Lyrics.OriginalQuery | src/components/Lyrics.jsx:82 | the search query for artist and title is trimmed |
| Lyrics.SplitQuery | src/components/Lyrics.jsx:93-97 | the strategy-3 query; for a title without a dash it is the trimmed title and a space |
| Lyrics.SplitQueryAtFirstDash | src/components/Lyrics.jsx:93-97 | the split query is the trimmed text before the first dash, a space, and the cleaned rest, later dashes included |
| Lyrics.FindRecord | src/components/Lyrics.jsx:61-120 | an exact-lookup answer always wins; the split search is used only for titles with a dash; nothing is found exactly when all applicable strategies come back empty |
| Lyrics.ShownFor | src/components/Lyrics.jsx:123-137 | synced lyrics win over plain ones; plain text is one untimed line; an error leaves no lines and no sync; messages for no record and for an empty record |
| Lyrics.ShownSyncedLinesHaveText | src/components/Lyrics.jsx:125-127 | synced lyrics shown are lines with non-empty trimmed text |
| Lyrics.LyricsPanel.constructor | src/components/Lyrics.jsx:6-9 | no lines, not synced, no error, not loading |
| Lyrics.LyricsPanel.FetchLyrics | src/components/Lyrics.jsx:45-145 | ends not loading, with exactly the state `ShownFor` gives for the record the strategies found |
| Lyrics.LyricsPanel.OnTrackChanged | src/components/Lyrics.jsx:27-34 | a titled track is fetched; without a title the lines are cleared and "No song loaded" is shown |
| Player.SkipBackTarget | src/components/MusicPlayer.jsx:498 | a YouTube skip back goes ten seconds back, but never before 0 |
| Player.KeyCommandOf | src/components/MusicPlayer.jsx:780-794 | keys in INPUT or TEXTAREA are ignored; Space, ArrowRight and ArrowLeft map to their commands, each in both directions |
| Player.ReadyAutoplay | src/components/MusicPlayer.jsx:651-653 | plays exactly when a selected song is not a YouTube video |
| Player.ReadyHandlerSeesMountState | src/components/MusicPlayer.jsx:646-653 | with the mount-time selection the handler does nothing, where the current selection of a local song would play |
| Player.FinishIndexAsWritten | src/components/MusicPlayer.jsx:405-433 | through the mount-bound `finish` listener, the end of a local track never selects another song |
| Player.LocalEndNeverAdvances | src/components/MusicPlayer.jsx:458-484 | with a later song in the list, `off` and `all` should move to it, but the listener as written selects nothing |
| Player.MusicPlayer.constructor | src/components/MusicPlayer.jsx:24-54 | empty playlist, index -1, paused, loop off, volume 0.8, no regions |
| Player.MusicPlayer.PlaySong | src/components/MusicPlayer.jsx:405-421 | the current index shows the player and resumes (YouTube or wavesurfer) if paused; another index in range is selected; anything else changes nothing |
| Player.MusicPlayer.HandleNext | src/components/MusicPlayer.jsx:423-434 | plays `NextIndex`, or changes nothing |
| Player.MusicPlayer.HandlePrev | src/components/MusicPlayer.jsx:436-446 | plays `PrevIndex` on a non-empty list; does nothing on an empty one |
| Player.MusicPlayer.HandlePlayPause | src/components/MusicPlayer.jsx:448-456 | with nothing selected it plays index 0; on YouTube it flips `isPlaying`; otherwise it toggles wavesurfer |
| Player.MusicPlayer.HandleSongEnd | src/components/MusicPlayer.jsx:458-484 | restart replays with the right backend; advance plays `EndOfTrackIndex`; stay changes nothing |
| Player.MusicPlayer.HandleSkipForward | src/components/MusicPlayer.jsx:486-493 | ten seconds on, with the backend that is active |
| Player.MusicPlayer.HandleSkipBackward | src/components/MusicPlayer.jsx:495-502 | ten seconds back; on YouTube clamped at 0 |
| Player.MusicPlayer.HandleKeyDown | src/components/MusicPlayer.jsx:780-794 | Space plays or pauses; ArrowRight seeks YouTube 10 s on when it is the ready backend, else skips wavesurfer +10 s; ArrowLeft seeks YouTube to `SkipBackTarget`, else skips wavesurfer −10 s; other keys, and keys typed into fields, change nothing |
| Player.MusicPlayer.OnWaveSurferPlay | src/components/MusicPlayer.jsx:639 | wavesurfer's play event sets playing |
| Player.MusicPlayer.OnWaveSurferPause | src/components/MusicPlayer.jsx:640 | wavesurfer's pause event clears playing |
| Player.MusicPlayer.OnWaveSurferReadyAsWritten | src/components/MusicPlayer.jsx:646-653 | the ready handler as registered never autoplays |
| Player.MusicPlayer.OnWaveSurferReady | src/components/MusicPlayer.jsx:650-653 | on ready, a selected non-YouTube song plays, and only then |
| Player.MusicPlayer.RevealPlayer | src/components/MusicPlayer.jsx:151-155 | the player view opens once something plays or is selected, and never closes here |
| Player.MusicPlayer.OnPlayerReady | src/components/MusicPlayer.jsx:873-875 | the YouTube player becomes available |
| Player.MusicPlayer.ToggleLoop | src/components/MusicPlayer.jsx:843-853 | the mode advances; entering `off` clears every region and resets the zoom |
| Player.MusicPlayer.CreateRegion | src/components/MusicPlayer.jsx:617-626 | a new region gets a fresh id, is the only region left, loops, and is played |
| Player.MusicPlayer.RemoveOthers | src/components/MusicPlayer.jsx:619-623 | removing the other regions one at a time leaves exactly the regions with the kept id |
| Player.MusicPlayer.OnDragSelection | src/components/MusicPlayer.jsx:189-194 | a drag creates a region only while drag selection is enabled |
| Player.MusicPlayer.OnRegionUpdated | src/components/MusicPlayer.jsx:627-629 | the region the user moved or resized takes the new bounds and loops; with another id the regions are unchanged |
| Player.MusicPlayer.OnRegionDoubleClicked | src/components/MusicPlayer.jsx:630-632 | the clicked region is removed |
| Player.MusicPlayer.OnRegionOut | src/components/MusicPlayer.jsx:634-637 | leaving the region plays it again |
| Player.MusicPlayer.HandleSetA | src/components/MusicPlayer.jsx:800-815 | moves an existing region's start only, or creates [t, t + 10 s]; does nothing on YouTube |
| Player.MusicPlayer.HandleSetB | src/components/MusicPlayer.jsx:817-836 | moves an existing region's end and plays it when that is after the start; otherwise leaves it; creates and plays [0, t] when none exists; does nothing on YouTube |
| Player.MusicPlayer.ClearAB | src/components/MusicPlayer.jsx:838-841 | every region goes and the zoom is reset |
| Player.MusicPlayer.ClearRegions | src/components/MusicPlayer.jsx:1293 | the Loop Clear button removes every region |
| Player.MusicPlayer.ImportFiles | src/components/MusicPlayer.jsx:504-559 | the imported songs are appended and the first is marked for autoplay; without audio files nothing changes |
| Player.MusicPlayer.LoadOnlineMusic | src/components/MusicPlayer.jsx:561-567 | the playlist becomes `WithDemoSongs` of the old one |
| Player.MusicPlayer.SelectSearchResult | src/components/MusicPlayer.jsx:1014-1026 | a result titled like the current song resumes it; any other is appended and marked for autoplay |
| Player.MusicPlayer.PendingAutoplay | src/components/MusicPlayer.jsx:242-248 | a pending index that exists is played once and cleared; otherwise nothing changes |
| Player.MusicPlayer.LoadCurrentSong | src/components/MusicPlayer.jsx:176-239 | drag selection follows the song kind; a YouTube song plays online and alerts offline; other songs load into wavesurfer or alert when the source is missing |
| Player.MusicPlayer.SearchMusic | src/components/MusicPlayer.jsx:265-340 | a blank query does nothing; without keys only the status changes; otherwise results and status are `SearchOutcome` of the local matches |
| Player.MusicPlayer.OnSearchQueryChanged | src/components/MusicPlayer.jsx:343-353 | after the debounce, a blank query clears the results and any other searches |
| Player.MusicPlayer.SyncBackendVolume | src/components/MusicPlayer.jsx:141-149 | wavesurfer gets the volume only when its own is more than 0.01 away |
| Player.MusicPlayer.OnPlayerVolumeChange | src/components/MusicPlayer.jsx:882-886 | the volume becomes `AcceptPolledVolume` of the poll |

## Findings

| source | as written | input that shows it | evidently intended | confidence | as-written member | corrected member |
|---|---|---|---|---|---|---|
| src/components/MusicPlayer.jsx:646-653 | The `ready` handler is registered once, in the mount effect. It tests `currentSongIndex` and `songs` as captured at the first render: -1 and `[]`. | A local song at index 0 is selected; its audio finishes decoding; `ready` fires and nothing plays. | Per the handler's own comment, autoplay when the current selection is a non-YouTube song. | high; not executed | Player.MusicPlayer.OnWaveSurferReadyAsWritten, Player.ReadyHandlerSeesMountState | Player.MusicPlayer.OnWaveSurferReady |
| src/components/MusicPlayer.jsx:405-433 | wavesurfer's `finish` listener (line 659) is bound once, in the mount effect. `handleNext` reads the current playlist through refs, but calls the first render's `playSong`, whose `index < songs.length` sees `[]`. | Two local songs, loop mode `off` or `all`, the first one ends: nothing else is selected. | Move to the next song (or wrap in `all`), as the YouTube `onEnd` path does. | high; not executed | Player.FinishIndexAsWritten, Player.LocalEndNeverAdvances | Player.MusicPlayer.HandleSongEnd |

## Left out

- Player.MusicPlayer.HandleSongEnd: wavesurfer's `finish` listener is bound at mount (line 659). `handleNext` reads the current playlist through refs, but the `playSong` it calls is the first render's, which sees an empty playlist, so `all` and `off` never move on from a local track; `one` still restarts it. `HandleSongEnd` models the intended behaviour on the current playlist, as the YouTube `onEnd` path has it; the code as written is `Player.FinishIndexAsWritten` (see Findings).
- Player.MusicPlayer.HandleKeyDown: the keydown listener is re-bound only when `isPlaying`, `currentSongIndex` or `loopMode` change. It can therefore act on an older `songs` or `isYouTube`. The model uses the current state.
- Player.MusicPlayer.HandleSetA, Player.MusicPlayer.HandleSetB, Player.MusicPlayer.ClearAB, Player.MusicPlayer.LoadOnlineMusic: no button calls these in the component. They are modelled as written.
- Player.KeyCommandOf: the second ArrowRight/ArrowLeft tests in `handleKeyDown` can never be reached. They are kept, but they contribute nothing.
- Player.MusicPlayer.CreateRegion: a region added before the audio is decoded is created at once. The plugin's deferral until decode is not modelled.
- Player.MusicPlayer.LoadCurrentSong: the failure of the asynchronous `load` is not modelled, and neither is its "Failed to load audio" alert. `navigator.onLine` is the parameter `online`. A missing source is the empty string.
- Volume.AcceptPolledVolume, Player.MusicPlayer.SyncBackendVolume: volumes are integer hundredths. Floating-point values between two hundredths are not modelled.
- Catalog.SortByTitle: `Array.prototype.sort` is stable. The model's insertion sort also keeps songs with equal titles in file order, but no lemma states this.
- Catalog.TitleLeq: `localeCompare` is modelled as lexicographic order of character codes. Locale collation is not modelled.
- Text.ToLower: `toLowerCase` and the regular-expression `i` flag fold ASCII letters only.
- Clock.FormatTime: the time is whole seconds. Flooring a fractional time is not modelled.
- Lrc.LastLineAtOrBefore: lyric times and the playback time are integer milliseconds. They are not floating-point seconds.
- Lyrics.LyricsPanel.FetchLyrics:
  - The outer `catch` ("Could not load lyrics") is not modelled. Every request error is inside a strategy's own `try`.
  - Overlapping fetches for successive tracks can finish out of order. Each call here runs to completion.
- Network and timers: the YouTube Data API, the lyrics service, `fetch` and `axios` are not modelled. Each request's answer is a parameter: `respond`, `get` or `search`. The 500 ms debounce timers are left out: `OnSearchQueryChanged` is the moment a timer fires.
- Player.MusicPlayer.OnSearchQueryChanged: two debounced effects run it, one on `[searchQuery]` (lines 163-173) and one on `[searchQuery, searchMusic]` (lines 343-353). So every query change searches twice, and the key rotation and its requests run twice. Because `searchMusic` is re-created when `songs` changes, the second effect also searches again after every import or playlist change. The model runs one search per firing. The outcome depends only on the query, the playlist and the responses, so with the same responses a second firing would leave the same results and status. The doubled requests and quota use are not modelled.
- Not modelled:
  - audio analysis: tempo, key and signature;
  - the visualizer and its canvas;
  - the typing placeholder animation;
  - the playback rate;
  - the Media Session;
  - IndexedDB persistence (`initDB`, saving, loading);
  - music metadata extraction (title, artist and artwork come with each `PickedFile`);
  - `decodeHtml`;
  - `getThumbnail`;
  - `onPlayerProgress`;
  - the related-artist search shortcut;
  - the view layout.
- src/components/YouTubePlayer.jsx is not part of this model. The iframe player is represented only by the calls made to it and the events it raises.
