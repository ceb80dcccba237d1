# sakiume: visit counter and music players

This project models, in Dafny, the logic of a personal landing page built as a Cloudflare Worker with a React front end.

- **Visit counter.** The worker's `POST /api/visit-count` handler reads the visitor's identity from request headers. The identity is an IP address plus a User-Agent. While no database write fails, the handler counts a visit at most once per identity per 24 hours, in a D1 (SQLite) database, and answers the total together with a "mobile device" verdict.
- **Glass music player.** It parses LRC lyric files. On each time update it finds the current and next lyric. It formats play times as `m:ss` and cycles through its song list. It also tracks its play, expand and mobile state.
- **Draggable vinyl player.** The user drags it around the window with the mouse. A resize pulls it back inside the window.
- **Compact music player.** It falls back to a one-song playlist. It starts on a requested song and has play, select and playlist toggles.

Modules, one per file:

- `Text` (`text.dfy`): the JavaScript string and number primitives the code relies on:
  - `includes` and a case-insensitive literal regular expression, as the predicate `Contains`, with `IndexOf` as the left-to-right search that decides it;
  - `trim` and `split('\n')`;
  - `parseInt` on digit runs and integer `toString`.
- `DeviceDetection` (`device_detection.dfy`): the mobile-device regular expression that both the worker and the glass player apply to a User-Agent.
- `VisitCounter` (`visit_counter.dfy`): the request handler.
  - `Handle` is a function from the stored state (`Ledger`) to the new state and the reply.
  - `VisitStore.Visit` is the imperative handler, proved to agree with `Handle`.
  - The lemmas state the dedupe, counting and error behaviour.
- `GlassMusicPlayer` (`glass_music_player.dfy`): the LRC parser, the lyric lookup, the time format, the track navigation and the `GlassPlayer` state class.
- `DraggableMusicPlayer` (`draggable_music_player.dfy`): the clamps and the `DraggablePlayer` drag state machine.
- `MusicPlayer` (`music_player.dfy`): the playlist fallback, the initial song, the duration format and the `Player` state class.

Units:

- Times are integers. Lyric times and playback positions are in milliseconds. The argument of `formatTime` is in whole seconds, and so is a song's duration.
- Screen sizes and coordinates are integers.
- The clock (`Math.floor(Date.now() / 1000)`), the request headers, the window size, the fetched lyrics text and the presence of the audio element are parameters of the operations.

A database failure is modelled by the `Fault` parameter of `Handle`. It names the SQL statement that throws. D1 runs each statement on its own, so the effects of the statements before the failing one persist. In particular, a failure of the final `INSERT OR REPLACE` leaves the counter already incremented but no record, so the same identity's next request is counted again (`FailedRecordRecounts`).

## Model

| member | source | states |
|---|---|---|
| Text.Contains | src/worker/index.ts:73 | defines `includes`, and the `/…/i` test of one literal word, as an occurrence of the pattern at some index, compared character by character with ASCII case folding when asked; its properties are `IndexOfFinds` and `ContainsInContext` |
| Text.IndexOf | src/worker/index.ts:73 | the reference search for `Contains`: the first index at or after `from` where the pattern occurs (case-folded when asked), and no occurrence when it returns none |
| Text.IndexOfFinds | src/worker/index.ts:73 | the left-to-right search finds a position exactly when the pattern occurs somewhere, which is what `includes` and a literal `/…/i` test decide |
| Text.ContainsInContext | src/worker/index.ts:73 | a substring found in `s` is found in any string that contains `s` |
| Text.IntToString | src/react-app/components/GlassMusicPlayer.tsx:374 | the rendering of an integer is a minus sign for negatives, then digits without leading zeros |
| Text.NatToStringRoundTrip | src/react-app/components/GlassMusicPlayer.tsx:374 | `parseInt` of the rendered digits gives the number back |
| Text.Trim | src/react-app/components/GlassMusicPlayer.tsx:82 | `trim` returns a slice of the input with only white space before and after it, that neither starts nor ends with white space, and is empty only for all-white input |
| Text.TrimAround | src/react-app/components/GlassMusicPlayer.tsx:82 | trimming white space wrapped around trimmed text gives that text back, nothing more and nothing less |
| Text.TrimIdempotent | src/react-app/components/GlassMusicPlayer.tsx:82 | trimming twice is trimming once |
| Text.SplitLines | src/react-app/components/GlassMusicPlayer.tsx:71 | `split('\n')` yields at least one piece and no piece holds a line feed |
| Text.JoinNewPiece | src/react-app/components/GlassMusicPlayer.tsx:71 | joining pieces with one more, empty, piece at the end gives the joined text followed by a line feed |
| Text.JoinExtendLast | src/react-app/components/GlassMusicPlayer.tsx:71 | joining pieces whose last piece is extended by a character gives the joined text extended by that character |
| Text.SplitLinesRoundTrip | src/react-app/components/GlassMusicPlayer.tsx:71 | joining the pieces with line feeds gives the text back |
| VisitCounter.ClientIp | src/worker/index.ts:20 | the identity IP is `CF-Connecting-IP`, else `X-Forwarded-For`, else `"unknown"`, skipping empty values as JavaScript's logical or does; never empty |
| VisitCounter.UserAgent | src/worker/index.ts:21 | the User-Agent header, else `"unknown"`; never empty |
| DeviceDetection.IsMobile | src/worker/index.ts:73 | defines the mobile test shared with src/react-app/components/GlassMusicPlayer.tsx:179: some one of the eight keywords occurs in the User-Agent, ignoring ASCII letter case; its properties are the `DeviceDetection` lemmas below |
| DeviceDetection.KeywordMakesMobile | src/worker/index.ts:73 | any User-Agent containing a keyword, in any letter case and anywhere, is mobile |
| DeviceDetection.ShortAgentNotMobile | src/worker/index.ts:73 | a User-Agent shorter than four characters is not mobile |
| DeviceDetection.NotMobileWithoutLetters | src/worker/index.ts:73 | a User-Agent containing none of the letters b, e, p, r is not mobile |
| DeviceDetection.LetterAbsent | src/worker/index.ts:73 | a word with a letter absent from the text does not occur in it |
| VisitCounter.UnknownNotMobile | src/worker/index.ts:21 | the fallback User-Agent `"unknown"` is not mobile |
| DeviceDetection.DesktopAgentNotMobile | src/worker/index.ts:73 | a desktop Windows User-Agent is not mobile |
| VisitCounter.Handle | src/worker/index.ts:17-79 | defines, for each failing statement or none, the new ledger and the reply of one request: no write after a failed schema or read statement, no write for a recent visit, the counter row before the record row otherwise; its properties are the lemmas below |
| VisitCounter.Admit | src/worker/index.ts:49-67 | a counted visit raises the stored count by one, stamps the identity's record with `now` and keeps every other record |
| VisitCounter.VisitStore.constructor | src/worker/index.ts:23-31 | a fresh deployment holds no counter row and no records |
| VisitCounter.VisitStore.Visit | src/worker/index.ts:17-79 | the handler's new store and reply are those of `Handle`, statement by statement, including which writes persist before a failure |
| VisitCounter.RepeatInsideWindow | src/worker/index.ts:40-49 | a request whose record is newer than `now - 86400` writes nothing and answers the stored count |
| VisitCounter.CountedVisit | src/worker/index.ts:46-67 | without a recent record, the reply is the previous count (0 without a row) plus one, and the record becomes `now` |
| VisitCounter.FirstVisit | src/worker/index.ts:46-66 | on an empty store the first request answers 1 and leaves one counter row and one record |
| VisitCounter.WindowBoundary | src/worker/index.ts:40-43 | a record exactly 86400 s old no longer suppresses the count; one a second younger does |
| VisitCounter.RecordsUpsert | src/worker/index.ts:65-67 | a request adds at most the requester's own record, replaces rather than duplicates it, and leaves other identities' records alone |
| VisitCounter.ErrorReply | src/worker/index.ts:75-78 | every failing statement gives `{count: 0, error: 'Database error'}` with status 500, a success status 200, and the reply is an error exactly when a statement that ran failed |
| VisitCounter.FailedRecordRecounts | src/worker/index.ts:56-67 | when the record statement fails after the counter was written, the count has risen but no record was stamped, so the same identity's next request, even at the same instant, is counted again |
| VisitCounter.ReplyCount | src/worker/index.ts:46-72 | the reply's count is the stored count, plus one exactly for a counted visit |
| VisitCounter.MissingHeaders | src/worker/index.ts:20-21 | a request with no headers succeeds as identity ("unknown", "unknown") and is not mobile |
| VisitCounter.StepCount | src/worker/index.ts:46-62 | one request raises the stored count by at most one and never lowers it |
| VisitCounter.RunMonotone | src/worker/index.ts:46-62 | over any sequence of requests, failing or not, the count never decreases and grows at most by the number of requests |
| VisitCounter.RepeatsInsideWindow | src/worker/index.ts:40-49 | any number of requests of one identity inside the window after its counted visit change nothing |
| VisitCounter.DedupeIdempotent | src/worker/index.ts:40-67 | after a counted visit, a repeat within 86400 s answers the same count and changes nothing |
| VisitCounter.CountedAgainAfterWindow | src/worker/index.ts:40-67 | once 86400 s have passed the same identity is counted again |
| GlassMusicPlayer.TagAt | src/react-app/components/GlassMusicPlayer.tsx:72 | the time-tag pattern matches at an index exactly when a `[dd:dd.dd]` or `[dd:dd.ddd]` text starts there, preferring three fraction digits, and the numbers are `parseInt` of its groups |
| GlassMusicPlayer.TagParse | src/react-app/components/GlassMusicPlayer.tsx:78-80 | the tag's three groups parse to the two-digit values read from their characters |
| GlassMusicPlayer.FindTag | src/react-app/components/GlassMusicPlayer.tsx:76 | `line.match` finds the leftmost tag, and finds none when no index starts one |
| GlassMusicPlayer.TagMillis | src/react-app/components/GlassMusicPlayer.tsx:78-81 | the corrected time in milliseconds: hundredths for a two-digit fraction, thousandths for a three-digit one |
| GlassMusicPlayer.TagMillisAsWritten | src/react-app/components/GlassMusicPlayer.tsx:81 | the time as the code computes it: the fraction always read as thousandths |
| GlassMusicPlayer.TagMillisThreeDigits | src/react-app/components/GlassMusicPlayer.tsx:81 | for three fraction digits the code's time and the corrected time agree |
| GlassMusicPlayer.TagMillisConsistent | src/react-app/components/GlassMusicPlayer.tsx:72-81 | `[mm:ss.xy]` and `[mm:ss.xy0]` denote the same instant, and a later clock reading never denotes an earlier instant |
| GlassMusicPlayer.TwoDigitFractionMisread | src/react-app/components/GlassMusicPlayer.tsx:80-81 | the code reads `[00:01.50]` as 1050 ms and places `[00:01.90]` before `[00:01.100]`; the corrected time does neither |
| GlassMusicPlayer.ParseLine | src/react-app/components/GlassMusicPlayer.tsx:76-85 | a line gives an entry only when it holds a tag, and then exactly the entry left around its leftmost tag; the entry's text is non-empty, trimmed and does not start with `[`, and its time is that of a tag in the line |
| GlassMusicPlayer.EntryAfterTag | src/react-app/components/GlassMusicPlayer.tsx:82-84 | the text is what precedes the tag joined to what follows it, trimmed; there is an entry exactly when that text is non-empty and does not start with `[`, and it carries the tag's time |
| GlassMusicPlayer.Collect | src/react-app/components/GlassMusicPlayer.tsx:75-87 | defines the list `parseLRC`'s `forEach` builds: each line's entry, if it has one, in line order; its properties are `CollectAppend` and `CollectEntries` |
| GlassMusicPlayer.CollectAppend | src/react-app/components/GlassMusicPlayer.tsx:75-87 | entries come out in line order: the entries of two blocks of lines are those of the first followed by those of the second |
| GlassMusicPlayer.CollectEntries | src/react-app/components/GlassMusicPlayer.tsx:75-87 | at most one entry per line, each with non-empty text not starting with `[` |
| GlassMusicPlayer.LrcLineRoundTrip | src/react-app/components/GlassMusicPlayer.tsx:76-84 | a line made of a `[mm:ss.cc]` tag and trimmed text parses back to that text at the tag's time |
| GlassMusicPlayer.LeadingTagEntry | src/react-app/components/GlassMusicPlayer.tsx:82-84 | cutting a leading tag off a line whose rest is trimmed text gives that text |
| GlassMusicPlayer.FirstTagCut | src/react-app/components/GlassMusicPlayer.tsx:76-84 | `replace` without the `g` flag cuts only the leftmost tag: the line's entry is the text around that tag, trimmed, whatever further tags the line holds |
| GlassMusicPlayer.TagAfterWhiteExample | src/react-app/components/GlassMusicPlayer.tsx:76-84 | `  [00:01.00] hi ` gives `hi` at 1000 ms |
| GlassMusicPlayer.TextBeforeTagExample | src/react-app/components/GlassMusicPlayer.tsx:76-84 | `hi [00:01.00]` gives `hi` at 1000 ms: text before the tag is kept |
| GlassMusicPlayer.TagLineTag | src/react-app/components/GlassMusicPlayer.tsx:72 | the pattern matches a rendered `[mm:ss.cc]` at its start with those numbers |
| GlassMusicPlayer.ParseLrc | src/react-app/components/GlassMusicPlayer.tsx:70-90 | `parseLRC` returns the entries of the text's lines in order, each with non-empty text not starting with `[` |
| GlassMusicPlayer.FindCurrent | src/react-app/components/GlassMusicPlayer.tsx:293-296 | the lookup finds the first entry that has started by `t` and whose successor is absent or starts after `t`, and none when no entry qualifies |
| GlassMusicPlayer.FindCurrentSomeIff | src/react-app/components/GlassMusicPlayer.tsx:293-298 | some entry is current exactly when some entry has started by `t` |
| GlassMusicPlayer.CurrentAfter | src/react-app/components/GlassMusicPlayer.tsx:293-296 | after any started entry some entry is current |
| GlassMusicPlayer.SortedCurrentIsLastStarted | src/react-app/components/GlassMusicPlayer.tsx:293-296 | for time-ordered entries the current one is the last that has started |
| GlassMusicPlayer.LyricPair | src/react-app/components/GlassMusicPlayer.tsx:299-303 | the published texts are the current entry's and its successor's, or `''` after the last |
| Text.JsRem | src/react-app/components/GlassMusicPlayer.tsx:373 | JavaScript's `%`: the remainder keeps the dividend's sign, is smaller than the divisor in magnitude, differs from the dividend by a multiple of the divisor, and equals Dafny's `%` for non-negative dividends |
| Text.Pad2 | src/react-app/components/GlassMusicPlayer.tsx:374 | a number below 100 shown as two digits reads back as itself |
| GlassMusicPlayer.FormatTime | src/react-app/components/GlassMusicPlayer.tsx:370-374 | defines `formatTime`: the floored minutes, a colon, then the truncated remainder with a `0` before it when below ten; its properties are `FormatTimeShape` and `FormatTimeRoundTrip` |
| GlassMusicPlayer.FormatTimeShape | src/react-app/components/GlassMusicPlayer.tsx:371-375 | for non-negative times `formatTime` is the minutes, a colon and the seconds padded to two digits |
| GlassMusicPlayer.FormatTimeRoundTrip | src/react-app/components/GlassMusicPlayer.tsx:371-375 | the text ends in `:ss` with seconds below 60, and minutes * 60 + seconds read back gives the time |
| GlassMusicPlayer.PrevIndex | src/react-app/components/GlassMusicPlayer.tsx:360 | `prevSong`'s index stays in `[0, n)` |
| GlassMusicPlayer.NextIndex | src/react-app/components/GlassMusicPlayer.tsx:366 | `nextSong`'s index stays in `[0, n)` |
| GlassMusicPlayer.PrevNextInverse | src/react-app/components/GlassMusicPlayer.tsx:359-368 | next undoes prev and prev undoes next |
| GlassMusicPlayer.Iterate | src/react-app/components/GlassMusicPlayer.tsx:365-368 | repeated presses of next stay in range |
| GlassMusicPlayer.IterateWraps | src/react-app/components/GlassMusicPlayer.tsx:365-368 | `k` presses of next move `k` songs on, wrapping once, so `n` presses return to the start |
| GlassMusicPlayer.LyricsContext.constructor | src/react-app/components/GlassMusicPlayer.tsx:37-39 | the provider starts with empty texts and lyrics visible |
| GlassMusicPlayer.GlassPlayer.constructor | src/react-app/components/GlassMusicPlayer.tsx:96-104 | the player starts on song 0, paused, expanded, not mobile, without lyrics |
| GlassMusicPlayer.GlassPlayer.ChangeSong | src/react-app/components/GlassMusicPlayer.tsx:336-339 | `changeSong` selects the song, resets the time to 0 and pauses |
| GlassMusicPlayer.GlassPlayer.PrevSong | src/react-app/components/GlassMusicPlayer.tsx:359-362 | `prevSong` changes to the previous song, wrapping to the last |
| GlassMusicPlayer.GlassPlayer.NextSong | src/react-app/components/GlassMusicPlayer.tsx:365-368 | `nextSong` changes to the next song, wrapping to the first |
| GlassMusicPlayer.GlassPlayer.TogglePlayPause | src/react-app/components/GlassMusicPlayer.tsx:270-283 | with the audio element present, playing flips and lyric visibility becomes the new playing value; otherwise nothing changes |
| GlassMusicPlayer.GlassPlayer.ToggleExpanded | src/react-app/components/GlassMusicPlayer.tsx:266 | `toggleExpanded` negates the expanded flag |
| GlassMusicPlayer.GlassPlayer.HandleTimeUpdate | src/react-app/components/GlassMusicPlayer.tsx:287-307 | the position is recorded, and when an entry is current its text and its successor's are published; otherwise the context is unchanged |
| GlassMusicPlayer.GlassPlayer.LoadLyrics | src/react-app/components/GlassMusicPlayer.tsx:155-169 | no lyrics path gives `[{time: 0, text: ''}]`, a failed fetch gives no lyrics, and a fetched file gives its parsed entries |
| GlassMusicPlayer.GlassPlayer.CheckMobile | src/react-app/components/GlassMusicPlayer.tsx:177-203 | the player is mobile when the User-Agent test or the server says so, and a mobile player is expanded |
| DraggableMusicPlayer.Clamp | src/react-app/components/DraggableMusicPlayer.tsx:46-47 | the drag target is never negative, never beyond the limit when the limit is non-negative, and unchanged when already in range |
| DraggableMusicPlayer.ClampNearest | src/react-app/components/DraggableMusicPlayer.tsx:46-47 | the clamped point is the point of `[0, limit]` nearest the mouse's target |
| DraggableMusicPlayer.ClampIdempotent | src/react-app/components/DraggableMusicPlayer.tsx:46-47 | clamping twice is clamping once |
| DraggableMusicPlayer.DragFollowsMouse | src/react-app/components/DraggableMusicPlayer.tsx:35-47 | inside the window the player moves exactly as far as the mouse |
| DraggableMusicPlayer.GrabInPlace | src/react-app/components/DraggableMusicPlayer.tsx:33-47 | grabbing the player and not moving leaves it where it was |
| DraggableMusicPlayer.Shrink | src/react-app/components/DraggableMusicPlayer.tsx:22-23 | a resize never increases a coordinate; it keeps a coordinate already within the limit and moves one beyond it exactly onto the limit |
| DraggableMusicPlayer.ShrinkIdempotent | src/react-app/components/DraggableMusicPlayer.tsx:20-24 | a second resize to the same window moves nothing |
| DraggableMusicPlayer.ShrinkAfterDrag | src/react-app/components/DraggableMusicPlayer.tsx:20-24 | a position set by a drag survives a resize to the same window |
| DraggableMusicPlayer.ShrinkMonotone | src/react-app/components/DraggableMusicPlayer.tsx:20-24 | after a resize to a smaller window, one to a larger window does not move the player back |
| DraggableMusicPlayer.DraggablePlayer.constructor | src/react-app/components/DraggableMusicPlayer.tsx:10-17 | the initial position, offset, flags and last position |
| DraggableMusicPlayer.DraggablePlayer.Resize | src/react-app/components/DraggableMusicPlayer.tsx:20-25 | `handleResize` shrinks each coordinate to its limit and changes nothing else |
| DraggableMusicPlayer.DraggablePlayer.MouseDown | src/react-app/components/DraggableMusicPlayer.tsx:31-40 | with the element rendered, the offset becomes the mouse position minus the element's corner and dragging starts |
| DraggableMusicPlayer.DraggablePlayer.MouseMove | src/react-app/components/DraggableMusicPlayer.tsx:42-54 | while dragging, the position becomes the clamped mouse target and the last position equals it; otherwise nothing changes |
| DraggableMusicPlayer.DraggablePlayer.MouseUp | src/react-app/components/DraggableMusicPlayer.tsx:56-58 | dragging stops and nothing else changes |
| DraggableMusicPlayer.DraggablePlayer.ToggleExpanded | src/react-app/components/DraggableMusicPlayer.tsx:75-80 | expanded flips and the embedded player stays visible |
| DraggableMusicPlayer.Drag | src/react-app/components/DraggableMusicPlayer.tsx:31-58 | a press, move and release leaves the player inside the window, displaced by the mouse's motion, and not dragging |
| MusicPlayer.FinalPlaylist | src/react-app/components/MusicPlayer/MusicPlayer.tsx:41-43 | the effective playlist is never empty: the given one when non-empty, the default otherwise |
| MusicPlayer.FinalPlaylistIdempotent | src/react-app/components/MusicPlayer/MusicPlayer.tsx:41-43 | the fallback applied twice is applied once |
| MusicPlayer.FindById | src/react-app/components/MusicPlayer/MusicPlayer.tsx:47 | `find` returns the first song with the id, and none when no song has it |
| MusicPlayer.InitialSong | src/react-app/components/MusicPlayer/MusicPlayer.tsx:45-57 | defines the song the mount effect selects: the first song with the requested id, else the first song, none only for an empty list; its properties are `InitialSongChoice` and `DefaultStart` |
| MusicPlayer.InitialSongChoice | src/react-app/components/MusicPlayer/MusicPlayer.tsx:47-56 | for a non-empty list a song is always chosen: the first with the id, else the first song |
| MusicPlayer.DefaultStart | src/react-app/components/MusicPlayer/MusicPlayer.tsx:19-33 | with the default props the player starts on the default song |
| MusicPlayer.PadStart | src/react-app/components/MusicPlayer/MusicPlayer.tsx:152 | `padStart` keeps long strings and left-fills short ones with the pad character up to the width |
| MusicPlayer.FormatDuration | src/react-app/components/MusicPlayer/MusicPlayer.tsx:152 | defines a playlist entry's duration text: floored minutes, a colon, then the remainder padded to two characters with `0`; its property is `FormatDurationMatchesFormatTime` |
| MusicPlayer.PadStartTwoDigits | src/react-app/components/MusicPlayer/MusicPlayer.tsx:152 | `padStart(2, '0')` of a number below 100 gives its two digits |
| MusicPlayer.FormatDurationMatchesFormatTime | src/react-app/components/MusicPlayer/MusicPlayer.tsx:152 | for non-negative durations the playlist text equals the glass player's `formatTime` and reads back as minutes and seconds |
| MusicPlayer.Player.constructor | src/react-app/components/MusicPlayer/MusicPlayer.tsx:31-43 | absent props take their defaults; the player starts paused, without a song, playlist closed, loading |
| MusicPlayer.Player.SelectAutoPlaySong | src/react-app/components/MusicPlayer/MusicPlayer.tsx:45-57 | the mount effect sets the initial song and always ends loading |
| MusicPlayer.Player.TogglePlay | src/react-app/components/MusicPlayer/MusicPlayer.tsx:59-75 | without audio or song nothing happens; playing pauses; a paused `music.163.com` song is opened in a new tab and stays paused; any other starts playing |
| MusicPlayer.Player.SelectSong | src/react-app/components/MusicPlayer/MusicPlayer.tsx:77-81 | the chosen entry becomes current, playback stops and the playlist closes |
| MusicPlayer.Player.TogglePlaylist | src/react-app/components/MusicPlayer/MusicPlayer.tsx:83-85 | the playlist opens or closes and nothing else changes |
| MusicPlayer.Player.ClosePlaylist | src/react-app/components/MusicPlayer/MusicPlayer.tsx:136 | the close button closes the playlist |
| MusicPlayer.Player.AudioEvent | src/react-app/components/MusicPlayer/MusicPlayer.tsx:164-166 | the audio element's play event sets playing, its pause and ended events clear it |
| MusicPlayer.PlayPause | src/react-app/components/MusicPlayer/MusicPlayer.tsx:59-75 | pressing play twice on a song served in place leaves it paused |

## Left out

- The Hono router, the CORS middleware and the `GET /api/` probe (src/worker/index.ts:9-14) carry no logic of their own.
- The D1 engine is represented only by what the two tables hold: an optional counter row and a map from identity to visit time. The `CREATE TABLE IF NOT EXISTS` statements change no row and appear only as points of failure.
- Concurrent requests are not modelled. The handler reads and then writes without a transaction, so two simultaneous first visits may count once. Each `Handle` is one whole request.
- `Date.now()` and the headers are parameters. The `console.error` log on failure is omitted.
- The dedupe window: the code's strict `visit_time > now - 86400` counts a visitor again exactly 86400 seconds after the last counted visit (`WindowBoundary`). A reading of the window as "more than 86400 seconds later" would count only from 86401 seconds. The model follows the code.
- Lyric times and playback positions are integer milliseconds, not floating-point seconds. Negative positions are allowed but never produced.
- `ParseLrc` and `ParseLine` use the corrected `TagMillis`, not the code's reading; see Findings.
- Timers, promises and the audio element are represented only by a flag saying whether the element is mounted:
  - autoplay and the delayed play after `changeSong` (GlassMusicPlayer.tsx:117-151, 342-352);
  - audio `play` and `pause` calls, volume, seeking and the progress bar (GlassMusicPlayer.tsx:321-330, 449-453).
- `fetch` of lyric files is represented by its outcome: the text, or `None` for a failure.
- The glass player's on-screen position is not modelled. This covers the float centring in `toggleExpanded` (GlassMusicPlayer.tsx:244-264), the mobile position in `checkMobile` and the resize handler. Only the expand flag and the other state fields are modelled.
- `generateBackgroundColor` does nothing, and `handleLoadedMetadata` updates a throwaway copy of the song list; neither is modelled.
- Event-listener registration and `requestAnimationFrame` scheduling are not modelled. In `DraggablePlayer.MouseMove` the animation frame runs at once.
- `DraggableMusicPlayer`'s `isPlaying` is never changed by the component and is kept only as a field.
- `MusicPlayer.Player.SelectSong` takes the index of the clicked playlist entry. The component only ever passes an entry of its own playlist.
- `MusicPlayer.FormatDurationMatchesFormatTime` holds for non-negative durations only. For a negative duration `padStart` and `formatTime` pad differently.
- The loading screen, the app shell, the hero section, the info modal and the Vite configuration are not part of this model.

## Findings

| source | as written | input that shows it | evidently intended | confidence | as-written member | corrected member |
|---|---|---|---|---|---|---|
| src/react-app/components/GlassMusicPlayer.tsx:80-81 | the fraction group of an LRC tag is divided by 1000 whether it has two or three digits | `[00:01.50]` gives 1.05 s, and `[00:01.90]` is placed before `[00:01.100]` | a two-digit fraction counts hundredths, so `[00:01.50]` is 1.5 s | high, not executed | GlassMusicPlayer.TwoDigitFractionMisread | GlassMusicPlayer.TagMillisConsistent |
