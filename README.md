# Music service playback model

This project models the playback core of the Discord music bot, the
`MusicService` class. Every guild (Discord server) has its own entries in
five maps:

- `queues`: the songs waiting to be played;
- `players` and `connections`: the audio player and voice connection handles;
- `currentSongs`: the song now playing;
- `history`: the songs played so far, at most 50.

Commands (`play`, `pause`, `resume`, `skip`, `previous`, `stop`,
`playPlaylist`, `playRadio`, `getQueue`) and two notifications change these
maps. The notifications are the player going Idle, which runs `playNext`,
and the connection being disconnected, which runs `cleanup`. The project
models the maps, every operation on them, and the pure helpers the service
relies on.

Modules:

- `Wrappers`: `Option`.
- `Strings`: JavaScript's `includes`, decimal rendering of naturals,
  `padStart`, `trim` (ECMAScript white space) and ASCII `toUpperCase`.
- `Helpers`: URL classification, Spotify track-id extraction, the `m:ss`
  duration label, and the artist heuristic for video titles.
- `Tracks`: the song record and the raw shapes returned by the catalogs.
  - YouTube keyword search, ytdl video info and the Spotify API are fields
    of a `Catalog` value, each a function of its arguments. `None` means
    the request rejected.
  - Each adapter turns a rejection into "no result", as the source's
    try/catch blocks do.
  - `Resolve` is the look-up choice of `play`.
- `Controller`: the state machine on values.
  - `State` holds the five maps, a log of the calls made on players
    (play, pause, unpause, stop) and the serial number of the next
    connection/player pair.
  - Every operation is a function returning the new state and the reply
    record.
  - `Inv` is the invariant every reachable state keeps, proved by
    `ReachableStates` over any sequence of commands and notifications.
  - `Advance` is a reference definition of `playNext` on one guild's queue
    and history. The recursive state function `PlayNext` is proved equal to
    it.
- `Service`: the class `MusicService`.
  - The five maps are fields that the methods update in place.
  - Each method is proved to leave the fields in the state the matching
    `Controller` function computes from the old fields.
  - The command and notification methods also require and keep `Valid()`,
    which is `Inv` of the fields. `TakeFront`, `Remember`, `Cleanup`,
    `EnqueueOne` and `StartStation` are helpers for single steps inside
    them, and make no promise about `Inv` of their own.
  - `EnqueueFound` is the counting `for` loop of `playPlaylist`.

Behaviours of the code (not of its design notes) that the model follows
and proves:

- `play` decides "Now playing" only on the queue length becoming 1. It
  never looks at the current song, so a `play` while a song plays over an
  empty queue replaces that song at once (`PlayWhilePlayingWithEmptyQueue`).
- `play` with a source hint and a query that is not a URL calls
  `playFromSource`, which the class does not define. The resulting
  TypeError is caught, and the reply is "Failed to play the song."
  (`Tracks.Resolve`, `PlayNotFound`).
- `playRadio` creates a queue but no history. `playNext` reads the history
  outside its `try`, so on a guild that started with the radio, a later
  `play` that finds a song fails. The song is made current but never
  played (`PlayAfterRadioOnNewGuild`).
- A song whose stream cannot be opened stays in the history and the next
  song is tried. A missing player counts as such a failure, since
  `player.play` throws inside the same `try`.
- `skip`, `previous` and `stop` only stop the player. Advancing happens in
  the Idle notification (`SkipThenIdle`, `PreviousThenIdle`, `StopSpec`).
- `cleanup` removes the guild from all five maps but does not destroy the
  connection.

## Model

| member | source | states |
|---|---|---|
| Strings.ContainsIff | services/MusicService.js:464-470 | the `includes` scan answers true exactly when the needle occurs at some index of the text |
| Strings.NatToStringRoundTrip | services/MusicService.js:478-480 | the decimal rendering of a natural is a non-empty digit string, without a leading zero unless it is "0", one digit exactly below 10, and it parses back to the number |
| Strings.PadStart | services/MusicService.js:480 | `padStart` keeps the string as its suffix and fills the front with the fill character up to the width; a string already that long is unchanged |
| Strings.Trim | services/MusicService.js:494 | the result occurs in the input with only white space before and after it, and neither starts nor ends with white space |
| Strings.Upper | services/MusicService.js:422 | same length; every character is upper-cased by position (ASCII letters) |
| Helpers.IsYouTubeUrl | services/MusicService.js:464-466 | true exactly when "youtube.com" or "youtu.be" occurs in the URL |
| Helpers.IsSpotifyUrl | services/MusicService.js:468-470 | true exactly when "spotify.com" occurs in the URL |
| Helpers.FindTrackId | services/MusicService.js:473 | the first position from `from` where "track/" is followed by an ASCII letter or digit, or none at all at or after `from` |
| Helpers.ExtractSpotifyIdSpec | services/MusicService.js:472-475 | null exactly when "track/" followed by an alphanumeric occurs nowhere; otherwise the id is the whole (maximal, non-empty) alphanumeric run after the leftmost such occurrence |
| Helpers.FormatDurationRoundTrip | services/MusicService.js:477-481 | the label is minutes, ":", exactly two digits; minutes read back as seconds/60, the two digits as seconds%60, so 60*minutes + seconds gives the input back |
| Helpers.PaddedRoundTrip | services/MusicService.js:480 | a number below 100 padded to two characters with "0" is two digits that read back as the number |
| Helpers.IndexOf | services/MusicService.js:493 | the index of the first occurrence of the character, or none when it does not occur |
| Helpers.TailMatchesIff | services/MusicService.js:493 | the tail `\s*(.+)$` matches exactly when it splits into white space and a non-empty rest without line terminators |
| Helpers.ExtractArtistFromTitleSpec | services/MusicService.js:491-495 | when the title matches the pattern (first hyphen not at index 0, a non-empty tail without line breaks after white space), the artist is the trimmed text before the first hyphen; with no match it is "Unknown Artist" |
| Helpers.ArtistGroupAt | services/MusicService.js:493 | every match of the pattern ends its first group at the first hyphen |
| Tracks.VideoRecord | services/MusicService.js:273-281 | a YouTube record: the item's title and id, url = watch prefix + id (a YouTube URL), the length text unless absent or empty (then "Unknown"), source "YouTube", artist from the title |
| Tracks.InfoRecord | services/MusicService.js:436-444 | a YouTube record with the URL kept verbatim, the formatted length, the video's title, id and thumbnail, artist from the title |
| Tracks.SpotifyRecord | services/MusicService.js:312-321 | a Spotify record: track name, Spotify URL, first artist, album name, formatted duration, source "Spotify" |
| Tracks.SearchYouTube | services/MusicService.js:266-286 | a rejected search gives `[]`; otherwise one record per item, in order, each built by `VideoRecord` |
| Tracks.SearchYouTubeSingle | services/MusicService.js:288-307 | a record exactly when the one-result search succeeds with an item; it is the record of the first item |
| Tracks.SearchSpotify | services/MusicService.js:309-326 | a rejected search, or any track without artists, gives `[]`; otherwise one Spotify record per track, in order |
| Tracks.Search | services/MusicService.js:253-264 | source "spotify" searches Spotify with limit 5; anything else searches YouTube with limit 5 |
| Tracks.SearchAll | services/MusicService.js:328-344 | both catalogs with the same limit, the given one or 3 when left out; `total` is the sum of the two result counts |
| Tracks.SearchAllAbsorbsFailure | services/MusicService.js:328-344 | a rejected catalog leaves its slot empty and the other catalog's results and count intact |
| Tracks.GetYouTubeInfo | services/MusicService.js:433-449 | a record exactly when the info request succeeds, built from its details with the URL verbatim |
| Tracks.GetSpotifyTrack | services/MusicService.js:451-462 | no extractable id, a rejected request or a track without artists give none; otherwise the YouTube search for "<first artist> <name>" |
| Tracks.Resolve | services/MusicService.js:64-73 | Spotify URL first, then YouTube URL (kept verbatim), then a source hint (a fault exactly then), then a keyword search; every song found is a YouTube track |
| Tracks.MalformedSpotifyUrlNotFound | services/MusicService.js:453-460 | a Spotify URL without "track/<alphanumerics>" is "not found", never a fault |
| Controller.NewestConcat | services/MusicService.js:150-153 | trimming to the newest n before appending keeps the same newest n as trimming after |
| Controller.AddToHistory | services/MusicService.js:149-153 | on a history of at most 50, the push-then-shift keeps exactly the newest 50 of history + [song] |
| Controller.CreateConnection | services/MusicService.js:110-135 | fails exactly without a voice channel; otherwise registers a connection (on that channel, for that guild) and its player under the next serial and changes nothing else |
| Controller.EnsureConnection | services/MusicService.js:82-84 | fails only when the guild has no connection and there is no voice channel; a connected guild is unchanged; queues, history, current songs and call log are never touched |
| Controller.EnsureConnectionPreservesInv | services/MusicService.js:129-130 | connecting keeps the invariant (connection and player set together) and touches no other guild |
| Controller.Cleanup | services/MusicService.js:483-489 | the guild is in none of the five maps; every other guild and the call log are unchanged |
| Controller.OnDisconnected | services/MusicService.js:132-134 | a disconnection runs `cleanup` |
| Controller.PlayNext | services/MusicService.js:137-168 | players, connections and serial never change; whether the guild has a queue and a history is preserved; terminates on the queue length |
| Controller.TakeFront | services/MusicService.js:146-147 | the front song leaves the queue and becomes current; nothing else changes |
| Controller.Remember | services/MusicService.js:149-153 | the song is added to the guild's bounded history; nothing else changes |
| Controller.OnIdle | services/MusicService.js:119-121 | an Idle notification runs `playNext` |
| Controller.FirstPlayable | services/MusicService.js:155-167 | the index of the first song whose stream can be played, every earlier song failing |
| Controller.PlayNextOnEmptyQueue | services/MusicService.js:141-144 | on a missing or empty queue only the guild's current song is removed |
| Controller.PlayNextWithoutHistory | services/MusicService.js:146-150 | with a queue but no history, the front song is taken off and made current, nothing is played, and the call throws |
| Controller.SkipFrontAdvance | services/MusicService.js:164-166 | after a failed stream, advancing is the same as advancing the state with that song already taken and remembered |
| Controller.PlayNextIsAdvance | services/MusicService.js:137-168 | on a non-empty queue with a history, `playNext` equals the reference advance on the queue and history, applied to the state |
| Controller.AdvanceQueue | services/MusicService.js:146-167 | the advance removes 1..length songs from the front: those up to and including the first playable one, or all of them |
| Controller.AdvanceHistory | services/MusicService.js:146-166 | the history becomes the newest 50 of old history + every song taken, failed ones included |
| Controller.AdvanceStarted | services/MusicService.js:155-167 | the last song taken is started exactly when it is playable; when none starts, the whole queue was taken |
| Controller.AdvanceBounded | services/MusicService.js:151-153 | the history never exceeds 50 songs |
| Controller.PlayNextOutcome | services/MusicService.js:137-168 | on a non-empty queue with a history: succeeds; queue = q[n..]; history = newest 50 of history + q[..n]; current is q[n-1] and is handed to the player exactly when playable; otherwise no current song and nothing played |
| Controller.PlayNextPreservesInv | services/MusicService.js:137-168 | advancing keeps the invariant (history at most 50) and touches no other guild |
| Controller.OpenGuild | services/MusicService.js:56-59 | an unseen guild gets an empty queue and an empty history; a known one is unchanged |
| Controller.Enqueue | services/MusicService.js:79-80 | the songs are appended at the back of the guild's queue and nothing else changes |
| Controller.EnqueueEach | services/MusicService.js:366-381 | appending songs one at a time, opening the guild at each, equals opening it once and appending them all (no change for none) |
| Controller.Play | services/MusicService.js:52-108 | the guild always ends with a queue; the only errors are "Could not find the song." and "Failed to play the song." |
| Controller.PlayFound | services/MusicService.js:79-103 | the guild keeps its queue; the only error is "Failed to play the song." |
| Controller.PlayNotFound | services/MusicService.js:56-77 | a failed look-up still opens an unseen guild and changes nothing else; the reply is "Could not find the song.", or "Failed to play the song." exactly for a source hint on a non-URL |
| Controller.PlayFoundSpec | services/MusicService.js:79-103 | "Now playing" exactly when connectable and the queue had no songs (and a history exists), "Added to queue" exactly when connectable and it had songs (song at the back, nothing played, current song and history untouched); without a connection or voice channel the song stays queued and the reply is "Failed to play the song."; when connectable over an empty queue the guild has a player and ends with an empty queue; with a history the song joins the newest 50, and it is current and handed to the player exactly when its stream opens (otherwise nothing is played); without a history it becomes current unplayed and the reply is "Failed to play the song." |
| Controller.PlayNextStartsOne | services/MusicService.js:86-87 | advancing a guild with a player and a history over a one-song queue succeeds, empties the queue, remembers the song, and plays it exactly when its stream opens |
| Controller.PlayReportsYouTube | services/MusicService.js:88-102 | every successful `play` found its song and reports source "YouTube" |
| Controller.PlayWhilePlayingWithEmptyQueue | services/MusicService.js:86-94 | with a song playing and an empty queue, a found playable song is "Now playing", becomes current and is handed to the player |
| Controller.Pause | services/MusicService.js:170-178 | only the call log can change; without a player "No music is playing." and nothing changes; otherwise success and exactly one pause call |
| Controller.Resume | services/MusicService.js:180-188 | only the call log can change; without a player "No music is playing." and nothing changes; otherwise success and exactly one unpause call |
| Controller.Skip | services/MusicService.js:190-206 | only the call log can change (the queue is untouched); without a player it fails and changes nothing; otherwise one stop call, and the reply names the front song's title exactly when the queue is non-empty |
| Controller.SkipThenIdle | services/MusicService.js:190-206 | skipping with queue [B, C] names B; the Idle that follows makes B current, leaves [C] and appends B to the history |
| Controller.PreviousSpec | services/MusicService.js:208-231 | fails and changes nothing exactly without two songs of history; otherwise the history loses exactly its last two songs, the queue becomes [previous] + [current, if any] + old queue, and the reply names the previous song; current songs, players and connections are kept; the player, when there is one, gets exactly one stop call, and otherwise no call is made; no player needed |
| Controller.PreviousThenIdle | services/MusicService.js:208-231 | with history [A, B] and B current, going back queues [A, B] and names A; the Idle then makes A current and leaves [B] |
| Controller.StopSpec | services/MusicService.js:233-247 | without a player it fails and changes nothing; otherwise one stop call, the guild is in none of the five maps, other guilds are untouched, and the Idle that follows changes nothing |
| Controller.GetQueue | services/MusicService.js:249-251 | the guild's queue, or empty when it has none |
| Controller.Lookup | services/MusicService.js:347 | a value exactly when the table has the key; the value is one stored under that key |
| Controller.FoundSongs | services/MusicService.js:366-381 | at most one song per query; every song is a YouTube track |
| Controller.FoundSongsAppend | services/MusicService.js:366-381 | searching two runs of queries finds the first run's songs, then the second's, in order |
| Controller.PlayPlaylist | services/MusicService.js:346-394 | success only for a known playlist, counting at most as many songs as it has queries |
| Controller.LoadSongs | services/MusicService.js:383-393 | never a playlist error; on success the count is the number of songs found |
| Controller.PlayPlaylistSpec | services/MusicService.js:346-394 | an unknown name fails before the voice-channel check and changes nothing; no voice channel fails and changes nothing; otherwise the found songs are loaded |
| Controller.LoadSongsSpec | services/MusicService.js:363-393 | none found: success with 0, no change; otherwise the guild has a connection and a player; with a current song the songs are appended in order, current song and history are kept and nothing is played |
| Controller.LoadSongsAdvance | services/MusicService.js:383-393 | with no current song and a history, the reply counts the songs found and the guild has advanced over old queue + found songs (`AdvancedOver`: the songs up to the first playable one taken and remembered, that one current and played, or all taken and nothing played) |
| Controller.LoadSongsRejected | services/MusicService.js:383-393 | with no current song and no history (a guild that only played the radio) the command is rejected, because `playNext` throws outside any handler; the front song of old queue + found songs is current and nothing is played |
| Controller.AdvanceConnected | services/MusicService.js:137-168 | `playNext` on a guild with a player and a non-empty queue: without a history it throws with the front song current and nothing played; with one it succeeds with the outcome `AdvancedOver` describes |
| Controller.PlayRadioSpec | services/MusicService.js:396-431 | an unknown station fails and changes nothing; a known one plays its URL |
| Controller.PlayStationSpec | services/MusicService.js:409-426 | without connection or voice channel it fails and changes nothing; otherwise the queue is emptied, "<NAME> Radio" with the URL is current, the URL is handed to the player, the history is untouched (a new guild gets none) |
| Controller.StartStationPreservesInv | services/MusicService.js:414-424 | playing a station keeps the invariant and touches no other guild |
| Controller.PlayAfterRadioOnNewGuild | services/MusicService.js:420-424 | on a guild with no queue, radio leaves a queue without history, and a `play` that finds a song then fails with "Failed to play the song.", making the song current without playing it |
| Controller.KnownStation | config.js:10-13 | "elsol" is the one station known |
| Controller.StepPreservesInv | services/MusicService.js:15-19 | every command and notification keeps the invariant and changes no guild but its own |
| Controller.StepIsolatesGuilds | services/MusicService.js:15-19 | what any other guild holds in the five maps is the same after a command or notification as before |
| Controller.Run | services/MusicService.js:15-19 | any sequence of commands and notifications from a state satisfying the invariant ends in one |
| Controller.ReachableStates | services/MusicService.js:129-130 | in every reachable state a guild has a connection exactly when it has a player, a history only with a queue, and at most 50 songs of history |
| Service.MusicService.constructor | services/MusicService.js:14-19 | all five maps empty, no calls, and the invariant holds |
| Service.MusicService.CreateConnection | services/MusicService.js:110-135 | the fields become `Controller.CreateConnection` of the old ones; false exactly without a voice channel, leaving them as they were |
| Service.MusicService.PlayNext | services/MusicService.js:137-168 | fields and result are `Controller.PlayNext` of the old fields; the invariant is kept |
| Service.MusicService.TakeFront | services/MusicService.js:146-147 | returns the old front song and leaves the fields as `Controller.TakeFront` says |
| Service.MusicService.Remember | services/MusicService.js:149-153 | leaves the fields as `Controller.Remember` says |
| Service.MusicService.Play | services/MusicService.js:52-108 | fields and reply are `Controller.Play` of the old fields; the invariant is kept |
| Service.MusicService.PlayFound | services/MusicService.js:79-103 | fields and reply are `Controller.PlayFound` of the old fields |
| Service.MusicService.Pause | services/MusicService.js:170-178 | fields and reply are `Controller.Pause` of the old fields |
| Service.MusicService.Resume | services/MusicService.js:180-188 | fields and reply are `Controller.Resume` of the old fields |
| Service.MusicService.Skip | services/MusicService.js:190-206 | fields and reply are `Controller.Skip` of the old fields |
| Service.MusicService.Previous | services/MusicService.js:208-231 | fields and reply are `Controller.Previous` of the old fields |
| Service.MusicService.Stop | services/MusicService.js:233-247 | fields and reply are `Controller.Stop` of the old fields |
| Service.MusicService.GetQueue | services/MusicService.js:249-251 | returns `Controller.GetQueue` of the fields and changes nothing |
| Service.MusicService.Cleanup | services/MusicService.js:483-489 | leaves the fields as `Controller.Cleanup` says |
| Service.MusicService.PlayPlaylist | services/MusicService.js:346-394 | fields and reply are `Controller.PlayPlaylist` of the old fields |
| Service.MusicService.EnqueueFound | services/MusicService.js:364-381 | the count is the number of songs found, and the fields are the old ones with the guild opened and the found songs appended in order (unchanged when none) |
| Service.MusicService.EnqueueOne | services/MusicService.js:370-376 | opens the guild if needed and appends one song |
| Service.MusicService.PlayRadio | services/MusicService.js:396-431 | fields and reply are `Controller.PlayRadio` of the old fields |
| Service.MusicService.PlayStation | services/MusicService.js:409-430 | fields and reply are `Controller.PlayStation` of the old fields |
| Service.MusicService.StartStation | services/MusicService.js:414-424 | leaves the fields as `Controller.StartStation` says |
| Service.MusicService.OnIdle | services/MusicService.js:119-121 | leaves the fields as `Controller.OnIdle` says |
| Service.MusicService.OnDisconnected | services/MusicService.js:132-134 | leaves the fields as `Controller.OnDisconnected` says |

## Left out

- Spotify authentication and its self-rescheduling token refresh (services/MusicService.js:39-50): network access and timers.
- Voice and audio library internals: joining a channel, creating players and resources, ytdl streaming. Players and connections are serial-numbered handles, and the effects on a player are entries in a call log. Whether opening a song's stream in `playNext` throws is the abstract predicate `streamFails`.
- Registering the Idle and Disconnected listeners is not modelled as code. The two notifications are the explicit operations `OnIdle` and `OnDisconnected`.
- Catalog requests are abstract functions of their arguments. Asynchrony and the concurrency of `Promise.all` in `searchAll` are not modelled: the two searches are independent results.
- Console logging is left out.
- index.js is not part of this model: command parsing, reply and embed text, and the caller's voice-channel checks before `play` and `playRadio`. `voice` is an input to those operations. Neither is config.js's environment loading: its station table is a constant.
- getQueue returns the live queue array, so a caller could mutate it. The model returns a value and does not capture that aliasing.
- Tracks.SpotifyRecord: the duration is formatted from `durationMs / 1000` with integer division. JavaScript divides in floating point and would label fractional seconds.
- Strings.Upper: upper-cases ASCII letters only. `toUpperCase` also maps other letters and can change a string's length.
- Controller.Lookup: looks up only the declared keys of the playlist and station tables. JavaScript's own-property lookup would also see inherited names such as "constructor".
- Tracks.GetSpotifyTrack: when no track id can be extracted, the request for a null id is taken to reject, so the result is "no result".
- Controller.Previous: requires the invariant, under which every guild with a history has a queue. The source, without one, would throw after popping the history; that state is unreachable (`ReachableStates`).
- Controller.PlayRadio: requires the invariant, under which every connected guild has a player. Without one, `player.play` throws and the source replies "Failed to play radio station."; that state is unreachable.
- Controller.PlayStation: requires the invariant for the same reason as `Controller.PlayRadio`.
- Controller.Step: requires the invariant, because `Controller.Previous` and `Controller.PlayRadio` do.
- Helpers.FormatDurationRoundTrip: stated for whole numbers of seconds only. The only fractional input comes from Spotify durations (see `Tracks.SpotifyRecord`).
- Numbers are unbounded integers. JavaScript's double precision only matters beyond 2^53 seconds or songs.
- Controller.PlayStation: opening the station's stream and `player.play` are taken never to throw. So the model does not reach the "Failed to play radio station." reply that follows a successful join, in which the new connection stays stored. That reply is modelled only for a missing voice channel.
