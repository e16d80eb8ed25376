# Discord music bot: queue, downloads and cache, modelled in Dafny

The bot (`index.mjs`) keeps one queue record per guild: upcoming `tracks`, the
`previous` history, the `current` track, a `playing` flag, the voice
`connection`, the panel `message` and the `textChannel`. Audio comes from
yt-dlp and lands in a shared `cache` directory as `VIDEOID-<id>.mp3`. A global
counter caps the running downloads at `MAX_PARALLEL_DOWNLOADS` (1). Requests
over the cap wait in a per-guild FIFO.

The model covers:

- **Media** (`media.dfy`): the track record, watch URLs and cache file names.
- **Text** (`text.dfy`): JavaScript `trim`, `split("\n")` and decimal
  rendering, as the resolver uses them.
- **Url** (`url.dfy`): `getVideoIdFromUrl` and `isPurePlaylistUrl`. Each regular
  expression becomes an explicit leftmost scan over positions.
- **Resolver** (`resolver.dfy`): `extractPlaylist` (the pairing loop is a
  method proved against a recursive specification), `resolveSingleVideo`,
  and the dispatch between them in the play command. The yt-dlp run is an
  input: it either threw or printed some text.
- **Downloads** (`downloads.dfy`): `downloadAudio` and `processQueue` as spec
  functions on `SlotState`, plus the class `DownloadSlots` that updates the two
  globals in place.
- **Cache** (`cache.dfy`): the keep set and eviction of `clearGuildCache`, and
  the hourly expiry sweep, on a listing from file name to `mtimeMs` (a real
  number, since Node reports it with a fractional part). The class
  `CacheDir` runs the deletion loops.
- **Playback** (`playback.dfy`): the queue record as `QueueState`, with the
  transitions `Select` (the synchronous part of `playNext`), `Succeed`,
  `PanelUpdated` (`updatePlayerMessage`), `Stopped`, `Enqueued` and
  `Disconnected`. The class `GuildQueue` realises
  them with `shift`/`pop`/`push`/`unshift`.
- **Bot** (`bot.dfy`): the registry `queues`, lazy creation, `playNext`,
  `clearGuildCache`, the play/skip/back/stop handlers, the panel update,
  the player error handler and the sweep, composed from the classes above.
  `PlayNextStep` states what `playNext` does to a guild's record, the slot
  state and the cache listing together, and every handler that calls it
  is specified by it.

Asynchrony is cut into atomic steps. `PlayNext` ends with the download
request. The awaited result comes back later as `Fetched` or `FetchFailed`,
a running download ends with `DownloadFinished`, and the panel update
started after a successful fetch ends with `PanelRefreshed`. Whether a file exists,
how a process ended, the tool's output and the clock are all parameters.

Three behaviours of the code worth knowing, all modelled as written:

- On completion, `processQueue` drains only the finishing download's own
  guild FIFO, not any guild's (index.mjs:110, 122, 135-142).
- The cache-hit test is existence only. It does not check that the file is
  non-empty (index.mjs:89).
- Two concurrent requests for the same file are not merged. Each one starts
  or queues its own download (index.mjs:88-131).

## Model

| member | source | states |
|---|---|---|
| Media.WatchUrl | index.mjs:200 | The watch URL is the prefix `https://www.youtube.com/watch?v=` followed by exactly the id. |
| Media.CacheFileName | index.mjs:174 | The cache name is `VIDEOID-`, then the id, then `.mp3`, with its length fixed by the id. |
| Media.CacheFileNameInjective | index.mjs:328 | Two tracks share a cache file exactly when they share an id. |
| Text.TrimStart | index.mjs:195 | Drops a prefix that is all white space. What is left does not start with white space. |
| Text.TrimEnd | index.mjs:195 | Drops a suffix that is all white space. What is left does not end with white space. |
| Text.Trim | index.mjs:195 | The result is a contiguous piece of the input with no white space at either end, and everything cut off before and after it is white space. |
| Text.CutBounds | index.mjs:195 | Cutting white space off the front and then off the back leaves the piece between two all-space parts. |
| Text.TrimIdempotent | index.mjs:198-199 | Trimming an already trimmed string (each line of trimmed output) changes nothing. |
| Text.Lines | index.mjs:195 | `split("\n")` gives at least one piece, and no piece holds a line feed. |
| Text.JoinLinesOfLines | index.mjs:195 | Joining the pieces with line feeds gives back the text. |
| Text.LinesOfJoinLines | index.mjs:195 | Splitting joined feed-free lines gives back the lines. |
| Text.NatToString | index.mjs:198 | Decimal rendering: non-empty, digits only, no leading zero. |
| Text.DecimalValueOfNatToString | index.mjs:198 | Reading the rendering back gives the number. |
| Url.IdRun | index.mjs:64 | The greedy `[A-Za-z0-9_-]+` capture is a prefix of id characters that stops at the end or at a non-id character. |
| Url.FirstHit | index.mjs:68 | The search returns the leftmost matching position, or none when no position matches. |
| Url.GetVideoIdFromUrl | index.mjs:61-75 | A returned id has at least six characters, all id characters. |
| Url.NoVideoIdIff | index.mjs:61-75 | There is no id exactly when neither marker anywhere is followed by six id characters. |
| Url.VideoIdIsLeftmostCapture | index.mjs:64-72 | The id is the whole run at the leftmost matching `youtu.be/`. If none matches, it is the run at the leftmost matching `?v=`/`&v=`. |
| Url.HitIffOccurs | index.mjs:79-80 | A bare marker matches at a position exactly when one of its literal spellings occurs there. |
| Url.HasMarkerIffContains | index.mjs:79-80 | The scan finds a marker exactly when the text contains one of its spellings. |
| Url.PurePlaylistIff | index.mjs:77-82 | A pure playlist contains `?list=` or `&list=`, and none of `?v=`, `&v=`, `youtu.be/`. The converse also holds. |
| Url.IsPurePlaylistUrl | index.mjs:77-82 | A pure playlist has a playlist marker, and never yields a direct video id, so the two resolution paths never both claim an input. |
| Url.NoVideoMarkerNoId | index.mjs:64-80 | Without a bare `?v=`, `&v=` or `youtu.be/` there is no direct video id. |
| Url.ShortVideoIdGoesToSearch | index.mjs:68-69 | Example: a link with `list=` and a `v=` id shorter than six characters is neither a pure playlist nor a direct id. It goes to the search path. |
| Resolver.DefaultTitle | index.mjs:198 | An untitled entry is named `Música ` followed by its 1-based pair number. |
| Resolver.Fields | index.mjs:198-199 | Each output line is trimmed, and the number of lines is kept. |
| Resolver.PairTrack | index.mjs:197-201 | A pair gives a track exactly when its id line exists and is non-empty. The track's URL is the watch URL of that id. Its title is the title line, or the default when that line is empty. |
| Resolver.PlaylistOf | index.mjs:197-201 | At most one track per pair, so at most ceil(lines / 2) tracks. |
| Resolver.Playlist | index.mjs:195-201 | The playlist of the printed text has at most one track per pair of lines, each with a non-empty id, its watch URL and a non-empty title. |
| Resolver.PlaylistWellFormed | index.mjs:197-201 | Every track comes from some pair and has a non-empty id, its watch URL and a non-empty title. |
| Resolver.PlaylistComplete | index.mjs:197-201 | With all id lines non-empty, the k-th track comes from the k-th pair. |
| Resolver.PlaylistCount | index.mjs:197-201 | With all id lines non-empty, the output gives exactly lines / 2 tracks, rounded down: a trailing lone title adds nothing. |
| Resolver.PairUp | index.mjs:197-201 | The `i += 2` loop builds exactly the specified playlist. |
| Resolver.ExtractPlaylist | index.mjs:190-206 | No tracks when the tool throws. Otherwise the playlist of the trimmed, split and trimmed output. |
| Resolver.ResolveSingleVideo | index.mjs:211-238 | At most one track, none when the tool throws. With a direct id, the track keeps the input as its URL and the trimmed output as its title. Without one, there is a track exactly when the output has two lines, made of the first two lines with a watch URL. |
| Resolver.Resolution | index.mjs:549-557 | A pure playlist with a failing tool gives no tracks, and a pure playlist's tracks all carry a non-empty id and that id's watch URL, never the playlist link. An input that is not a pure playlist gives at most one track. |
| Resolver.Resolve | index.mjs:549-557 | The dispatch yields exactly `Resolution`. |
| Downloads.TrackJob | index.mjs:328-331 | A track's download job targets its URL and its cache file. |
| Downloads.Admit | index.mjs:88-131 | An existing file resolves at once and changes nothing. Otherwise the job starts (counter + 1) exactly when below the cap. Above it, the job is appended to its own guild's FIFO and no other FIFO changes. |
| Downloads.ProcessQueueStep | index.mjs:135-143 | The guild's FIFO front starts exactly when that FIFO is non-empty and a slot is free. It is removed from the FIFO and the counter rises. Otherwise nothing changes. |
| Downloads.CompleteStep | index.mjs:108-124 | One run of a completion handler: the counter ends one lower, or unchanged when the same guild's FIFO front took the slot. Only that guild's FIFO can shrink. |
| Downloads.DropGuildStep | index.mjs:166-169 | The guild's FIFO is gone, and every other FIFO and the counter are unchanged. |
| Downloads.StepsKeepCap | index.mjs:52-53 | Requests, completions of a running download and drops keep the counter between 0 and `MAX_PARALLEL_DOWNLOADS`. |
| Downloads.CompleteStartsOwnFront | index.mjs:108-124 | A completion decrements the counter, then starts at most one job: exactly the front of the same guild's FIFO. Other guilds' FIFOs are untouched. |
| Downloads.StepsKeepFifosOwned | index.mjs:128-130 | Each guild's FIFO holds only that guild's jobs, after every step. |
| Downloads.DroppedJobsNeverStart | index.mjs:167-168 | After a guild's FIFO is dropped, no completion starts a job of that guild, so those requests never settle. |
| Downloads.CompleteStallsOtherGuild | index.mjs:135-142 | Example: guild b downloads, guild a queues behind it, b finishes. The slot is free, yet a's job waits (see Findings). |
| Downloads.SpawnFailedAsWritten | index.mjs:108-124 | A spawn failure runs both handlers: the counter drops by two, less one per job started, and at most two jobs start. |
| Downloads.SpawnFailureReleasesTwice | index.mjs:108-124 | Example: a spawn failure with two jobs waiting starts both, with the counter at 1; with none waiting the counter reaches -1 and the next two requests both start (see Findings). |
| Downloads.CompleteAnyGuild | index.mjs:135-142 | Corrected completion: frees the slot, then starts the own guild's front or else any waiting guild's front. |
| Downloads.IntendedStepsKeepNoIdleWait | index.mjs:88-143 | With the corrected completion, the cap and "no job waits while a slot is free" hold from the start state through every request, drop and completion. |
| Downloads.AdmitAll | index.mjs:345-348 | Sequential requests give one admission per job. |
| Downloads.AdmitAllKeepsCap | index.mjs:345-348 | A run of requests keeps the cap. |
| Downloads.AdmitAllSnoc | index.mjs:345-348 | Requesting one more job extends the run by one `Admit`. |
| Downloads.DownloadSlots.constructor | index.mjs:53-54 | Starts with no active download and no FIFOs. |
| Downloads.DownloadSlots.Request | index.mjs:88-131 | The in-place update equals `Admit` and keeps the cap. |
| Downloads.DownloadSlots.ProcessQueue | index.mjs:135-143 | The in-place update equals `ProcessQueueStep`. |
| Downloads.DownloadSlots.Complete | index.mjs:108-124 | Equals one completion step, also for a spawn failure, and keeps the cap. The request succeeds exactly when the process closed and left the file. |
| Downloads.DownloadSlots.DropGuild | index.mjs:166-169 | Equals `DropGuildStep`. |
| Downloads.DownloadSlots.Prefetch | index.mjs:345-348 | The loop over the next three tracks equals `AdmitAll` of their jobs, in order. |
| Cache.FilesOf | index.mjs:173-174 | The cache files of some tracks: one per track at most, each track's file included, nothing else. |
| Cache.Upcoming | index.mjs:173 | `slice(0, 3)`: the first at most three tracks. |
| Cache.KeepSet | index.mjs:171-174 | The keep set has at most 4 names: the current track's file and the files of the first three queued tracks, and nothing else. |
| Cache.Retained | index.mjs:176-182 | Every remaining `VIDEOID-` file is in the keep set. Keep-set files that existed remain. Files without the prefix remain. Nothing new appears and no mtime changes. |
| Cache.RetainedIdempotent | index.mjs:176-182 | Evicting again with the same keep set deletes nothing more. |
| Cache.Fresh | index.mjs:158 | A file survives the sweep exactly when its mtime is at least `now - CACHE_DURATION`. |
| Cache.Swept | index.mjs:152-159 | A file, prefixed or not, remains exactly when `now - mtime <= CACHE_DURATION`. No mtime changes. |
| Cache.SweepBoundary | index.mjs:55 | A file exactly 24 h old survives. One any fraction of a millisecond older is deleted. |
| Cache.LaterSweepSubsumes | index.mjs:150-161 | A later sweep removes everything an earlier one would have removed. |
| Cache.EvictionAndSweepCommute | index.mjs:152-182 | Evicting then sweeping leaves the same listing as sweeping then evicting. |
| Cache.CacheDir.constructor | index.mjs:44-45 | The directory with the given presence and listing. |
| Cache.CacheDir.EvictExcept | index.mjs:176-182 | The deletion loop leaves exactly `Retained`. |
| Cache.CacheDir.Sweep | index.mjs:150-160 | Nothing changes when the directory is missing. Otherwise the loop leaves exactly `Swept`. |
| Playback.Initial | index.mjs:425-434 | A new record holds no track, is not playing, and holds no connection, panel or text channel. |
| Playback.Select | index.mjs:303-326 | Teardown exactly for a forward call on an empty queue. "Nothing selected" exactly for a back call with empty history and empty queue; then the current track is pushed onto the history and stays current. A selection makes the track current and leaves `playing` alone. |
| Playback.Succeed | index.mjs:337-340 | After a successful fetch, `playing` is true and nothing else changes. |
| Playback.Stopped | index.mjs:453-461 | Stop empties `tracks` and `previous` and releases the connection and the panel. `current`, `playing` and the text channel are kept. |
| Playback.Enqueued | index.mjs:547-576 | The text channel is recorded and the found tracks are appended. A connection is joined only when tracks were found and none was held. `playNext` is due exactly when tracks were found and nothing plays. |
| Playback.PanelUpdated | index.mjs:243-294 | Only the panel handle can change. A successful edit keeps it. With no text channel, or a failed send, nothing changes. Otherwise the handle becomes the message just sent. |
| Playback.Disconnected | index.mjs:360-367 | A player error releases the connection. The record keeps its panel handle. |
| Playback.ConnectionErrorsUnheard | index.mjs:369-376 | Example: the record `setupPlayerEvents` sees (index.mjs:435) holds no connection, so the connection error listener is never attached, while the play command later joins one (see Findings). |
| Playback.PanelPostedThenReleased | index.mjs:281-312 | A panel sent after the play command is the one the record holds; a stop or a teardown lets go of it. |
| Playback.ForwardAdvance | index.mjs:317-323 | A forward call with queued tracks (a back call with no history included) makes the front track current, removes it from `tracks`, and appends the old current to `previous`. The multiset `previous ++ [current] ++ tracks` is preserved. |
| Playback.BackAdvance | index.mjs:317-319 | A back call with history pops the last played track into `current` and prepends the old current to `tracks`. The multiset is preserved. |
| Playback.BackUndoesForward | index.mjs:317-326 | Forward then back restores the record whenever a track was current. |
| Playback.ForwardUndoesBack | index.mjs:317-326 | Back then forward restores the record whenever a track was current. |
| Playback.ExhaustedQueueTearsDown | index.mjs:303-313 | A forward call on an empty queue stops playing and releases the connection and panel. `tracks`, `previous` and `current` are kept. |
| Playback.BackWithoutHistoryDuplicatesCurrent | index.mjs:320-325 | A back call with empty history and empty queue selects nothing, yet pushes the current track into `previous`, so that track is held twice. |
| Playback.FailedTrackIsSkipped | index.mjs:332-335 | After a failed fetch, the failed track goes to the end of `previous` and the next queued track is selected. If none is queued, playback is torn down with the failed track still current. |
| Playback.StopKeepsPlaying | index.mjs:605-613 | Stopping during playback keeps `playing`. A following play command queues its tracks but does not call `playNext` itself. |
| Playback.PlaySkipBackStop | index.mjs:536-633 | Example run: play two tracks, skip, back, stop, with the states after each step. |
| Playback.GuildQueue.constructor | index.mjs:425-434 | A new record is the empty initial one. |
| Playback.GuildQueue.SelectNext | index.mjs:303-326 | The in-place array surgery equals `Select`. |
| Playback.GuildQueue.MarkPlaying | index.mjs:340 | Equals `Succeed`. |
| Playback.GuildQueue.Stop | index.mjs:605-611 | Equals `Stopped`. |
| Playback.GuildQueue.Enqueue | index.mjs:547-576 | Equals `Enqueued`. |
| Playback.GuildQueue.UpdatePanel | index.mjs:276-292 | Equals `PanelUpdated`. |
| Playback.GuildQueue.Disconnect | index.mjs:362-363 | Equals `Disconnected`. |
| Bot.KeepOf | index.mjs:170-174 | A guild without a record keeps nothing. Otherwise the keep set of its current and queued tracks. |
| Bot.EmptyQueueKeepsOnlyCurrent | index.mjs:305-311 | After a teardown or a stop the queue is empty, so eviction spares only the current track's file. |
| Bot.Cleared | index.mjs:164-185 | With the directory missing nothing changes. Otherwise the guild's FIFO is dropped and the listing keeps only what the record's keep set spares. |
| Bot.PlayNextStep | index.mjs:299-331 | The record takes the `Select` step. A selection is admitted as that track's download and leaves the listing alone. A teardown clears the guild's cache. "Nothing selected" changes only the record. |
| Bot.PlayNextKeepsCapAndFiles | index.mjs:299-331 | `playNext` keeps the slot cap, and deletes cache files only after a teardown, and then only `VIDEOID-` files. |
| Bot.Bot.constructor | index.mjs:51-54 | Empty registry and initial slots. |
| Bot.Bot.EnsureQueue | index.mjs:421-436 | An existing record is reused. Otherwise a fresh initial record is registered, and no other entry changes. |
| Bot.Bot.ClearGuildCache | index.mjs:164-185 | Nothing when the directory is missing. Otherwise the guild's FIFO is dropped and the listing becomes `Retained` with the guild's keep set. |
| Bot.Bot.PlayNext | index.mjs:299-331 | Nothing without a record. Otherwise the record, the slots and the listing take exactly `PlayNextStep`. |
| Bot.Bot.Fetched | index.mjs:337-348 | `playing` becomes true, and the next three tracks are requested in order. |
| Bot.Bot.PanelRefreshed | index.mjs:342 | The registered record takes the `PanelUpdated` step. |
| Bot.Bot.FetchFailed | index.mjs:332-335 | The forward call is repeated: record, slots and listing take the forward `PlayNextStep`. |
| Bot.Bot.DownloadFinished | index.mjs:108-124 | One completion step, with `processQueue` on the own guild as written, and the slot cap kept. Success exactly when the file is there. |
| Bot.Bot.Play | index.mjs:536-579 | The reply counts the resolved tracks. The record takes the `Enqueued` step, then, when nothing was playing, record, slots and listing take the forward `PlayNextStep`; otherwise slots and listing are unchanged. Only a missing guild is added to the registry. |
| Bot.Bot.Skip | index.mjs:597-604 | The (lazily created) record, the slots and the listing take the forward `PlayNextStep`. Only a missing guild is added to the registry. |
| Bot.Bot.Back | index.mjs:620-633 | A back `PlayNextStep` exactly when there is history. Otherwise record, slots and listing are unchanged. Only a missing guild is added to the registry. |
| Bot.Bot.Stop | index.mjs:605-619 | The record is `Stopped`, then the cache is cleared with the stopped record's keep set. Only a missing guild is added to the registry. |
| Bot.Bot.FatalError | index.mjs:360-367 | The player error handler: the connection is released. The cache is cleared with the keep set of the record still registered. The guild leaves the registry. |
| Bot.Bot.HourlySweep | index.mjs:150-161 | One sweep of the directory at `now`. |

## Left out

- The chat platform client, command registration, interaction replies and defers, pause/resume, the download button's upload, and the panel's text, buttons and the deletion calls. These are third-party objects and network I/O. What the platform answers to an edit or a send is a parameter of `PanelUpdated`; only the handle it leaves on the record is modelled.
- The voice library: the audio player, resources and `subscribe`. Connections and panel messages are opaque handles.
- The `once(Idle)` listener that calls `playNext` again, and the timer behind the hourly sweep. This is event wiring and time. Each handler is an atomic step, so interleavings of a skip with a pending advance are not modelled.
- The slash-command check that the user is in a voice channel. It only produces an error reply after the record has been created lazily.
- The yt-dlp processes, `execSync`, `spawn`, `existsSync` and `readdirSync`. Their outcomes are parameters: the directory's presence and its listing.
- Cache.CacheDir.EvictExcept and Cache.CacheDir.Sweep take every `statSync`, `unlinkSync` and `rmSync` to succeed. The source swallows a failure of these in an empty `catch`, and that entry stays in the directory: a directory named `VIDEOID-…`, a permissions error, or a file that vanishes between `readdirSync` and `statSync`. `Cache.Retained`, `Cache.Swept` and `Bot.Cleared` describe the listing only under this assumption.
- Downloads do not write files into the modelled listing. Whether a file exists is an input at each request.
- Downloads.DownloadSlots.Complete: a process that fails to spawn always emits `error` and then `close`, so the source decrements the counter twice and calls `processQueue` twice. The class gives each download one completion, the corrected behaviour; the as-written double release is `Downloads.SpawnFailedAsWritten` (see Findings).
- The `error` event of a process that did spawn (a failed kill or message) is not modelled.
- Bot.Bot.Fetched: when the guild's record was removed or replaced while its fetch was running, the source still marks the record it captured as playing and prefetches from that record's tracks. The model does nothing for a guild that is not registered, and acts on the record registered now when it was replaced.
- Bot.Bot.PanelRefreshed: the same holds for a panel update that finishes after its record was removed or replaced; the source stores the handle on the record it captured.
- Bot.Bot.FatalError models the player error handler only. The connection error handler is never attached (see Findings); were it attached, its body is the same.
- Bot.Bot.FatalError: when the error fires after the record was already removed, the source releases the connection of the record its handler captured. The model has no such record, so it only clears the cache with an empty keep set.
- Bot.Bot.DownloadFinished keeps the own-guild `processQueue` as written, not the corrected `Downloads.CompleteAnyGuild`, so the stall below stays part of the modelled behaviour; it releases a spawn failure once, not twice.

## Findings

| source | as written | input that shows it | evidently intended | confidence | as-written member | corrected member |
|---|---|---|---|---|---|---|
| index.mjs:110, 122, 135-142 | A finishing download calls `processQueue` with its own guild id, which drains only that guild's FIFO. | Guild b starts a download. Guild a requests while it runs and is deferred. b's download closes: the counter drops to 0, but a's FIFO still holds its job, and nothing will start it until a itself requests again. | A freed slot goes to the next deferred job of any guild, so no job waits while a slot is free. | medium, not executed | Downloads.CompleteStallsOtherGuild | Downloads.CompleteAnyGuild |
| index.mjs:108-124 | A process that fails to spawn emits `error` and then `close`, and both handlers decrement `activeDownloads` and call `processQueue`. | A download of guild g fails to spawn while g's FIFO holds j1 and j2: both start and run together with the counter at 1. With an empty FIFO the counter becomes -1 and the next two requests both start. | Each download releases its slot once, so the counter stays between 0 and `MAX_PARALLEL_DOWNLOADS`. | high, not executed | Downloads.SpawnFailureReleasesTwice | Downloads.DownloadSlots.Complete |
| index.mjs:369-376 | `setupPlayerEvents` attaches the connection error listener with `queue.connection?.on`, and it runs only once (index.mjs:435), on the fresh record, whose connection is null. | Any guild: play joins a connection (index.mjs:568-573); a later connection error reaches none of the bot's listeners, so the teardown of index.mjs:370-375 does not run. | A connection error tears the guild down like a player error. | high, not executed | Playback.ConnectionErrorsUnheard | Bot.Bot.FatalError |
