# Yukie music bot: a Dafny model of its playback core

This project models the parts of the yukie-music-spotify-discord bot that decide what happens, as opposed to the parts that move audio bytes or talk to Discord and Spotify. Five pieces are modelled:

- **The per-guild playback sessions.** Each guild (a Discord server) has a queue, a current track, an `isPlaying` flag and a volume. Both `MusicService` classes drive these sessions: the current one in `src/services/MusicService.ts`, and an earlier copy that `src/commands/PlayCommand.ts` declares despite its file name. Each class is modelled with its maps:
  - `queues`, `connections` and `players`;
  - in the current service only, the process-wide `videoCache`.

  `play` is split at its synchronous steps:
  - the guard and dequeue;
  - source resolution, which in the service goes through the cache and the last stdout chunk of the search, and in the older copy concatenates all of stdout and checks the exit code;
  - attaching a player;
  - the player's Idle and error events, and the catch block.

  The 500 ms re-play timer and the 30 000 ms empty-channel check become pending actions that `FireReplay` and `FireIdleCheck` consume.
- **The chat command dispatcher** (`CommandHandler`). It covers:
  - the prefix default;
  - the name registry that `loadCommands` fills;
  - the parse of a message: prefix test, slice, `trim`, `split(/ +/)`, and lower-casing the first word;
  - the dispatch decision, including the error reply when a command throws.
- **Spotify id extraction and track mapping** (`SpotifyService`). It covers:
  - the two regular-expression extractors;
  - the 22-character playlist-id check;
  - the item filter of `getPlaylistTracks`;
  - the mapping of a Web API track into a `Track`.

  Responses are given as values.
- **The queue listing** (`QueueCommand`). It covers the empty-queue reply, the now-playing field, and the up-next field. The up-next field shows at most ten numbered lines with whole-minute durations, an overflow suffix, and the full count in its header.
- **JavaScript string semantics the above depend on** (`JsText`). These are:
  - `trim` with the ECMAScript whitespace set;
  - `split(/ +/)`;
  - `toLowerCase` as far as it matters for ASCII command names;
  - `join`;
  - decimal rendering of numbers;
  - `String.length` counted in UTF-16 code units.

Files: `wrappers.dfy` (`Option`, `Result`), `text.dfy`, `sessions.dfy`, `music_service.dfy`, `play_command.dfy`, `variants.dfy` (how the two `MusicService` copies differ), `command_handler.dfy`, `spotify_service.dfy`, `queue_command.dfy`.

Connection and player objects are opaque `nat` tokens. Anything read from outside comes in as a parameter:
- the search's stdout chunks and exit code;
- the member counts of a voice channel;
- the value of the `PREFIX` environment variable;
- whether a command's `execute` throws;
- the Spotify responses.

Sessions are values stored in the `queues` map. The source mutates one shared session object in place, and the model replaces the map entry instead.

A few behaviours of the code are easy to misread; the model keeps each as the code has it:
- **Joining a channel.** `joinChannel` stores whatever `joinVoiceChannel` returns, replacing the guild's entry, and adds one more Disconnected listener on each call. The library call may hand back the guild's existing connection or a new one. `JoinChannel` takes that handle as a parameter, so it may equal the old one, and overwrites the entry either way.
- **Direct links.** Both `play` implementations search for `artist + " " + title` even when the track's `url` already names a video.
- **A failed resolution.** `play` sets `isPlaying` before it resolves the source, and only the catch block clears it, so a track whose resolution fails is marked as playing until then. `ScenarioResolutionFails` shows this sequence.
- **Stream errors.** The source's own listeners on the streams only log: `ytdlp.stdout` at src/services/MusicService.ts:69, and `ytdlp.stdout` and `ffmpeg.stdin` at src/commands/PlayCommand.ts:84 and :90, which skip EPIPE. The stream handed to `createAudioResource` is the audio resource's input: `ytdlp.stdout` in the service, and `ffmpeg.stdout` in the older copy, which has no listener of its own. Whether a failure of that stream reaches the player as its `error` event is up to @discordjs/voice. The model covers that case with `OnPlayerError`, which the caller may raise at any time.

## Model

| member | source | states |
|---|---|---|
| Sessions.Dequeued | src/services/MusicService.ts:89-91 | the old head becomes the current track, the remaining queue is exactly the old tail, and the session is playing at the same volume |
| Sessions.NewQueue | src/services/MusicService.ts:24-29 | the session `getQueue` installs, {[], null, false, 50}; `TransitionsKeepInvariant` proves it meets the session invariant and `ReplyFields` that it is listed as an empty queue |
| Sessions.SearchQuery | src/services/MusicService.ts:94 | the search text is the artist, one space, then the title, and both parts can be read back from it |
| Sessions.WatchUrl | src/services/MusicService.ts:113 | the watch URL is the fixed YouTube prefix followed by the id, which can be read back after the prefix |
| Sessions.MayStart | src/services/MusicService.ts:87 | the guard of `play`; `PlayIsGuardedWhilePlaying` proves it fails once a track has started, and `BeginPlay` dequeues exactly when it holds |
| Sessions.Finished | src/services/MusicService.ts:131-132 | what the Idle listener, the error listener (:138-139) and the catch block (:143-144) leave; `TransitionsKeepInvariant` proves it keeps the session invariant, and `FinishTrack` applies it to the guild's entry |
| Sessions.ArmsIdleCheck | src/services/MusicService.ts:190-195 | the arming condition of `handleVoiceStateUpdate`; `HandleVoiceStateUpdate` arms one check exactly when it holds |
| Sessions.DequeueKeepsEveryTrack | src/services/MusicService.ts:89-90 | the current track plus the remaining queue hold, as a multiset, exactly what the queue held before the dequeue |
| Sessions.AppendAllInOrder | src/services/MusicService.ts:52-55 | any series of `addToQueue` calls leaves the old queue followed by every argument in call order, without deduplication; the current track, the playing flag and the volume do not change |
| Sessions.TransitionsKeepInvariant | src/types/Track.ts:11-16 | a new session, appending, dequeueing and finishing all keep "a current track exactly while playing", and the volume stays at 50 |
| Sessions.PlayIsGuardedWhilePlaying | src/services/MusicService.ts:87 | once a `play` has started, a second `play` fails the guard, so only one stream gets attached |
| Sessions.DuplicateStaysQueued | src/services/MusicService.ts:54 | with a duplicate in the queue, the current track can equal a queued one: "never both current and queued" holds for queue positions, not for values |
| MusicServiceModel.ServiceVideoId | src/services/MusicService.ts:106-109 | an id exists iff stdout had at least one chunk and the last chunk is not blank; the id is that chunk trimmed, and it is never empty |
| MusicServiceModel.MusicService.constructor | src/services/MusicService.ts:17-20 | all maps start empty and nothing is pending |
| MusicServiceModel.MusicService.GetQueue | src/services/MusicService.ts:22-31 | an absent guild gets the session {[], null, false, 50}; a present guild's session comes back as it was; no other guild's entry changes |
| MusicServiceModel.MusicService.JoinChannel | src/services/MusicService.ts:34-50 | the guild's connection is the new handle, which replaces any earlier one; other guilds are untouched |
| MusicServiceModel.MusicService.AddToQueue | src/services/MusicService.ts:52-55 | the guild's session (created if needed) has its tracks extended by the argument in order; nothing else changes |
| MusicServiceModel.MusicService.BeginPlay | src/services/MusicService.ts:84-91 | with a connection, a non-empty queue and nothing playing, the head is returned and the session is dequeued; otherwise nothing is returned and the session stays as `getQueue` left it |
| MusicServiceModel.MusicService.ResolveSource | src/services/MusicService.ts:94-113 | searches exactly when `artist + " " + title` is not cached; a hit returns the cached URL; a miss with an id caches that id and returns its watch URL; a miss without an id fails with "Video ID not found" and caches nothing; cached ids stay non-empty |
| MusicServiceModel.MusicService.AttachPlayer | src/services/MusicService.ts:120-125 | an existing player is reused; otherwise the new one is stored for the guild |
| MusicServiceModel.MusicService.FinishTrack | src/services/MusicService.ts:130-146 | clears the current track and the playing flag and leaves the queue alone; when asked to, it schedules one re-play exactly when tracks remain |
| MusicServiceModel.MusicService.OnPlayerIdle | src/services/MusicService.ts:130-134 | clears, and schedules a 500 ms re-play exactly when tracks remain |
| MusicServiceModel.MusicService.OnPlayerError | src/services/MusicService.ts:136-140 | clears and schedules nothing |
| MusicServiceModel.MusicService.OnPlayFailed | src/services/MusicService.ts:141-146 | clears, and schedules a re-play exactly when tracks remain |
| MusicServiceModel.MusicService.FireReplay | src/services/MusicService.ts:133 | consumes one pending re-play and runs the `play` guard and dequeue for its guild |
| MusicServiceModel.MusicService.Skip | src/services/MusicService.ts:149-160 | returns true iff the guild has a player and is playing, and then clears the session; otherwise returns false and changes nothing beyond `getQueue`'s default session |
| MusicServiceModel.MusicService.Stop | src/services/MusicService.ts:162-172 | afterwards the guild has no entry in queues, connections or players; other guilds and the cache are untouched |
| MusicServiceModel.MusicService.Disconnect | src/services/MusicService.ts:174-178 | removes the guild from all three maps and nothing else |
| MusicServiceModel.MusicService.Cleanup | src/services/MusicService.ts:180-184 | removes the guild from all three maps; the video cache is kept |
| MusicServiceModel.MusicService.OnConnectionDisconnected | src/services/MusicService.ts:45-47 | a dropped connection cleans the guild up |
| MusicServiceModel.MusicService.HandleVoiceStateUpdate | src/services/MusicService.ts:186-203 | arms one idle check exactly when the old channel id is set, that channel has zero human members and the guild has a connection |
| MusicServiceModel.MusicService.FireIdleCheck | src/services/MusicService.ts:196-200 | consumes the check, and disconnects the guild only if the channel still has zero human members |
| PlayCommandService.VariantVideoId | src/commands/PlayCommand.ts:124-130 | an id exists iff the exit code is 0 and the concatenated stdout is not blank; the id is that text trimmed |
| PlayCommandService.LoggedPipeErrors | src/commands/PlayCommand.ts:84-94 | an error is logged iff its code is not EPIPE, for both pipe ends |
| PlayCommandService.LoggedPipeErrorsAppend | src/commands/PlayCommand.ts:84-94 | logging keeps the arrival order of errors |
| PlayCommandService.MusicService.constructor | src/commands/PlayCommand.ts:17-19 | the three maps start empty and nothing is pending |
| PlayCommandService.MusicService.GetQueue | src/commands/PlayCommand.ts:21-31 | as in the service: defaults for an absent guild, the same session otherwise, other guilds untouched |
| PlayCommandService.MusicService.JoinChannel | src/commands/PlayCommand.ts:33-49 | the guild's connection is replaced by the new handle |
| PlayCommandService.MusicService.AddToQueue | src/commands/PlayCommand.ts:51-54 | appends in argument order and changes nothing else |
| PlayCommandService.MusicService.SearchYoutubeUrl | src/commands/PlayCommand.ts:101-131 | appends every stdout chunk; resolves to the watch URL of the trimmed text iff the exit code is 0 and that text is not blank, and otherwise rejects with "Video ID not found" |
| PlayCommandService.MusicService.BeginPlay | src/commands/PlayCommand.ts:134-141 | the same guard and head dequeue as the service |
| PlayCommandService.MusicService.AttachPlayer | src/commands/PlayCommand.ts:153-158 | reuses the guild's player, or stores the new one |
| PlayCommandService.MusicService.FinishTrack | src/commands/PlayCommand.ts:163-179 | clears the session, and schedules a re-play exactly when tracks remain |
| PlayCommandService.MusicService.OnPlayerIdle | src/commands/PlayCommand.ts:163-167 | clears, and re-plays when tracks remain |
| PlayCommandService.MusicService.OnPlayerError | src/commands/PlayCommand.ts:169-174 | clears, and, unlike the service, re-plays when tracks remain |
| PlayCommandService.MusicService.OnPlayFailed | src/commands/PlayCommand.ts:175-180 | clears, and re-plays when tracks remain |
| PlayCommandService.MusicService.FireReplay | src/commands/PlayCommand.ts:166 | consumes one pending re-play and runs the guard and dequeue |
| PlayCommandService.MusicService.Skip | src/commands/PlayCommand.ts:183-194 | true iff a player exists and the guild is playing, and then both fields are cleared; otherwise no field changes |
| PlayCommandService.MusicService.Stop | src/commands/PlayCommand.ts:196-206 | the guild ends with no entry in any of the three maps |
| PlayCommandService.MusicService.Disconnect | src/commands/PlayCommand.ts:208-212 | removes the guild from all three maps |
| PlayCommandService.MusicService.Cleanup | src/commands/PlayCommand.ts:214-218 | removes the guild from all three maps |
| PlayCommandService.MusicService.OnConnectionDisconnected | src/commands/PlayCommand.ts:44-46 | a dropped connection cleans the guild up |
| PlayCommandService.MusicService.HandleVoiceStateUpdate | src/commands/PlayCommand.ts:220-237 | arms the idle check exactly for an old channel with no humans while connected |
| PlayCommandService.MusicService.FireIdleCheck | src/commands/PlayCommand.ts:230-234 | re-checks membership at fire time and disconnects only if there are still no humans |
| VariantComparison.AgreeOnOneChunk | src/commands/PlayCommand.ts:116-126 | on a single stdout chunk and exit code 0, both copies read the same id |
| VariantComparison.DifferOnSplitOutput | src/services/MusicService.ts:106-108 | when the id arrives in two chunks, the service keeps only the second piece and the older copy keeps the whole id |
| JsText.Trim | src/handlers/CommandHandler.ts:38 | the result is the input minus its leading and trailing ECMAScript whitespace: it is empty iff the input is blank, and otherwise it neither starts nor ends with whitespace |
| JsText.TrimIdempotent | src/handlers/CommandHandler.ts:38 | trimming twice gives the same text as trimming once |
| JsText.ToLower | src/handlers/CommandHandler.ts:39 | the result has the same length, every character is lowered one by one, and no ASCII capital remains |
| JsText.ToLowerIdempotent | src/handlers/CommandHandler.ts:39 | lowering twice gives the same text as lowering once |
| JsText.SplitOnSpaces | src/handlers/CommandHandler.ts:38 | yields at least one piece, and no piece contains a space |
| JsText.SplitLosesOnlySpaces | src/handlers/CommandHandler.ts:38 | the pieces put back together are the input with every space deleted |
| JsText.SplitPiecesNonEmpty | src/handlers/CommandHandler.ts:38 | a text that neither starts nor ends with a space has no empty piece |
| JsText.SplitWord | src/handlers/CommandHandler.ts:38 | a word without spaces splits into itself |
| JsText.SplitAtGap | src/handlers/CommandHandler.ts:38 | a word, a run of spaces and a rest split into the word followed by the split of the rest |
| JsText.Concat | src/commands/PlayCommand.ts:117 | the text of a list of parts in order; `ConcatSnoc`, `ConcatAppend` and `ConcatShowsPiece` state how parts appear in it |
| JsText.ConcatSnoc | src/commands/PlayCommand.ts:117 | appending one more chunk appends its text |
| JsText.ConcatAppend | src/commands/QueueCommand.ts:42-44 | the concatenation of two lists of parts is the concatenation of their concatenations |
| JsText.ConcatShowsPiece | src/commands/QueueCommand.ts:42-44 | each part of a template literal occurs right after the parts before it; the first part opens the text and the last closes it |
| JsText.JoinEndsWithLast | src/commands/QueueCommand.ts:46 | a non-empty join ends with its last element |
| JsText.JoinStartsWithFirst | src/services/SpotifyService.ts:68 | a non-empty join starts with its first element |
| JsText.JoinSnoc | src/services/SpotifyService.ts:68 | joining one more element appends the separator and that element |
| JsText.Join | src/commands/QueueCommand.ts:46 | `Array.prototype.join`; `JoinStartsWithFirst`, `JoinEndsWithLast` and `JoinSnoc` pin it: the first element, then separator and element for each further one |
| JsText.NatToString | src/commands/QueueCommand.ts:42 | yields decimal digits with no leading zero |
| JsText.DecimalRoundTrip | src/commands/QueueCommand.ts:42 | the rendered digits denote the number again |
| JsText.IntToString | src/commands/QueueCommand.ts:41-44 | renders non-negative numbers as digits and negative ones as "-" followed by digits, and both round-trip to the number |
| JsText.Utf16Length | src/services/SpotifyService.ts:51 | is at least the number of code points |
| JsText.AsciiUtf16Length | src/services/SpotifyService.ts:51 | for ASCII text, `length` is the number of characters |
| CommandHandling.DefaultPrefix | src/handlers/CommandHandler.ts:16 | a set, non-empty `PREFIX` is used as it is; an unset or empty one gives "!"; the prefix is never empty |
| CommandHandling.Remainder | src/handlers/CommandHandler.ts:38 | the text after the prefix, trimmed: it is empty iff that text is blank, and otherwise neither starts nor ends with whitespace |
| CommandHandling.Parse | src/handlers/CommandHandler.ts:36-41 | there is no invocation iff the text lacks the prefix or the rest is blank; otherwise the name is non-empty and has no ASCII capital, and the arguments are non-empty and space-free |
| CommandHandling.ParseLosesOnlySpaces | src/handlers/CommandHandler.ts:38-39 | the first word before lower-casing, followed by the arguments in order, spells the trimmed remainder with its spaces deleted, so argument case is kept |
| CommandHandling.UppercaseNameUnreachable | src/handlers/CommandHandler.ts:39-44 | no message produces a name that contains an ASCII capital, so a command registered under such a name cannot be reached |
| CommandHandling.ParseCommandLine | src/handlers/CommandHandler.ts:38-39 | "!Go x  Y" gives the name "go" and the arguments ["x", "Y"]: the name is lower-cased, the arguments keep their case, and a double space yields no empty argument |
| CommandHandling.ParseRejects | src/handlers/CommandHandler.ts:36-41 | text without the prefix, and a prefix followed only by blanks, dispatch nothing |
| CommandHandling.Registry | src/handlers/CommandHandler.ts:30-32 | `commands.forEach` with `Map.set` in order; `RegistryDomain`, `RegistryLastWins`, `RegistryKeepsOthers` and `RegistryKeyedByName` state its domain and entries, and `LoadCommands` is proved equal to it |
| CommandHandling.RegistryDomain | src/handlers/CommandHandler.ts:30-32 | a name is registered iff it was already registered or some command has it |
| CommandHandling.RegistryLastWins | src/handlers/CommandHandler.ts:30-32 | the command stored under a name is the last one registered with that name |
| CommandHandling.RegistryKeepsOthers | src/handlers/CommandHandler.ts:30-32 | a name that no registered command has keeps its old entry |
| CommandHandling.RegistryKeyedByName | src/handlers/CommandHandler.ts:30-32 | every entry is stored under its own `name` |
| CommandHandling.CommandHandler.constructor | src/handlers/CommandHandler.ts:14-18 | the prefix is the default prefix, and the registry holds exactly the given commands |
| CommandHandling.CommandHandler.LoadCommands | src/handlers/CommandHandler.ts:20-33 | stores each command under its name, in order |
| CommandHandling.CommandHandler.HandleMessage | src/handlers/CommandHandler.ts:35-52 | bot authors, parse failures and unknown names are ignored; otherwise the registered command runs with the parsed arguments, and if it throws, the one reply is the error text |
| SpotifyModel.FirstQualifying | src/services/SpotifyService.ts:135 | the leftmost position where the marker is followed by a letter or digit, or none if there is no such position |
| SpotifyModel.AlnumRun | src/services/SpotifyService.ts:135 | the maximal run of ASCII letters and digits |
| SpotifyModel.ExtractId | src/services/SpotifyService.ts:134-142 | none iff no occurrence of the marker is followed by a letter or digit; otherwise the id is non-empty and alphanumeric, starts right after the leftmost such occurrence, and is maximal |
| SpotifyModel.ExtractPlaylistId | src/services/SpotifyService.ts:134-137 | null iff no "playlist/" is followed by a letter or digit; otherwise a non-empty alphanumeric id that stands in the URL right after such a marker; `ExtractId` adds that the marker is the leftmost and the id maximal |
| SpotifyModel.ExtractTrackId | src/services/SpotifyService.ts:139-142 | null iff no "track/" is followed by a letter or digit; otherwise a non-empty alphanumeric id that stands in the URL right after such a marker; `ExtractId` adds that the marker is the leftmost and the id maximal |
| SpotifyModel.ExtractAfterMarker | src/services/SpotifyService.ts:134-142 | an alphanumeric id right after the marker is extracted whole, whatever its length |
| SpotifyModel.TrackLinkHasNoPlaylistId | src/services/SpotifyService.ts:134-142 | `track/<id>` gives that track id and no playlist id |
| SpotifyModel.ValidatePlaylistId | src/services/SpotifyService.ts:51-53 | an empty id, or one whose UTF-16 length is not 22, is rejected with "Invalid playlist ID format" |
| SpotifyModel.ExtractedIdValidation | src/services/SpotifyService.ts:51-53 | an extracted playlist id passes the check iff it has exactly 22 characters |
| SpotifyModel.OverlongIdRefused | src/services/SpotifyService.ts:51-53 | a 23-character id is extracted and then refused |
| SpotifyModel.ArtistNames | src/services/SpotifyService.ts:68 | the names of the artists, in order |
| SpotifyModel.ToTrack | src/services/SpotifyService.ts:66-74 | title, duration and url come from the response; the thumbnail is the first album image url, or absent when there are no images; `spotifyId` is the track id; the requester passes through |
| SpotifyModel.ArtistText | src/services/SpotifyService.ts:68 | the artist text starts with the first name and ends with the last, and one more artist appends ", " and its name |
| SpotifyModel.PlaylistTracks | src/services/SpotifyService.ts:63-76 | never more records than items |
| SpotifyModel.PlaylistTracksAppend | src/services/SpotifyService.ts:63-76 | items are handled one by one, in order |
| SpotifyModel.AllKeptInOrder | src/services/SpotifyService.ts:63-76 | when every item has a track of type "track", record k is built from item k |
| SpotifyModel.NoneKeptIsEmpty | src/services/SpotifyService.ts:64 | items without a track, or of another type, contribute nothing |
| SpotifyModel.GetPlaylistTracks | src/services/SpotifyService.ts:45-84 | the id check comes first; an API error is passed on; otherwise the records of the kept items are returned in order |
| SpotifyModel.SearchTrack | src/services/SpotifyService.ts:86-109 | null iff the call failed, no track list came back, or the list is empty; otherwise the record of the first result |
| SpotifyModel.GetTrackById | src/services/SpotifyService.ts:111-132 | null iff the call failed; otherwise the record of the returned track |
| QueueView.WholeMinutes | src/commands/QueueCommand.ts:41 | the largest whole number of minutes not above the duration |
| QueueView.TrackLine | src/commands/QueueCommand.ts:41-44 | the line for one queued track; `TrackLineShape` states its parts |
| QueueView.TrackLineShape | src/commands/QueueCommand.ts:40-45 | a line opens with "**", then the 1-based position in digits, shows the title and the artist, and ends with the whole minutes of the duration followed by "m)" |
| QueueView.UpcomingLines | src/commands/QueueCommand.ts:37-46 | min(10, queue length) lines; line k is the line for the k-th queued track, numbered k + 1 |
| QueueView.NowPlayingShowsTrack | src/commands/QueueCommand.ts:29-35 | the now-playing text shows the title, the artist and the requester |
| QueueView.NowPlayingField | src/commands/QueueCommand.ts:29-35 | the now-playing field; `NowPlayingShowsTrack` states that its text shows the title, the artist and the requester, and `Reply` that it appears iff a track is current |
| QueueView.UpNextHeader | src/commands/QueueCommand.ts:49 | the up-next title; `HeaderCountsAllTracks` states that its digits denote the whole queue length |
| QueueView.UpNextField | src/commands/QueueCommand.ts:48-52 | the up-next field; `UpcomingLines` gives its lines, `MoreSuffixIffOverflow` its suffix, and `HeaderCountsAllTracks` its title |
| QueueView.Reply | src/commands/QueueCommand.ts:17-54 | the empty-queue reply is given iff there is no current track and no queued track; otherwise the now-playing field is present iff there is a current track, and the up-next field is present iff tracks are queued |
| QueueView.MoreSuffixIffOverflow | src/commands/QueueCommand.ts:51 | the up-next text ends with "...dan lainnya" iff more than ten tracks are queued |
| QueueView.HeaderCountsAllTracks | src/commands/QueueCommand.ts:49 | the digits in the header denote the full queue length, so queues of different lengths get different headers, even beyond ten |
| QueueView.ReplyFields | src/commands/QueueCommand.ts:17-37 | a fresh session gives the empty-queue reply; queued tracks without a current one give no now-playing field; a last track playing gives no up-next field |

## Left out

- Process spawning, pipes and byte streams (`spawn` of yt-dlp and ffmpeg, `.pipe`, `for await` over stdout, `getYtdlpOpusStream`): the search is reduced to its stdout chunks as strings and its exit code, and the stream to nothing. Decoding a UTF-8 `Buffer` chunk into a string is not modelled.
- The @discordjs/voice calls (`joinVoiceChannel`, `createAudioResource`, `createAudioPlayer`, `subscribe`, `player.play`, `player.stop`, `connection.destroy`) are foreign library calls and become opaque handles. "Stopping the player raises Idle" is the separate event method `OnPlayerIdle`.
- Timers are pending actions without time. Nothing models which timer fires first, or that a timer fires at all.
- MusicServiceModel.MusicService.FinishTrack: it acts on the guild's current entry, while the source's callbacks act on the session object that `play` captured. The two differ once `cleanup` has dropped that object. If a later `getQueue` created a new session, the model updates that one where the source updates the orphan. If the orphan still holds tracks, the source still schedules `this.play(guildId)`, whose `getQueue` installs a default session and whose guard can start a queue built after rejoining. The model schedules nothing when the guild has no entry.
- MusicServiceModel.MusicService.OnPlayerIdle: goes through `FinishTrack` and shares its gap. Once `cleanup` has dropped the session that `play` captured, the source's Idle listener (src/services/MusicService.ts:130-134) updates that orphan, while the model updates the guild's current entry or does nothing.
- MusicServiceModel.MusicService.OnPlayerError: the same gap as `FinishTrack`'s line above, for the error listener (src/services/MusicService.ts:136-140).
- MusicServiceModel.MusicService.OnPlayFailed: the same gap as `FinishTrack`'s line above, for the catch block (src/services/MusicService.ts:141-146).
- PlayCommandService.MusicService.FinishTrack: the same gap for the older copy's callbacks (src/commands/PlayCommand.ts:163-180). It acts on the guild's current entry, not on the session `play` captured, and it schedules no re-play from an orphaned session that still holds tracks.
- PlayCommandService.MusicService.OnPlayerIdle: goes through `FinishTrack` and shares its gap, for the Idle listener (src/commands/PlayCommand.ts:163-167).
- PlayCommandService.MusicService.OnPlayerError: goes through `FinishTrack` and shares its gap, for the error listener (src/commands/PlayCommand.ts:169-174).
- PlayCommandService.MusicService.OnPlayFailed: goes through `FinishTrack` and shares its gap, for the catch block (src/commands/PlayCommand.ts:175-180).
- `player.on("error")` adds one more listener on every `play`, so one error can reach several handlers. The model delivers it to one.
- Exceptions in `play` other than a failed resolution, such as an exception from `createAudioResource`, are not modelled separately. They would take the same catch path as `OnPlayFailed`.
- Concurrency: there is none beyond JavaScript's event loop. The model lets the caller choose the interleaving at some awaits in `play`: between the dequeue, the resolution, the player's attachment and the player's events. It does not do so inside the resolution.
- MusicServiceModel.MusicService.ResolveSource: the cache read (src/services/MusicService.ts:95), the `for await` over the search's stdout (:106-108) and the cache write (:110) form one atomic step in the model. In the source, two resolutions of the same query can overlap: in different guilds, or in one guild when `skip` runs during a search and a new `play` passes the guard. Then both search, and the later `videoCache.set` overwrites the id the earlier one cached. The model writes the cache only when the query was absent, so it does not capture overlapping resolutions or that overwrite.
- QueueView.WholeMinutes: `Math.floor(duration / 1000 / 60)` is computed in floating point. The model uses exact integer division, which agrees for integer durations of realistic size.
- JsText.IntToString: JavaScript switches to exponent notation at 10^21 and loses integer precision above 2^53. The model prints every integer exactly.
- JsText.ToLower: only ASCII capitals and U+212A KELVIN SIGN ("K" to "k") are lowered. JavaScript lowers other non-ASCII letters too. No other non-ASCII character lowers to ASCII, so lookups against the ASCII command names are exact, but a non-ASCII name can differ from JavaScript's.
- JsText.Utf16Length: Dafny characters are Unicode scalar values, so a lone surrogate that a JavaScript string may hold cannot occur.
- The commands' `execute` bodies (HelpCommand, ListCommand, SkipCommand, StopCommand) are outside this model. `HandleMessage` takes only whether `execute` throws. `src/commands/PlayCommand.ts` declares no `PlayCommand` class, so the `PlayCommand` that `loadCommands` registers is not part of this model, and `LoadCommands` takes the command list as a parameter.
- Spotify Web API calls, credentials and token refresh (`initialize`, `refreshToken`, the `setInterval`) are remote I/O. The model works on the response as a value. The request parameters (limit 50, market "ID", the search limit of 1) are not modelled.
- SpotifyModel.SearchTrack: an exception raised while mapping a malformed response is folded into the failed-call case.
- SpotifyModel.GetTrackById: likewise, its `catch` (src/services/SpotifyService.ts:128-131) also turns an exception raised while mapping a malformed response into null. The model folds that into the failed-call case.
- Embeds, replies other than the dispatcher's error text, colours, timestamps and console logging are output only and are not modelled.
- Unbounded growth of the video cache and the unbounded re-play of an unplayable queue are kept as they are in the code. No eviction or retry limit is added.
