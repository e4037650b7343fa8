/** The records of src/types/Track.ts and the per-guild session transitions
    that both `MusicService` classes (src/services/MusicService.ts and the
    older copy in src/commands/PlayCommand.ts) perform on them. */
module Sessions {
  import opened Wrappers

  /** A requested song. Durations are milliseconds; there is no identity
      beyond the field values, so the same track may be queued twice. */
  datatype Track = Track(
    title: string,
    artist: string,
    duration: int,
    url: string,
    thumbnail: Option<string>,
    spotifyId: Option<string>,
    requestedBy: string)

  /** One guild's `Queue` record. */
  datatype Queue = Queue(
    tracks: seq<Track>,
    currentTrack: Option<Track>,
    isPlaying: bool,
    volume: int)

  type GuildId = string
  type ChannelId = string

  /** Opaque handles standing for @discordjs/voice connection and player
      objects. */
  type Connection = nat
  type Player = nat

  /** A pending 30 000 ms check that the guild's old channel is still empty of
      human members. */
  datatype IdleCheck = IdleCheck(guildId: GuildId, channelId: ChannelId)

  /** The error both variants throw when no video id comes back. */
  datatype PlayError = VideoIdNotFound

  const DefaultVolume := 50
  const WatchUrlPrefix := "https://www.youtube.com/watch?v="

  /** The record `getQueue` installs for a guild it has not seen. */
  function NewQueue(): Queue {
    Queue([], None, false, DefaultVolume)
  }

  /** What every session keeps: a current track exactly while playing, and
      the volume it was created with (nothing changes it). */
  predicate SessionInvariant(q: Queue) {
    q.isPlaying == q.currentTrack.Some? && q.volume == DefaultVolume
  }

  /** The search text for a track: its artist, a space, its title. */
  function SearchQuery(t: Track): (q: string)
    ensures |q| == |t.artist| + 1 + |t.title|
    ensures q[..|t.artist|] == t.artist && q[|t.artist|] == ' ' && q[|t.artist| + 1..] == t.title
  {
    t.artist + " " + t.title
  }

  /** The watch page of a video; the id can be read back after the fixed
      prefix. */
  function WatchUrl(videoId: string): (u: string)
    ensures |u| == |WatchUrlPrefix| + |videoId|
    ensures u[..|WatchUrlPrefix|] == WatchUrlPrefix && u[|WatchUrlPrefix|..] == videoId
  {
    WatchUrlPrefix + videoId
  }

  /** The guard of `play`: a connection exists, something is queued and
      nothing is playing. */
  predicate MayStart(connected: bool, q: Queue) {
    connected && |q.tracks| > 0 && !q.isPlaying
  }

  function Appended(q: Queue, ts: seq<Track>): Queue {
    q.(tracks := q.tracks + ts)
  }

  /** The head of the queue becomes the current track and playing starts. */
  function Dequeued(q: Queue): (r: Queue)
    requires |q.tracks| > 0
    ensures r.currentTrack.Some? && [r.currentTrack.value] + r.tracks == q.tracks
    ensures r.isPlaying && r.volume == q.volume
  {
    q.(tracks := q.tracks[1..], currentTrack := Some(q.tracks[0]), isPlaying := true)
  }

  /** The state the end, failure or skip of a track leaves: nothing current,
      nothing playing, queue untouched. */
  function Finished(q: Queue): Queue {
    q.(currentTrack := None, isPlaying := false)
  }

  /** A finished or failed track schedules the next `play` exactly when tracks
      remain. */
  predicate WantsReplay(q: Queue) {
    |q.tracks| > 0
  }

  /** The condition under which `handleVoiceStateUpdate` arms the idle check:
      the old state names a channel (a non-empty id), that channel is known
      and has no human members, and the guild has a connection. */
  predicate ArmsIdleCheck(oldChannelId: Option<ChannelId>, oldHumans: Option<nat>, connected: bool) {
    oldChannelId.Some? && oldChannelId.value != [] && oldHumans == Some(0) && connected
  }

  function Flatten(batches: seq<seq<Track>>): seq<Track> {
    if batches == [] then [] else batches[0] + Flatten(batches[1..])
  }

  /** Successive `addToQueue` calls, as a function of the session. */
  function AppendAll(q: Queue, batches: seq<seq<Track>>): Queue
    decreases |batches|
  {
    if batches == [] then q else AppendAll(Appended(q, batches[0]), batches[1..])
  }

  // ---------------------------------------------------------------- lemmas

  /** Any sequence of `addToQueue` calls leaves the queue as the old queue
      followed by every argument in call order; nothing else changes. */
  lemma {:induction false} AppendAllInOrder(q: Queue, batches: seq<seq<Track>>)
    ensures AppendAll(q, batches).tracks == q.tracks + Flatten(batches)
    ensures AppendAll(q, batches).currentTrack == q.currentTrack
    ensures AppendAll(q, batches).isPlaying == q.isPlaying
    ensures AppendAll(q, batches).volume == q.volume
    decreases |batches|
  {
    if batches != [] {
      AppendAllInOrder(Appended(q, batches[0]), batches[1..]);
      assert q.tracks + batches[0] + Flatten(batches[1..]) == q.tracks + Flatten(batches);
    }
  }

  /** Dequeueing moves exactly one occurrence of the head: the current track
      and the remaining queue together hold what the queue held. */
  lemma DequeueKeepsEveryTrack(q: Queue)
    requires |q.tracks| > 0
    ensures multiset{Dequeued(q).currentTrack.value} + multiset(Dequeued(q).tracks) == multiset(q.tracks)
  {
    assert q.tracks == [q.tracks[0]] + q.tracks[1..];
  }

  /** The transitions keep the session invariant. */
  lemma TransitionsKeepInvariant(q: Queue, ts: seq<Track>)
    requires SessionInvariant(q)
    ensures SessionInvariant(Appended(q, ts))
    ensures SessionInvariant(Finished(q))
    ensures |q.tracks| > 0 ==> SessionInvariant(Dequeued(q))
    ensures SessionInvariant(NewQueue())
  {
  }

  /** A second `play` right after one that started is a no-op: the guard
      fails while the first track is playing. */
  lemma PlayIsGuardedWhilePlaying(connected: bool, q: Queue)
    requires MayStart(connected, q)
    ensures !MayStart(connected, Dequeued(q))
  {
  }

  /** Because duplicates are allowed, "never both current and queued" holds
      for queue positions, not for values: after dequeueing `[a, a]` the
      current track equals the one left in the queue. */
  lemma DuplicateStaysQueued(a: Track)
    ensures var r := Dequeued(Queue([a, a], None, false, DefaultVolume));
            r.currentTrack == Some(a) && r.tracks == [a]
  {
  }
}
