/** src/commands/PlayCommand.ts: despite its file name, an earlier copy of
    `MusicService`. It keeps the same three maps but has no video cache: every
    `play` searches, the search collects all of stdout and checks the exit
    code, the stream goes through ffmpeg with broken-pipe errors silenced, and
    a player error re-plays like the end of a track does.

    As in MusicServiceModel, `play` is split into `BeginPlay`,
    `SearchYoutubeUrl` (awaited), then `AttachPlayer` or `OnPlayFailed`;
    timers are the pending multisets consumed by the `Fire*` methods. */
module PlayCommandService {
  import opened Wrappers
  import opened JsText
  import opened Sessions

  /** The video id `searchYoutubeUrl` accepts: all of stdout, concatenated
      and trimmed, provided the process exited with code 0 and that text is
      not blank. `exitCode` is `None` when the process was killed. */
  function VariantVideoId(chunks: seq<string>, exitCode: Option<int>): (id: Option<string>)
    ensures id.Some? <==> exitCode == Some(0) && !AllWhitespace(Concat(chunks))
    ensures id.Some? ==> id.value != [] && id.value == Trim(Concat(chunks))
  {
    var text := Trim(Concat(chunks));
    if exitCode == Some(0) && text != [] then Some(text) else None
  }

  /** The two pipe ends whose `error` events `getYtdlpStream` listens to. */
  datatype PipeEnd = YtdlpStdout | FfmpegStdin

  datatype PipeError = PipeError(end: PipeEnd, code: Option<string>)

  const BrokenPipe := "EPIPE"

  /** The pipe errors `getYtdlpStream` logs, in order: every one whose code is
      not `EPIPE`. */
  function LoggedPipeErrors(errors: seq<PipeError>): (logged: seq<PipeError>)
    ensures forall e :: e in logged <==> e in errors && e.code != Some(BrokenPipe)
    ensures |logged| <= |errors|
  {
    if errors == [] then []
    else (if errors[0].code == Some(BrokenPipe) then [] else [errors[0]]) + LoggedPipeErrors(errors[1..])
  }

  /** Logging keeps the order in which errors arrive. */
  lemma {:induction false} LoggedPipeErrorsAppend(a: seq<PipeError>, b: seq<PipeError>)
    ensures LoggedPipeErrors(a + b) == LoggedPipeErrors(a) + LoggedPipeErrors(b)
  {
    if a == [] {
      assert a + b == b;
    } else {
      assert (a + b)[1..] == a[1..] + b;
      LoggedPipeErrorsAppend(a[1..], b);
    }
  }

  class MusicService {
    var queues: map<GuildId, Queue>
    var connections: map<GuildId, Connection>
    var players: map<GuildId, Player>
    /** Guilds with a `setTimeout(() => this.play(guildId), 500)` yet to fire. */
    var pendingReplays: multiset<GuildId>
    /** Idle checks armed by `handleVoiceStateUpdate`, yet to fire. */
    var pendingIdleChecks: multiset<IdleCheck>

    ghost predicate Valid()
      reads this
    {
      forall g :: g in queues ==> SessionInvariant(queues[g])
    }

    /** The session `getQueue(g)` would return. */
    function SessionOf(g: GuildId): Queue
      reads this
    {
      if g in queues then queues[g] else NewQueue()
    }

    constructor ()
      ensures Valid()
      ensures queues == map[] && connections == map[] && players == map[]
      ensures pendingReplays == multiset{} && pendingIdleChecks == multiset{}
    {
      queues, connections, players := map[], map[], map[];
      pendingReplays, pendingIdleChecks := multiset{}, multiset{};
    }

    /** `getQueue`: the guild's session, installed with the defaults if absent. */
    method GetQueue(g: GuildId) returns (q: Queue)
      requires Valid()
      modifies this`queues
      ensures Valid()
      ensures q == old(SessionOf(g))
      ensures g in old(queues) ==> queues == old(queues)
      ensures g !in old(queues) ==> q == NewQueue() && queues == old(queues)[g := NewQueue()]
    {
      if g !in queues {
        queues := queues[g := NewQueue()];
      }
      q := queues[g];
    }

    /** `joinChannel`: records the connection, replacing any earlier one; its
        Disconnected listener is `OnConnectionDisconnected`. */
    method JoinChannel(g: GuildId, handle: Connection) returns (c: Connection)
      requires Valid()
      modifies this`connections
      ensures Valid()
      ensures c == handle
      ensures connections == old(connections)[g := handle]
    {
      connections := connections[g := handle];
      c := handle;
    }

    /** `addToQueue`: appends in argument order, with no deduplication. */
    method AddToQueue(g: GuildId, tracks: seq<Track>)
      requires Valid()
      modifies this`queues
      ensures Valid()
      ensures queues == old(queues)[g := Appended(old(SessionOf(g)), tracks)]
    {
      var q := GetQueue(g);
      TransitionsKeepInvariant(q, tracks);
      queues := queues[g := Appended(q, tracks)];
    }

    /** `searchYoutubeUrl`: `chunks` are the `data` events of the search for
        `SearchQuery(track)`, `exitCode` its `close` code. The id is built by
        appending every chunk. */
    method SearchYoutubeUrl(track: Track, chunks: seq<string>, exitCode: Option<int>)
      returns (url: Result<string, PlayError>)
      ensures VariantVideoId(chunks, exitCode).Some? ==> url == Success(WatchUrl(VariantVideoId(chunks, exitCode).value))
      ensures VariantVideoId(chunks, exitCode).None? ==> url == Failure(VideoIdNotFound)
    {
      var videoId := "";
      for i := 0 to |chunks|
        invariant videoId == Concat(chunks[..i])
      {
        assert chunks[..i + 1] == chunks[..i] + [chunks[i]];
        ConcatSnoc(chunks[..i], chunks[i]);
        videoId := videoId + chunks[i];
      }
      assert chunks[..|chunks|] == chunks;
      if exitCode == Some(0) && Trim(videoId) != [] {
        url := Success(WatchUrl(Trim(videoId)));
      } else {
        url := Failure(VideoIdNotFound);
      }
    }

    /** The synchronous start of `play`, identical to the service's: a no-op
        without a connection, on an empty queue or while playing; otherwise
        the head becomes the current track. */
    method BeginPlay(g: GuildId) returns (track: Option<Track>)
      requires Valid()
      modifies this`queues
      ensures Valid()
      ensures var q := old(SessionOf(g));
              if MayStart(g in connections, q)
              then track == Some(q.tracks[0]) && queues == old(queues)[g := Dequeued(q)]
              else track == None && queues == old(queues)[g := q]
    {
      var q := GetQueue(g);
      if g !in connections || |q.tracks| == 0 || q.isPlaying {
        track := None;
        return;
      }
      TransitionsKeepInvariant(q, []);
      queues := queues[g := Dequeued(q)];
      track := Some(q.tracks[0]);
    }

    /** The attach part of `play`: reuses the guild's player or records the
        new one. */
    method AttachPlayer(g: GuildId, handle: Player) returns (p: Player)
      requires Valid()
      modifies this`players
      ensures Valid()
      ensures g in old(players) ==> p == old(players)[g] && players == old(players)
      ensures g !in old(players) ==> p == handle && players == old(players)[g := handle]
    {
      if g in players {
        p := players[g];
      } else {
        p := handle;
        players := players[g := handle];
      }
    }

    /** What the Idle listener, the error listener and the catch block of this
        version all do: clear the session and re-play after 500 ms when tracks
        remain. It acts on the guild's current entry, not on the session
        object the source's callback captured, and does nothing when the
        guild has no entry. */
    method FinishTrack(g: GuildId)
      requires Valid()
      modifies this`queues, this`pendingReplays
      ensures Valid()
      ensures g in old(queues) ==>
                queues == old(queues)[g := Finished(old(queues)[g])]
                && pendingReplays == old(pendingReplays)
                   + (if WantsReplay(old(queues)[g]) then multiset{g} else multiset{})
      ensures g !in old(queues) ==> queues == old(queues) && pendingReplays == old(pendingReplays)
    {
      if g in queues {
        var q := queues[g];
        TransitionsKeepInvariant(q, []);
        queues := queues[g := Finished(q)];
        if |q.tracks| > 0 {
          pendingReplays := pendingReplays + multiset{g};
        }
      }
    }

    /** The player's Idle listener. */
    method OnPlayerIdle(g: GuildId)
      requires Valid()
      modifies this`queues, this`pendingReplays
      ensures Valid()
      ensures g in old(queues) ==>
                queues == old(queues)[g := Finished(old(queues)[g])]
                && pendingReplays == old(pendingReplays)
                   + (if WantsReplay(old(queues)[g]) then multiset{g} else multiset{})
      ensures g !in old(queues) ==> queues == old(queues) && pendingReplays == old(pendingReplays)
    {
      FinishTrack(g);
    }

    /** The player's error listener: unlike the service version, it re-plays. */
    method OnPlayerError(g: GuildId)
      requires Valid()
      modifies this`queues, this`pendingReplays
      ensures Valid()
      ensures g in old(queues) ==>
                queues == old(queues)[g := Finished(old(queues)[g])]
                && pendingReplays == old(pendingReplays)
                   + (if WantsReplay(old(queues)[g]) then multiset{g} else multiset{})
      ensures g !in old(queues) ==> queues == old(queues) && pendingReplays == old(pendingReplays)
    {
      FinishTrack(g);
    }

    /** The catch block of `play` (the search was rejected). */
    method OnPlayFailed(g: GuildId)
      requires Valid()
      modifies this`queues, this`pendingReplays
      ensures Valid()
      ensures g in old(queues) ==>
                queues == old(queues)[g := Finished(old(queues)[g])]
                && pendingReplays == old(pendingReplays)
                   + (if WantsReplay(old(queues)[g]) then multiset{g} else multiset{})
      ensures g !in old(queues) ==> queues == old(queues) && pendingReplays == old(pendingReplays)
    {
      FinishTrack(g);
    }

    /** A 500 ms re-play timer fires: it runs `play` for its guild. */
    method FireReplay(g: GuildId) returns (track: Option<Track>)
      requires Valid()
      requires g in pendingReplays
      modifies this`queues, this`pendingReplays
      ensures Valid()
      ensures pendingReplays == old(pendingReplays) - multiset{g}
      ensures var q := old(SessionOf(g));
              if MayStart(g in connections, q)
              then track == Some(q.tracks[0]) && queues == old(queues)[g := Dequeued(q)]
              else track == None && queues == old(queues)[g := q]
    {
      pendingReplays := pendingReplays - multiset{g};
      track := BeginPlay(g);
    }

    /** `skip`: succeeds exactly when a player exists and the guild is
        playing, clearing the session; otherwise only `getQueue`'s default
        may appear. */
    method Skip(g: GuildId) returns (skipped: bool)
      requires Valid()
      modifies this`queues
      ensures Valid()
      ensures var q := old(SessionOf(g));
              && skipped == (g in players && q.isPlaying)
              && queues == old(queues)[g := if skipped then Finished(q) else q]
    {
      var q := GetQueue(g);
      if g in players && q.isPlaying {
        TransitionsKeepInvariant(q, []);
        queues := queues[g := Finished(q)];
        skipped := true;
      } else {
        skipped := false;
      }
    }

    /** `cleanup`: forgets the guild's session, connection and player. */
    method Cleanup(g: GuildId)
      requires Valid()
      modifies this`queues, this`connections, this`players
      ensures Valid()
      ensures queues == old(queues) - {g}
      ensures connections == old(connections) - {g}
      ensures players == old(players) - {g}
    {
      connections := connections - {g};
      players := players - {g};
      queues := queues - {g};
    }

    /** `disconnect`: destroys the connection, if any, and cleans up. */
    method Disconnect(g: GuildId)
      requires Valid()
      modifies this`queues, this`connections, this`players
      ensures Valid()
      ensures queues == old(queues) - {g}
      ensures connections == old(connections) - {g}
      ensures players == old(players) - {g}
    {
      Cleanup(g);
    }

    /** `stop`: empties the session, stops the player and disconnects. */
    method Stop(g: GuildId)
      requires Valid()
      modifies this`queues, this`connections, this`players
      ensures Valid()
      ensures queues == old(queues) - {g}
      ensures connections == old(connections) - {g}
      ensures players == old(players) - {g}
    {
      var q := GetQueue(g);
      queues := queues[g := q.(tracks := [], currentTrack := None, isPlaying := false)];
      Disconnect(g);
    }

    /** The connection's Disconnected listener registered by `joinChannel`. */
    method OnConnectionDisconnected(g: GuildId)
      requires Valid()
      modifies this`queues, this`connections, this`players
      ensures Valid()
      ensures queues == old(queues) - {g}
      ensures connections == old(connections) - {g}
      ensures players == old(players) - {g}
    {
      Cleanup(g);
    }

    /** `handleVoiceStateUpdate`: arms a 30 000 ms check exactly when the old
        channel is known, has no humans, and the guild has a connection. */
    method HandleVoiceStateUpdate(g: GuildId, oldChannelId: Option<ChannelId>, oldHumans: Option<nat>)
      requires Valid()
      modifies this`pendingIdleChecks
      ensures Valid()
      ensures pendingIdleChecks == old(pendingIdleChecks)
                + (if ArmsIdleCheck(oldChannelId, oldHumans, g in connections)
                   then multiset{IdleCheck(g, oldChannelId.value)} else multiset{})
    {
      if oldChannelId.Some? && oldChannelId.value != [] && oldHumans == Some(0) {
        if g in connections {
          pendingIdleChecks := pendingIdleChecks + multiset{IdleCheck(g, oldChannelId.value)};
        }
      }
    }

    /** An idle check fires: disconnects only if the channel still has no
        human members. */
    method FireIdleCheck(check: IdleCheck, humansNow: Option<nat>)
      requires Valid()
      requires check in pendingIdleChecks
      modifies this`pendingIdleChecks, this`queues, this`connections, this`players
      ensures Valid()
      ensures pendingIdleChecks == old(pendingIdleChecks) - multiset{check}
      ensures var g := check.guildId;
              if humansNow == Some(0)
              then queues == old(queues) - {g} && connections == old(connections) - {g}
                   && players == old(players) - {g}
              else queues == old(queues) && connections == old(connections) && players == old(players)
    {
      pendingIdleChecks := pendingIdleChecks - multiset{check};
      if humansNow == Some(0) {
        Disconnect(check.guildId);
      }
    }
  }

  // ------------------------------------------------------------- scenarios

  /** A player error on `a` re-plays, so `b` starts next. */
  method ScenarioErrorAdvances(a: Track, b: Track) {
    var s := new MusicService();
    var _ := s.JoinChannel("G", 1);
    s.AddToQueue("G", [a, b]);
    assert s.queues["G"].tracks == [a, b] && "G" in s.connections;
    var t := s.BeginPlay("G");
    assert t == Some(a) && s.queues["G"].tracks == [b];
    var _ := s.AttachPlayer("G", 7);
    s.OnPlayerError("G");
    assert s.queues["G"] == Queue([b], None, false, DefaultVolume);
    assert s.pendingReplays == multiset{"G"};
    t := s.FireReplay("G");
    assert t == Some(b) && s.queues["G"] == Queue([], Some(b), true, DefaultVolume);
  }
}
