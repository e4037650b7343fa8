/** src/services/MusicService.ts: the playback registry the bot uses. Three
    maps keyed by guild id (sessions, voice connections, audio players) and a
    process-wide cache from search query to video id.

    `play` is one async function in the source; its synchronous segments
    are the steps below, run in this order by the event loop:
    `BeginPlay` (guard and dequeue), `ResolveSource` (cache or search),
    then `AttachPlayer` on success or `OnPlayFailed` (the catch block) on
    failure. The player's Idle and error events are `OnPlayerIdle` and
    `OnPlayerError`. Timers are pending actions: `pendingReplays` holds the
    500 ms re-plays, `pendingIdleChecks` the 30 000 ms idle checks, and the
    `Fire*` methods run one. */
module MusicServiceModel {
  import opened Wrappers
  import opened JsText
  import opened Sessions

  /** The video id the service takes from the search's stdout: each chunk
      overwrites the previous one, so it is the last chunk, trimmed; no
      chunk, or a blank last chunk, gives no id. */
  function ServiceVideoId(chunks: seq<string>): (id: Option<string>)
    ensures id.Some? <==> chunks != [] && !AllWhitespace(chunks[|chunks| - 1])
    ensures id.Some? ==> id.value != [] && id.value == Trim(chunks[|chunks| - 1])
  {
    if chunks == [] || Trim(chunks[|chunks| - 1]) == [] then None
    else Some(Trim(chunks[|chunks| - 1]))
  }

  class MusicService {
    var queues: map<GuildId, Queue>
    var connections: map<GuildId, Connection>
    var players: map<GuildId, Player>
    /** Search query to video id; entries are added and never removed. */
    var videoCache: map<string, string>
    /** Guilds with a `setTimeout(() => this.play(guildId), 500)` yet to fire. */
    var pendingReplays: multiset<GuildId>
    /** Idle checks armed by `handleVoiceStateUpdate`, yet to fire. */
    var pendingIdleChecks: multiset<IdleCheck>

    ghost predicate Valid()
      reads this
    {
      && (forall g :: g in queues ==> SessionInvariant(queues[g]))
      && (forall query :: query in videoCache ==> videoCache[query] != [])
    }

    /** The session `getQueue(g)` would return. */
    function SessionOf(g: GuildId): Queue
      reads this
    {
      if g in queues then queues[g] else NewQueue()
    }

    constructor ()
      ensures Valid()
      ensures queues == map[] && connections == map[] && players == map[]
      ensures videoCache == map[]
      ensures pendingReplays == multiset{} && pendingIdleChecks == multiset{}
    {
      queues, connections, players := map[], map[], map[];
      videoCache := map[];
      pendingReplays, pendingIdleChecks := multiset{}, multiset{};
    }

    /** `getQueue`: the guild's session, installed with the defaults if absent. */
    method GetQueue(g: GuildId) returns (q: Queue)
      requires Valid()
      modifies this`queues
      ensures Valid()
      ensures q == old(SessionOf(g))
      ensures g in old(queues) ==> queues == old(queues)
      ensures g !in old(queues) ==> q == NewQueue() && queues == old(queues)[g := NewQueue()]
    {
      if g !in queues {
        queues := queues[g := NewQueue()];
      }
      q := queues[g];
    }

    /** `joinChannel`: records the connection, replacing any earlier one for
        the guild. The listener it registers for the Disconnected status is
        `OnConnectionDisconnected`. */
    method JoinChannel(g: GuildId, handle: Connection) returns (c: Connection)
      requires Valid()
      modifies this`connections
      ensures Valid()
      ensures c == handle
      ensures connections == old(connections)[g := handle]
    {
      connections := connections[g := handle];
      c := handle;
    }

    /** `addToQueue`: appends in argument order, with no deduplication. */
    method AddToQueue(g: GuildId, tracks: seq<Track>)
      requires Valid()
      modifies this`queues
      ensures Valid()
      ensures queues == old(queues)[g := Appended(old(SessionOf(g)), tracks)]
    {
      var q := GetQueue(g);
      TransitionsKeepInvariant(q, tracks);
      queues := queues[g := Appended(q, tracks)];
    }

    /** The synchronous start of `play`: unless a connection exists, the queue
        is non-empty and nothing is playing, nothing happens beyond
        `getQueue`; otherwise the head becomes the current track. */
    method BeginPlay(g: GuildId) returns (track: Option<Track>)
      requires Valid()
      modifies this`queues
      ensures Valid()
      ensures var q := old(SessionOf(g));
              if MayStart(g in connections, q)
              then track == Some(q.tracks[0]) && queues == old(queues)[g := Dequeued(q)]
              else track == None && queues == old(queues)[g := q]
    {
      var q := GetQueue(g);
      if g !in connections || |q.tracks| == 0 || q.isPlaying {
        track := None;
        return;
      }
      TransitionsKeepInvariant(q, []);
      queues := queues[g := Dequeued(q)];
      track := Some(q.tracks[0]);
    }

    /** The source-resolution part of `play`. The query is artist, space,
        title. A cached id is used without searching; otherwise the search's
        stdout `chunks` are read in order, each one overwriting the id, and a
        non-empty result is cached under the query. `searched` tells whether
        the search process was spawned. */
    method ResolveSource(track: Track, chunks: seq<string>) returns (searched: bool, url: Result<string, PlayError>)
      requires Valid()
      modifies this`videoCache
      ensures Valid()
      ensures var query := SearchQuery(track);
              && searched == (query !in old(videoCache))
              && (!searched ==> url == Success(WatchUrl(old(videoCache)[query])) && videoCache == old(videoCache))
              && (searched && ServiceVideoId(chunks).Some? ==>
                    url == Success(WatchUrl(ServiceVideoId(chunks).value))
                    && videoCache == old(videoCache)[query := ServiceVideoId(chunks).value])
              && (searched && ServiceVideoId(chunks).None? ==>
                    url == Failure(VideoIdNotFound) && videoCache == old(videoCache))
    {
      var query := SearchQuery(track);
      var videoId: Option<string> := if query in videoCache then Some(videoCache[query]) else None;
      if videoId.Some? && videoId.value != [] {
        searched := false;
        url := Success(WatchUrl(videoId.value));
        return;
      }
      // Valid() rules out a cached empty id, so a miss means no entry at all.
      assert videoId == None;
      searched := true;
      for i := 0 to |chunks|
        invariant videoId == if i == 0 then None else Some(Trim(chunks[i - 1]))
      {
        videoId := Some(Trim(chunks[i]));
      }
      if videoId.None? || videoId.value == [] {
        url := Failure(VideoIdNotFound);
        return;
      }
      videoCache := videoCache[query := videoId.value];
      url := Success(WatchUrl(videoId.value));
    }

    /** The attach part of `play`: reuses the guild's player, or records the
        new one (the source then subscribes the connection to it). */
    method AttachPlayer(g: GuildId, handle: Player) returns (p: Player)
      requires Valid()
      modifies this`players
      ensures Valid()
      ensures g in old(players) ==> p == old(players)[g] && players == old(players)
      ensures g !in old(players) ==> p == handle && players == old(players)[g := handle]
    {
      if g in players {
        p := players[g];
      } else {
        p := handle;
        players := players[g := handle];
      }
    }

    /** Clears the session and, when `reschedule` holds and tracks remain,
        schedules another `play` after 500 ms. The source's callbacks act on
        the session object they captured, which `cleanup` may have dropped;
        this method acts on the guild's current entry instead, and does
        nothing when the guild has none. */
    method FinishTrack(g: GuildId, reschedule: bool)
      requires Valid()
      modifies this`queues, this`pendingReplays
      ensures Valid()
      ensures g in old(queues) ==>
                queues == old(queues)[g := Finished(old(queues)[g])]
                && pendingReplays == old(pendingReplays)
                   + (if reschedule && WantsReplay(old(queues)[g]) then multiset{g} else multiset{})
      ensures g !in old(queues) ==> queues == old(queues) && pendingReplays == old(pendingReplays)
    {
      if g in queues {
        var q := queues[g];
        TransitionsKeepInvariant(q, []);
        queues := queues[g := Finished(q)];
        if reschedule && |q.tracks| > 0 {
          pendingReplays := pendingReplays + multiset{g};
        }
      }
    }

    /** The player's Idle listener: clears, and re-plays after 500 ms when
        tracks remain. */
    method OnPlayerIdle(g: GuildId)
      requires Valid()
      modifies this`queues, this`pendingReplays
      ensures Valid()
      ensures g in old(queues) ==>
                queues == old(queues)[g := Finished(old(queues)[g])]
                && pendingReplays == old(pendingReplays)
                   + (if WantsReplay(old(queues)[g]) then multiset{g} else multiset{})
      ensures g !in old(queues) ==> queues == old(queues) && pendingReplays == old(pendingReplays)
    {
      FinishTrack(g, true);
    }

    /** The player's error listener: clears only; nothing is re-played. */
    method OnPlayerError(g: GuildId)
      requires Valid()
      modifies this`queues, this`pendingReplays
      ensures Valid()
      ensures g in old(queues) ==> queues == old(queues)[g := Finished(old(queues)[g])]
      ensures g !in old(queues) ==> queues == old(queues)
      ensures pendingReplays == old(pendingReplays)
    {
      FinishTrack(g, false);
    }

    /** The catch block of `play` (a failed resolution): clears, and re-plays
        after 500 ms when tracks remain. */
    method OnPlayFailed(g: GuildId)
      requires Valid()
      modifies this`queues, this`pendingReplays
      ensures Valid()
      ensures g in old(queues) ==>
                queues == old(queues)[g := Finished(old(queues)[g])]
                && pendingReplays == old(pendingReplays)
                   + (if WantsReplay(old(queues)[g]) then multiset{g} else multiset{})
      ensures g !in old(queues) ==> queues == old(queues) && pendingReplays == old(pendingReplays)
    {
      FinishTrack(g, true);
    }

    /** A 500 ms re-play timer fires: it runs `play` for its guild. */
    method FireReplay(g: GuildId) returns (track: Option<Track>)
      requires Valid()
      requires g in pendingReplays
      modifies this`queues, this`pendingReplays
      ensures Valid()
      ensures pendingReplays == old(pendingReplays) - multiset{g}
      ensures var q := old(SessionOf(g));
              if MayStart(g in connections, q)
              then track == Some(q.tracks[0]) && queues == old(queues)[g := Dequeued(q)]
              else track == None && queues == old(queues)[g := q]
    {
      pendingReplays := pendingReplays - multiset{g};
      track := BeginPlay(g);
    }

    /** `skip`: succeeds exactly when the guild has a player and is playing,
        and then clears the session (stopping the player raises its Idle
        event, `OnPlayerIdle`). Otherwise only `getQueue`'s default may
        appear. */
    method Skip(g: GuildId) returns (skipped: bool)
      requires Valid()
      modifies this`queues
      ensures Valid()
      ensures var q := old(SessionOf(g));
              && skipped == (g in players && q.isPlaying)
              && queues == old(queues)[g := if skipped then Finished(q) else q]
    {
      var q := GetQueue(g);
      if g in players && q.isPlaying {
        TransitionsKeepInvariant(q, []);
        queues := queues[g := Finished(q)];
        skipped := true;
      } else {
        skipped := false;
      }
    }

    /** `cleanup`: forgets the guild's session, connection and player; the
        video cache is kept. */
    method Cleanup(g: GuildId)
      requires Valid()
      modifies this`queues, this`connections, this`players
      ensures Valid()
      ensures queues == old(queues) - {g}
      ensures connections == old(connections) - {g}
      ensures players == old(players) - {g}
    {
      connections := connections - {g};
      players := players - {g};
      queues := queues - {g};
    }

    /** `disconnect`: destroys the connection, if any, and cleans up. */
    method Disconnect(g: GuildId)
      requires Valid()
      modifies this`queues, this`connections, this`players
      ensures Valid()
      ensures queues == old(queues) - {g}
      ensures connections == old(connections) - {g}
      ensures players == old(players) - {g}
    {
      Cleanup(g);
    }

    /** `stop`: empties the session, stops the player and disconnects, so the
        guild is left with no entry in any of the three maps. */
    method Stop(g: GuildId)
      requires Valid()
      modifies this`queues, this`connections, this`players
      ensures Valid()
      ensures queues == old(queues) - {g}
      ensures connections == old(connections) - {g}
      ensures players == old(players) - {g}
    {
      var q := GetQueue(g);
      queues := queues[g := q.(tracks := [], currentTrack := None, isPlaying := false)];
      Disconnect(g);
    }

    /** The connection's Disconnected listener registered by `joinChannel`. */
    method OnConnectionDisconnected(g: GuildId)
      requires Valid()
      modifies this`queues, this`connections, this`players
      ensures Valid()
      ensures queues == old(queues) - {g}
      ensures connections == old(connections) - {g}
      ensures players == old(players) - {g}
    {
      Cleanup(g);
    }

    /** `handleVoiceStateUpdate`, given the old state's guild, channel id and
        the number of human members of that channel (`None` when the channel
        is not available): arms a 30 000 ms check exactly when that channel
        has no humans and the guild has a connection. */
    method HandleVoiceStateUpdate(g: GuildId, oldChannelId: Option<ChannelId>, oldHumans: Option<nat>)
      requires Valid()
      modifies this`pendingIdleChecks
      ensures Valid()
      ensures pendingIdleChecks == old(pendingIdleChecks)
                + (if ArmsIdleCheck(oldChannelId, oldHumans, g in connections)
                   then multiset{IdleCheck(g, oldChannelId.value)} else multiset{})
    {
      if oldChannelId.Some? && oldChannelId.value != [] && oldHumans == Some(0) {
        if g in connections {
          pendingIdleChecks := pendingIdleChecks + multiset{IdleCheck(g, oldChannelId.value)};
        }
      }
    }

    /** An idle check fires: it re-counts the channel's human members
        (`humansNow`) and disconnects the guild only if there are still none. */
    method FireIdleCheck(check: IdleCheck, humansNow: Option<nat>)
      requires Valid()
      requires check in pendingIdleChecks
      modifies this`pendingIdleChecks, this`queues, this`connections, this`players
      ensures Valid()
      ensures pendingIdleChecks == old(pendingIdleChecks) - multiset{check}
      ensures var g := check.guildId;
              if humansNow == Some(0)
              then queues == old(queues) - {g} && connections == old(connections) - {g}
                   && players == old(players) - {g}
              else queues == old(queues) && connections == old(connections) && players == old(players)
    {
      pendingIdleChecks := pendingIdleChecks - multiset{check};
      if humansNow == Some(0) {
        Disconnect(check.guildId);
      }
    }
  }

  // ------------------------------------------------------------- scenarios

  /** Enqueue [a, b], play, let `a` end: `b` is played next. */
  method ScenarioPlaysInOrder(a: Track, b: Track) {
    var s := new MusicService();
    var _ := s.JoinChannel("G", 1);
    s.AddToQueue("G", [a, b]);
    var t := s.BeginPlay("G");
    assert t == Some(a);
    s.OnPlayerIdle("G");
    assert s.pendingReplays == multiset{"G"};
    t := s.FireReplay("G");
    assert t == Some(b);
  }

  /** A second `play` while the first track plays attaches nothing. */
  method ScenarioReentrantPlay(a: Track, b: Track) {
    var s := new MusicService();
    var _ := s.JoinChannel("G", 1);
    s.AddToQueue("G", [a, b]);
    var first := s.BeginPlay("G");
    var second := s.BeginPlay("G");
    assert first == Some(a) && second == None;
    assert s.queues["G"].tracks == [b];
  }

  /** Resolving the same track twice searches once. */
  method ScenarioCacheHit(a: Track) {
    var s := new MusicService();
    var searched, url := s.ResolveSource(a, ["abc"]);
    if url.Success? {
      assert searched;
      searched, url := s.ResolveSource(a, ["xyz"]);
      assert !searched;
    }
  }

  /** A failed resolution of the only track leaves the guild idle with nothing
      re-scheduled; the track was marked playing while it was being resolved. */
  method ScenarioResolutionFails(c: Track) {
    var s := new MusicService();
    var _ := s.JoinChannel("G", 1);
    s.AddToQueue("G", [c]);
    var t := s.BeginPlay("G");
    assert s.queues["G"].isPlaying;
    var searched, url := s.ResolveSource(c, []);
    assert url == Failure(VideoIdNotFound);
    s.OnPlayFailed("G");
    assert !s.queues["G"].isPlaying && s.queues["G"].currentTrack == None;
    assert s.pendingReplays == multiset{};
  }

  /** The channel empties, a human comes back before the check fires: the
      guild stays connected. */
  method ScenarioHumanReturns() {
    var s := new MusicService();
    var _ := s.JoinChannel("G", 1);
    s.HandleVoiceStateUpdate("G", Some("C"), Some(0));
    assert IdleCheck("G", "C") in s.pendingIdleChecks;
    s.FireIdleCheck(IdleCheck("G", "C"), Some(1));
    assert "G" in s.connections;
  }

  /** `skip` on a guild that is not playing reports false and changes nothing
      but the default session; `stop` leaves no trace of the guild. */
  method ScenarioSkipAndStop(a: Track) {
    var s := new MusicService();
    var skipped := s.Skip("G");
    assert !skipped && s.queues["G"] == NewQueue();
    s.AddToQueue("G", [a]);
    s.Stop("G");
    assert "G" !in s.queues && "G" !in s.connections && "G" !in s.players;
  }
}
