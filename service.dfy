/**
 * The music service as an object: the five maps are fields that the
 * methods update in place, as `MusicService` does. Every method is proved
 * to leave the fields in the state that the matching function of
 * `Controller` computes from the old fields, and to keep the invariant.
 */
module Service {
  import opened Wrappers
  import opened Tracks
  import Controller

  type GuildId = Controller.GuildId
  type ChannelId = Controller.ChannelId

  class MusicService {
    /** The search and stream collaborators the service calls. */
    const catalog: Catalog

    var queues: map<GuildId, seq<Song>>
    var players: map<GuildId, Controller.Player>
    var connections: map<GuildId, Controller.Connection>
    var currentSongs: map<GuildId, Song>
    var history: map<GuildId, seq<Song>>
    var calls: seq<Controller.PlayerCall>
    var serial: nat

    /** The fields as a `Controller.State` value. */
    function State(): Controller.State
      reads this
    {
      Controller.State(queues, players, connections, currentSongs, history, calls, serial)
    }

    ghost predicate Valid()
      reads this
    {
      Controller.Inv(State())
    }

    constructor(catalog: Catalog)
      ensures this.catalog == catalog
      ensures State() == Controller.Initial
      ensures Valid()
    {
      this.catalog := catalog;
      queues, players, connections, currentSongs, history := map[], map[], map[], map[], map[];
      calls, serial := [], 0;
    }

    /** `createConnection(voiceChannel, guildId)`; `joined` is false when the join throws. */
    method CreateConnection(g: GuildId, voice: Option<ChannelId>) returns (joined: bool)
      requires Valid()
      modifies this
      ensures Valid()
      ensures joined <==> voice.Some?
      ensures joined ==> State() == Controller.CreateConnection(old(State()), g, voice).value
      ensures !joined ==> State() == old(State())
    {
      if voice.None? {
        return false;
      }
      connections := connections[g := Controller.Connection(serial, voice.value, g)];
      players := players[g := Controller.Player(serial)];
      serial := serial + 1;
      return true;
    }

    /** `playNext(guildId)`; `ok` is false when the call throws for want of a history. */
    method PlayNext(g: GuildId) returns (ok: bool)
      requires Valid()
      modifies this
      ensures Valid()
      ensures (State(), ok) == Controller.PlayNext(old(State()), g, catalog.streamFails)
      decreases if g in queues then |queues[g]| else 0
    {
      ghost var s0 := State();
      Controller.PlayNextPreservesInv(s0, g, catalog.streamFails);
      if g !in queues || queues[g] == [] {
        currentSongs := currentSongs - {g};
        return true;
      }
      var song := TakeFront(g);
      if g !in history {
        return false;
      }
      Remember(g, song);
      ghost var s2 := State();
      if g in players && !catalog.streamFails(song.url) {
        calls := calls + [Controller.PlayResource(players[g], song.url)];
        return true;
      }
      assert s2 == Controller.SkipFront(s0, g);
      Controller.SkipFrontAdvance(s0, g, catalog.streamFails);
      Controller.SkipFrontPreservesInv(s0, g);
      ok := PlayNext(g);
    }

    /** `const song = queue.shift(); this.currentSongs.set(guildId, song);` */
    method TakeFront(g: GuildId) returns (song: Song)
      requires g in queues && queues[g] != []
      modifies this
      ensures song == old(queues[g][0])
      ensures State() == Controller.TakeFront(old(State()), g)
    {
      song := queues[g][0];
      queues := queues[g := queues[g][1..]];
      currentSongs := currentSongs[g := song];
    }

    /** Pushing `song` onto the history of `g`, dropping the oldest beyond 50. */
    method Remember(g: GuildId, song: Song)
      requires g in history
      modifies this
      ensures State() == Controller.Remember(old(State()), g, song)
    {
      var h := history[g] + [song];
      if |h| > Controller.MaxHistory {
        h := h[1..];
      }
      history := history[g := h];
    }

    /** `play(message, query, source)`. */
    method Play(g: GuildId, voice: Option<ChannelId>, query: string, source: Option<string>) returns (reply: Controller.PlayReply)
      requires Valid()
      modifies this
      ensures Valid()
      ensures (State(), reply) == Controller.Play(old(State()), catalog, g, voice, query, source)
    {
      if g !in queues {
        queues := queues[g := []];
        history := history[g := []];
      }
      match Resolve(catalog, query, source)
      case SourceHintFault =>
        return Controller.PlayErr(Controller.FailedToPlay);
      case NotFound =>
        return Controller.PlayErr(Controller.CouldNotFind);
      case Found(song) =>
        reply := PlayFound(g, voice, song);
    }

    /** The rest of `play` once `song` was found; the guild already has a queue. */
    method PlayFound(g: GuildId, voice: Option<ChannelId>, song: Song) returns (reply: Controller.PlayReply)
      requires Valid() && g in queues && song.Track?
      modifies this
      ensures Valid()
      ensures (State(), reply) == Controller.PlayFound(old(State()), catalog, g, voice, song)
    {
      ghost var s0 := State();
      Controller.EnqueueAndAdvancePreservesInv(s0, g, voice, [song], catalog.streamFails);
      queues := queues[g := queues[g] + [song]];
      ghost var s1 := State();
      assert s1 == Controller.Enqueue(s0, g, [song]);
      if g !in connections {
        var joined := CreateConnection(g, voice);
        if !joined {
          return Controller.PlayErr(Controller.FailedToPlay);
        }
      }
      assert Controller.EnsureConnection(s1, g, voice) == Some(State());
      if |queues[g]| == 1 {
        var ok := PlayNext(g);
        if ok {
          reply := Controller.PlayOk(Controller.NowPlaying, song.title, Controller.ReportedSource(song), song.artist);
        } else {
          reply := Controller.PlayErr(Controller.FailedToPlay);
        }
      } else {
        reply := Controller.PlayOk(Controller.AddedToQueue, song.title, Controller.ReportedSource(song), song.artist);
      }
    }

    /** `pause(guildId)`. */
    method Pause(g: GuildId) returns (reply: Controller.Reply)
      requires Valid()
      modifies this
      ensures Valid()
      ensures (State(), reply) == Controller.Pause(old(State()), g)
    {
      if g !in players {
        return Controller.Failed(Controller.NoMusicPlaying);
      }
      calls := calls + [Controller.PausePlayer(players[g])];
      return Controller.Done;
    }

    /** `resume(guildId)`. */
    method Resume(g: GuildId) returns (reply: Controller.Reply)
      requires Valid()
      modifies this
      ensures Valid()
      ensures (State(), reply) == Controller.Resume(old(State()), g)
    {
      if g !in players {
        return Controller.Failed(Controller.NoMusicPlaying);
      }
      calls := calls + [Controller.UnpausePlayer(players[g])];
      return Controller.Done;
    }

    /** `skip(guildId)`. */
    method Skip(g: GuildId) returns (reply: Controller.SkipReply)
      requires Valid()
      modifies this
      ensures Valid()
      ensures (State(), reply) == Controller.Skip(old(State()), g)
    {
      if g !in players {
        return Controller.SkipFailed(Controller.NoMusicPlaying);
      }
      var next: Option<string> := None;
      if g in queues && |queues[g]| > 0 {
        next := Some(queues[g][0].title);
      }
      calls := calls + [Controller.StopPlayer(players[g])];
      return Controller.Skipped(next);
    }

    /** `previous(guildId)`. */
    method Previous(g: GuildId) returns (reply: Controller.PreviousReply)
      requires Valid()
      modifies this
      ensures Valid()
      ensures (State(), reply) == Controller.Previous(old(State()), g)
    {
      Controller.PreviousPreservesInv(State(), g);
      if g !in history || |history[g]| < 2 {
        return Controller.NoPrevious(Controller.NoPreviousSong);
      }
      var h := history[g];
      var prev := h[|h| - 2];
      history := history[g := h[..|h| - 2]];
      var back: seq<Song> := [];
      if g in currentSongs {
        back := [currentSongs[g]];
      }
      queues := queues[g := [prev] + back + queues[g]];
      if g in players {
        calls := calls + [Controller.StopPlayer(players[g])];
      }
      return Controller.WentBack(prev.title);
    }

    /** `stop(guildId)`. */
    method Stop(g: GuildId) returns (reply: Controller.Reply)
      requires Valid()
      modifies this
      ensures Valid()
      ensures (State(), reply) == Controller.Stop(old(State()), g)
    {
      Controller.StopPreservesInv(State(), g);
      if g !in players {
        return Controller.Failed(Controller.NoMusicPlaying);
      }
      if g in queues {
        queues := queues[g := []];
      }
      calls := calls + [Controller.StopPlayer(players[g])];
      Cleanup(g);
      return Controller.Done;
    }

    /** `getQueue(guildId)`: reads the queue and changes nothing. */
    method GetQueue(g: GuildId) returns (q: seq<Song>)
      ensures q == Controller.GetQueue(State(), g)
    {
      if g in queues {
        q := queues[g];
      } else {
        q := [];
      }
    }

    /** `cleanup(guildId)`. */
    method Cleanup(g: GuildId)
      modifies this
      ensures State() == Controller.Cleanup(old(State()), g)
    {
      queues := queues - {g};
      players := players - {g};
      connections := connections - {g};
      currentSongs := currentSongs - {g};
      history := history - {g};
    }

    /** `playPlaylist(message, playlistName)`. */
    method PlayPlaylist(g: GuildId, voice: Option<ChannelId>, name: string) returns (reply: Controller.PlaylistReply)
      requires Valid()
      modifies this
      ensures Valid()
      ensures (State(), reply) == Controller.PlayPlaylist(old(State()), catalog, g, voice, name)
    {
      var entry := Controller.Lookup(Controller.Playlists, name);
      if entry.None? {
        return Controller.PlaylistFailed(Controller.PlaylistNotFound(name));
      }
      if voice.None? {
        return Controller.PlaylistFailed(Controller.NotInVoiceChannel);
      }
      ghost var s0 := State();
      Controller.EnqueueAndAdvancePreservesInv(s0, g, voice, Controller.FoundSongs(catalog, entry.value), catalog.streamFails);
      var songsAdded := EnqueueFound(g, entry.value);
      if songsAdded > 0 {
        ghost var s1 := State();
        if g !in connections {
          var joined := CreateConnection(g, voice);
        }
        assert Controller.EnsureConnection(s1, g, voice) == Some(State());
        if g !in currentSongs {
          var ok := PlayNext(g);
          if !ok {
            return Controller.PlaylistRejected;
          }
        }
      }
      return Controller.Queued(songsAdded);
    }

    /**
     * The loop of `playPlaylist`: one search per query, in order; each song
     * found is appended to the queue, the guild being opened at the first.
     */
    method EnqueueFound(g: GuildId, queries: seq<string>) returns (songsAdded: nat)
      requires Valid()
      modifies this
      ensures Valid()
      ensures songsAdded == |Controller.FoundSongs(catalog, queries)|
      ensures Controller.FoundSongs(catalog, queries) == [] ==> State() == old(State())
      ensures Controller.FoundSongs(catalog, queries) != [] ==>
        State() == Controller.Enqueue(Controller.OpenGuild(old(State()), g), g, Controller.FoundSongs(catalog, queries))
    {
      ghost var s0 := State();
      Controller.EnqueuePreservesInv(s0, g, Controller.FoundSongs(catalog, queries));
      songsAdded := 0;
      for i := 0 to |queries|
        invariant songsAdded == |Controller.FoundSongs(catalog, queries[..i])|
        invariant State() == Controller.EnqueueEach(s0, g, Controller.FoundSongs(catalog, queries[..i]))
      {
        ghost var before := Controller.FoundSongs(catalog, queries[..i]);
        Controller.FoundSongsStep(catalog, queries, i);
        var found := SearchYouTubeSingle(catalog, queries[i]);
        if found.Some? {
          Controller.EnqueueEachStep(s0, g, before, found.value);
          EnqueueOne(g, found.value);
          songsAdded := songsAdded + 1;
        }
      }
      assert queries[..|queries|] == queries;
    }

    /** One pass of that loop that found `song`. */
    method EnqueueOne(g: GuildId, song: Song)
      modifies this
      ensures State() == Controller.Enqueue(Controller.OpenGuild(old(State()), g), g, [song])
    {
      if g !in queues {
        queues := queues[g := []];
        history := history[g := []];
      }
      queues := queues[g := queues[g] + [song]];
    }

    /** `playRadio(message, stationName)`. */
    method PlayRadio(g: GuildId, voice: Option<ChannelId>, name: string) returns (reply: Controller.Reply)
      requires Valid()
      modifies this
      ensures Valid()
      ensures (State(), reply) == Controller.PlayRadio(old(State()), g, voice, name)
    {
      var station := Controller.Lookup(Controller.RadioStations, name);
      if station.None? {
        return Controller.Failed(Controller.StationNotFound(name));
      }
      reply := PlayStation(g, voice, name, station.value);
    }

    /** The rest of `playRadio` once the station's URL is known. */
    method PlayStation(g: GuildId, voice: Option<ChannelId>, name: string, url: string) returns (reply: Controller.Reply)
      requires Valid()
      modifies this
      ensures Valid()
      ensures (State(), reply) == Controller.PlayStation(old(State()), g, voice, name, url)
    {
      ghost var s0 := State();
      Controller.PlayStationPreservesInv(s0, g, voice, name, url);
      if g !in connections {
        var joined := CreateConnection(g, voice);
        if !joined {
          return Controller.Failed(Controller.FailedRadio);
        }
      }
      assert Controller.EnsureConnection(s0, g, voice) == Some(State());
      StartStation(g, RadioStream(Strings.Upper(name) + " Radio", url));
      return Controller.Done;
    }

    /** Emptying the queue of `g`, making `song` current and playing its URL. */
    method StartStation(g: GuildId, song: Song)
      requires g in players
      modifies this
      ensures State() == Controller.StartStation(old(State()), g, song)
    {
      calls := calls + [Controller.PlayResource(players[g], song.url)];
      queues := queues[g := []];
      currentSongs := currentSongs[g := song];
    }

    /** The player of guild `g` reports Idle. */
    method OnIdle(g: GuildId)
      requires Valid()
      modifies this
      ensures Valid()
      ensures State() == Controller.OnIdle(old(State()), g, catalog.streamFails)
    {
      var _ := PlayNext(g);
    }

    /** The voice connection of guild `g` reports that it was disconnected. */
    method OnDisconnected(g: GuildId)
      requires Valid()
      modifies this
      ensures Valid()
      ensures State() == Controller.OnDisconnected(old(State()), g)
    {
      Controller.StopPreservesInv(State(), g);
      Cleanup(g);
    }
  }
}
